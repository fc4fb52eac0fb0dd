/** The query-URL builder shared by JobReader and Reader: the search URL, a
    '?', then one `native=value&` segment per recognised request field. */
module QueryBuilder {
  import opened Wrappers
  import opened Strings
  import opened SiteProfiles

  /** A request value: the source formats it with `%s`/`format`. */
  datatype ParamValue = Text(s: string) | Number(n: int)

  /** A request: field names and values in the dict's iteration order. */
  type Params = seq<(string, ParamValue)>

  function Render(v: ParamValue): string {
    match v
    case Text(s) => s
    case Number(n) => IntToDecimal(n)
  }

  /** The reader's QueryParams table: abstract field to native query key. */
  function QueryParams(p: Profile): map<string, Option<string>> {
    map[
      "SearchQuery" := p.searchQuery,
      "JobLocation" := p.searchLocation,
      "ExperienceLevel" := p.searchExp,
      "DatePosted" := p.searchTimePosted,
      "NumberOfPages" := p.pageKey]
  }

  /** The page offset a page number stands for in the URL. */
  function PageOffset(p: Profile, page: int): int {
    page * p.pageMultiplier
  }

  /** The value written for a field: NumberOfPages is replaced by the page
      offset, every other field keeps the caller's value. */
  function EmittedValue(key: string, value: ParamValue, offset: int): ParamValue {
    if key == "NumberOfPages" then Number(offset) else value
  }

  /** What one request field adds to the URL, for a given page offset. */
  function Segment(p: Profile, key: string, value: ParamValue, offset: int): string {
    if key !in QueryParams(p) then ""
    else match QueryParams(p)[key]
      case None => ""
      case Some(native) => native + "=" + Render(EmittedValue(key, value, offset)) + "&"
  }

  function Segments(p: Profile, params: Params, offset: int): string {
    if params == [] then "" else Segment(p, params[0].0, params[0].1, offset) + Segments(p, params[1..], offset)
  }

  /** One step of Segments, at any position of the request. */
  lemma SegmentsStep(p: Profile, params: Params, i: nat, offset: int)
    requires i < |params|
    ensures Segments(p, params[i..], offset) == Segment(p, params[i].0, params[i].1, offset) + Segments(p, params[i + 1..], offset)
  {
    assert params[i..][1..] == params[i + 1..];
  }

  /** ConstructQueryURL's result: ValueError when the search URL is not a string. */
  function BuildQuery(p: Profile, params: Params, page: int): Result<string> {
    if p.searchUrl.Str? then Ok(p.searchUrl.s + "?" + Segments(p, params, PageOffset(p, page))) else Err(ValueError)
  }

  /** The URL fails exactly when the search URL is not a string, and otherwise
      begins with the search URL and '?'. */
  lemma BuildQueryShape(p: Profile, params: Params, page: int)
    ensures BuildQuery(p, params, page).Err? <==> !p.searchUrl.Str?
    ensures BuildQuery(p, params, page).Err? ==> BuildQuery(p, params, page).error == ValueError
    ensures BuildQuery(p, params, page).Ok? ==> p.searchUrl.s + "?" <= BuildQuery(p, params, page).value
  {
  }

  /** Segments follow the request's order: the URL of a split request is the
      URL of its first part followed by the segments of its second part. */
  lemma {:induction false} SegmentsConcat(p: Profile, a: Params, b: Params, offset: int)
    ensures Segments(p, a + b, offset) == Segments(p, a, offset) + Segments(p, b, offset)
    decreases a
  {
    if a == [] {
      assert a + b == b;
    } else {
      assert (a + b)[1..] == a[1..] + b;
      SegmentsConcat(p, a[1..], b, offset);
    }
  }

  /** A field that is not in QueryParams, or whose native key is None, adds
      nothing wherever it stands in the request, and does not abort. */
  lemma SkippedFieldAddsNothing(p: Profile, a: Params, key: string, value: ParamValue, b: Params, page: int)
    requires key !in QueryParams(p) || QueryParams(p)[key].None?
    ensures BuildQuery(p, a + [(key, value)] + b, page) == BuildQuery(p, a + b, page)
  {
    var offset := PageOffset(p, page);
    var one := [(key, value)];
    SegmentsConcat(p, a + one, b, offset);
    SegmentsConcat(p, a, one, offset);
    SegmentsConcat(p, a, b, offset);
    assert one[1..] == [];
    assert Segments(p, one, offset) == "";
    var sa := Segments(p, a, offset);
    assert sa + "" == sa;
    assert Segments(p, a + one, offset) == sa;
  }

  /** Page-offset law: the NumberOfPages segment carries page * multiplier,
      whatever value the caller supplied. */
  lemma PageOffsetLaw(p: Profile, v: ParamValue, w: ParamValue, page: int)
    requires p.pageKey.Some?
    ensures Segment(p, "NumberOfPages", v, PageOffset(p, page))
            == p.pageKey.value + "=" + IntToDecimal(page * p.pageMultiplier) + "&"
    ensures Segment(p, "NumberOfPages", v, PageOffset(p, page)) == Segment(p, "NumberOfPages", w, PageOffset(p, page))
  {
  }

  /** A recognised field with a native key is written `native=value&`. */
  lemma RecognisedFieldSegment(p: Profile, key: string, v: ParamValue, offset: int)
    requires key in QueryParams(p) && QueryParams(p)[key].Some? && key != "NumberOfPages"
    ensures Segment(p, key, v, offset) == QueryParams(p)[key].value + "=" + Render(v) + "&"
  {
  }

  /** LinkedIn's page key is pageNums with multiplier 1: the page index itself. */
  lemma LinkedInPageParameter(v: ParamValue, page: int)
    ensures Segment(LinkedIn, "NumberOfPages", v, PageOffset(LinkedIn, page)) == "pageNums=" + IntToDecimal(page) + "&"
  {
  }

  /** Indeed's page key is start with multiplier 10. */
  lemma IndeedPageParameter(v: ParamValue, page: int)
    ensures Segment(Indeed, "NumberOfPages", v, PageOffset(Indeed, page)) == "start=" + IntToDecimal(10 * page) + "&"
  {
  }

  /** The request without its ExperienceLevel and DatePosted fields. */
  function WithoutUnsupported(params: Params): (r: Params)
    ensures |r| <= |params|
  {
    if params == [] then []
    else if params[0].0 == "ExperienceLevel" || params[0].0 == "DatePosted" then WithoutUnsupported(params[1..])
    else [params[0]] + WithoutUnsupported(params[1..])
  }

  /** Indeed has no experience or posting-date parameter: those request
      fields never reach an Indeed URL. */
  lemma {:induction false} IndeedIgnoresExperienceAndDate(params: Params, offset: int)
    ensures Segments(Indeed, params, offset) == Segments(Indeed, WithoutUnsupported(params), offset)
    decreases params
  {
    if params != [] {
      IndeedIgnoresExperienceAndDate(params[1..], offset);
      var rest := WithoutUnsupported(params[1..]);
      if params[0].0 != "ExperienceLevel" && params[0].0 != "DatePosted" {
        assert ([params[0]] + rest)[1..] == rest;
      }
    }
  }

  /** The two segments of the worked Indeed URL below, at offset 10. */
  lemma IndeedScenarioSegments()
    ensures Segments(Indeed, [("SearchQuery", Text("engineer")), ("NumberOfPages", Number(2))], 10)
            == "q=engineer&start=10&"
  {
    var params: Params := [("SearchQuery", Text("engineer")), ("NumberOfPages", Number(2))];
    assert params[1..][1..] == [];
    assert NatToDecimal(10) == "10" by {
      assert NatToDecimal(1) == "1";
      assert NatToDecimal(0) == "0";
    }
    assert Segment(Indeed, "NumberOfPages", Number(2), 10) == "start=10&";
    assert Segment(Indeed, "SearchQuery", Text("engineer"), 10) == "q=engineer&";
    assert Segments(Indeed, params[1..], 10) == "start=10&";
  }

  /** The worked Indeed URL, put together from its search URL and segments. */
  lemma IndeedScenarioText()
    ensures "https://in.indeed.com/jobs" + "?" + "q=engineer&start=10&"
            == "https://in.indeed.com/jobs?q=engineer&start=10&"
  {
  }

  /** A worked URL on the Indeed profile: page 1 of a two-page search. */
  lemma IndeedScenario()
    ensures BuildQuery(Indeed, [("SearchQuery", Text("engineer")), ("NumberOfPages", Number(2))], 1)
            == Ok("https://in.indeed.com/jobs?q=engineer&start=10&")
  {
    IndeedScenarioSegments();
    assert PageOffset(Indeed, 1) == 10;
    assert Indeed.searchUrl.s == "https://in.indeed.com/jobs";
    IndeedScenarioText();
  }
}
