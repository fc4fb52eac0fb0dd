/** Site profiles: the per-platform constant modules (LinkedIn, Indeed) as
    static values, and LinkedIn's experience-level encoder EXP_VALUE. */
module SiteProfiles {
  import opened Wrappers
  import opened Strings

  /** A constant that the readers test with `isinstance(x, str)` or `x is None`:
      unset (None), a string, or a value of some other type. */
  datatype Setting = Unset | Str(s: string) | NonStr

  /** One constants module. Query keys are None when the platform has no such
      parameter; selectors are the tag and class names of the markup. */
  datatype Profile = Profile(
    domainName: string,
    searchUrl: Setting,
    searchQuery: Option<string>,
    searchLocation: Option<string>,
    searchExp: Option<string>,
    pageKey: Option<string>,
    pageMultiplier: int,
    searchTimePosted: Option<string>,
    listClass: Option<string>,
    listTag: string,
    parentTag: string,
    parentClass: Option<string>,
    titleClass: Setting,
    titleTag: Setting,
    linkClass: Setting,
    linkTag: Setting,
    companyClass: Setting,
    companyTag: Setting,
    locationClass: Setting,
    locationTag: Setting,
    postedTag: Setting,
    postedClass: Setting)

  const LinkedIn: Profile := Profile(
    domainName := "https://linkedin.com",
    searchUrl := Str("https://linkedin.com/jobs/search"),
    searchQuery := Some("keywords"),
    searchLocation := Some("location"),
    searchExp := Some("f_E"),
    pageKey := Some("pageNums"),
    pageMultiplier := 1,
    searchTimePosted := Some("f_TPR"),
    listClass := Some("jobs-search__results-list"),
    listTag := "ul",
    parentTag := "li",
    parentClass := None,
    titleClass := Str("base-search-card__title"),
    titleTag := Str("h3"),
    linkClass := Str("base-card__full-link"),
    linkTag := Str("a"),
    companyClass := Str("base-search-card__subtitle"),
    companyTag := Str("h4"),
    locationClass := Str("job-search-card__location"),
    locationTag := Str("span"),
    postedTag := Str("time"),
    postedClass := Unset)

  const Indeed: Profile := Profile(
    domainName := "https://in.indeed.com",
    searchUrl := Str("https://in.indeed.com/jobs"),
    searchQuery := Some("q"),
    searchLocation := Some("l"),
    searchExp := None,
    pageKey := Some("start"),
    pageMultiplier := 10,
    searchTimePosted := None,
    listClass := Some("mosaic-provider-jobcards"),
    listTag := "div",
    parentTag := "a",
    parentClass := Some("result"),
    titleClass := Str("jobTitle"),
    titleTag := Str("h2"),
    linkClass := Str("result"),
    linkTag := Str("a"),
    companyClass := Str("companyName"),
    companyTag := Str("span"),
    locationClass := Str("companyLocation"),
    locationTag := Str("div"),
    postedTag := Str("span"),
    postedClass := Str("date"))

  // ---------------------------------------------------------------------
  // EXP_VALUE: LinkedIn's experience levels as the codes of its f_E filter.

  const ExpValueArr: seq<string> :=
    ["Internship", "Associate", "Entry Level", "Mid-Senior Level", "Director", "Executive"]

  /** `list.index(x)`: the first position of x, or ValueError. */
  function IndexOf(s: seq<string>, x: string): (r: Result<nat>)
    ensures r.Ok? <==> x in s
    ensures r.Err? ==> r.error == ValueError
    ensures r.Ok? ==> r.value < |s| && s[r.value] == x
                      && forall j | 0 <= j < r.value :: s[j] != x
  {
    if s == [] then Err(ValueError)
    else if s[0] == x then Ok(0)
    else match IndexOf(s[1..], x)
      case Ok(i) => Ok(i + 1)
      case Err(e) => Err(e)
  }

  /** The codes of the values in a level table (1-based positions), in
      input order, or ValueError at the first value that is not a level. */
  function ExpCodes(levels: seq<string>, values: seq<string>): (r: Result<seq<nat>>)
    ensures r.Ok? <==> forall i | 0 <= i < |values| :: values[i] in levels
    ensures r.Err? ==> r.error == ValueError
    ensures r.Ok? ==> |r.value| == |values|
                      && forall i | 0 <= i < |values| ::
                           1 <= r.value[i] <= |levels| && levels[r.value[i] - 1] == values[i]
  {
    if values == [] then Ok([])
    else
      var init := values[..|values| - 1];
      assert forall i | 0 <= i < |init| :: init[i] == values[i];
      match ExpCodes(levels, init)
      case Err(e) => Err(e)
      case Ok(codes) =>
        match IndexOf(levels, values[|values| - 1])
        case Err(e) => Err(e)
        case Ok(k) => Ok(codes + [k + 1])
  }

  /** Every code of a level names that level and no other. */
  lemma ExpCodeIsUnique(c: nat, d: nat)
    requires 1 <= c <= |ExpValueArr| && 1 <= d <= |ExpValueArr|
    requires ExpValueArr[c - 1] == ExpValueArr[d - 1]
    ensures c == d
  {
  }

  function Decimals(codes: seq<nat>): (r: seq<string>)
    ensures |r| == |codes|
  {
    if codes == [] then [] else Decimals(codes[..|codes| - 1]) + [NatToDecimal(codes[|codes| - 1])]
  }

  /** What EXP_VALUE evidently means to return: the codes as decimal
      strings joined by commas. */
  function ExpValueSpec(values: seq<string>): Result<string> {
    match ExpCodes(ExpValueArr, values)
    case Err(e) => Err(e)
    case Ok(codes) => Ok(Join(Decimals(codes), ","))
  }

  /** EXP_VALUE with the codes rendered as strings before the join. */
  method ExpValue(valueArr: seq<string>) returns (r: Result<string>)
    ensures r == ExpValueSpec(valueArr)
  {
    var join: seq<string> := [];
    ghost var codes: seq<nat> := [];
    for i := 0 to |valueArr|
      invariant ExpCodes(ExpValueArr, valueArr[..i]) == Ok(codes)
      invariant join == Decimals(codes)
    {
      assert valueArr[..i + 1][..i] == valueArr[..i];
      var index := IndexOf(ExpValueArr, valueArr[i]);
      if index.Err? {
        assert valueArr[..i + 1][i] == valueArr[i];
        ExpCodesErrExtends(valueArr, i + 1);
        return Err(ValueError);
      }
      var val := index.value + 1;
      if val > 0 {
        join := join + [NatToDecimal(val)];
      }
      codes := codes + [val];
    }
    assert valueArr[..|valueArr|] == valueArr;
    r := Ok(Join(join, ","));
  }

  /** Once a prefix holds a value that is not a level, so does the whole input. */
  lemma ExpCodesErrExtends(values: seq<string>, n: nat)
    requires n <= |values|
    requires ExpCodes(ExpValueArr, values[..n]).Err?
    ensures ExpCodes(ExpValueArr, values).Err?
  {
    var i :| 0 <= i < n && values[..n][i] !in ExpValueArr;
    assert values[i] !in ExpValueArr;
  }

  /** EXP_VALUE as written: `','.join` over a list of integers raises
      TypeError unless the list is empty. */
  function ExpValueAsWritten(valueArr: seq<string>): Result<string> {
    match ExpCodes(ExpValueArr, valueArr)
    case Err(e) => Err(e)
    case Ok(codes) => if codes == [] then Ok("") else Err(TypeError)
  }

  /** The discrepancy: every non-empty list of valid levels fails as written,
      while the intended encoder returns its codes. */
  lemma ExpValueAsWrittenRaises(valueArr: seq<string>)
    requires valueArr != []
    requires forall i | 0 <= i < |valueArr| :: valueArr[i] in ExpValueArr
    ensures ExpValueAsWritten(valueArr) == Err(TypeError)
    ensures ExpValueSpec(valueArr).Ok?
  {
  }
}
