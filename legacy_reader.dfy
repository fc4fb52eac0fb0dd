/** Reader: the older reader, bound to one site profile and holding no
    state of its own beyond its constants. */
module LegacyReaders {
  import opened Wrappers
  import opened Strings
  import opened Dom
  import opened SiteProfiles
  import opened QueryBuilder
  import opened Extraction
  import opened LegacyExtraction

  class Reader {
    /** The site's constants (the module importlib loads). */
    const profile: Profile

    constructor (p: Profile)
      ensures profile == p
    {
      profile := p;
    }

    /** ConstructQueryURL: the same URL as JobReader's, written as a
        `key=value` segment followed by a separate `&`. */
    method ConstructQueryURL(params: Params, page: int) returns (r: Result<string>)
      ensures r == BuildQuery(profile, params, page)
    {
      if !profile.searchUrl.Str? {
        return Err(ValueError);
      }
      var offset := page * profile.pageMultiplier;
      var url := AddFields(profile.searchUrl.s + "?", params, offset);
      assert offset == PageOffset(profile, page);
      return Ok(url);
    }

    /** ConstructQueryURL's loop: every field of the request in order, each
        appending its segment to the URL. */
    method AddFields(start: string, params: Params, offset: int) returns (url: string)
      ensures url == start + Segments(profile, params, offset)
    {
      url := start;
      assert params[0..] == params;
      assert url + Segments(profile, params, offset) == start + Segments(profile, params[0..], offset);
      for i := 0 to |params|
        invariant start + Segments(profile, params, offset) == url + Segments(profile, params[i..], offset)
      {
        SegmentsStep(profile, params, i, offset);
        ghost var rest := Segments(profile, params[i + 1..], offset);
        ghost var seg := Segment(profile, params[i].0, params[i].1, offset);
        ghost var before := url;
        url := AddField(url, params[i].0, params[i].1, offset);
        AppendAssoc(before, seg, rest);
      }
      assert params[|params|..] == [];
      assert url + "" == url;
    }

    /** One pass of ConstructQueryURL's loop: a recognised field with a
        native key appends `native=value`, then `&`. */
    method AddField(url: string, key: string, value: ParamValue, offset: int) returns (u: string)
      ensures u == url + Segment(profile, key, value, offset)
    {
      var table := QueryParams(profile);
      if key in table && table[key].Some? {
        var v := value;
        if key == "NumberOfPages" {
          v := Number(offset);
        }
        var pair := table[key].value + "=" + Render(v);
        assert pair + "&" == Segment(profile, key, value, offset);
        u := url + pair;
        u := u + "&";
        assert u == url + (pair + "&");
      } else {
        assert Segment(profile, key, value, offset) == "";
        u := url;
        assert u == url + "";
      }
    }

    /** One card's record: none without a link, otherwise the link (left
        alone when it starts with https:// or http://) and the four fields. */
    method CardRecord(item: Node) returns (r: Result<Option<Record>>)
      ensures r == ItemRecordLegacy(profile, item)
    {
      var link := GetLinkLegacy(profile, item);
      if link.Err? {
        return Err(link.error);
      }
      if link.value.None? {
        return Ok(None);
      }
      var raw := link.value.value;
      if !("https://" <= raw) && !("http://" <= raw) {
        raw := profile.domainName + raw;
      }
      var title := GetDataLegacy(item, profile.titleTag, profile.titleClass, Unset);
      if title.Err? {
        return Err(title.error);
      }
      var company := GetDataLegacy(item, profile.companyTag, profile.companyClass, Unset);
      if company.Err? {
        return Err(company.error);
      }
      var posted := GetDataLegacy(item, profile.postedTag, profile.postedClass, Unset);
      if posted.Err? {
        return Err(posted.error);
      }
      var location := GetDataLegacy(item, profile.locationTag, profile.locationClass, Unset);
      if location.Err? {
        return Err(location.error);
      }
      return Ok(Some(map[
        "JobLink" := Some(raw),
        "JobTitle" := title.value,
        "CompanyName" := company.value,
        "TimePosted" := posted.value,
        "JobLocation" := location.value]));
    }

    /** ListAllAvailableCompaniesInfo without the display filter, which
        raises as written and whose result is never used: one record per
        card with a link, in document order; the first error aborts. */
    method ListAllAvailableCompaniesInfo(items: seq<Node>) returns (r: Result<Table>)
      ensures r == ListAllLegacy(profile, items)
    {
      var rows: seq<Record> := [];
      assert items[0..] == items;
      PrefixedEmpty(Collect(ItemResultsLegacy(profile, items)));
      for i := 0 to |items|
        invariant Collect(ItemResultsLegacy(profile, items))
                  == Prefixed(rows, Collect(ItemResultsLegacy(profile, items[i..])))
      {
        LegacyRecordsStep(profile, items, i);
        var card := CardRecord(items[i]);
        if card.Err? {
          return Err(card.error);
        }
        var found := if card.value.Some? then [card.value.value] else [];
        PrefixedAssoc(rows, found, Collect(ItemResultsLegacy(profile, items[i + 1..])));
        rows := rows + found;
      }
      assert items[|items|..] == [];
      assert rows + [] == rows;
      return Ok(Table(LegacyColumns, rows));
    }

    /** ListJobContents after the parse: no table at all without the result
        container. */
    method ListJobContents(root: Node) returns (r: Result<Option<Table>>)
      ensures r == ListJobContentsLegacy(profile, root)
    {
      var container := Find(root, profile.listTag, profile.listClass);
      if container.None? {
        return Ok(None);
      }
      var table := ListAllAvailableCompaniesInfo(FindAll(container.value, profile.parentTag));
      if table.Err? {
        return Err(table.error);
      }
      return Ok(Some(table.value));
    }
  }
}
