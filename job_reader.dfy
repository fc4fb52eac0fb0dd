/** JobReader: a reader bound to one site profile, with the user-registered
    extra fields it updates in place. */
module JobReaders {
  import opened Wrappers
  import opened Strings
  import opened Dom
  import opened SiteProfiles
  import opened QueryBuilder
  import opened Extraction

  class JobReader {
    /** The site's constants (the module importlib loads). */
    const profile: Profile
    /** UserTags, UserClass and UserAttr: one entry per registered field. */
    var userTags: map<string, Setting>
    var userClass: map<string, Setting>
    var userAttr: map<string, Setting>

    /** SetTagsFromUser always writes all three tables together. */
    ghost predicate Valid()
      reads this
    {
      userTags.Keys == userClass.Keys && userClass.Keys == userAttr.Keys
    }

    /** The three tables read as one rule per registered field. */
    function Rules(): (r: Rules)
      requires Valid()
      reads this
      ensures r.Keys == userTags.Keys
      ensures forall k | k in r :: r[k] == Rule(userTags[k], userClass[k], userAttr[k])
    {
      RulesOf(userTags, userClass, userAttr)
    }

    constructor (p: Profile)
      ensures Valid()
      ensures profile == p
      ensures userTags == map[] && userClass == map[] && userAttr == map[]
    {
      profile := p;
      userTags, userClass, userAttr := map[], map[], map[];
    }

    /** Registers (or replaces) how the field `attr` is extracted. */
    method SetTagsFromUser(attr: string, tag: Setting, cls: Setting, domAttr: Setting)
      requires Valid()
      modifies this
      ensures Valid()
      ensures userTags == old(userTags)[attr := tag]
      ensures userClass == old(userClass)[attr := cls]
      ensures userAttr == old(userAttr)[attr := domAttr]
      ensures Rules() == old(Rules())[attr := Rule(tag, cls, domAttr)]
    {
      RulesOfUpdate(userTags, userClass, userAttr, attr, tag, cls, domAttr);
      userTags, userClass, userAttr := userTags[attr := tag], userClass[attr := cls], userAttr[attr := domAttr];
    }

    /** ConstructQueryURL: builds the URL segment by segment. */
    method ConstructQueryURL(params: Params, page: int) returns (r: Result<string>)
      ensures r == BuildQuery(profile, params, page)
    {
      if !profile.searchUrl.Str? {
        return Err(ValueError);
      }
      var offset := page * profile.pageMultiplier;
      var url := AddFields(profile.searchUrl.s + "?", params, offset);
      assert offset == PageOffset(profile, page);
      return Ok(url);
    }

    /** ConstructQueryURL's loop: every field of the request in order, each
        appending its segment to the URL. */
    method AddFields(start: string, params: Params, offset: int) returns (url: string)
      ensures url == start + Segments(profile, params, offset)
    {
      url := start;
      assert params[0..] == params;
      assert url + Segments(profile, params, offset) == start + Segments(profile, params[0..], offset);
      for i := 0 to |params|
        invariant start + Segments(profile, params, offset) == url + Segments(profile, params[i..], offset)
      {
        SegmentsStep(profile, params, i, offset);
        ghost var rest := Segments(profile, params[i + 1..], offset);
        ghost var seg := Segment(profile, params[i].0, params[i].1, offset);
        ghost var before := url;
        url := AddField(url, params[i].0, params[i].1, offset);
        AppendAssoc(before, seg, rest);
      }
      assert params[|params|..] == [];
      assert url + "" == url;
    }

    /** One pass of ConstructQueryURL's loop: a field QueryParams does not
        know, or maps to None, adds nothing; any other adds
        `native=value&`, with the page offset for NumberOfPages. */
    method AddField(url: string, key: string, value: ParamValue, offset: int) returns (u: string)
      ensures u == url + Segment(profile, key, value, offset)
    {
      var table := QueryParams(profile);
      if key in table && table[key].Some? {
        var v := value;
        if key == "NumberOfPages" {
          v := Number(offset);
        }
        var piece := table[key].value + "=" + Render(v) + "&";
        assert piece == Segment(profile, key, value, offset);
        u := url + piece;
      } else {
        assert Segment(profile, key, value, offset) == "";
        u := url;
        assert u == url + "";
      }
    }

    /** GetUserDataFromJobPostDOM. */
    function GetUserDataFromJobPostDOM(attr: string, item: Node, domAttr: Setting): (r: Result<Option<string>>)
      requires Valid()
      reads this
      ensures attr !in userTags ==> r == Ok(None)
      ensures attr in userTags ==> r == GetData(item, userTags[attr], userClass[attr], userAttr[attr])
    {
      GetUserData(Rules(), attr, item, domAttr)
    }

    /** Columns, with the removal done on a copy of the requested set: the
        fixed columns in their order, then every requested column that is
        not fixed, once. */
    method Columns(toDisplay: Option<seq<string>>) returns (cols: seq<string>)
      ensures IsColumns(toDisplay, cols)
    {
      cols := FixedColumns;
      ghost var extras: seq<string> := [];
      assert Elems(extras) == {};
      if toDisplay.Some? {
        var remaining := Elems(toDisplay.value);
        while remaining != {}
          invariant cols == FixedColumns + extras
          invariant remaining <= Requested(toDisplay)
          invariant Distinct(extras)
          invariant Elems(extras) == (Requested(toDisplay) - remaining) - FixedSet
          decreases |remaining|
        {
          var x :| x in remaining;
          ColumnStep(Requested(toDisplay), remaining, x, extras);
          remaining := remaining - {x};
          if x !in FixedSet {
            extras := extras + [x];
            cols := cols + [x];
          }
        }
      }
      ColumnsOfExtras(toDisplay, extras);
    }

    /** The extra columns of one record, column by column. */
    method AddUserFields(item: Node, cols: seq<string>, base: Record) returns (r: Result<Record>)
      requires Valid()
      ensures r == AddExtras(Rules(), item, cols, base)
    {
      var rec := base;
      for j := 0 to |cols|
        invariant AddExtras(Rules(), item, cols, base) == AddExtras(Rules(), item, cols[j..], rec)
      {
        assert cols[j..][1..] == cols[j + 1..];
        var c := cols[j];
        if c !in FixedColumns {
          if c !in userTags {
            return Err(KeyError(c));
          }
          var v := GetData(item, userTags[c], userClass[c], userAttr[c]);
          if v.Err? {
            return Err(v.error);
          }
          rec := rec[c := v.value];
        }
      }
      assert cols[|cols|..] == [];
      return Ok(rec);
    }

    /** One card's record: none without a link, otherwise the fixed fields
        with the absolutised link and the extra columns. */
    method CardRecord(item: Node, cols: seq<string>) returns (r: Result<Option<Record>>)
      requires Valid()
      ensures r == ItemRecord(profile, Rules(), item, cols)
    {
      var link := GetLink(profile, item);
      if link.Err? {
        return Err(link.error);
      }
      if link.value.None? {
        return Ok(None);
      }
      var base := FixedRecord(profile, item, Absolutise(profile.domainName, link.value.value));
      var extras := AddUserFields(item, cols, base);
      if extras.Err? {
        return Err(extras.error);
      }
      return Ok(Some(extras.value));
    }

    /** ListAllAvailableCompaniesInfo: one record per card with a link, in
        document order; the first error aborts. */
    method ListAllAvailableCompaniesInfo(items: seq<Node>, cols: seq<string>) returns (r: Result<Table>)
      requires Valid()
      ensures r == ExtractTable(profile, Rules(), items, cols)
    {
      ghost var rules := Rules();
      var rows: seq<Record> := [];
      assert items[0..] == items;
      PrefixedEmpty(ExtractRecords(profile, rules, items, cols));
      for i := 0 to |items|
        invariant ExtractRecords(profile, rules, items, cols)
                  == Prefixed(rows, ExtractRecords(profile, rules, items[i..], cols))
      {
        ExtractRecordsStep(profile, rules, items, i, cols);
        var card := CardRecord(items[i], cols);
        if card.Err? {
          return Err(card.error);
        }
        var found := if card.value.Some? then [card.value.value] else [];
        PrefixedAssoc(rows, found, ExtractRecords(profile, rules, items[i + 1..], cols));
        rows := rows + found;
      }
      assert items[|items|..] == [];
      assert rows + [] == rows;
      return Ok(Table(cols, rows));
    }

    /** ListContents after the parse: the column list, then the table of the
        cards under the result container, or an empty table without one. */
    method ListContents(root: Node, toDisplay: Option<seq<string>>) returns (r: Result<Table>)
      requires Valid()
      ensures exists cols :: IsColumns(toDisplay, cols) && r == ContentsTable(profile, Rules(), root, cols)
    {
      var cols := Columns(toDisplay);
      var container := Find(root, profile.listTag, profile.listClass);
      if container.None? {
        return Ok(Table(cols, []));
      }
      r := ListAllAvailableCompaniesInfo(FindAll(container.value, profile.parentTag), cols);
    }
  }
}
