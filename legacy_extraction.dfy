/** Reader's record extractor, the older variant of JobReader's: untrimmed
    text, a raw link, TypeError on a class or attribute that is not a
    string, http:// links accepted as absolute, five fixed columns only. */
module LegacyExtraction {
  import opened Wrappers
  import opened Strings
  import opened Dom
  import opened SiteProfiles
  import opened Extraction

  /** Reader's GetDataFromJobPostDOM: a class that is neither unset nor a
      string raises TypeError before the search, an attribute of that kind
      only once a node is found; the text is not trimmed. */
  function GetDataLegacy(n: Node, tag: Setting, cls: Setting, attr: Setting): (r: Result<Option<string>>)
    ensures !tag.Str? ==> r == Ok(None)
    ensures tag.Str? && cls.NonStr? ==> r == Err(TypeError)
    ensures tag.Str? && !cls.NonStr? ==>
              (r == Ok(None) <==> forall d | d in Descendants(n) :: !Matches(d, tag.s, ClassFilter(cls)))
    ensures r.Err? ==> r.error == TypeError || (attr.Str? && r.error == KeyError(attr.s))
  {
    if !tag.Str? then Ok(None)
    else if cls.NonStr? then Err(TypeError)
    else match Find(n, tag.s, ClassFilter(cls))
      case None => Ok(None)
      case Some(m) =>
        if attr.Str? then
          if attr.s in m.attrs then Ok(Some(m.attrs[attr.s])) else Err(KeyError(attr.s))
        else if attr.Unset? then Ok(Some(Text(m)))
        else Err(TypeError)
  }

  /** Trimming is the only difference between the two readers' lookups of
      a text field under a string or unset class. */
  lemma TrimIsTheOnlyTextDifference(n: Node, tag: Setting, cls: Setting)
    requires !cls.NonStr?
    ensures GetDataLegacy(n, tag, cls, Unset).Ok?
    ensures GetData(n, tag, cls, Unset)
            == match GetDataLegacy(n, tag, cls, Unset).value
               case None => Ok(None)
               case Some(t) => Ok(Some(Strip(t)))
  {
  }

  /** Attribute lookups agree between the two readers under a string or
      unset class. */
  lemma AttributeLookupsAgree(n: Node, tag: Setting, cls: Setting, attr: string)
    requires !cls.NonStr?
    ensures GetDataLegacy(n, tag, cls, Str(attr)) == GetData(n, tag, cls, Str(attr))
  {
  }

  /** A non-string attribute raises only when the node exists. */
  lemma NonStringAttributeRaisesWhenFound(n: Node, tag: string, cls: Setting)
    requires !cls.NonStr?
    ensures GetDataLegacy(n, Str(tag), cls, NonStr) == Err(TypeError)
            <==> exists d | d in Descendants(n) :: Matches(d, tag, ClassFilter(cls))
  {
  }

  /** Reader's GetLinkOfJobPostFromJobPostDOM: the card's own href is
      returned as it is. */
  function GetLinkLegacy(p: Profile, item: Node): Result<Option<string>> {
    if SelfIsLink(p, item) then
      if "href" in item.attrs then Ok(Some(item.attrs["href"])) else Err(KeyError("href"))
    else GetDataLegacy(item, p.linkTag, p.linkClass, Str("href"))
  }

  /** Reader's absolutisation also leaves http:// links alone. */
  function AbsolutiseLegacy(domain: string, link: string): (r: string)
    ensures "https://" <= link || "http://" <= link ==> r == link
    ensures !("https://" <= link || "http://" <= link) ==> r == domain + link
  {
    if !("https://" <= link) && !("http://" <= link) then domain + link else link
  }

  /** The two readers absolutise an http:// link differently. */
  lemma AbsolutiseVariantsDiffer()
    ensures AbsolutiseLegacy("https://in.indeed.com", "http://x.test/j") == "http://x.test/j"
    ensures Absolutise("https://in.indeed.com", "http://x.test/j") == "https://in.indeed.com" + "http://x.test/j"
  {
    assert "http://" <= "http://x.test/j";
    assert !("https://" <= "http://x.test/j") by { assert "http://x.test/j"[4] != 's'; }
  }

  /** The two absolutisations agree on every link that does not start with
      http://. */
  lemma AbsolutiseVariantsAgree(domain: string, link: string)
    requires !("http://" <= link)
    ensures AbsolutiseLegacy(domain, link) == Absolutise(domain, link)
  {
  }

  /** Reader's column order. */
  const LegacyColumns: seq<string> := ["JobLink", "JobTitle", "CompanyName", "TimePosted", "JobLocation"]

  /** Reader's own display set. */
  const LegacyDisplay: set<string> := {"CompanyName", "JobTitle", "JobLocation", "TimePosted"}

  /** One card's record: the fields are looked up in the dictionary's order
      and the first error raised aborts. */
  function ItemRecordLegacy(p: Profile, item: Node): (r: Result<Option<Record>>)
    ensures r.Ok? && r.value.Some? ==> r.value.value.Keys == Elems(LegacyColumns)
    ensures r == Ok(None) <==> GetLinkLegacy(p, item) == Ok(None)
  {
    match GetLinkLegacy(p, item)
    case Err(e) => Err(e)
    case Ok(None) => Ok(None)
    case Ok(Some(raw)) =>
      match GetDataLegacy(item, p.titleTag, p.titleClass, Unset)
      case Err(e) => Err(e)
      case Ok(title) =>
        match GetDataLegacy(item, p.companyTag, p.companyClass, Unset)
        case Err(e) => Err(e)
        case Ok(company) =>
          match GetDataLegacy(item, p.postedTag, p.postedClass, Unset)
          case Err(e) => Err(e)
          case Ok(posted) =>
            match GetDataLegacy(item, p.locationTag, p.locationClass, Unset)
            case Err(e) => Err(e)
            case Ok(location) =>
              Ok(Some(map[
                "JobLink" := Some(AbsolutiseLegacy(p.domainName, raw)),
                "JobTitle" := title,
                "CompanyName" := company,
                "TimePosted" := posted,
                "JobLocation" := location]))
  }

  function ItemResultsLegacy(p: Profile, items: seq<Node>): (r: seq<Result<Option<Record>>>)
    ensures |r| == |items|
  {
    seq(|items|, k requires 0 <= k < |items| => ItemRecordLegacy(p, items[k]))
  }

  /** One step of the record gathering, at any position of the cards. */
  lemma LegacyRecordsStep(p: Profile, items: seq<Node>, i: nat)
    requires i < |items|
    ensures Collect(ItemResultsLegacy(p, items[i..]))
            == match ItemRecordLegacy(p, items[i])
               case Err(e) => Err(e)
               case Ok(r) => Prefixed(if r.Some? then [r.value] else [], Collect(ItemResultsLegacy(p, items[i + 1..])))
  {
    var rs := ItemResultsLegacy(p, items[i..]);
    assert rs[0] == ItemRecordLegacy(p, items[i]);
    assert rs[1..] == ItemResultsLegacy(p, items[i + 1..]);
  }

  /** The records of a run of cards, in order, as ListAllAvailableCompaniesInfo
      is evidently meant to build them. */
  function ListAllLegacy(p: Profile, items: seq<Node>): Result<Table> {
    match Collect(ItemResultsLegacy(p, items))
    case Err(e) => Err(e)
    case Ok(rows) => Ok(Table(LegacyColumns, rows))
  }

  /** Every row of Reader's table has exactly the five columns. */
  lemma LegacyRowsHaveFixedColumns(p: Profile, items: seq<Node>)
    requires ListAllLegacy(p, items).Ok?
    ensures forall row | row in ListAllLegacy(p, items).value.rows :: row.Keys == Elems(LegacyColumns)
  {
    CollectElements(ItemResultsLegacy(p, items));
  }

  /** The table of two runs of cards holds the first run's rows, then the
      second's; the first error raised, in document order, aborts it. */
  lemma LegacyRecordsConcat(p: Profile, a: seq<Node>, b: seq<Node>)
    ensures ListAllLegacy(p, a + b)
            == match ListAllLegacy(p, a)
               case Err(e) => Err(e)
               case Ok(ta) =>
                 match ListAllLegacy(p, b)
                 case Err(e) => Err(e)
                 case Ok(tb) => Ok(Table(LegacyColumns, ta.rows + tb.rows))
  {
    assert ItemResultsLegacy(p, a + b) == ItemResultsLegacy(p, a) + ItemResultsLegacy(p, b);
    CollectConcat(ItemResultsLegacy(p, a), ItemResultsLegacy(p, b));
  }

  /** GetLinkOfJobPostFromJobPostDOM of Reader finds a link on the card. */
  predicate HasLinkLegacy(p: Profile, x: Node) {
    GetLinkLegacy(p, x).Ok? && GetLinkLegacy(p, x).value.Some?
  }

  /** The cards that have a link, in document order. */
  function LinkedItemsLegacy(p: Profile, items: seq<Node>): (r: seq<Node>)
    ensures |r| <= |items|
    ensures forall x | x in r :: x in items && HasLinkLegacy(p, x)
    ensures forall x | x in items && HasLinkLegacy(p, x) :: x in r
  {
    if items == [] then []
    else (if HasLinkLegacy(p, items[0]) then [items[0]] else []) + LinkedItemsLegacy(p, items[1..])
  }

  /** What a card's row holds: exactly the five columns, the card's link
      absolutised the Reader way, and the untrimmed lookups of the card's
      title, company, time and place. */
  predicate LegacyCardCells(p: Profile, row: Record, x: Node) {
    LegacyColumnsMembers();
    HasLinkLegacy(p, x)
    && row.Keys == Elems(LegacyColumns)
    && row["JobLink"] == Some(AbsolutiseLegacy(p.domainName, GetLinkLegacy(p, x).value.value))
    && GetDataLegacy(x, p.titleTag, p.titleClass, Unset) == Ok(row["JobTitle"])
    && GetDataLegacy(x, p.companyTag, p.companyClass, Unset) == Ok(row["CompanyName"])
    && GetDataLegacy(x, p.postedTag, p.postedClass, Unset) == Ok(row["TimePosted"])
    && GetDataLegacy(x, p.locationTag, p.locationClass, Unset) == Ok(row["JobLocation"])
  }

  /** The five headers of Reader's table. */
  lemma LegacyColumnsMembers()
    ensures "JobLink" in Elems(LegacyColumns) && "JobTitle" in Elems(LegacyColumns)
    ensures "CompanyName" in Elems(LegacyColumns) && "TimePosted" in Elems(LegacyColumns)
    ensures "JobLocation" in Elems(LegacyColumns)
  {
    assert LegacyColumns[0] == "JobLink" && LegacyColumns[1] == "JobTitle" && LegacyColumns[2] == "CompanyName";
    assert LegacyColumns[3] == "TimePosted" && LegacyColumns[4] == "JobLocation";
  }

  /** A linked card's record, when the lookups succeed, holds that card's
      cells. */
  lemma LegacyCardRecord(p: Profile, item: Node)
    requires HasLinkLegacy(p, item)
    requires ItemRecordLegacy(p, item).Ok?
    ensures ItemRecordLegacy(p, item).value.Some?
    ensures LegacyCardCells(p, ItemRecordLegacy(p, item).value.value, item)
  {
    LegacyColumnsMembers();
  }

  /** Rows correspond one to one, in order, to the linked cards: row k is
      the record of linked card k. */
  predicate LegacyRowsFollowCards(p: Profile, rows: seq<Record>, linked: seq<Node>) {
    |rows| == |linked|
    && forall k | 0 <= k < |rows| :: HasLinkLegacy(p, linked[k]) && ItemRecordLegacy(p, linked[k]) == Ok(Some(rows[k]))
  }

  /** One row of Reader's table per card with a link, in document order. */
  lemma {:induction false} LegacyRecordsFollowLinkedCards(p: Profile, items: seq<Node>)
    requires ListAllLegacy(p, items).Ok?
    ensures LegacyRowsFollowCards(p, ListAllLegacy(p, items).value.rows, LinkedItemsLegacy(p, items))
    decreases items
  {
    if items != [] {
      LegacyRecordsStep(p, items, 0);
      assert items[0..] == items;
      LegacyRecordsFollowLinkedCards(p, items[1..]);
      var rest := ListAllLegacy(p, items[1..]).value.rows;
      var linkedRest := LinkedItemsLegacy(p, items[1..]);
      if HasLinkLegacy(p, items[0]) {
        var row := ItemRecordLegacy(p, items[0]).value.value;
        assert ListAllLegacy(p, items).value.rows == [row] + rest;
        assert LinkedItemsLegacy(p, items) == [items[0]] + linkedRest;
        LegacyRowsFollowCardsCons(p, row, rest, items[0], linkedRest);
      } else {
        assert ListAllLegacy(p, items).value.rows == rest;
        assert LinkedItemsLegacy(p, items) == [] + linkedRest == linkedRest;
      }
    }
  }

  /** LegacyRowsFollowCards extends by one linked card at the front. */
  lemma LegacyRowsFollowCardsCons(p: Profile, row: Record, rows: seq<Record>, x: Node, linked: seq<Node>)
    requires HasLinkLegacy(p, x) && ItemRecordLegacy(p, x) == Ok(Some(row))
    requires LegacyRowsFollowCards(p, rows, linked)
    ensures LegacyRowsFollowCards(p, [row] + rows, [x] + linked)
  {
    var rs, ls := [row] + rows, [x] + linked;
    forall k | 0 <= k < |rs|
      ensures HasLinkLegacy(p, ls[k]) && ItemRecordLegacy(p, ls[k]) == Ok(Some(rs[k]))
    {
      if k > 0 {
        assert rs[k] == rows[k - 1] && ls[k] == linked[k - 1];
      }
    }
  }

  /** A card without a link contributes no row, wherever it stands. */
  lemma LegacyDropWithoutLink(p: Profile, a: seq<Node>, item: Node, b: seq<Node>)
    requires GetLinkLegacy(p, item) == Ok(None)
    ensures ListAllLegacy(p, a + [item] + b) == ListAllLegacy(p, a + b)
  {
    var ra := ItemResultsLegacy(p, a);
    var rb := ItemResultsLegacy(p, b);
    var one: seq<Result<Option<Record>>> := [Ok(None)];
    assert ItemResultsLegacy(p, a + [item] + b) == ra + one + rb;
    assert ItemResultsLegacy(p, a + b) == ra + rb;
    CollectConcat(ra + one, rb);
    CollectConcat(ra, one);
    CollectConcat(ra, rb);
    var none: seq<Record> := [];
    assert one[1..] == [];
    assert Collect(one) == Ok(none + none);
    assert none + none == [];
    match Collect(ra)
    case Err(_) =>
    case Ok(xa) => assert xa + [] == xa;
  }

  /** The display filter as written: it removes names from the set it is
      iterating, which raises RuntimeError as soon as one is removed; its
      result is never used. */
  function DisplayFilterAsWritten(toDisplay: Option<seq<string>>): Result<set<string>> {
    if toDisplay.None? then Ok({})
    else if exists x | x in toDisplay.value :: x !in LegacyDisplay then Err(RuntimeError)
    else Ok(Elems(toDisplay.value))
  }

  /** ListAllAvailableCompaniesInfo as written. */
  function ListAllLegacyAsWritten(p: Profile, items: seq<Node>, toDisplay: Option<seq<string>>): Result<Table> {
    match DisplayFilterAsWritten(toDisplay)
    case Err(e) => Err(e)
    case Ok(_) => ListAllLegacy(p, items)
  }

  /** The discrepancy: asking for a column Reader does not know aborts the
      listing, though the filtered set has no effect on the table. */
  lemma DisplayFilterRaises(p: Profile, items: seq<Node>)
    ensures ListAllLegacyAsWritten(p, items, Some(["JobTitle", "Salary"])) == Err(RuntimeError)
    ensures forall td :: DisplayFilterAsWritten(td).Ok? ==> ListAllLegacyAsWritten(p, items, td) == ListAllLegacy(p, items)
  {
    assert "Salary" in ["JobTitle", "Salary"] && "Salary" !in LegacyDisplay;
  }

  /** Reader's ListJobContents after the parse: no result container gives
      no table at all. */
  function ListJobContentsLegacy(p: Profile, root: Node): (r: Result<Option<Table>>)
    ensures (forall d | d in Descendants(root) :: !Matches(d, p.listTag, p.listClass)) <==> r == Ok(None)
  {
    match Find(root, p.listTag, p.listClass)
    case None => Ok(None)
    case Some(container) =>
      match ListAllLegacy(p, FindAll(container, p.parentTag))
      case Err(e) => Err(e)
      case Ok(t) => Ok(Some(t))
  }
}
