/** JobReader's record extractor as pure functions: the field lookup, the link
    lookup with its "the card is the link" case, link absolutisation, the
    user-registered extra fields, and the table of records. */
module Extraction {
  import opened Wrappers
  import opened Strings
  import opened Dom
  import opened SiteProfiles

  /** A user-registered extraction rule (SetTagsFromUser): tag, class and
      the attribute to read (unset: the trimmed text). */
  datatype Rule = Rule(tag: Setting, cls: Setting, attr: Setting)

  type Rules = map<string, Rule>

  /** The rules kept as three parallel tables keyed by field name. */
  function RulesOf(tags: map<string, Setting>, classes: map<string, Setting>, attrs: map<string, Setting>): (r: Rules)
    requires tags.Keys == classes.Keys == attrs.Keys
    ensures r.Keys == tags.Keys
    ensures forall k | k in r :: r[k] == Rule(tags[k], classes[k], attrs[k])
  {
    map k | k in tags :: Rule(tags[k], classes[k], attrs[k])
  }

  /** Writing one field into all three tables writes that field's rule. */
  lemma RulesOfUpdate(tags: map<string, Setting>, classes: map<string, Setting>, attrs: map<string, Setting>,
                      f: string, tag: Setting, cls: Setting, attr: Setting)
    requires tags.Keys == classes.Keys == attrs.Keys
    ensures RulesOf(tags[f := tag], classes[f := cls], attrs[f := attr])
            == RulesOf(tags, classes, attrs)[f := Rule(tag, cls, attr)]
  {
    var lhs := RulesOf(tags[f := tag], classes[f := cls], attrs[f := attr]);
    var rhs := RulesOf(tags, classes, attrs)[f := Rule(tag, cls, attr)];
    assert lhs.Keys == rhs.Keys;
    forall k | k in lhs ensures lhs[k] == rhs[k] {
      if k != f {
        assert lhs[k] == Rule(tags[k], classes[k], attrs[k]);
      }
    }
  }

  /** One job record: column name to value, None for a field not found. */
  type Record = map<string, Option<string>>

  /** The DataFrame: its columns and its rows in order. */
  datatype Table = Table(columns: seq<string>, rows: seq<Record>)

  /** JobReader's fixed columns, in its order. */
  const FixedColumns: seq<string> := ["JobLink", "CompanyName", "JobTitle", "JobLocation", "TimePosted"]

  /** A class that is not a string means a search by tag only. */
  function ClassFilter(cls: Setting): Option<string> {
    if cls.Str? then Some(cls.s) else None
  }

  /** A matched element's value: the named attribute (BeautifulSoup raises
      KeyError when it is missing) or the trimmed text. */
  function Field(m: Node, attr: Setting): Result<Option<string>>
    requires m.Element?
  {
    if attr.Str? then
      if attr.s in m.attrs then Ok(Some(m.attrs[attr.s])) else Err(KeyError(attr.s))
    else Ok(Some(Strip(Text(m))))
  }

  /** GetDataFromJobPostDOM. */
  function GetData(n: Node, tag: Setting, cls: Setting, attr: Setting): (r: Result<Option<string>>)
    ensures !tag.Str? ==> r == Ok(None)
    ensures tag.Str? ==> (r == Ok(None) <==> forall d | d in Descendants(n) :: !Matches(d, tag.s, ClassFilter(cls)))
    ensures r.Err? ==> attr.Str? && r.error == KeyError(attr.s)
    ensures r.Ok? && r.value.Some? && !attr.Str? ==> IsStripped(r.value.value)
  {
    if !tag.Str? then Ok(None)
    else match Find(n, tag.s, ClassFilter(cls))
      case None => Ok(None)
      case Some(m) => Field(m, attr)
  }

  /** The field comes from the first descendant, in document order, that
      has the tag and (when the class is a string) the class. */
  lemma GetDataFirstInDocumentOrder(n: Node, tag: string, cls: Setting, attr: Setting)
    ensures GetData(n, Str(tag), cls, attr)
            == match FirstMatch(Descendants(n), tag, ClassFilter(cls))
               case None => Ok(None)
               case Some(m) => Field(m, attr)
  {
    FindIsFirstMatch(n, tag, ClassFilter(cls));
  }

  function GetJobTitle(p: Profile, item: Node, domAttr: Setting): Result<Option<string>> {
    GetData(item, p.titleTag, p.titleClass, domAttr)
  }

  function GetCompany(p: Profile, item: Node, domAttr: Setting): Result<Option<string>> {
    GetData(item, p.companyTag, p.companyClass, domAttr)
  }

  function GetPostedTime(p: Profile, item: Node, domAttr: Setting): Result<Option<string>> {
    GetData(item, p.postedTag, p.postedClass, domAttr)
  }

  function GetJobLocation(p: Profile, item: Node, domAttr: Setting): Result<Option<string>> {
    GetData(item, p.locationTag, p.locationClass, domAttr)
  }

  /** With the default attribute the four field getters never raise, and a
      value they find is trimmed. */
  lemma FieldGettersNeverRaise(p: Profile, item: Node)
    ensures GetJobTitle(p, item, Unset).Ok? && GetCompany(p, item, Unset).Ok?
    ensures GetPostedTime(p, item, Unset).Ok? && GetJobLocation(p, item, Unset).Ok?
    ensures var t := GetJobTitle(p, item, Unset).value; t.Some? ==> IsStripped(t.value)
    ensures var c := GetCompany(p, item, Unset).value; c.Some? ==> IsStripped(c.value)
    ensures var w := GetPostedTime(p, item, Unset).value; w.Some? ==> IsStripped(w.value)
    ensures var l := GetJobLocation(p, item, Unset).value; l.Some? ==> IsStripped(l.value)
  {
  }

  /** LinkedIn has no class for the posting time: it is the first `time`
      element's trimmed text. */
  lemma LinkedInPostedTimeByTag(item: Node)
    ensures GetPostedTime(LinkedIn, item, Unset)
            == match Find(item, "time", None)
               case None => Ok(None)
               case Some(m) => Ok(Some(Strip(Text(m))))
  {
  }

  /** GetUserDataFromJobPostDOM: a field the user never registered is looked
      up with no tag, and so is absent. */
  function GetUserData(rules: Rules, attr: string, item: Node, domAttr: Setting): (r: Result<Option<string>>)
    ensures attr !in rules ==> r == Ok(None)
  {
    if attr in rules then GetData(item, rules[attr].tag, rules[attr].cls, rules[attr].attr)
    else GetData(item, Unset, Unset, domAttr)
  }

  /** The card element is itself the link: its tag is the link tag and the
      link class is among its classes. */
  predicate SelfIsLink(p: Profile, item: Node) {
    HasClassAttr(item) && p.linkClass != Unset
    && p.linkTag == Str(item.tag) && p.linkClass.Str? && p.linkClass.s in item.classes
  }

  /** GetLinkOfJobPostFromJobPostDOM. */
  function GetLink(p: Profile, item: Node): Result<Option<string>> {
    if SelfIsLink(p, item) then
      if "href" in item.attrs then Ok(Some(Strip(item.attrs["href"]))) else Err(KeyError("href"))
    else GetData(item, p.linkTag, p.linkClass, Str("href"))
  }

  /** A card that is the link yields its own trimmed href. */
  lemma SelfLinkIsTrimmedHref(p: Profile, item: Node)
    requires SelfIsLink(p, item) && "href" in item.attrs
    ensures GetLink(p, item) == Ok(Some(Strip(item.attrs["href"])))
    ensures IsStripped(GetLink(p, item).value.value)
  {
  }

  /** An Indeed card (tag `a`) with class `result` takes the self-link path. */
  lemma IndeedCardsAreLinks(item: Node)
    requires item.Element? && item.tag == Indeed.parentTag && "result" in item.classes
    ensures SelfIsLink(Indeed, item)
  {
  }

  /** JobReader's absolutisation: a link not starting with https:// gets the
      domain in front. */
  function Absolutise(domain: string, link: string): string {
    if "https://" <= link then link else domain + link
  }

  /** Against an https domain every absolutised link is an https URL that
      ends with the raw link; an https link passes through unchanged. */
  lemma AbsolutiseSpec(domain: string, link: string)
    requires "https://" <= domain
    ensures "https://" <= Absolutise(domain, link)
    ensures Absolutise(domain, link)[|Absolutise(domain, link)| - |link|..] == link
    ensures "https://" <= link ==> Absolutise(domain, link) == link
  {
    var r := Absolutise(domain, link);
    if !("https://" <= link) {
      assert r == domain + link;
      assert r[|r| - |link|..] == link;
      assert r[..|"https://"|] == domain[..|"https://"|];
    }
  }

  /** A relative link against an https domain. */
  lemma AbsolutiseExample()
    ensures Absolutise("https://x.test", "/jobs/1") == "https://x.test/jobs/1"
  {
    assert !("https://" <= "/jobs/1") by { assert "/jobs/1"[0] != 'h'; }
  }

  /** The five fixed fields of one record. */
  function FixedRecord(p: Profile, item: Node, link: string): (r: Record)
    ensures r.Keys == FixedSet
    ensures r["JobLink"] == Some(link)
  {
    FieldGettersNeverRaise(p, item);
    map[
      "JobLink" := Some(link),
      "JobTitle" := GetJobTitle(p, item, Unset).value,
      "CompanyName" := GetCompany(p, item, Unset).value,
      "TimePosted" := GetPostedTime(p, item, Unset).value,
      "JobLocation" := GetJobLocation(p, item, Unset).value]
  }

  /** The extra columns of a column list: those that are not fixed. */
  function ExtraKeys(cols: seq<string>): set<string> {
    set c | c in cols && c !in FixedColumns
  }

  /** The value of one extra column: KeyError when the user never registered
      it (`self.UserTags[...]`), otherwise the lookup under its rule. */
  function ColumnData(rules: Rules, item: Node, c: string): Result<Option<string>> {
    if c !in rules then Err(KeyError(c)) else GetData(item, rules[c].tag, rules[c].cls, rules[c].attr)
  }

  /** The extra fields of one record, column by column: it succeeds exactly
      when every extra column can be looked up, and then each extra column
      holds its lookup and every other field is left alone. */
  function AddExtras(rules: Rules, item: Node, cols: seq<string>, rec: Record): (r: Result<Record>)
    ensures r.Ok? <==> forall c | c in ExtraKeys(cols) :: ColumnData(rules, item, c).Ok?
    ensures r.Ok? ==> r.value.Keys == rec.Keys + ExtraKeys(cols)
    ensures r.Ok? ==> forall k | k in rec && k !in ExtraKeys(cols) :: r.value[k] == rec[k]
    ensures r.Ok? ==> forall c | c in ExtraKeys(cols) :: ColumnData(rules, item, c) == Ok(r.value[c])
  {
    if cols == [] then Ok(rec)
    else
      assert forall x :: x in cols <==> x == cols[0] || x in cols[1..];
      if cols[0] in FixedColumns then
        assert ExtraKeys(cols) == ExtraKeys(cols[1..]);
        AddExtras(rules, item, cols[1..], rec)
      else
        match ColumnData(rules, item, cols[0])
        case Err(e) => Err(e)
        case Ok(v) =>
          assert ExtraKeys(cols) == ExtraKeys(cols[1..]) + {cols[0]};
          AddExtras(rules, item, cols[1..], rec[cols[0] := v])
  }

  /** The error of AddExtras is that of the first extra column whose lookup
      fails, in column order. */
  lemma {:induction false} AddExtrasFirstError(rules: Rules, item: Node, cols: seq<string>, rec: Record, i: nat)
    requires i < |cols| && cols[i] !in FixedColumns && ColumnData(rules, item, cols[i]).Err?
    requires forall j | 0 <= j < i :: cols[j] in FixedColumns || ColumnData(rules, item, cols[j]).Ok?
    ensures AddExtras(rules, item, cols, rec) == Err(ColumnData(rules, item, cols[i]).error)
    decreases i
  {
    if i > 0 {
      var tail := cols[1..];
      assert forall j | 0 <= j < i - 1 :: tail[j] == cols[j + 1];
      assert cols[0] in FixedColumns || ColumnData(rules, item, cols[0]).Ok?;
      if cols[0] in FixedColumns {
        AddExtrasFirstError(rules, item, tail, rec, i - 1);
      } else {
        AddExtrasFirstError(rules, item, tail, rec[cols[0] := ColumnData(rules, item, cols[0]).value], i - 1);
      }
    }
  }

  /** One card: no record when it has no link; otherwise its five fixed
      fields with the absolutised link, and the extra columns. */
  function ItemRecord(p: Profile, rules: Rules, item: Node, cols: seq<string>): Result<Option<Record>> {
    match GetLink(p, item)
    case Err(e) => Err(e)
    case Ok(None) => Ok(None)
    case Ok(Some(raw)) =>
      match AddExtras(rules, item, cols, FixedRecord(p, item, Absolutise(p.domainName, raw)))
      case Err(e) => Err(e)
      case Ok(rec) => Ok(Some(rec))
  }

  /** Gathers per-card outcomes in order: the first error aborts, a card
      without a record is skipped. */
  function Collect<T>(rs: seq<Result<Option<T>>>): Result<seq<T>> {
    if rs == [] then Ok([])
    else
      match rs[0]
      case Err(e) => Err(e)
      case Ok(r) =>
        match Collect(rs[1..])
        case Err(e) => Err(e)
        case Ok(xs) => Ok((if r.Some? then [r.value] else []) + xs)
  }

  /** Collect over a concatenation is the concatenation of the two parts,
      or the first part's error, or the second's. */
  lemma {:induction false} CollectConcat<T>(a: seq<Result<Option<T>>>, b: seq<Result<Option<T>>>)
    ensures Collect(a + b)
            == match Collect(a)
               case Err(e) => Err(e)
               case Ok(xa) =>
                 match Collect(b)
                 case Err(e) => Err(e)
                 case Ok(xb) => Ok(xa + xb)
    decreases a
  {
    if a == [] {
      assert a + b == b;
      match Collect(b)
      case Err(_) =>
      case Ok(xb) => assert [] + xb == xb;
    } else {
      assert (a + b)[0] == a[0];
      assert (a + b)[1..] == a[1..] + b;
      CollectConcat(a[1..], b);
      match Collect(a[1..])
      case Err(_) =>
      case Ok(xa) =>
        match Collect(b)
        case Err(_) =>
        case Ok(xb) =>
          match a[0]
          case Err(_) =>
          case Ok(r) =>
            var head := if r.Some? then [r.value] else [];
            assert head + (xa + xb) == (head + xa) + xb;
    }
  }

  /** Every gathered value comes from some outcome that produced it. */
  lemma {:induction false} CollectElements<T>(rs: seq<Result<Option<T>>>)
    requires Collect(rs).Ok?
    ensures forall x | x in Collect(rs).value :: exists k | 0 <= k < |rs| :: rs[k] == Ok(Some(x))
    decreases rs
  {
    if rs != [] {
      CollectElements(rs[1..]);
      forall x | x in Collect(rs).value
        ensures exists k | 0 <= k < |rs| :: rs[k] == Ok(Some(x))
      {
        if rs[0] != Ok(Some(x)) {
          var k :| 0 <= k < |rs[1..]| && rs[1..][k] == Ok(Some(x));
          assert rs[k + 1] == Ok(Some(x));
        }
      }
    }
  }

  /** One step of Collect, at any position of the outcome sequence. */
  lemma CollectStep<T>(rs: seq<Result<Option<T>>>, i: nat)
    requires i < |rs|
    ensures Collect(rs[i..])
            == match rs[i]
               case Err(e) => Err(e)
               case Ok(r) =>
                 match Collect(rs[i + 1..])
                 case Err(e) => Err(e)
                 case Ok(xs) => Ok((if r.Some? then [r.value] else []) + xs)
  {
    assert rs[i..][0] == rs[i];
    assert rs[i..][1..] == rs[i + 1..];
  }

  /** Records already gathered, in front of the outcome of the rest. */
  function Prefixed<T>(done: seq<T>, rest: Result<seq<T>>): Result<seq<T>> {
    match rest
    case Err(e) => Err(e)
    case Ok(xs) => Ok(done + xs)
  }

  lemma PrefixedEmpty<T>(r: Result<seq<T>>)
    ensures Prefixed([], r) == r
  {
    if r.Ok? {
      assert [] + r.value == r.value;
    }
  }

  lemma PrefixedAssoc<T>(a: seq<T>, b: seq<T>, r: Result<seq<T>>)
    ensures Prefixed(a, Prefixed(b, r)) == Prefixed(a + b, r)
  {
    if r.Ok? {
      assert a + (b + r.value) == (a + b) + r.value;
    }
  }

  /** The outcome of each card, in order. */
  function ItemResults(p: Profile, rules: Rules, items: seq<Node>, cols: seq<string>): (r: seq<Result<Option<Record>>>)
    ensures |r| == |items|
  {
    seq(|items|, k requires 0 <= k < |items| => ItemRecord(p, rules, items[k], cols))
  }

  /** The records of a sequence of cards, in order; the first error raised
      by any card aborts the whole listing. */
  function ExtractRecords(p: Profile, rules: Rules, items: seq<Node>, cols: seq<string>): Result<seq<Record>> {
    Collect(ItemResults(p, rules, items, cols))
  }

  /** ListAllAvailableCompaniesInfo's result for a given column list. */
  function ExtractTable(p: Profile, rules: Rules, items: seq<Node>, cols: seq<string>): Result<Table> {
    match ExtractRecords(p, rules, items, cols)
    case Err(e) => Err(e)
    case Ok(rows) => Ok(Table(cols, rows))
  }

  /** ListContents after the parse, for a given column list: an empty table
      when the result container is missing. */
  function ContentsTable(p: Profile, rules: Rules, root: Node, cols: seq<string>): Result<Table> {
    match Find(root, p.listTag, p.listClass)
    case None => Ok(Table(cols, []))
    case Some(container) => ExtractTable(p, rules, FindAll(container, p.parentTag), cols)
  }

  /** One step of ExtractRecords, at any position of the cards. */
  lemma ExtractRecordsStep(p: Profile, rules: Rules, items: seq<Node>, i: nat, cols: seq<string>)
    requires i < |items|
    ensures ExtractRecords(p, rules, items[i..], cols)
            == match ItemRecord(p, rules, items[i], cols)
               case Err(e) => Err(e)
               case Ok(r) => Prefixed(if r.Some? then [r.value] else [], ExtractRecords(p, rules, items[i + 1..], cols))
  {
    var rs := ItemResults(p, rules, items[i..], cols);
    assert rs[0] == ItemRecord(p, rules, items[i], cols);
    assert rs[1..] == ItemResults(p, rules, items[i + 1..], cols);
  }

  /** Records keep document order: the records of two runs of cards are the
      records of the first run followed by those of the second. */
  lemma ExtractRecordsConcat(p: Profile, rules: Rules, a: seq<Node>, b: seq<Node>, cols: seq<string>)
    ensures ExtractRecords(p, rules, a + b, cols)
            == match ExtractRecords(p, rules, a, cols)
               case Err(e) => Err(e)
               case Ok(ra) =>
                 match ExtractRecords(p, rules, b, cols)
                 case Err(e) => Err(e)
                 case Ok(rb) => Ok(ra + rb)
  {
    assert ItemResults(p, rules, a + b, cols) == ItemResults(p, rules, a, cols) + ItemResults(p, rules, b, cols);
    CollectConcat(ItemResults(p, rules, a, cols), ItemResults(p, rules, b, cols));
  }

  /** A card without a link contributes no record, wherever it stands. */
  lemma DropWithoutLink(p: Profile, rules: Rules, a: seq<Node>, item: Node, b: seq<Node>, cols: seq<string>)
    requires GetLink(p, item) == Ok(None)
    ensures ExtractRecords(p, rules, a + [item] + b, cols) == ExtractRecords(p, rules, a + b, cols)
  {
    ExtractRecordsConcat(p, rules, a + [item], b, cols);
    ExtractRecordsConcat(p, rules, a, [item], cols);
    ExtractRecordsConcat(p, rules, a, b, cols);
    assert ExtractRecords(p, rules, [item], cols) == Ok([]) by {
      assert ItemRecord(p, rules, item, cols) == Ok(None);
      var one: seq<Result<Option<Record>>> := [Ok(None)];
      assert ItemResults(p, rules, [item], cols) == one;
      var none: seq<Record> := [];
      assert one[1..] == [];
      assert Collect(one[1..]) == Ok(none);
      assert Collect(one) == Ok(none + none);
      assert none + none == [];
    }
    match ExtractRecords(p, rules, a, cols)
    case Err(_) =>
    case Ok(ra) => assert ra + [] == ra;
  }

  /** The cards that have a link, in document order. */
  function LinkedItems(p: Profile, items: seq<Node>): (r: seq<Node>)
    ensures |r| <= |items|
    ensures forall x | x in r :: x in items && HasLink(p, x)
    ensures forall x | x in items && HasLink(p, x) :: x in r
  {
    if items == [] then []
    else (if HasLink(p, items[0]) then [items[0]] else []) + LinkedItems(p, items[1..])
  }

  /** A single card is kept exactly when it has a link. */
  lemma LinkedItemsSingle(p: Profile, x: Node)
    ensures LinkedItems(p, [x]) == if HasLink(p, x) then [x] else []
  {
    assert [x][1..] == [];
  }

  /** GetLinkOfJobPostFromJobPostDOM finds a link on the card. */
  predicate HasLink(p: Profile, x: Node) {
    GetLink(p, x).Ok? && GetLink(p, x).value.Some?
  }

  /** The linked cards of two runs are those of the first run, then those of
      the second: the filter keeps document order. */
  lemma {:induction false} LinkedItemsConcat(p: Profile, a: seq<Node>, b: seq<Node>)
    ensures LinkedItems(p, a + b) == LinkedItems(p, a) + LinkedItems(p, b)
    decreases a
  {
    if a == [] {
      assert a + b == b;
    } else {
      assert (a + b)[0] == a[0];
      assert (a + b)[1..] == a[1..] + b;
      LinkedItemsConcat(p, a[1..], b);
      var head := if HasLink(p, a[0]) then [a[0]] else [];
      assert head + (LinkedItems(p, a[1..]) + LinkedItems(p, b)) == (head + LinkedItems(p, a[1..])) + LinkedItems(p, b);
    }
  }

  /** Rows correspond one to one, in order, to the linked cards. */
  predicate RowsFollowCards(p: Profile, rules: Rules, rows: seq<Record>, linked: seq<Node>, cols: seq<string>) {
    |rows| == |linked|
    && forall k | 0 <= k < |rows| :: RowFollowsCard(p, rules, rows[k], linked[k], cols)
  }

  /** One row against its card: the card has a link and the row is exactly
      the record built for that card. */
  predicate RowFollowsCard(p: Profile, rules: Rules, row: Record, x: Node, cols: seq<string>) {
    HasLink(p, x) && ItemRecord(p, rules, x, cols) == Ok(Some(row))
  }

  /** What a card's record holds: exactly the fixed and extra columns, the
      card's absolutised link, the four getters' values for the card, and
      each extra column's lookup on the card. */
  predicate CardCells(p: Profile, rules: Rules, row: Record, x: Node, cols: seq<string>) {
    FixedSetMembers();
    HasLink(p, x)
    && row.Keys == FixedSet + ExtraKeys(cols)
    && row["JobLink"] == Some(Absolutise(p.domainName, GetLink(p, x).value.value))
    && GetJobTitle(p, x, Unset) == Ok(row["JobTitle"])
    && GetCompany(p, x, Unset) == Ok(row["CompanyName"])
    && GetPostedTime(p, x, Unset) == Ok(row["TimePosted"])
    && GetJobLocation(p, x, Unset) == Ok(row["JobLocation"])
    && forall c | c in ExtraKeys(cols) :: ColumnData(rules, x, c) == Ok(row[c])
  }

  /** A linked card's record, when it has one, holds that card's cells. */
  lemma LinkedCardRecord(p: Profile, rules: Rules, item: Node, cols: seq<string>)
    requires HasLink(p, item)
    requires ItemRecord(p, rules, item, cols).Ok?
    ensures ItemRecord(p, rules, item, cols).value.Some?
    ensures CardCells(p, rules, ItemRecord(p, rules, item, cols).value.value, item, cols)
    ensures "JobLink" in ItemRecord(p, rules, item, cols).value.value
    ensures ItemRecord(p, rules, item, cols).value.value["JobLink"]
            == Some(Absolutise(p.domainName, GetLink(p, item).value.value))
  {
    FieldGettersNeverRaise(p, item);
    FixedSetMembers();
    var rec := FixedRecord(p, item, Absolutise(p.domainName, GetLink(p, item).value.value));
    var row := AddExtras(rules, item, cols, rec).value;
    assert forall k | k in FixedColumns :: k !in ExtraKeys(cols);
    assert row["JobLink"] == rec["JobLink"];
    assert row["JobTitle"] == rec["JobTitle"];
    assert row["CompanyName"] == rec["CompanyName"];
    assert row["TimePosted"] == rec["TimePosted"];
    assert row["JobLocation"] == rec["JobLocation"];
  }

  /** RowsFollowCards extends by one linked card at the front. */
  lemma RowsFollowCardsCons(p: Profile, rules: Rules, row: Record, rows: seq<Record>, x: Node, linked: seq<Node>, cols: seq<string>)
    requires RowFollowsCard(p, rules, row, x, cols)
    requires RowsFollowCards(p, rules, rows, linked, cols)
    ensures RowsFollowCards(p, rules, [row] + rows, [x] + linked, cols)
  {
    var rs, ls := [row] + rows, [x] + linked;
    forall k | 0 <= k < |rs|
      ensures RowFollowsCard(p, rules, rs[k], ls[k], cols)
    {
      if k > 0 {
        assert rs[k] == rows[k - 1] && ls[k] == linked[k - 1];
      }
    }
  }

  /** One record per card with a link, in document order: row k is the
      record of linked card k (whose cells LinkedCardRecord describes). */
  lemma {:induction false} RecordsFollowLinkedCards(p: Profile, rules: Rules, items: seq<Node>, cols: seq<string>)
    requires ExtractRecords(p, rules, items, cols).Ok?
    ensures RowsFollowCards(p, rules, ExtractRecords(p, rules, items, cols).value, LinkedItems(p, items), cols)
    decreases items
  {
    if items != [] {
      ExtractRecordsStep(p, rules, items, 0, cols);
      assert items[0..] == items;
      RecordsFollowLinkedCards(p, rules, items[1..], cols);
      var rest := ExtractRecords(p, rules, items[1..], cols).value;
      var linkedRest := LinkedItems(p, items[1..]);
      if HasLink(p, items[0]) {
        var row := ItemRecord(p, rules, items[0], cols).value.value;
        assert ExtractRecords(p, rules, items, cols).value == [row] + rest;
        assert LinkedItems(p, items) == [items[0]] + linkedRest;
        RowsFollowCardsCons(p, rules, row, rest, items[0], linkedRest, cols);
      } else {
        assert ExtractRecords(p, rules, items, cols).value == rest;
        assert LinkedItems(p, items) == [] + linkedRest == linkedRest;
      }
    }
  }

  /** Against an https domain, every record's link is an https URL. */
  lemma RecordLinksAreAbsolute(p: Profile, rules: Rules, items: seq<Node>, cols: seq<string>)
    requires "https://" <= p.domainName
    requires ExtractRecords(p, rules, items, cols).Ok?
    ensures forall r: Record | r in ExtractRecords(p, rules, items, cols).value ::
              "JobLink" in r && r["JobLink"].Some? && "https://" <= r["JobLink"].value
  {
    RecordsFollowLinkedCards(p, rules, items, cols);
    var rows := ExtractRecords(p, rules, items, cols).value;
    var linked := LinkedItems(p, items);
    forall r: Record | r in rows
      ensures "JobLink" in r && r["JobLink"].Some? && "https://" <= r["JobLink"].value
    {
      var k :| 0 <= k < |rows| && rows[k] == r;
      RowLinkIsAbsolute(p, rules, rows[k], linked[k], cols);
    }
  }

  /** The link cell of a row that follows its card, against an https domain. */
  lemma RowLinkIsAbsolute(p: Profile, rules: Rules, row: Record, x: Node, cols: seq<string>)
    requires "https://" <= p.domainName
    requires RowFollowsCard(p, rules, row, x, cols)
    ensures "JobLink" in row && row["JobLink"].Some? && "https://" <= row["JobLink"].value
  {
    LinkedCardRecord(p, rules, x, cols);
    AbsolutiseSpec(p.domainName, GetLink(p, x).value.value);
  }

  /** A failing outcome anywhere makes the whole gathering fail. */
  lemma {:induction false} CollectErr<T>(rs: seq<Result<Option<T>>>, k: nat)
    requires k < |rs| && rs[k].Err?
    ensures Collect(rs).Err?
    decreases k
  {
    if k > 0 && rs[0].Ok? {
      assert rs[1..][k - 1] == rs[k];
      CollectErr(rs[1..], k - 1);
    }
  }

  /** The code raises KeyError for an extra column the user never registered
      (JobReader.py:253): once any card has a link, the whole listing fails. */
  lemma UnregisteredExtraRaises(p: Profile, rules: Rules, items: seq<Node>, cols: seq<string>, k: nat, c: string)
    requires k < |items| && HasLink(p, items[k])
    requires c in cols && c !in FixedColumns && c !in rules
    ensures ExtractRecords(p, rules, items, cols).Err?
  {
    assert c in ExtraKeys(cols) && ColumnData(rules, items[k], c).Err?;
    var rs := ItemResults(p, rules, items, cols);
    assert rs[k].Err?;
    CollectErr(rs, k);
  }

  /** On a linked card the error is KeyError of that column, when every extra
      column before it can be looked up. */
  lemma UnregisteredExtraKeyError(p: Profile, rules: Rules, item: Node, cols: seq<string>, i: nat)
    requires HasLink(p, item)
    requires i < |cols| && cols[i] !in FixedColumns && cols[i] !in rules
    requires forall j | 0 <= j < i :: cols[j] in FixedColumns || ColumnData(rules, item, cols[j]).Ok?
    ensures ItemRecord(p, rules, item, cols) == Err(KeyError(cols[i]))
  {
    AddExtrasFirstError(rules, item, cols, FixedRecord(p, item, Absolutise(p.domainName, GetLink(p, item).value.value)), i);
  }

  /** No result container: an empty table with the requested columns. */
  lemma NoContainerGivesEmptyTable(p: Profile, rules: Rules, root: Node, cols: seq<string>)
    requires forall d | d in Descendants(root) :: !Matches(d, p.listTag, p.listClass)
    ensures ContentsTable(p, rules, root, cols) == Ok(Table(cols, []))
  {
  }

  /** Cards are enumerated by tag alone: the parent class is never read. */
  lemma ParentClassIsUnused(p: Profile, c: Option<string>, rules: Rules, root: Node, cols: seq<string>)
    ensures ContentsTable(p.(parentClass := c), rules, root, cols) == ContentsTable(p, rules, root, cols)
  {
    var q := p.(parentClass := c);
    assert forall item: Node :: GetLink(q, item) == GetLink(p, item);
    assert forall item: Node, link: string :: FixedRecord(q, item, link) == FixedRecord(p, item, link);
    assert forall items: seq<Node> :: ExtractRecords(q, rules, items, cols) == ExtractRecords(p, rules, items, cols) by {
      forall items: seq<Node> ensures ExtractRecords(q, rules, items, cols) == ExtractRecords(p, rules, items, cols) {
        SameProfileRecords(p, q, rules, items, cols);
      }
    }
  }

  lemma SameProfileRecords(p: Profile, q: Profile, rules: Rules, items: seq<Node>, cols: seq<string>)
    requires q == p.(parentClass := q.parentClass)
    ensures ExtractRecords(q, rules, items, cols) == ExtractRecords(p, rules, items, cols)
  {
    forall k | 0 <= k < |items|
      ensures ItemRecord(q, rules, items[k], cols) == ItemRecord(p, rules, items[k], cols)
    {
      assert GetLink(q, items[k]) == GetLink(p, items[k]);
    }
    assert ItemResults(q, rules, items, cols) == ItemResults(p, rules, items, cols);
  }

  // ---------------------------------------------------------------------
  // Columns

  const FixedSet: set<string> := Elems(FixedColumns)

  /** The column names the caller asked for. */
  function Requested(toDisplay: Option<seq<string>>): set<string> {
    if toDisplay.None? then {} else Elems(toDisplay.value)
  }

  /** The five fixed headers are in FixedSet. */
  lemma FixedSetMembers()
    ensures "JobLink" in FixedSet && "JobTitle" in FixedSet && "CompanyName" in FixedSet
    ensures "TimePosted" in FixedSet && "JobLocation" in FixedSet
  {
    assert FixedColumns[0] == "JobLink" && FixedColumns[1] == "CompanyName" && FixedColumns[2] == "JobTitle";
    assert FixedColumns[3] == "JobLocation" && FixedColumns[4] == "TimePosted";
  }

  function Elems(s: seq<string>): set<string> {
    set x | x in s
  }

  lemma ElemsAppend(s: seq<string>, x: string)
    ensures Elems(s + [x]) == Elems(s) + {x}
  {
    assert forall y :: y in s + [x] <==> y in s || y == x;
  }

  lemma NoElemsIsEmpty(s: seq<string>)
    ensures Elems(s) == {} ==> s == []
  {
    if s != [] {
      assert s[0] in Elems(s);
    }
  }

  predicate Distinct(s: seq<string>) {
    forall i, j | 0 <= i < j < |s| :: s[i] != s[j]
  }

  /** What Columns evidently promises: the fixed columns in their order, then
      each requested column that is not fixed, once, in some order (the
      source lists a set). */
  predicate IsColumns(toDisplay: Option<seq<string>>, cols: seq<string>) {
    |cols| >= |FixedColumns| && cols[..|FixedColumns|] == FixedColumns
    && Distinct(cols[|FixedColumns|..])
    && Elems(cols[|FixedColumns|..]) == Requested(toDisplay) - FixedSet
  }

  /** One pass of Columns' loop: taking `x` out of the columns still to
      visit adds it to the extra columns exactly when it is not fixed. */
  lemma ColumnStep(req: set<string>, remaining: set<string>, x: string, extras: seq<string>)
    requires x in remaining && remaining <= req
    requires Distinct(extras) && Elems(extras) == (req - remaining) - FixedSet
    ensures remaining - {x} <= req
    ensures x !in FixedSet ==> Distinct(extras + [x])
                               && Elems(extras + [x]) == (req - (remaining - {x})) - FixedSet
    ensures x in FixedSet ==> Elems(extras) == (req - (remaining - {x})) - FixedSet
  {
    assert req - (remaining - {x}) == (req - remaining) + {x};
    if x !in FixedSet {
      ElemsAppend(extras, x);
      assert x !in Elems(extras);
      forall i, j | 0 <= i < j < |extras + [x]| ensures (extras + [x])[i] != (extras + [x])[j] {
        if j == |extras| {
          assert (extras + [x])[i] == extras[i];
          assert extras[i] in Elems(extras);
        }
      }
    }
  }

  /** The fixed columns followed by distinct extras that are exactly the
      requested columns that are not fixed form a column list. */
  lemma ColumnsOfExtras(toDisplay: Option<seq<string>>, extras: seq<string>)
    requires Distinct(extras) && Elems(extras) == Requested(toDisplay) - FixedSet
    ensures IsColumns(toDisplay, FixedColumns + extras)
  {
    var cols := FixedColumns + extras;
    assert cols[..|FixedColumns|] == FixedColumns;
    assert cols[|FixedColumns|..] == extras;
  }

  /** A column list names no column twice and holds the fixed and requested
      columns and nothing else. */
  lemma ColumnsAreDistinct(toDisplay: Option<seq<string>>, cols: seq<string>)
    requires IsColumns(toDisplay, cols)
    ensures Distinct(cols)
    ensures Elems(cols) == FixedSet + Requested(toDisplay)
    ensures FixedSet + ExtraKeys(cols) == Elems(cols)
  {
    var n := |FixedColumns|;
    forall i, j | 0 <= i < j < |cols| ensures cols[i] != cols[j] {
      if j >= n {
        assert cols[j] == cols[n..][j - n];
        assert cols[j] !in FixedSet;
        if i < n {
          assert cols[i] == FixedColumns[i];
        } else {
          assert cols[i] == cols[n..][i - n];
        }
      } else {
        assert cols[i] == FixedColumns[i] && cols[j] == FixedColumns[j];
      }
    }
    assert cols == FixedColumns + cols[n..];
    assert forall x :: x in cols <==> x in FixedColumns || x in cols[n..];
    forall x | x in cols ensures x in FixedSet + Requested(toDisplay) {
      if x !in FixedColumns {
        assert x in Elems(cols[n..]);
      }
    }
    forall x | x in Requested(toDisplay) ensures x in cols {
      if x !in FixedSet {
        assert x in Elems(cols[n..]);
      }
    }
  }

  /** Without a request the columns are exactly the fixed ones. */
  lemma ColumnsWithoutRequest(cols: seq<string>)
    requires IsColumns(None, cols)
    ensures cols == FixedColumns
  {
    var n := |FixedColumns|;
    assert Elems(cols[n..]) == {};
    NoElemsIsEmpty(cols[n..]);
    assert cols == cols[..n] + cols[n..];
  }

  /** Columns as written: it removes fixed names from the set it is
      iterating, which raises RuntimeError as soon as one is removed. */
  function ColumnsAsWritten(toDisplay: Option<seq<string>>): Result<set<string>> {
    if toDisplay.Some? && exists x | x in toDisplay.value :: x in FixedSet then Err(RuntimeError)
    else Ok(Requested(toDisplay))
  }

  /** The discrepancy: asking for a fixed column next to an extra one fails as
      written, while the intended column list exists. */
  lemma ColumnsAsWrittenRaises()
    ensures ColumnsAsWritten(Some(["JobTitle", "Salary"])) == Err(RuntimeError)
    ensures IsColumns(Some(["JobTitle", "Salary"]), FixedColumns + ["Salary"])
  {
    var cols := FixedColumns + ["Salary"];
    assert "JobTitle" in FixedSet;
    assert cols[..|FixedColumns|] == FixedColumns;
    assert cols[|FixedColumns|..] == ["Salary"];
    assert Requested(Some(["JobTitle", "Salary"])) == {"JobTitle", "Salary"};
    assert "Salary" !in FixedSet;
  }
}
