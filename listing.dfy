/** JobListing: the readers it registers, the request planning of
    SendRequests, the merge of the per-page tables, and the state it keeps
    (the last results and the history). */
module Listing {
  import opened Wrappers
  import opened Dom
  import opened SiteProfiles
  import opened QueryBuilder
  import opened Extraction
  import opened JobReaders
  import History

  /** SendRequests' argument: a dict from platform name to request, in its
      iteration order, or some other value. */
  datatype KeywordRequest = Dict(entries: seq<(string, Params)>) | NotDict

  /** A task: the platform whose reader will read the page, and the URL. */
  type Task = (string, string)

  /** The value of the first field with the given name. */
  function Lookup(params: Params, key: string): (r: Option<ParamValue>)
    ensures r.None? <==> forall i | 0 <= i < |params| :: params[i].0 != key
    ensures r.Some? ==> exists i | 0 <= i < |params| :: params[i] == (key, r.value)
  {
    if params == [] then None
    else if params[0].0 == key then Some(params[0].1)
    else Lookup(params[1..], key)
  }

  /** TotalPages: 1 without a NumberOfPages field; `range` of a negative
      number is empty and `range` of a string raises TypeError. */
  function PageCount(params: Params): Result<nat> {
    match Lookup(params, "NumberOfPages")
    case None => Ok(1)
    case Some(Number(n)) => Ok(if n < 0 then 0 else n)
    case Some(Text(_)) => Err(TypeError)
  }

  /** The tasks of one platform, pages 0 to k - 1. */
  function PagesFor(p: Profile, name: string, params: Params, k: nat): (r: Result<seq<Task>>)
    ensures r.Ok? <==> k == 0 || p.searchUrl.Str?
    ensures r.Err? ==> r.error == ValueError
    ensures r.Ok? ==> |r.value| == k
    ensures r.Ok? ==> forall i | 0 <= i < k :: BuildQuery(p, params, i).Ok? && r.value[i] == (name, BuildQuery(p, params, i).value)
  {
    if k == 0 then Ok([])
    else
      match PagesFor(p, name, params, k - 1)
      case Err(e) => Err(e)
      case Ok(ts) =>
        match BuildQuery(p, params, k - 1)
        case Err(e) => Err(e)
        case Ok(url) => Ok(ts + [(name, url)])
  }

  /** The task list of SendRequests' loop, platform by platform in request
      order; a platform without a reader contributes nothing. */
  function PlanEntries(profiles: map<string, Profile>, es: seq<(string, Params)>): (r: Result<seq<Task>>)
    ensures r.Ok? ==> forall t | t in r.value :: t.0 in profiles
  {
    if es == [] then Ok([])
    else if es[0].0 !in profiles then PlanEntries(profiles, es[1..])
    else
      match PageCount(es[0].1)
      case Err(e) => Err(e)
      case Ok(k) =>
        match PagesFor(profiles[es[0].0], es[0].0, es[0].1, k)
        case Err(e) => Err(e)
        case Ok(ts) => Prefixed(ts, PlanEntries(profiles, es[1..]))
  }

  /** TypeError when the request is not a dict. */
  function PlanTasks(profiles: map<string, Profile>, req: KeywordRequest): (r: Result<seq<Task>>)
    ensures req.NotDict? ==> r == Err(TypeError)
    ensures req.Dict? ==> r == PlanEntries(profiles, req.entries)
  {
    if req.NotDict? then Err(TypeError) else PlanEntries(profiles, req.entries)
  }

  lemma PlanStep(profiles: map<string, Profile>, es: seq<(string, Params)>, i: nat)
    requires i < |es|
    ensures PlanEntries(profiles, es[i..])
            == if es[i].0 !in profiles then PlanEntries(profiles, es[i + 1..])
               else match PageCount(es[i].1)
                 case Err(e) => Err(e)
                 case Ok(k) =>
                   match PagesFor(profiles[es[i].0], es[i].0, es[i].1, k)
                   case Err(e) => Err(e)
                   case Ok(ts) => Prefixed(ts, PlanEntries(profiles, es[i + 1..]))
  {
    assert es[i..][0] == es[i];
    assert es[i..][1..] == es[i + 1..];
  }

  /** Tasks are grouped by platform in request order: the plan of a split
      request is the plan of its first part followed by that of the second. */
  lemma {:induction false} PlanConcat(profiles: map<string, Profile>, a: seq<(string, Params)>, b: seq<(string, Params)>)
    ensures PlanEntries(profiles, a + b)
            == match PlanEntries(profiles, a)
               case Err(e) => Err(e)
               case Ok(ta) => Prefixed(ta, PlanEntries(profiles, b))
    decreases a
  {
    if a == [] {
      assert a + b == b;
      PrefixedEmpty(PlanEntries(profiles, b));
    } else {
      assert (a + b)[0] == a[0];
      assert (a + b)[1..] == a[1..] + b;
      PlanConcat(profiles, a[1..], b);
      if a[0].0 in profiles {
        match PageCount(a[0].1)
        case Err(_) =>
        case Ok(k) =>
          match PagesFor(profiles[a[0].0], a[0].0, a[0].1, k)
          case Err(_) =>
          case Ok(ts) =>
            match PlanEntries(profiles, a[1..])
            case Err(_) =>
            case Ok(ta) => PrefixedAssoc(ts, ta, PlanEntries(profiles, b));
      }
    }
  }

  /** A platform with no registered reader contributes zero tasks, wherever
      it stands in the request. */
  lemma UnknownPlatformAddsNothing(profiles: map<string, Profile>, a: seq<(string, Params)>, name: string, params: Params, b: seq<(string, Params)>)
    requires name !in profiles
    ensures PlanEntries(profiles, a + [(name, params)] + b) == PlanEntries(profiles, a + b)
  {
    PlanConcat(profiles, a + [(name, params)], b);
    PlanConcat(profiles, a, [(name, params)]);
    PlanConcat(profiles, a, b);
    var one := [(name, params)];
    assert one[1..] == [];
    assert PlanEntries(profiles, one) == PlanEntries(profiles, []);
    match PlanEntries(profiles, a)
    case Err(_) =>
    case Ok(ta) =>
      var none: seq<Task> := [];
      assert ta + none == ta;
      PrefixedAssoc(ta, none, PlanEntries(profiles, b));
  }

  /** A registered platform contributes exactly TotalPages tasks, for pages
      0, 1, ... in order, task k carrying ConstructQueryURL(params, k). */
  lemma RegisteredPlatformTasks(profiles: map<string, Profile>, name: string, params: Params)
    requires name in profiles && profiles[name].searchUrl.Str?
    requires PageCount(params).Ok?
    ensures var k := PageCount(params).value;
            PlanEntries(profiles, [(name, params)]).Ok?
            && |PlanEntries(profiles, [(name, params)]).value| == k
            && forall i | 0 <= i < k ::
                 PlanEntries(profiles, [(name, params)]).value[i] == (name, BuildQuery(profiles[name], params, i).value)
  {
    var one := [(name, params)];
    assert one[1..] == [];
    var ts := PagesFor(profiles[name], name, params, PageCount(params).value).value;
    assert ts + [] == ts;
  }

  /** Without a NumberOfPages field a platform gets one task, for page 0. */
  lemma DefaultIsOnePage(params: Params)
    requires forall i | 0 <= i < |params| :: params[i].0 != "NumberOfPages"
    ensures PageCount(params) == Ok(1)
  {
  }

  // ---------------------------------------------------------------------
  // The merge

  /** The columns of `b` that `a` lacks, in `b`'s order. */
  function NewColumns(a: seq<string>, b: seq<string>): (r: seq<string>)
    ensures forall c | c in r :: c in b && c !in a
    ensures forall c | c in b && c !in a :: c in r
  {
    if b == [] then []
    else (if b[0] in a then [] else [b[0]]) + NewColumns(a, b[1..])
  }

  /** DataFrame.append: the rows of `b` after those of `a`, and the columns
      of `b` not yet present added at the end. */
  function AppendTable(a: Table, b: Table): (r: Table)
    ensures r.rows == a.rows + b.rows
    ensures a.columns <= r.columns
    ensures forall c | c in b.columns :: c in r.columns
  {
    Table(a.columns + NewColumns(a.columns, b.columns), a.rows + b.rows)
  }

  /** SendParallelRequest: the per-task tables appended in task order onto
      an empty DataFrame; the first task that raised, in that order, aborts. */
  function Merge(ts: seq<Result<Table>>): Result<Table> {
    if ts == [] then Ok(Table([], []))
    else
      match Merge(ts[..|ts| - 1])
      case Err(e) => Err(e)
      case Ok(acc) =>
        match ts[|ts| - 1]
        case Err(e) => Err(e)
        case Ok(t) => Ok(AppendTable(acc, t))
  }

  /** Once a prefix of the tasks has failed, the merge fails the same way. */
  lemma {:induction false} MergeErrExtends(rs: seq<Result<Table>>, i: nat)
    requires i <= |rs| && Merge(rs[..i]).Err?
    ensures Merge(rs) == Merge(rs[..i])
    decreases |rs| - i
  {
    if i < |rs| {
      assert rs[..i + 1][..i] == rs[..i];
      MergeErrExtends(rs, i + 1);
    } else {
      assert rs[..i] == rs;
    }
  }

  /** The first failing task, in task order, decides the merge's error. */
  lemma MergeErrAt(rs: seq<Result<Table>>, i: nat, acc: Table)
    requires i < |rs| && Merge(rs[..i]) == Ok(acc) && rs[i].Err?
    ensures Merge(rs) == Err(rs[i].error)
  {
    MergeStep(rs, i, acc);
    MergeErrExtends(rs, i + 1);
  }

  /** Every task succeeded. */
  predicate AllOk(rs: seq<Result<Table>>) {
    forall i | 0 <= i < |rs| :: rs[i].Ok?
  }

  /** The rows of all tables, in task order. */
  function AllRows(rs: seq<Result<Table>>): seq<Record>
    requires AllOk(rs)
  {
    if rs == [] then [] else AllRows(rs[..|rs| - 1]) + rs[|rs| - 1].value.rows
  }

  /** When every task succeeds, the merged rows are all the tasks' rows in
      task order. */
  lemma {:induction false} MergeKeepsAllRows(rs: seq<Result<Table>>)
    requires AllOk(rs)
    ensures Merge(rs).Ok? && Merge(rs).value.rows == AllRows(rs)
  {
    if rs != [] {
      MergeKeepsAllRows(rs[..|rs| - 1]);
    }
  }

  /** When every task succeeds and all tables share one column list, the
      merge of at least one task has exactly those columns. */
  lemma {:induction false} MergeKeepsColumns(rs: seq<Result<Table>>, cols: seq<string>)
    requires rs != [] && AllOk(rs)
    requires forall i | 0 <= i < |rs| :: rs[i].value.columns == cols
    ensures Merge(rs).Ok? && Merge(rs).value.columns == cols
  {
    var init := rs[..|rs| - 1];
    assert forall i | 0 <= i < |init| :: init[i] == rs[i];
    MergeKeepsAllRows(init);
    NoColumnsAreNew(cols);
    var acc := Merge(init).value;
    if init == [] {
      assert acc.columns == [];
      assert [] + cols == cols;
    } else {
      MergeKeepsColumns(init, cols);
      assert cols + [] == cols;
    }
  }

  /** One more task's table: appended to the merge so far, or its error. */
  lemma MergeStep(rs: seq<Result<Table>>, i: nat, acc: Table)
    requires i < |rs| && Merge(rs[..i]) == Ok(acc)
    ensures Merge(rs[..i + 1]) == match rs[i]
                                  case Err(e) => Err(e)
                                  case Ok(t) => Ok(AppendTable(acc, t))
  {
    assert rs[..i + 1][..i] == rs[..i];
    assert rs[..i + 1][i] == rs[i];
  }

  lemma {:induction false} NoColumnsAreNew(b: seq<string>)
    ensures NewColumns([], b) == b
    ensures NewColumns(b, b) == []
  {
    if b != [] {
      NoColumnsAreNew(b[1..]);
      NewColumnsOfSubset(b, b[1..]);
    }
  }

  lemma {:induction false} NewColumnsOfSubset(a: seq<string>, b: seq<string>)
    requires forall c | c in b :: c in a
    ensures NewColumns(a, b) == []
  {
    if b != [] {
      NewColumnsOfSubset(a, b[1..]);
    }
  }

  /** One task: fetch and parse the page, then ListContents with no
      requested columns (the fixed ones). */
  function RunTask(p: Profile, rules: Rules, fetch: string -> Result<Node>, url: string): Result<Table> {
    match fetch(url)
    case Err(e) => Err(e)
    case Ok(root) => ContentsTable(p, rules, root, FixedColumns)
  }

  /** The tasks of one platform, page by page. */
  method PlatformTasks(reader: JobReader, name: string, params: Params, total: nat) returns (r: Result<seq<Task>>)
    ensures r == PagesFor(reader.profile, name, params, total)
  {
    var tasks: seq<Task> := [];
    for page := 0 to total
      invariant PagesFor(reader.profile, name, params, page) == Ok(tasks)
    {
      var url := reader.ConstructQueryURL(params, page);
      if url.Err? {
        assert PagesFor(reader.profile, name, params, total).Err?;
        return Err(url.error);
      }
      tasks := tasks + [(name, url.value)];
    }
    return Ok(tasks);
  }

  // ---------------------------------------------------------------------
  // The JobListing object

  /** The result of each task, in task order, with the reader of its
      platform. */
  function TaskResults(env: map<string, (Profile, Rules)>, tasks: seq<Task>, fetch: string -> Result<Node>): (r: seq<Result<Table>>)
    requires forall i | 0 <= i < |tasks| :: tasks[i].0 in env
    ensures |r| == |tasks|
  {
    seq(|tasks|, i requires 0 <= i < |tasks| => RunTask(env[tasks[i].0].0, env[tasks[i].0].1, fetch, tasks[i].1))
  }

  /** The readers JobListing can register: LinkedIn and Indeed only. */
  function KnownPlatforms(website: seq<string>): set<string> {
    set n | n in website && (n == "LinkedIn" || n == "Indeed")
  }

  class JobListing {
    const readers: map<string, JobReader>
    const history: History.HistoryList<Table>
    var queryResults: Option<Table>

    ghost function ReaderObjects(): set<JobReader>
      reads this
    {
      set n | n in readers :: readers[n]
    }

    ghost predicate Valid()
      reads this, history, history.Repr, ReaderObjects()
    {
      history.Valid() && this !in history.Repr
      && forall n | n in readers :: readers[n].Valid() && readers[n] !in history.Repr
    }

    /** The profiles of the registered readers. */
    function Profiles(): (r: map<string, Profile>)
      reads this
      ensures r.Keys == readers.Keys
    {
      map n | n in readers :: readers[n].profile
    }

    /** What SendRequests returns, given the current readers. */
    ghost function Outcome(req: KeywordRequest, fetch: string -> Result<Node>): Result<Table>
      requires Valid()
      reads this, history, history.Repr, ReaderObjects()
    {
      match PlanTasks(Profiles(), req)
      case Err(e) => Err(e)
      case Ok(tasks) => Merge(TaskResults(Env(), tasks, fetch))
    }

    /** Each registered platform's profile and extra-field rules. */
    function Env(): (r: map<string, (Profile, Rules)>)
      requires Valid()
      reads this, history, history.Repr, ReaderObjects()
      ensures r.Keys == readers.Keys
    {
      map n | n in readers :: (readers[n].profile, readers[n].Rules())
    }

    /** Registers a LinkedIn and an Indeed reader only if `website` names them. */
    constructor (website: seq<string>, historySize: nat)
      requires historySize >= 1
      ensures Valid() && fresh(history) && fresh(ReaderObjects())
      ensures readers.Keys == KnownPlatforms(website)
      ensures "LinkedIn" in readers ==> readers["LinkedIn"].profile == LinkedIn
      ensures "Indeed" in readers ==> readers["Indeed"].profile == Indeed
      ensures forall n | n in readers :: readers[n].Rules() == map[]
      ensures queryResults == None
      ensures history.entries == [] && history.maxSize == historySize
    {
      var rs: map<string, JobReader> := map[];
      if "LinkedIn" in website {
        var linkedIn := new JobReader(LinkedIn);
        rs := rs["LinkedIn" := linkedIn];
      }
      if "Indeed" in website {
        var indeed := new JobReader(Indeed);
        rs := rs["Indeed" := indeed];
      }
      readers := rs;
      history := new History.HistoryList(historySize);
      queryResults := None;
    }

    /** The None-or-DataFrame that Results returns. */
    function Results(): Option<Table>
      reads this
    {
      queryResults
    }

    /** The nested loops of SendRequests that build URLParamList. */
    method BuildTaskList(req: KeywordRequest) returns (r: Result<seq<Task>>)
      requires Valid()
      ensures Valid() && Env() == old(Env())
      ensures r == PlanTasks(Profiles(), req)
    {
      if req.NotDict? {
        return Err(TypeError);
      }
      var es := req.entries;
      var profiles := Profiles();
      var tasks: seq<Task> := [];
      assert es[0..] == es;
      PrefixedEmpty(PlanEntries(profiles, es));
      for i := 0 to |es|
        invariant PlanEntries(profiles, es) == Prefixed(tasks, PlanEntries(profiles, es[i..]))
      {
        PlanStep(profiles, es, i);
        var (name, params) := es[i];
        if name in readers {
          var total := PageCount(params);
          if total.Err? {
            return Err(total.error);
          }
          assert readers[name].profile == profiles[name];
          var pages := PlatformTasks(readers[name], name, params, total.value);
          if pages.Err? {
            return Err(pages.error);
          }
          PrefixedAssoc(tasks, pages.value, PlanEntries(profiles, es[i + 1..]));
          tasks := tasks + pages.value;
        }
      }
      assert es[|es|..] == [];
      assert tasks + [] == tasks;
      return Ok(tasks);
    }

    /** One task's table: fetch the page, then the reader's ListContents. */
    method RunOne(name: string, url: string, fetch: string -> Result<Node>) returns (r: Result<Table>)
      requires Valid() && name in readers
      ensures Valid() && Env() == old(Env())
      ensures r == RunTask(Env()[name].0, Env()[name].1, fetch, url)
    {
      assert Env()[name] == (readers[name].profile, readers[name].Rules());
      var page := fetch(url);
      if page.Err? {
        return Err(page.error);
      }
      var reader := readers[name];
      r := reader.ListContents(page.value, None);
      ghost var cols :| IsColumns(None, cols) && r == ContentsTable(reader.profile, reader.Rules(), page.value, cols);
      ColumnsWithoutRequest(cols);
    }

    /** SendParallelRequest's result: the tasks' tables appended in task
        order. */
    method RunTasks(tasks: seq<Task>, fetch: string -> Result<Node>) returns (r: Result<Table>)
      requires Valid() && forall t | t in tasks :: t.0 in readers
      ensures Valid() && Env() == old(Env())
      ensures r == Merge(TaskResults(Env(), tasks, fetch))
    {
      ghost var env := Env();
      ghost var results := TaskResults(env, tasks, fetch);
      var merged := Table([], []);
      assert results[..0] == [];
      for i := 0 to |tasks|
        invariant Valid() && Env() == env
        invariant Merge(results[..i]) == Ok(merged)
      {
        assert tasks[i] in tasks;
        var table := RunOne(tasks[i].0, tasks[i].1, fetch);
        assert results[i] == table;
        if table.Err? {
          MergeErrAt(results, i, merged);
          return Err(table.error);
        }
        MergeStep(results, i, merged);
        merged := AppendTable(merged, table.value);
      }
      assert results[..|tasks|] == results;
      return Ok(merged);
    }

    /** SendRequests: plans the tasks, runs them in order and merges their
        tables; on success the merged table becomes the last results and is
        added to the history, on an error nothing changes. `fetch` stands for
        the HTTP request and the parse. */
    method SendRequests(req: KeywordRequest, fetch: string -> Result<Node>) returns (r: Result<Table>)
      requires Valid()
      modifies this, history.Repr
      ensures Valid() && fresh(history.Repr - old(history.Repr))
      ensures r == old(Outcome(req, fetch))
      ensures r.Ok? ==> queryResults == Some(r.value)
                        && history.entries == History.Appended(old(history.entries), r.value, history.maxSize)
      ensures r.Err? ==> queryResults == old(queryResults) && history.entries == old(history.entries)
    {
      ghost var expected := Outcome(req, fetch);
      var planned := BuildTaskList(req);
      if planned.Err? {
        return Err(planned.error);
      }
      var merged := RunTasks(planned.value, fetch);
      assert merged == expected;
      if merged.Err? {
        return merged;
      }
      queryResults := Some(merged.value);
      history.Add(merged.value);
      return merged;
    }
  }
}
