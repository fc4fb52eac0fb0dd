/** HistoryList as its code is written, on values: the entries (oldest
    first) and the Size counter. Each defect is shown against the intended
    list of module History. */
module HistoryAsWritten {
  import opened Wrappers
  import History

  datatype Chain<T> = Chain(entries: seq<T>, size: int)

  /** The cap the code tests, whatever MaxSize is. */
  const HardCap: int := 10

  /** __iadd__ as written: the first insert leaves Size at 0, and every
      later insert reaches `self.Tail = newData`, a NameError. */
  function IaddAsWritten<T>(c: Chain<T>, d: T): Result<Chain<T>> {
    if c.entries == [] then Ok(Chain([d], c.size)) else Err(NameError)
  }

  /** The second insert into a new list raises NameError. */
  lemma SecondInsertRaises<T>(a: T, b: T)
    ensures IaddAsWritten(Chain([], 0), a) == Ok(Chain([a], 0))
    ensures IaddAsWritten(IaddAsWritten(Chain([], 0), a).value, b) == Err(NameError)
  {
  }

  /** __iadd__ with only the `newData` typo repaired: the cap is still 10,
      and the first insert is still not counted. Evicting from a one-entry
      list would raise (Head.NextData is None). */
  function IaddTypoFixed<T>(c: Chain<T>, d: T): Result<Chain<T>> {
    if c.entries == [] then Ok(Chain([d], c.size))
    else if c.size == HardCap then
      if |c.entries| < 2 then Err(AttributeError) else Ok(Chain(c.entries[1..] + [d], c.size))
    else Ok(Chain(c.entries + [d], c.size + 1))
  }

  /** A run of inserts into a new list, with the typo repaired. */
  function InsertAllTypoFixed<T>(inserts: seq<T>): Result<Chain<T>> {
    if inserts == [] then Ok(Chain([], 0))
    else
      match InsertAllTypoFixed(inserts[..|inserts| - 1])
      case Err(e) => Err(e)
      case Ok(c) => IaddTypoFixed(c, inserts[|inserts| - 1])
  }

  /** Whatever MaxSize is, the repaired code keeps the last 11 inserts, and
      Size stays one below the number of entries. */
  lemma {:induction false} TypoFixedKeepsEleven<T>(inserts: seq<T>)
    requires inserts != []
    ensures InsertAllTypoFixed(inserts) == Ok(Chain(History.LastN(inserts, 11), |History.LastN(inserts, 11)| - 1))
  {
    var init := inserts[..|inserts| - 1];
    var d := inserts[|inserts| - 1];
    assert inserts == init + [d];
    if init != [] {
      TypoFixedKeepsEleven(init);
      var kept := History.LastN(init, 11);
      if |init| >= 11 {
        assert kept == init[|init| - 11..];
        assert kept[1..] + [d] == inserts[|inserts| - 11..];
      } else {
        assert kept + [d] == inserts;
      }
    }
  }

  /** With MaxSize 3 the intended list keeps 3 of 11 inserts; the repaired
      code keeps all 11 and reports a Size of 10. */
  lemma HardCapIgnoresMaxSize(inserts: seq<int>)
    requires |inserts| == 11
    ensures |History.InsertAll(inserts, 3)| == 3
    ensures InsertAllTypoFixed(inserts) == Ok(Chain(inserts, 10))
  {
    History.InsertAllKeepsLast(inserts, 3);
    TypoFixedKeepsEleven(inserts);
  }

  /** RetrieveRecentNthQuery as written: below the size check the loop
      walks NextData from Tail (None at once) without ever decrementing n,
      or reads `.Data`, which a node does not have: AttributeError either
      way. */
  function RetrieveAsWritten<T>(c: Chain<T>, n: int): Result<Option<T>> {
    if n < 0 then Err(TypeError)
    else if n > c.size then Ok(None)
    else Err(AttributeError)
  }

  /** Asking for the newest entry never returns it as written, on the lists
      the inserts build: after one insert n = 0 raises AttributeError and
      n = 1 gives None (Size is still 0); with the `newData` typo repaired,
      after two inserts n = 1 raises AttributeError. The intended lookup
      returns the newest entry in each case. */
  lemma RetrieveNewestFails<T>(a: T, b: T)
    ensures IaddAsWritten(Chain([], 0), a) == Ok(Chain([a], 0))
    ensures RetrieveAsWritten(Chain([a], 0), 0) == Err(AttributeError)
    ensures RetrieveAsWritten(Chain([a], 0), 1) == Ok(None)
    ensures History.NthMostRecent([a], 0) == Ok(Some(a)) && History.NthMostRecent([a], 1) == Ok(Some(a))
    ensures InsertAllTypoFixed([a, b]) == Ok(Chain([a, b], 1))
    ensures RetrieveAsWritten(Chain([a, b], 1), 1) == Err(AttributeError)
    ensures History.NthMostRecent([a, b], 1) == Ok(Some(b))
  {
    assert [a, b][..1] == [a] && [a][..0] == [];
    assert InsertAllTypoFixed([a]) == Ok(Chain([a], 0));
    assert [a] + [b] == [a, b];
  }

  /** As written, no lookup within the size ever returns an entry. */
  lemma RetrieveNeverSucceeds<T>(c: Chain<T>, n: int)
    ensures RetrieveAsWritten(c, n).Ok? ==> RetrieveAsWritten(c, n).value.None?
    ensures 0 <= n <= c.size ==> RetrieveAsWritten(c, n) == Err(AttributeError)
  {
  }
}
