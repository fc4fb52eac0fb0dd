/** HistoryList: a doubly linked list of the most recent query results,
    capped at MaxSize entries, oldest at Head and newest at Tail. This is
    the list as its comments describe it; the code as written is modelled
    in HistoryAsWritten. */
module History {
  import opened Wrappers
  import opened Strings

  // ---------------------------------------------------------------------
  // The abstract list: entries oldest first

  /** The entries after inserting `d`: the oldest one is evicted when the
      list is already at its cap. */
  function Appended<T>(es: seq<T>, d: T, cap: nat): (r: seq<T>)
    requires cap >= 1 && |es| <= cap
    ensures |r| == if |es| == cap then cap else |es| + 1
    ensures |r| <= cap && r[|r| - 1] == d
  {
    if |es| == cap then es[1..] + [d] else es + [d]
  }

  /** The last `k` elements of a sequence (all of them when it is shorter). */
  function LastN<T>(s: seq<T>, k: nat): (r: seq<T>)
    ensures |r| == if |s| < k then |s| else k
  {
    if |s| <= k then s else s[|s| - k..]
  }

  /** Inserting one entry at a time from an empty list. */
  function InsertAll<T>(inserts: seq<T>, cap: nat): (r: seq<T>)
    requires cap >= 1
    ensures |r| <= cap
  {
    if inserts == [] then [] else Appended(InsertAll(inserts[..|inserts| - 1], cap), inserts[|inserts| - 1], cap)
  }

  /** Eviction order: after any run of inserts the list holds exactly the
      last `cap` of them, oldest first. */
  lemma {:induction false} InsertAllKeepsLast<T>(inserts: seq<T>, cap: nat)
    requires cap >= 1
    ensures InsertAll(inserts, cap) == LastN(inserts, cap)
  {
    if inserts != [] {
      var init := inserts[..|inserts| - 1];
      var d := inserts[|inserts| - 1];
      InsertAllKeepsLast(init, cap);
      LastAfterAppend(init, d, cap);
      assert InsertAll(inserts, cap) == Appended(LastN(init, cap), d, cap);
      assert inserts == init + [d];
    }
  }

  /** One more insert moves the window of the last `cap` elements. */
  lemma LastAfterAppend<T>(init: seq<T>, d: T, cap: nat)
    requires cap >= 1
    ensures Appended(LastN(init, cap), d, cap) == LastN(init + [d], cap)
  {
    if |init| >= cap {
      WindowSlides(init, d, cap);
    }
  }

  /** Sliding the window of the last `cap` elements one step to the right. */
  lemma WindowSlides<T>(init: seq<T>, d: T, cap: nat)
    requires 1 <= cap <= |init|
    ensures init[|init| - cap..][1..] + [d] == (init + [d])[|init| + 1 - cap..]
  {
    var lhs := init[|init| - cap..][1..] + [d];
    var rhs := (init + [d])[|init| + 1 - cap..];
    assert |lhs| == |rhs|;
    forall k | 0 <= k < |lhs| ensures lhs[k] == rhs[k] {
      if k < cap - 1 {
        assert lhs[k] == init[|init| - cap + 1 + k];
      }
    }
  }

  /** RetrieveRecentNthQuery's intended answer: TypeError for a negative n,
      None when n exceeds the size or the list is empty, otherwise the n-th
      most recent entry (n = 0 and n = 1 both give the newest). */
  function NthMostRecent<T>(es: seq<T>, n: int): (r: Result<Option<T>>)
    ensures r.Err? <==> n < 0
    ensures r.Err? ==> r.error == TypeError
    ensures r.Ok? && r.value.Some? <==> 0 <= n <= |es| && es != []
  {
    if n < 0 then Err(TypeError)
    else if n > |es| || es == [] then Ok(None)
    else Ok(Some(es[|es| - (if n == 0 then 1 else n)]))
  }

  /** The entry just inserted is the most recent one. */
  lemma NewestAfterAppend<T>(es: seq<T>, d: T, cap: nat)
    requires cap >= 1 && |es| <= cap
    ensures NthMostRecent(Appended(es, d, cap), 1) == Ok(Some(d))
    ensures NthMostRecent(Appended(es, d, cap), 0) == Ok(Some(d))
  {
  }

  /** An insert shifts every entry that survives it one place back:
      the n-th most recent becomes the (n+1)-th. */
  lemma AppendShifts<T>(es: seq<T>, d: T, cap: nat, n: int)
    requires cap >= 1 && |es| <= cap
    requires 1 <= n < cap
    ensures NthMostRecent(Appended(es, d, cap), n + 1) == NthMostRecent(es, n)
  {
    var r := Appended(es, d, cap);
    if n <= |es| {
      assert r[|r| - (n + 1)] == es[|es| - n];
    }
  }

  // ---------------------------------------------------------------------
  // The display

  function Reversed<T>(s: seq<T>): (r: seq<T>)
    ensures |r| == |s|
    ensures forall i | 0 <= i < |s| :: r[i] == s[|s| - 1 - i]
  {
    seq(|s|, i requires 0 <= i < |s| => s[|s| - 1 - i])
  }

  function Header(size: int): string {
    "Recent History Size: " + IntToDecimal(size) + "\n"
  }

  /** One entry of the display, with its 0-based index. */
  function Block(index: int, text: string): string {
    IntToDecimal(index) + ":\n:::\n[\n" + text + "\n]\n:::\n"
  }

  /** The blocks of a run of entries, numbered from `index`. */
  function Blocks<T>(rs: seq<T>, show: T -> string, index: int): string {
    if rs == [] then "" else Block(index, show(rs[0])) + Blocks(rs[1..], show, index + 1)
  }

  /** __str__: the size header, then the entries newest to oldest. */
  function Display<T>(es: seq<T>, size: int, show: T -> string): string {
    Header(size) + Blocks(Reversed(es), show, 0)
  }

  /** The display opens with the size header and the newest entry as block 0. */
  lemma DisplayStartsWithNewest<T>(es: seq<T>, show: T -> string)
    requires es != []
    ensures Header(|es|) + Block(0, show(es[|es| - 1])) <= Display(es, |es|, show)
  {
  }

  /** After an insert into a list below its cap, the display lists the new
      entry first and then the old entries, renumbered from 1. */
  lemma DisplayAfterInsert<T>(es: seq<T>, d: T, cap: nat, show: T -> string)
    requires cap >= 1 && |es| < cap
    ensures Display(Appended(es, d, cap), |es| + 1, show)
            == Header(|es| + 1) + Block(0, show(d)) + Blocks(Reversed(es), show, 1)
  {
    var r := Reversed(es + [d]);
    assert r[1..] == Reversed(es);
  }

  // ---------------------------------------------------------------------
  // The linked list

  class Node<T> {
    const data: T
    var next: Node?<T>
    var prev: Node?<T>

    constructor (d: T)
      ensures data == d && next == null && prev == null
    {
      data := d;
      next := null;
      prev := null;
    }
  }

  class HistoryList<T> {
    var head: Node?<T>
    var tail: Node?<T>
    const maxSize: nat
    var size: nat
    /** The entries, oldest (Head) first, and the nodes that hold them. */
    ghost var entries: seq<T>
    ghost var nodes: seq<Node<T>>
    ghost var Repr: set<object>

    ghost predicate Valid()
      reads this, Repr
    {
      this in Repr
      && (forall i | 0 <= i < |nodes| :: nodes[i] in Repr)
      && maxSize >= 1 && size <= maxSize
      && |nodes| == size && |entries| == size
      && (forall i | 0 <= i < |nodes| :: nodes[i].data == entries[i])
      && (forall i, j | 0 <= i < j < |nodes| :: nodes[i] != nodes[j])
      && (nodes == [] ==> head == null && tail == null)
      && (nodes != [] ==>
            head == nodes[0] && tail == nodes[|nodes| - 1]
            && nodes[0].prev == null && nodes[|nodes| - 1].next == null)
      && (forall i | 0 <= i < |nodes| - 1 :: nodes[i].next == nodes[i + 1] && nodes[i + 1].prev == nodes[i])
    }

    constructor (cap: nat)
      requires cap >= 1
      ensures Valid() && fresh(Repr)
      ensures maxSize == cap && entries == []
    {
      head, tail := null, null;
      maxSize := cap;
      size := 0;
      entries, nodes := [], [];
      Repr := {this};
    }

    /** __iadd__: appends at Tail, evicting Head first when at the cap. */
    method Add(d: T)
      requires Valid()
      modifies Repr
      ensures Valid() && fresh(Repr - old(Repr))
      ensures entries == Appended(old(entries), d, maxSize)
    {
      if head == null {
        var n := new Node(d);
        head, tail := n, n;
        size := 1;
        entries, nodes := [d], [n];
        Repr := Repr + {n};
        return;
      }
      if size == maxSize {
        if size == 1 {
          // a cap of one: the only entry is evicted
          assert entries[1..] + [d] == [d];
          var n := new Node(d);
          head, tail := n, n;
          size := 1;
          entries, nodes := [d], [n];
          Repr := Repr + {n};
          return;
        }
        EvictHead();
      }
      AppendAtTail(d);
    }

    /** Drops the oldest entry: Head moves to its successor. */
    method EvictHead()
      requires Valid() && size >= 2
      modifies Repr
      ensures Valid() && Repr == old(Repr)
      ensures entries == old(entries)[1..]
    {
      assert head.next == nodes[1] && nodes[1] in Repr;
      head := head.next;
      head.prev := null;
      size := size - 1;
      entries, nodes := entries[1..], nodes[1..];
    }

    /** Links a new node after Tail. */
    method AppendAtTail(d: T)
      requires Valid() && size < maxSize && head != null
      modifies Repr
      ensures Valid() && fresh(Repr - old(Repr))
      ensures entries == old(entries) + [d]
    {
      var n := new Node(d);
      tail.next := n;
      n.prev := tail;
      tail := n;
      size := size + 1;
      entries, nodes := entries + [d], nodes + [n];
      Repr := Repr + {n};
    }

    /** __str__: walks from Tail back to Head. */
    method ToString(show: T -> string) returns (display: string)
      requires Valid()
      ensures display == Display(entries, size, show)
    {
      var traverse := tail;
      var index := 0;
      display := Header(size);
      ghost var rs := Reversed(entries);
      assert rs[0..] == rs;
      while traverse != null
        invariant 0 <= index <= |nodes|
        invariant traverse == if index < |nodes| then nodes[|nodes| - 1 - index] else null
        invariant Display(entries, size, show) == display + Blocks(rs[index..], show, index)
        decreases |nodes| - index
      {
        assert rs[index..][1..] == rs[index + 1..];
        assert display + (Block(index, show(traverse.data)) + Blocks(rs[index + 1..], show, index + 1))
               == (display + Block(index, show(traverse.data))) + Blocks(rs[index + 1..], show, index + 1);
        display := display + Block(index, show(traverse.data));
        traverse := traverse.prev;
        index := index + 1;
      }
      assert rs[index..] == [];
      assert display + "" == display;
    }

    /** RetrieveRecentNthQuery as intended: from Tail, n - 1 steps back. */
    method RetrieveRecentNthQuery(n: int) returns (r: Result<Option<T>>)
      requires Valid()
      ensures r == NthMostRecent(entries, n)
    {
      if n < 0 {
        return Err(TypeError);
      }
      if n > size || tail == null {
        return Ok(None);
      }
      var traverse := tail;
      var k := n - 1;
      while k > 0
        invariant n >= 1 ==> 0 <= k < n && traverse == nodes[|nodes| - n + k]
        invariant n == 0 ==> k == -1 && traverse == nodes[|nodes| - 1]
        decreases k
      {
        traverse := traverse.prev;
        k := k - 1;
      }
      return Ok(Some(traverse.data));
    }
  }
}
