/** The parsed markup tree, and the two searches the readers run on it:
    `find` (the first matching strict descendant, in document order) and
    `findAll` (every matching strict descendant, in document order). */
module Dom {
  import opened Wrappers

  /** An element with its tag name, its class list, its other attributes and
      its children, or a run of text. */
  datatype Node =
    | Element(tag: string, classes: seq<string>, attrs: map<string, string>, children: seq<Node>)
    | TextNode(content: string)

  /** Tag-and-class matching of `find(tag, class_=cls)`: a class filter holds
      when the class is one of the element's classes; None filters by tag only. */
  predicate Matches(n: Node, tag: string, cls: Option<string>) {
    n.Element? && n.tag == tag && (cls.Some? ==> cls.value in n.classes)
  }

  /** `has_attr('class')`. */
  predicate HasClassAttr(n: Node) {
    n.Element? && n.classes != []
  }

  /** The strict descendants of n in document (pre-)order. */
  function Descendants(n: Node): seq<Node>
    decreases n
  {
    match n
    case TextNode(_) => []
    case Element(_, _, _, cs) => DescendantsOf(cs)
  }

  /** The nodes of a forest in document order. */
  function DescendantsOf(cs: seq<Node>): seq<Node>
    decreases cs
  {
    if cs == [] then [] else [cs[0]] + Descendants(cs[0]) + DescendantsOf(cs[1..])
  }

  /** Reference search: the first node of s that matches. */
  function FirstMatch(s: seq<Node>, tag: string, cls: Option<string>): (r: Option<Node>)
    ensures r.Some? ==> Matches(r.value, tag, cls)
  {
    if s == [] then None
    else if Matches(s[0], tag, cls) then Some(s[0])
    else FirstMatch(s[1..], tag, cls)
  }

  /** `node.find(tag, class_=cls)`: a depth-first walk of the tree. */
  function Find(n: Node, tag: string, cls: Option<string>): (r: Option<Node>)
    ensures r.Some? ==> Matches(r.value, tag, cls) && r.value in Descendants(n)
    ensures r.None? <==> forall d | d in Descendants(n) :: !Matches(d, tag, cls)
    decreases n
  {
    match n
    case TextNode(_) => None
    case Element(_, _, _, cs) => FindIn(cs, tag, cls)
  }

  function FindIn(cs: seq<Node>, tag: string, cls: Option<string>): (r: Option<Node>)
    ensures r.Some? ==> Matches(r.value, tag, cls) && r.value in DescendantsOf(cs)
    ensures r.None? <==> forall d | d in DescendantsOf(cs) :: !Matches(d, tag, cls)
    decreases cs
  {
    if cs == [] then None
    else if Matches(cs[0], tag, cls) then Some(cs[0])
    else
      match Find(cs[0], tag, cls)
      case Some(m) => Some(m)
      case None => FindIn(cs[1..], tag, cls)
  }

  lemma {:induction false} FirstMatchConcat(a: seq<Node>, b: seq<Node>, tag: string, cls: Option<string>)
    ensures FirstMatch(a + b, tag, cls)
            == if FirstMatch(a, tag, cls).Some? then FirstMatch(a, tag, cls) else FirstMatch(b, tag, cls)
    decreases a
  {
    if a == [] {
      assert a + b == b;
    } else {
      assert (a + b)[1..] == a[1..] + b;
      FirstMatchConcat(a[1..], b, tag, cls);
    }
  }

  /** The tree walk finds exactly the first match in document order. */
  lemma {:induction false} FindIsFirstMatch(n: Node, tag: string, cls: Option<string>)
    ensures Find(n, tag, cls) == FirstMatch(Descendants(n), tag, cls)
    decreases n
  {
    match n
    case TextNode(_) =>
    case Element(_, _, _, cs) => FindInIsFirstMatch(cs, tag, cls);
  }

  lemma {:induction false} FindInIsFirstMatch(cs: seq<Node>, tag: string, cls: Option<string>)
    ensures FindIn(cs, tag, cls) == FirstMatch(DescendantsOf(cs), tag, cls)
    decreases cs
  {
    if cs != [] {
      var rest := Descendants(cs[0]) + DescendantsOf(cs[1..]);
      assert DescendantsOf(cs) == [cs[0]] + rest;
      FirstMatchConcat([cs[0]], rest, tag, cls);
      FirstMatchConcat(Descendants(cs[0]), DescendantsOf(cs[1..]), tag, cls);
      FindIsFirstMatch(cs[0], tag, cls);
      FindInIsFirstMatch(cs[1..], tag, cls);
    }
  }

  /** The nodes of s that carry the tag, in their order in s. */
  function FilterTag(s: seq<Node>, tag: string): (r: seq<Node>)
    ensures forall x :: x in r <==> x in s && Matches(x, tag, None)
    ensures |r| <= |s|
  {
    if s == [] then []
    else (if Matches(s[0], tag, None) then [s[0]] else []) + FilterTag(s[1..], tag)
  }

  /** The filter keeps document order: filtering two runs gives the first
      run's matches followed by the second's. */
  lemma {:induction false} FilterTagConcat(a: seq<Node>, b: seq<Node>, tag: string)
    ensures FilterTag(a + b, tag) == FilterTag(a, tag) + FilterTag(b, tag)
    decreases a
  {
    if a == [] {
      assert a + b == b;
    } else {
      assert (a + b)[0] == a[0];
      assert (a + b)[1..] == a[1..] + b;
      FilterTagConcat(a[1..], b, tag);
      var head := if Matches(a[0], tag, None) then [a[0]] else [];
      assert head + (FilterTag(a[1..], tag) + FilterTag(b, tag)) == (head + FilterTag(a[1..], tag)) + FilterTag(b, tag);
    }
  }

  /** A single node is kept exactly when it has the tag. */
  lemma FilterTagSingle(x: Node, tag: string)
    ensures FilterTag([x], tag) == if Matches(x, tag, None) then [x] else []
  {
    assert [x][1..] == [];
  }

  /** `node.findAll(tag)`: every descendant with that tag, in document order. */
  function FindAll(n: Node, tag: string): seq<Node> {
    FilterTag(Descendants(n), tag)
  }

  /** `node.text`: every piece of text below the node, in document order. */
  function Text(n: Node): string
    decreases n
  {
    match n
    case TextNode(s) => s
    case Element(_, _, _, cs) => TextOf(cs)
  }

  function TextOf(cs: seq<Node>): string
    decreases cs
  {
    if cs == [] then "" else Text(cs[0]) + TextOf(cs[1..])
  }
}
