/** An XML element tree as a value, and the lxml queries the library uses on
    it: `find(tag)` (first direct child with that tag), `findall(tag)` (all
    direct children with that tag) and `.text`. */
module Xml {
  import opened Common

  datatype Node = Node(tag: string, text: Option<string>, attrs: map<string, string>, children: seq<Node>)

  /** An element with children and no text, as `SubElement` creates it. */
  function Element(tag: string, children: seq<Node>): Node {
    Node(tag, None, map[], children)
  }

  /** An element whose `.text` was assigned and which has no children. */
  function Leaf(tag: string, text: Option<string>): Node {
    Node(tag, text, map[], [])
  }

  /** An element created only when its value is truthy (`if value: add_child(tag).text = value`). */
  function Optional(tag: string, value: Option<string>): seq<Node> {
    if Truthy(value) then [Leaf(tag, value)] else []
  }

  lemma OptionalTags(tag: string, value: Option<string>)
    ensures Tags(Optional(tag, value)) == if Truthy(value) then [tag] else []
  {
  }

  /** The tags of a sequence of elements, in order. */
  function Tags(ns: seq<Node>): (r: seq<string>)
    ensures |r| == |ns|
    ensures forall i :: 0 <= i < |ns| ==> r[i] == ns[i].tag
  {
    seq(|ns|, i requires 0 <= i < |ns| => ns[i].tag)
  }

  /** The texts of a sequence of elements, in order. */
  function Texts(ns: seq<Node>): (r: seq<Option<string>>)
    ensures |r| == |ns|
    ensures forall i :: 0 <= i < |ns| ==> r[i] == ns[i].text
  {
    seq(|ns|, i requires 0 <= i < |ns| => ns[i].text)
  }

  lemma TagsConcat(a: seq<Node>, b: seq<Node>)
    ensures Tags(a + b) == Tags(a) + Tags(b)
  {
  }

  /** The first element of `ns` with the given tag. */
  function FindIn(ns: seq<Node>, tag: string): (r: Option<Node>)
    ensures r.Some? <==> tag in Tags(ns)
    ensures r.Some? ==> r.value.tag == tag
  {
    if ns == [] then None
    else if ns[0].tag == tag then Some(ns[0])
    else
      assert Tags(ns) == [ns[0].tag] + Tags(ns[1..]);
      FindIn(ns[1..], tag)
  }

  /** `node.find(tag)` */
  function Find(n: Node, tag: string): Option<Node> {
    FindIn(n.children, tag)
  }

  /** The elements of `ns` with the given tag, in order. */
  function Filter(ns: seq<Node>, tag: string): (r: seq<Node>)
    ensures |r| <= |ns|
    ensures forall i :: 0 <= i < |r| ==> r[i].tag == tag
  {
    if ns == [] then [] else (if ns[0].tag == tag then [ns[0]] else []) + Filter(ns[1..], tag)
  }

  /** `node.findall(tag)` */
  function FindAll(n: Node, tag: string): seq<Node> {
    Filter(n.children, tag)
  }

  /** `node.find("a/b")`: the first `b` child of any `a` child, in document order. */
  function FindPath(n: Node, a: string, b: string): Option<Node> {
    FirstOfAny(FindAll(n, a), b)
  }

  function FirstOfAny(parents: seq<Node>, tag: string): Option<Node> {
    if parents == [] then None
    else match FindIn(parents[0].children, tag)
      case Some(x) => Some(x)
      case None => FirstOfAny(parents[1..], tag)
  }

  /** `.text` of a `find` result, failing as Python does when nothing was found. */
  function TextOf(found: Option<Node>, path: string): (r: Result<Option<string>>)
    ensures r.Success? <==> found.Some?
    ensures found.Some? ==> r.value == found.value.text
  {
    match found
    case None => Failure(MissingElement(path))
    case Some(x) => Success(x.text)
  }

  /** The element at index `i` is what `FindIn` returns when no earlier element has its tag. */
  lemma {:induction false} FindInFirst(ns: seq<Node>, tag: string, i: nat)
    requires i < |ns| && ns[i].tag == tag
    requires forall j :: 0 <= j < i ==> ns[j].tag != tag
    ensures FindIn(ns, tag) == Some(ns[i])
  {
    if i > 0 {
      FindInFirst(ns[1..], tag, i - 1);
    }
  }

  /** No two elements share a tag. */
  predicate DistinctTags(ns: seq<Node>) {
    forall i, j :: 0 <= i < j < |ns| ==> ns[i].tag != ns[j].tag
  }

  /** Among elements with distinct tags, `FindIn` finds each one by its tag. */
  lemma FindDistinct(ns: seq<Node>)
    requires DistinctTags(ns)
    ensures forall i :: 0 <= i < |ns| ==> FindIn(ns, ns[i].tag) == Some(ns[i])
  {
    forall i | 0 <= i < |ns|
      ensures FindIn(ns, ns[i].tag) == Some(ns[i])
    {
      FindInFirst(ns, ns[i].tag, i);
    }
  }

  /** Elements none of which carries the tag are skipped by `FindIn`. */
  lemma {:induction false} FindInSkip(a: seq<Node>, b: seq<Node>, tag: string)
    requires tag !in Tags(a)
    ensures FindIn(a + b, tag) == FindIn(b, tag)
  {
    if a == [] {
      assert a + b == b;
    } else {
      assert a[0].tag == Tags(a)[0];
      assert Tags(a[1..]) == Tags(a)[1..];
      assert (a + b)[1..] == a[1..] + b;
      FindInSkip(a[1..], b, tag);
    }
  }

  /** What `FindIn` finds in `a` it still finds once more elements follow. */
  lemma {:induction false} FindInExtend(a: seq<Node>, b: seq<Node>, tag: string)
    requires FindIn(a, tag).Some?
    ensures FindIn(a + b, tag) == FindIn(a, tag)
  {
    assert (a + b)[0] == a[0];
    if a[0].tag != tag {
      assert (a + b)[1..] == a[1..] + b;
      FindInExtend(a[1..], b, tag);
    }
  }

  /** Filtering elements that all carry the tag keeps all of them. */
  lemma {:induction false} FilterAllMatching(ns: seq<Node>, tag: string)
    requires forall i :: 0 <= i < |ns| ==> ns[i].tag == tag
    ensures Filter(ns, tag) == ns
  {
    if ns != [] {
      FilterAllMatching(ns[1..], tag);
    }
  }

  /** Filtering elements none of which carries the tag keeps none of them. */
  lemma {:induction false} FilterNoneMatching(ns: seq<Node>, tag: string)
    requires tag !in Tags(ns)
    ensures Filter(ns, tag) == []
  {
    if ns != [] {
      assert ns[0].tag == Tags(ns)[0];
      assert Tags(ns[1..]) == Tags(ns)[1..];
      FilterNoneMatching(ns[1..], tag);
    }
  }

  lemma {:induction false} FilterConcat(a: seq<Node>, b: seq<Node>, tag: string)
    ensures Filter(a + b, tag) == Filter(a, tag) + Filter(b, tag)
  {
    if a == [] {
      assert a + b == b;
    } else {
      assert (a + b)[0] == a[0] && (a + b)[1..] == a[1..] + b;
      FilterConcat(a[1..], b, tag);
    }
  }
}
