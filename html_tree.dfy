/**
 * The parsed markup that the extractor walks. This replaces the tree that an
 * HTML parser builds from the response text: only elements are kept (text
 * nodes can never be selected), tag names are already lower-case, and the
 * `class` attribute is already split into its whitespace-separated tokens.
 */
module HtmlTree {
  import opened Wrappers

  datatype Element = Element(
    tag: string,
    classes: seq<string>,
    href: Option<string>,
    children: seq<Element>)

  /** The element followed by all of its descendants, in document order. */
  function PreOrder(e: Element): (s: seq<Element>)
    ensures |s| >= 1 && s[0] == e
  {
    [e] + Descendants(e.children)
  }

  /** Every element of a forest and of its subtrees, in document order. */
  function Descendants(es: seq<Element>): seq<Element>
  {
    if es == [] then [] else PreOrder(es[0]) + Descendants(es[1..])
  }

  lemma {:induction false} DescendantsAppend(a: seq<Element>, b: seq<Element>)
    ensures Descendants(a + b) == Descendants(a) + Descendants(b)
  {
    if a == [] {
      assert a + b == b;
    } else {
      assert (a + b)[0] == a[0];
      assert (a + b)[1..] == a[1..] + b;
      DescendantsAppend(a[1..], b);
    }
  }

  /**
   * Index of the first element of `s` with the given tag, if any: the search
   * that `element.find(tag)` performs over an element's descendants.
   */
  function FirstTagged(s: seq<Element>, tag: string): (r: Option<nat>)
    ensures r.None? <==> forall j :: 0 <= j < |s| ==> s[j].tag != tag
    ensures r.Some? ==> r.value < |s| && s[r.value].tag == tag
    ensures r.Some? ==> forall j :: 0 <= j < r.value ==> s[j].tag != tag
  {
    if s == [] then None
    else if s[0].tag == tag then Some(0)
    else
      match FirstTagged(s[1..], tag)
      case None => None
      case Some(i) => Some(i + 1)
  }

  /** `element.find(tag)`: the first descendant of `e` (not `e` itself) with that tag. */
  function Find(e: Element, tag: string): (r: Option<Element>)
    ensures r.Some? ==> r.value in Descendants(e.children) && r.value.tag == tag
    ensures r.None? <==> forall d :: d in Descendants(e.children) ==> d.tag != tag
    ensures r.Some? ==>
      exists i :: 0 <= i < |Descendants(e.children)| && Descendants(e.children)[i] == r.value &&
        forall j :: 0 <= j < i ==> Descendants(e.children)[j].tag != tag
  {
    var s := Descendants(e.children);
    match FirstTagged(s, tag)
    case None => None
    case Some(i) => Some(s[i])
  }
}
