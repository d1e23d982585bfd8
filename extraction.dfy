/**
 * The selection rule of `parse_html`: every `div` whose class tokens include
 * `search-title`, in document order, contributes the URL of its first `a`
 * descendant, if it has one.
 */
module Extraction {
  import opened Wrappers
  import opened HtmlTree

  /** One entry of the result list, the dictionary `{"url": ...}`. */
  datatype ResultRecord = ResultRecord(url: string)

  const Origin: string := "https://github.com"
  const ContainerTag: string := "div"
  const MarkerClass: string := "search-title"
  const AnchorTag: string := "a"

  /** How a Python f-string renders a missing attribute value. */
  const MissingHref: string := "None"

  /** The `find_all` filter: a `div` with `search-title` among its class tokens. */
  predicate IsSearchTitle(e: Element)
  {
    e.tag == ContainerTag && MarkerClass in e.classes
  }

  /** The text the f-string puts after the origin for an anchor's `href`. */
  function HrefText(href: Option<string>): string
  {
    match href
    case Some(h) => h
    case None => MissingHref
  }

  function AnchorRecord(a: Element): ResultRecord
  {
    ResultRecord(Origin + HrefText(a.href))
  }

  /** The loop body for one matching element: its first anchor's record, if any. */
  function RecordOf(e: Element): seq<ResultRecord>
  {
    match Find(e, AnchorTag)
    case None => []
    case Some(a) => [AnchorRecord(a)]
  }

  /** `find_all(tag, class_=...)` over elements given in document order. */
  function FindAll(s: seq<Element>): seq<Element>
  {
    if s == [] then []
    else FindAll(s[..|s| - 1]) + (if IsSearchTitle(s[|s| - 1]) then [s[|s| - 1]] else [])
  }

  /** The records the loop appends, one per match that has an anchor. */
  function Emit(matches: seq<Element>): seq<ResultRecord>
  {
    if matches == [] then []
    else Emit(matches[..|matches| - 1]) + RecordOf(matches[|matches| - 1])
  }

  /** What `parse_html` returns for a parsed document (its top-level nodes). */
  function Extracted(doc: seq<Element>): seq<ResultRecord>
  {
    Emit(FindAll(Descendants(doc)))
  }

  // ---------------------------------------------------------------------
  // An independent reference: the rule stated as a walk over the tree.
  // ---------------------------------------------------------------------

  /** What one element contributes by itself, ignoring its subtree. */
  function Own(e: Element): seq<ResultRecord>
  {
    if IsSearchTitle(e) then RecordOf(e) else []
  }

  function ExtractTree(e: Element): seq<ResultRecord>
  {
    Own(e) + ExtractForest(e.children)
  }

  function ExtractForest(es: seq<Element>): seq<ResultRecord>
  {
    if es == [] then [] else ExtractTree(es[0]) + ExtractForest(es[1..])
  }

  // ---------------------------------------------------------------------
  // Lemmas
  // ---------------------------------------------------------------------

  lemma {:induction false} FindAllAppend(a: seq<Element>, b: seq<Element>)
    ensures FindAll(a + b) == FindAll(a) + FindAll(b)
    decreases |b|
  {
    if b == [] {
      assert a + b == a;
    } else {
      var b' := b[..|b| - 1];
      assert (a + b)[..|a + b| - 1] == a + b';
      assert (a + b)[|a + b| - 1] == b[|b| - 1];
      FindAllAppend(a, b');
    }
  }

  lemma {:induction false} EmitAppend(a: seq<Element>, b: seq<Element>)
    ensures Emit(a + b) == Emit(a) + Emit(b)
    decreases |b|
  {
    if b == [] {
      assert a + b == a;
    } else {
      var b' := b[..|b| - 1];
      assert (a + b)[..|a + b| - 1] == a + b';
      assert (a + b)[|a + b| - 1] == b[|b| - 1];
      EmitAppend(a, b');
    }
  }

  /** Selection distributes over concatenation of the element sequence: order is kept. */
  lemma PipelineAppend(a: seq<Element>, b: seq<Element>)
    ensures Emit(FindAll(a + b)) == Emit(FindAll(a)) + Emit(FindAll(b))
  {
    FindAllAppend(a, b);
    EmitAppend(FindAll(a), FindAll(b));
  }

  /**
   * The loop-based rule and the tree walk agree on every document: each
   * element contributes its own record before those of its subtree, and a
   * subtree before its following siblings.
   */
  lemma {:induction false} ExtractedIsTreeWalk(doc: seq<Element>)
    ensures Extracted(doc) == ExtractForest(doc)
  {
    if doc != [] {
      var e, rest := doc[0], doc[1..];
      assert Descendants(doc) == [e] + Descendants(e.children) + Descendants(rest);
      PipelineAppend([e] + Descendants(e.children), Descendants(rest));
      PipelineAppend([e], Descendants(e.children));
      assert [e][..0] == [];
      assert Emit(FindAll([e])) == Own(e);
      ExtractedIsTreeWalk(e.children);
      ExtractedIsTreeWalk(rest);
    }
  }

  /** Documents concatenate: the results of two sibling runs are concatenated in order. */
  lemma ExtractedAppend(a: seq<Element>, b: seq<Element>)
    ensures Extracted(a + b) == Extracted(a) + Extracted(b)
  {
    DescendantsAppend(a, b);
    PipelineAppend(Descendants(a), Descendants(b));
  }

  lemma {:induction false} FindAllMembers(s: seq<Element>, e: Element)
    ensures e in FindAll(s) <==> e in s && IsSearchTitle(e)
    decreases |s|
  {
    if s != [] {
      var s' := s[..|s| - 1];
      assert s == s' + [s[|s| - 1]];
      FindAllMembers(s', e);
    }
  }

  lemma {:induction false} EmitBound(matches: seq<Element>)
    ensures |Emit(matches)| <= |matches|
    decreases |matches|
  {
    if matches != [] {
      EmitBound(matches[..|matches| - 1]);
    }
  }

  lemma {:induction false} EmitMembers(matches: seq<Element>, r: ResultRecord)
    ensures r in Emit(matches) <==>
      exists e :: e in matches && Find(e, AnchorTag).Some? && r == AnchorRecord(Find(e, AnchorTag).value)
    decreases |matches|
  {
    if matches != [] {
      var m' := matches[..|matches| - 1];
      var last := matches[|matches| - 1];
      assert matches == m' + [last];
      EmitMembers(m', r);
      if r in Emit(matches) && r !in Emit(m') {
        assert r in RecordOf(last);
        assert last in matches;
      }
    }
  }

  /** At most one record per matching `div`. */
  lemma AtMostOnePerMatch(doc: seq<Element>)
    ensures |Extracted(doc)| <= |FindAll(Descendants(doc))|
  {
    EmitBound(FindAll(Descendants(doc)));
  }

  /**
   * A record is in the result exactly when some matching `div` of the
   * document has a first anchor that yields it.
   */
  lemma ExtractedMembers(doc: seq<Element>, r: ResultRecord)
    ensures r in Extracted(doc) <==>
      exists e :: e in Descendants(doc) && IsSearchTitle(e) && Find(e, AnchorTag).Some?
                  && r == AnchorRecord(Find(e, AnchorTag).value)
  {
    var all := Descendants(doc);
    EmitMembers(FindAll(all), r);
    forall e {
      FindAllMembers(all, e);
    }
  }

  /** Every URL produced starts with the origin. */
  lemma ExtractedUrlsHaveOrigin(doc: seq<Element>)
    ensures forall r :: r in Extracted(doc) ==> |Origin| <= |r.url| && r.url[..|Origin|] == Origin
  {
    forall r | r in Extracted(doc)
      ensures |Origin| <= |r.url| && r.url[..|Origin|] == Origin
    {
      ExtractedMembers(doc, r);
    }
  }

  /** Markup without a matching `div` yields an empty list, whatever anchors it holds. */
  lemma NoMatchNoResults(doc: seq<Element>)
    requires forall e :: e in Descendants(doc) ==> !IsSearchTitle(e)
    ensures Extracted(doc) == []
  {
    if Extracted(doc) != [] {
      ExtractedMembers(doc, Extracted(doc)[0]);
    }
  }

  /** Class matching is token membership: other tokens around the marker do not matter. */
  lemma MarkerAmongOtherTokens(e: Element, before: seq<string>, after: seq<string>)
    requires IsSearchTitle(e)
    ensures IsSearchTitle(e.(classes := before + e.classes + after))
  {
    var i :| 0 <= i < |e.classes| && e.classes[i] == MarkerClass;
    assert (before + e.classes + after)[|before| + i] == MarkerClass;
  }

  // ---------------------------------------------------------------------
  // The documents of the test suite
  // ---------------------------------------------------------------------

  const FixtureClasses: seq<string> := ["Box-sc-g0xbh4-0", "bBwPjs", "search-title"]

  /** `<html><body><div class="..."><a href=...>..</a></div></body></html>` */
  function SearchResultPage(classes: seq<string>, href: Option<string>): seq<Element>
  {
    [Element("html", [], None, [
      Element("body", [], None, [
        Element("div", classes, None, [
          Element("a", [], href, [])])])])]
  }

  /** A page shaped like the test fixtures yields the one anchor's URL. */
  lemma {:induction false} SearchResultPageYieldsItsLink(page: seq<Element>, href: Option<string>, url: string)
    requires page == SearchResultPage(FixtureClasses, href)
    requires url == Origin + HrefText(href)
    ensures Extracted(page) == [ResultRecord(url)]
  {
    var a := Element("a", [], href, []);
    var div := Element("div", FixtureClasses, None, [a]);
    var body := Element("body", [], None, [div]);
    var html := Element("html", [], None, [body]);
    assert page == [html];
    ExtractedIsTreeWalk([html]);
    assert FixtureClasses[2] == MarkerClass;
    assert Descendants(div.children) == [a];
    assert Find(div, AnchorTag) == Some(a);
    assert ExtractTree(a) == [];
    assert ExtractForest(div.children) == [];
    assert ExtractTree(div) == [AnchorRecord(a)];
    assert ExtractForest(body.children) == [AnchorRecord(a)];
    assert ExtractTree(body) == [AnchorRecord(a)];
    assert ExtractForest(html.children) == [AnchorRecord(a)];
    assert ExtractTree(html) == [AnchorRecord(a)];
  }

  /** The repository fixture of the test suite. */
  lemma RepositoriesFixture(page: seq<Element>)
    requires page == SearchResultPage(FixtureClasses, Some("/author/repo"))
    ensures Extracted(page) == [ResultRecord("https://github.com/author/repo")]
  {
    SearchResultPageYieldsItsLink(page, Some("/author/repo"), "https://github.com/author/repo");
  }

  /** The issue fixture: the rule does not depend on the requested result type. */
  lemma IssuesFixture(page: seq<Element>)
    requires page == SearchResultPage(FixtureClasses, Some("/author/repo/issues/1"))
    ensures Extracted(page) == [ResultRecord("https://github.com/author/repo/issues/1")]
  {
    SearchResultPageYieldsItsLink(page, Some("/author/repo/issues/1"), "https://github.com/author/repo/issues/1");
  }

  /** The wiki fixture: the rule does not depend on the requested result type. */
  lemma WikisFixture(page: seq<Element>)
    requires page == SearchResultPage(FixtureClasses, Some("/author/repo/wiki"))
    ensures Extracted(page) == [ResultRecord("https://github.com/author/repo/wiki")]
  {
    SearchResultPageYieldsItsLink(page, Some("/author/repo/wiki"), "https://github.com/author/repo/wiki");
  }

  /** An anchor without `href` still yields a record, with the text "None" after the origin. */
  lemma MissingHrefYieldsNoneUrl(page: seq<Element>)
    requires page == SearchResultPage(FixtureClasses, None)
    ensures Extracted(page) == [ResultRecord("https://github.comNone")]
  {
    SearchResultPageYieldsItsLink(page, None, "https://github.comNone");
  }

  /** Two nested matching `div`s both count, and both find the same inner anchor. */
  lemma {:induction false} NestedMatchesBothCount(doc: seq<Element>, href: string)
    requires doc == [Element("div", [MarkerClass], None, [
                       Element("div", [MarkerClass], None, [
                         Element("a", [], Some(href), [])])])]
    ensures Extracted(doc) == [ResultRecord(Origin + href), ResultRecord(Origin + href)]
  {
    var a := Element("a", [], Some(href), []);
    var inner := Element("div", [MarkerClass], None, [a]);
    var outer := Element("div", [MarkerClass], None, [inner]);
    assert doc == [outer];
    ExtractedIsTreeWalk(doc);
    assert Descendants(inner.children) == [a];
    assert Descendants(outer.children) == [inner, a];
    assert Find(inner, AnchorTag) == Some(a);
    assert Find(outer, AnchorTag) == Some(a);
    assert ExtractTree(a) == [];
    assert ExtractForest(inner.children) == [];
    assert ExtractTree(inner) == [AnchorRecord(a)];
    assert ExtractForest(outer.children) == [AnchorRecord(a)];
    assert ExtractTree(outer) == [AnchorRecord(a), AnchorRecord(a)];
  }
}
