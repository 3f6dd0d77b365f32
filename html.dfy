/**
 * The parsed-document interface the extraction code uses, over an abstract
 * tree: BeautifulSoup's `find`, `find_parent`, `get_text(strip=True)` and
 * `.string`. A document is the root node (the BeautifulSoup object); a node
 * is addressed by its path of child indexes from the root.
 */
module Html {
  import opened Wrappers
  import opened Text

  datatype Node =
    | Element(tag: string, attrs: map<string, string>, children: seq<Node>)
    | TextNode(content: string)

  type Path = seq<nat>

  predicate ValidPath(n: Node, p: Path)
    decreases p
  {
    |p| == 0 || (n.Element? && p[0] < |n.children| && ValidPath(n.children[p[0]], p[1..]))
  }

  function At(n: Node, p: Path): Node
    requires ValidPath(n, p)
    decreases p
  {
    if |p| == 0 then n else At(n.children[p[0]], p[1..])
  }

  /** `p` comes strictly before `q` in document (pre-)order. */
  predicate Before(p: Path, q: Path)
    decreases p
  {
    |q| > 0 && (|p| == 0 || p[0] < q[0] || (p[0] == q[0] && Before(p[1..], q[1..])))
  }

  /** A `find` query: a tag name and, optionally, one attribute that must have a given value. */
  datatype Query = Query(tag: string, attr: Option<(string, string)>)

  predicate Matches(n: Node, q: Query) {
    && n.Element? && n.tag == q.tag
    && (q.attr.Some? ==> q.attr.value.0 in n.attrs && n.attrs[q.attr.value.0] == q.attr.value.1)
  }

  /** There is a descendant of `n` at `p` (not `n` itself) and it matches `q`. */
  predicate MatchAt(n: Node, p: Path, q: Query) {
    |p| >= 1 && ValidPath(n, p) && Matches(At(n, p), q)
  }

  lemma PathThroughChild(n: Node, i: nat, p: Path)
    requires n.Element? && i < |n.children|
    ensures ValidPath(n, [i] + p) == ValidPath(n.children[i], p)
    ensures ValidPath(n, [i] + p) ==> At(n, [i] + p) == At(n.children[i], p)
  {
    assert ([i] + p)[1..] == p;
  }

  /** `tag.find(...)`: the first descendant of `n`, in document order, that matches `q`. */
  function Find(n: Node, q: Query): (r: Option<Path>)
    ensures r.Some? ==> MatchAt(n, r.value, q)
    ensures r.Some? ==> forall p :: MatchAt(n, p, q) ==> p == r.value || Before(r.value, p)
    ensures r.None? ==> forall p :: !MatchAt(n, p, q)
    decreases n, 1
  {
    if n.TextNode? then None else FindFrom(n, 0, q)
  }

  /** The first match in the subtrees of children `i`, `i + 1`, ... of `n`. */
  function FindFrom(n: Node, i: nat, q: Query): (r: Option<Path>)
    requires n.Element? && i <= |n.children|
    ensures r.Some? ==> MatchAt(n, r.value, q) && r.value[0] >= i
    ensures r.Some? ==> forall p :: MatchAt(n, p, q) && p[0] >= i ==> p == r.value || Before(r.value, p)
    ensures r.None? ==> forall p :: MatchAt(n, p, q) ==> p[0] < i
    decreases n, 0, |n.children| - i
  {
    if i == |n.children| then None
    else
      var c := n.children[i];
      if Matches(c, q) then
        PathThroughChild(n, i, []);
        assert [i] + [] == [i];
        FirstFromChild(n, i, q, []);
        Some([i])
      else
        match Find(c, q)
        case Some(p) =>
          PathThroughChild(n, i, p);
          FirstFromChild(n, i, q, p);
          Some([i] + p)
        case None =>
          NoneInChild(n, i, q);
          FindFrom(n, i + 1, q)
  }

  /** If child `i` (at `p = []`) or its descendant `p` is the first match inside child `i`, then `[i] + p` is the first match from `i` on. */
  lemma FirstFromChild(n: Node, i: nat, q: Query, p: Path)
    requires n.Element? && i < |n.children|
    requires |p| == 0 ==> Matches(n.children[i], q)
    requires |p| > 0 ==> !Matches(n.children[i], q) && MatchAt(n.children[i], p, q)
    requires |p| > 0 ==> forall p' :: MatchAt(n.children[i], p', q) ==> p' == p || Before(p, p')
    ensures forall p' :: MatchAt(n, p', q) && p'[0] >= i ==> p' == [i] + p || Before([i] + p, p')
  {
    forall p' | MatchAt(n, p', q) && p'[0] >= i
      ensures p' == [i] + p || Before([i] + p, p')
    {
      var r := [i] + p;
      assert r[1..] == p;
      if p'[0] == i {
        assert p' == [i] + p'[1..];
        PathThroughChild(n, i, p'[1..]);
        if |p'| == 1 {
          assert At(n, p') == n.children[i];
          if |p| > 0 { assert false; }
        } else {
          assert MatchAt(n.children[i], p'[1..], q);
          if |p| == 0 { assert Before(p, p'[1..]); }
        }
      }
    }
  }

  lemma NoneInChild(n: Node, i: nat, q: Query)
    requires n.Element? && i < |n.children|
    requires !Matches(n.children[i], q)
    requires forall p :: !MatchAt(n.children[i], p, q)
    ensures forall p :: MatchAt(n, p, q) && p[0] >= i ==> p[0] >= i + 1
  {
    forall p | |p| >= 1 && p[0] == i ensures !MatchAt(n, p, q) {
      assert p == [i] + p[1..];
      PathThroughChild(n, i, p[1..]);
      if |p| > 1 {
        assert !MatchAt(n.children[i], p[1..], q);
      }
    }
  }

  /** Document order is a strict order: two paths are never each before the other. */
  lemma {:induction false} BeforeAsymmetric(p: Path, q: Path)
    ensures Before(p, q) ==> !Before(q, p)
    decreases p
  {
    if |p| > 0 && |q| > 0 && p[0] == q[0] {
      BeforeAsymmetric(p[1..], q[1..]);
    }
  }

  /** A match that comes before every other match is the one `find` returns. */
  lemma FindFirst(n: Node, q: Query, p: Path)
    requires MatchAt(n, p, q)
    requires forall p' :: MatchAt(n, p', q) ==> p' == p || Before(p, p')
    ensures Find(n, q) == Some(p)
  {
    var r := Find(n, q).value;
    BeforeAsymmetric(p, r);
  }

  predicate HasTag(n: Node, tags: set<string>) {
    n.Element? && n.tag in tags
  }

  /** There is a node at `p` and its tag is one of `tags`. */
  predicate TaggedAt(root: Node, p: Path, tags: set<string>) {
    ValidPath(root, p) && HasTag(At(root, p), tags)
  }

  /**
   * `find_parent(tags)` for the node at `p`: its nearest proper ancestor with one of `tags`.
   * The root itself is the BeautifulSoup object, not an element of the page, and is never returned.
   */
  function FindParent(root: Node, p: Path, tags: set<string>): (r: Option<Path>)
    ensures r.Some? ==> 1 <= |r.value| < |p| && r.value == p[..|r.value|] && TaggedAt(root, r.value, tags)
    ensures r.Some? ==> forall j :: |r.value| < j < |p| ==> !TaggedAt(root, p[..j], tags)
    ensures r.None? ==> forall j :: 1 <= j < |p| ==> !TaggedAt(root, p[..j], tags)
  {
    if |p| == 0 then None else NearestFrom(root, p, tags, |p| - 1)
  }

  /** A tagged proper ancestor with no tagged node between it and `p` is the one `find_parent` returns. */
  lemma FindParentNearest(root: Node, p: Path, tags: set<string>, a: Path)
    requires 1 <= |a| < |p| && a == p[..|a|] && TaggedAt(root, a, tags)
    requires forall j :: |a| < j < |p| ==> !TaggedAt(root, p[..j], tags)
    ensures FindParent(root, p, tags) == Some(a)
  {
    var r := FindParent(root, p, tags).value;
    assert r == p[..|r|];
  }

  function NearestFrom(root: Node, p: Path, tags: set<string>, k: nat): (r: Option<Path>)
    requires k < |p|
    ensures r.Some? ==> 1 <= |r.value| <= k && r.value == p[..|r.value|] && TaggedAt(root, r.value, tags)
    ensures r.Some? ==> forall j :: |r.value| < j <= k ==> !TaggedAt(root, p[..j], tags)
    ensures r.None? ==> forall j :: 1 <= j <= k ==> !TaggedAt(root, p[..j], tags)
  {
    if k == 0 then None
    else if TaggedAt(root, p[..k], tags) then Some(p[..k])
    else NearestFrom(root, p, tags, k - 1)
  }

  /**
   * `get_text(strip=True)`: every text node below `n`, in document order, each
   * stripped, empty ones dropped, joined with no separator. The result is
   * itself stripped.
   */
  function GetText(n: Node): (r: string)
    ensures IsStripped(r)
    decreases n, 1
  {
    match n
    case TextNode(s) => Strip(s)
    case Element(_, _, _) => TextFrom(n, 0)
  }

  function TextFrom(n: Node, i: nat): (r: string)
    requires n.Element? && i <= |n.children|
    ensures IsStripped(r)
    decreases n, 0, |n.children| - i
  {
    if i == |n.children| then ""
    else GetText(n.children[i]) + TextFrom(n, i + 1)
  }

  /**
   * `tag.string`: the text of a node that has exactly one child, looking
   * through a chain of only children; `None` when there is no such single
   * string. Stripped, it is the node's `get_text(strip=True)`.
   */
  function StringOf(n: Node): (r: Option<string>)
    ensures r.Some? ==> Strip(r.value) == GetText(n)
  {
    match n
    case TextNode(s) => Some(s)
    case Element(_, _, ch) =>
      if |ch| == 1 then
        assert TextFrom(n, 1) == "";
        StringOf(ch[0])
      else None
  }
}
