/** `extractCommentedShotChart`: the shot-chart page hides its chart inside
    an HTML comment, and the extractor walks the parsed document depth-first
    for the first comment that mentions the chart's container. The document
    is an abstract node tree; the HTML grammar is not modelled. */
module CommentExtractor {
  import opened Wrappers
  import opened GoStrings

  datatype NodeKind = DocumentNode | ElementNode | TextNode | CommentNode | DoctypeNode

  /** A parsed node: its kind, its `Data` (tag name, text or comment body)
      and its children in document order. */
  datatype Node = Node(kind: NodeKind, data: string, children: seq<Node>)

  /** The text a chart comment contains. */
  const ChartMarker: string := "id=\"div_shot-chart\""

  predicate IsChartComment(n: Node) {
    n.kind == CommentNode && Contains(n.data, ChartMarker)
  }

  /** The nodes of a tree in pre-order: a node, then each child's subtree in turn. */
  function PreOrder(n: Node): seq<Node>
    decreases n, 1
  {
    [n] + PreOrderAll(n.children)
  }

  function PreOrderAll(ns: seq<Node>): seq<Node>
    decreases ns, 0
  {
    if |ns| == 0 then [] else PreOrder(ns[0]) + PreOrderAll(ns[1..])
  }

  /** The position of the first chart comment in a node list. */
  function FirstChart(ns: seq<Node>): (r: Option<nat>)
    ensures r.Some? ==> r.value < |ns| && IsChartComment(ns[r.value])
    ensures forall j | 0 <= j < |ns| && (r.None? || j < r.value) :: !IsChartComment(ns[j])
  {
    if |ns| == 0 then None
    else if IsChartComment(ns[0]) then Some(0)
    else match FirstChart(ns[1..])
      case None => None
      case Some(i) => Some(i + 1)
  }

  /** The body of the first chart comment of a node list, or "" when there is none. */
  function ChartText(ns: seq<Node>): string {
    match FirstChart(ns)
    case Some(i) => ns[i].data
    case None => ""
  }

  /** What the extractor returns for a document: "" when the page does not
      parse, otherwise the body of its first chart comment in pre-order. */
  function Extracted(doc: Option<Node>): string {
    match doc
    case None => ""
    case Some(root) => ChartText(PreOrder(root))
  }

  // ---------------------------------------------------------------------
  // Facts about the specification.

  lemma ChartCommentIsNotEmpty(n: Node)
    requires IsChartComment(n)
    ensures n.data != ""
  {
  }

  /** The extractor's "" means exactly that no chart comment exists. */
  lemma {:induction false} ChartTextEmptyIffNone(ns: seq<Node>)
    ensures ChartText(ns) == "" <==> FirstChart(ns).None?
  {
    if FirstChart(ns).Some? {
      ChartCommentIsNotEmpty(ns[FirstChart(ns).value]);
    }
  }

  /** Once a list yields a chart comment, whatever follows it is never looked at. */
  lemma {:induction false} ChartTextAppend(a: seq<Node>, b: seq<Node>)
    ensures ChartText(a + b) == if ChartText(a) != "" then ChartText(a) else ChartText(b)
  {
    ChartTextEmptyIffNone(a);
    ChartTextEmptyIffNone(a + b);
    ChartTextEmptyIffNone(b);
    var ab := a + b;
    match FirstChart(a)
    case Some(i) =>
      assert ab[i] == a[i];
      FirstChartAt(ab, i);
    case None =>
      match FirstChart(b)
      case Some(j) =>
        assert ab[|a| + j] == b[j];
        forall k | 0 <= k < |a| + j
          ensures !IsChartComment(ab[k])
        {
          if k >= |a| {
            assert ab[k] == b[k - |a|];
          } else {
            assert ab[k] == a[k];
          }
        }
        FirstChartAt(ab, |a| + j);
      case None =>
        forall k | 0 <= k < |ab|
          ensures !IsChartComment(ab[k])
        {
          if k >= |a| {
            assert ab[k] == b[k - |a|];
          } else {
            assert ab[k] == a[k];
          }
        }
  }

  lemma FirstChartAt(ns: seq<Node>, i: nat)
    requires i < |ns| && IsChartComment(ns[i])
    requires forall k | 0 <= k < i :: !IsChartComment(ns[k])
    ensures FirstChart(ns) == Some(i)
  {
  }

  lemma {:induction false} PreOrderAllAppend(a: seq<Node>, b: seq<Node>)
    ensures PreOrderAll(a + b) == PreOrderAll(a) + PreOrderAll(b)
    decreases |a|
  {
    if |a| == 0 {
      assert a + b == b;
    } else {
      assert (a + b)[1..] == a[1..] + b;
      PreOrderAllAppend(a[1..], b);
    }
  }

  /** The walk stops at the first match: a chart comment inside an earlier
      sibling's subtree wins over any in later siblings. */
  lemma LaterSiblingsIgnored(first: Node, later: seq<Node>)
    requires Extracted(Some(first)) != ""
    ensures ChartText(PreOrderAll([first] + later)) == Extracted(Some(first))
  {
    assert ([first] + later)[1..] == later;
    ChartTextAppend(PreOrder(first), PreOrderAll(later));
  }

  // ---------------------------------------------------------------------
  // The walker.

  /** The closure state of the extractor: the captured `found`. */
  class Walker {
    var found: string

    constructor ()
      ensures found == ""
    {
      found := "";
    }

    /** `walker(n)`: record `n`'s body if it is a chart comment; otherwise
        visit the children in order while nothing has been found. */
    method Walk(n: Node)
      requires found == ""
      modifies this
      ensures found == ChartText(PreOrder(n))
      decreases n
    {
      if n.kind == CommentNode && Contains(n.data, ChartMarker) {
        found := n.data;
        assert PreOrder(n)[0] == n;
        return;
      }
      var i := 0;
      while i < |n.children| && found == ""
        invariant 0 <= i <= |n.children|
        invariant found == ChartText(PreOrderAll(n.children[..i]))
      {
        Walk(n.children[i]);
        VisitNextChild(n.children, i);
        i := i + 1;
      }
      WalkStops(n, i);
    }
  }

  /** One turn of the sibling loop, taken while nothing has been found. */
  lemma VisitNextChild(children: seq<Node>, i: nat)
    requires i < |children| && ChartText(PreOrderAll(children[..i])) == ""
    ensures ChartText(PreOrderAll(children[..i + 1])) == ChartText(PreOrder(children[i]))
  {
    assert children[..i + 1] == children[..i] + [children[i]];
    PreOrderAllAppend(children[..i], [children[i]]);
    assert [children[i]][1..] == [];
    assert PreOrderAll([children[i]]) == PreOrder(children[i]) + PreOrderAll([]);
    assert PreOrderAll([children[i]]) == PreOrder(children[i]);
    ChartTextAppend(PreOrderAll(children[..i]), PreOrder(children[i]));
  }

  /** Leaving the sibling loop, on a match or after the last child, the
      walk has found what the whole subtree yields. */
  lemma WalkStops(n: Node, i: nat)
    requires !IsChartComment(n) && i <= |n.children|
    requires i == |n.children| || ChartText(PreOrderAll(n.children[..i])) != ""
    ensures ChartText(PreOrder(n)) == ChartText(PreOrderAll(n.children[..i]))
  {
    assert n.children == n.children[..i] + n.children[i..];
    PreOrderAllAppend(n.children[..i], n.children[i..]);
    ChartTextAppend(PreOrderAll(n.children[..i]), PreOrderAll(n.children[i..]));
    ChartTextAppend([n], PreOrderAll(n.children));
  }

  /** `extractCommentedShotChart`: parse (`doc` is None when parsing fails),
      then walk from the root. */
  method ExtractCommentedShotChart(doc: Option<Node>) returns (found: string)
    ensures found == Extracted(doc)
  {
    if doc.None? {
      return "";
    }
    var w := new Walker();
    w.Walk(doc.value);
    found := w.found;
  }
}
