/**
 * Node-id extraction from a design document (`extractNodeIds`): a pre-order
 * walk that pushes qualifying ids onto one shared list and stops as soon as
 * the list holds `limit` ids, at any depth.
 */
module NodeIds {
  import opened Wrappers

  /** The `id` property of a node as the walk sees it. */
  datatype IdValue =
    | Absent              // the property is missing
    | Text(s: string)     // a string, possibly empty
    | NonString           // any value whose `typeof` is not 'string'

  /** The `children` property of a node. */
  datatype ChildrenValue =
    | NoChildren                 // missing or falsy
    | Children(nodes: seq<Node>) // an array
    | NotAnArray                 // truthy, but not an array

  datatype Node = Node(id: IdValue, children: ChildrenValue)

  /** A parsed file response; only its `document` matters to the walk. */
  datatype FileData = FileData(document: Option<Node>)

  /** An id is collected only when it is a non-empty string. */
  predicate Qualifies(v: IdValue)
  {
    v.Text? && v.s != ""
  }

  function OwnId(n: Node): seq<string>
  {
    if Qualifies(n.id) then [n.id.s] else []
  }

  /** The children the walk iterates over: none unless `children` is an array. */
  function Kids(n: Node): seq<Node>
  {
    if n.children.Children? then n.children.nodes else []
  }

  /** Pre-order ids of `n` itself and of the subtrees of its first `k` children. */
  function PreorderUpTo(n: Node, k: nat): seq<string>
    requires k <= |Kids(n)|
    decreases n, k
  {
    if k == 0 then OwnId(n)
    else
      var child := Kids(n)[k - 1];
      PreorderUpTo(n, k - 1) + PreorderUpTo(child, |Kids(child)|)
  }

  /** Every qualifying id of the tree, parent before children, siblings in order. */
  function Preorder(n: Node): seq<string>
  {
    PreorderUpTo(n, |Kids(n)|)
  }

  function Min(a: int, b: int): int { if a <= b then a else b }

  function Max(a: int, b: int): int { if a <= b then b else a }

  /** The first `min(limit, |s|)` entries of `s` (none for a limit of 0 or less). */
  function Cap(s: seq<string>, limit: int): (r: seq<string>)
    ensures r <= s
    ensures |r| == Min(Max(limit, 0), |s|)
  {
    if limit <= 0 then [] else if |s| <= limit then s else s[..limit]
  }

  /** `n` carries the qualifying id `s`, itself or somewhere below it. */
  ghost predicate Carries(n: Node, s: string)
    decreases n
  {
    (Qualifies(n.id) && n.id.s == s)
    || exists k :: 0 <= k < |Kids(n)| && Carries(Kids(n)[k], s)
  }

  /**
   * The state shared by the recursive `extractFromNode` closure: the list it
   * pushes to and the limit it compares against.
   */
  class IdCollector {
    var ids: seq<string>
    const limit: int

    constructor (limit: int)
      ensures this.limit == limit && ids == []
    {
      this.limit := limit;
      ids := [];
    }

    /** `extractFromNode`: once the list is full, nothing more is pushed. */
    method Visit(node: Node)
      modifies this
      decreases node
      ensures |old(ids)| >= limit ==> ids == old(ids)
      ensures |old(ids)| < limit ==> ids == Cap(old(ids) + Preorder(node), limit)
    {
      if |ids| >= limit {
        return;
      }
      if Qualifies(node.id) {
        ids := ids + [node.id.s];
      }
      assert ids == Cap(old(ids) + PreorderUpTo(node, 0), limit);
      if node.children.Children? {
        var kids := node.children.nodes;
        var i := 0;
        while i < |kids|
          invariant 0 <= i <= |kids| && kids == Kids(node)
          invariant ids == Cap(old(ids) + PreorderUpTo(node, i), limit)
        {
          ghost var before := ids;
          Visit(kids[i]);
          ChildStep(old(ids), node, i, limit, before, ids);
          if |ids| >= limit {
            break;
          }
          i := i + 1;
        }
      }
      assert ids == Cap(old(ids) + Preorder(node), limit);
    }
  }

  /** `extractNodeIds`: the first `limit` ids of the document in pre-order. */
  method ExtractNodeIds(file: FileData, limit: int) returns (ids: seq<string>)
    ensures ids == if file.document.Some? then Cap(Preorder(file.document.value), limit) else []
    ensures limit >= 0 ==> |ids| <= limit
    ensures file.document.None? || limit <= 0 ==> ids == []
  {
    var collector := new IdCollector(limit);
    if file.document.Some? {
      collector.Visit(file.document.value);
    }
    ids := collector.ids;
  }

  /** One turn of the loop over the children, with its early `break`. */
  lemma ChildStep(prev: seq<string>, n: Node, i: nat, limit: int, before: seq<string>, after: seq<string>)
    requires i < |Kids(n)|
    requires before == Cap(prev + PreorderUpTo(n, i), limit)
    requires |before| >= limit ==> after == before
    requires |before| < limit ==> after == Cap(before + Preorder(Kids(n)[i]), limit)
    ensures after == Cap(prev + PreorderUpTo(n, i + 1), limit)
    ensures |after| >= limit ==> after == Cap(prev + Preorder(n), limit)
  {
    var a := prev + PreorderUpTo(n, i);
    var b := Preorder(Kids(n)[i]);
    CapAppend(a, b, limit);
    assert a + b == prev + PreorderUpTo(n, i + 1);
    if |after| >= limit {
      PreorderUpToPrefix(n, i + 1, |Kids(n)|);
      CapFull(prev + PreorderUpTo(n, i + 1), prev + Preorder(n), limit);
    }
  }

  /** Capping twice is capping once: what an early return leaves behind. */
  lemma CapAppend(a: seq<string>, b: seq<string>, limit: int)
    ensures |Cap(a, limit)| >= limit ==> Cap(a + b, limit) == Cap(a, limit)
    ensures |Cap(a, limit)| < limit ==> Cap(Cap(a, limit) + b, limit) == Cap(a + b, limit)
  {
  }

  /** Once the cap is reached, extending the input changes nothing. */
  lemma CapFull(a: seq<string>, b: seq<string>, limit: int)
    requires a <= b
    requires |Cap(a, limit)| >= limit
    ensures Cap(b, limit) == Cap(a, limit)
  {
  }

  /** Visiting more children only extends the ids collected so far. */
  lemma {:induction false} PreorderUpToPrefix(n: Node, j: nat, k: nat)
    requires j <= k <= |Kids(n)|
    ensures PreorderUpTo(n, j) <= PreorderUpTo(n, k)
    decreases k
  {
    if j < k {
      PreorderUpToPrefix(n, j, k - 1);
    }
  }

  /** A node's own qualifying id comes before any id of its children. */
  lemma OwnIdFirst(n: Node)
    ensures OwnId(n) <= Preorder(n)
    ensures Qualifies(n.id) ==> Preorder(n)[0] == n.id.s
  {
    PreorderUpToPrefix(n, 0, |Kids(n)|);
  }

  /** The ids collected from the first `k` children and the node itself. */
  lemma {:induction false} PreorderUpToMembership(n: Node, k: nat, s: string)
    requires k <= |Kids(n)|
    ensures s in PreorderUpTo(n, k) <==>
      (Qualifies(n.id) && n.id.s == s) || exists j :: 0 <= j < k && Carries(Kids(n)[j], s)
    decreases n, k
  {
    if k > 0 {
      var child := Kids(n)[k - 1];
      PreorderUpToMembership(n, k - 1, s);
      PreorderUpToMembership(child, |Kids(child)|, s);
      if exists j :: 0 <= j < k && Carries(Kids(n)[j], s) {
        var j :| 0 <= j < k && Carries(Kids(n)[j], s);
        if j < k - 1 {
          assert exists i :: 0 <= i < k - 1 && Carries(Kids(n)[i], s);
        }
      }
    }
  }

  /**
   * The pre-order list holds exactly the qualifying ids of the tree: a node
   * whose id is missing, not a string or empty contributes none, and the walk
   * still reaches the ids below it.
   */
  lemma PreorderMembership(n: Node, s: string)
    ensures s in Preorder(n) <==> Carries(n, s)
  {
    PreorderUpToMembership(n, |Kids(n)|, s);
  }

  /** A node without a qualifying id contributes exactly its children's ids. */
  lemma {:induction false} UnqualifiedNodeContributesChildrenOnly(n: Node, k: nat)
    requires !Qualifies(n.id)
    requires k <= |Kids(n)|
    ensures PreorderUpTo(n, k) == PreorderUpTo(Node(Absent, n.children), k)
    decreases k
  {
    if k > 0 {
      UnqualifiedNodeContributesChildrenOnly(n, k - 1);
    }
  }

  /** A document cut off mid-siblings: the root and its first two children. */
  lemma SampleDocument()
    ensures
      var doc := Node(Text("0:1"), Children([
        Node(Text("1:1"), NoChildren), Node(Text("1:2"), NoChildren),
        Node(Text("1:3"), NoChildren), Node(Text("1:4"), NoChildren)]));
      Cap(Preorder(doc), 3) == ["0:1", "1:1", "1:2"]
  {
    var doc := Node(Text("0:1"), Children([
      Node(Text("1:1"), NoChildren), Node(Text("1:2"), NoChildren),
      Node(Text("1:3"), NoChildren), Node(Text("1:4"), NoChildren)]));
    assert PreorderUpTo(doc, 0) == ["0:1"];
    assert PreorderUpTo(doc, 1) == ["0:1", "1:1"];
    assert PreorderUpTo(doc, 2) == ["0:1", "1:1", "1:2"];
    PreorderUpToPrefix(doc, 2, 4);
  }
}
