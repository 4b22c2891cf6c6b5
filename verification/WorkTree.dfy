/** Walking the work tree: the same guarded query, over parent pointers that nest strictly. */
module WorkTree {
  import opened Common
  import opened Schema
  import opened Walk

  const MAX_DEPTH := 16

  /** One full scan of the work_items table, in any order. */
  ghost predicate IsScan(table: seq<Node>, works: map<Id, WorkItem>) {
    && Keyed(table)
    && (forall n | n in table :: n.id in works && n.up == works[n.id].parent)
    && (forall w | w in works :: exists n :: n in table && n.id == w)
  }

  function Subtree(table: seq<Node>, root: Id): seq<Row> {
    Query(Down, table, root, MAX_DEPTH)
  }

  ghost predicate InSubtree(table: seq<Node>, root: Id, id: Id) {
    exists r :: r in Subtree(table, root) && r.id == id
  }

  /** How far below an initiative items of this kind hang. */
  function Rank(kind: WorkItemType): nat {
    match kind
    case INITIATIVE => 0
    case RESPONSIBILITY => 1
    case TASK => 2
  }

  lemma ScanParent(works: map<Id, WorkItem>, table: seq<Node>, id: Id)
    requires Nested(works) && IsScan(table, works)
    ensures RowOf(table, id).Some? <==> id in works
    ensures id in works ==> ParentOf(table, id) == works[id].parent
    ensures id in works && works[id].parent.Some? ==>
              works[id].parent.value in works && Rank(works[works[id].parent.value].kind) + 1 == Rank(works[id].kind)
    ensures id in works ==> (works[id].parent.None? <==> Rank(works[id].kind) == 0)
  {
    if id in works {
      var n :| n in table && n.id == id;
      RowOfMember(table, n);
      assert ParentFits(works, works[id]);
      if works[id].parent.Some? {
        var m :| m in table && m.id == works[id].parent.value;
        RowOfMember(table, m);
      }
    }
  }

  /** An item's kind fixes its chain: climbing drops one rank a step and ends at an initiative. */
  lemma {:induction false} KindFixesChain(
    works: map<Id, WorkItem>, table: seq<Node>, id: Id, k: nat)
    requires Nested(works) && IsScan(table, works) && id in works
    ensures k <= Rank(works[id].kind) <==> Climb(table, id, k).Some?
    ensures k <= Rank(works[id].kind) ==>
              var a := Climb(table, id, k).value;
              a in works && Rank(works[a].kind) == Rank(works[id].kind) - k
    decreases k
  {
    ScanParent(works, table, id);
    if k > 0 && works[id].parent.Some? {
      KindFixesChain(works, table, works[id].parent.value, k - 1);
    }
  }

  lemma ChainsAreSimple(works: map<Id, WorkItem>, table: seq<Node>, id: Id, a: Id, k: nat)
    requires Nested(works) && IsScan(table, works)
    requires Climb(table, id, k) == Some(a)
    ensures id in works && a in works && k == Rank(works[id].kind) - Rank(works[a].kind) <= 2
    ensures Linked(table, id, a, k)
  {
    ClimbPrefix(table, id, 0, k);
    ScanParent(works, table, id);
    KindFixesChain(works, table, id, k);
    forall i: nat, j: nat | i < j <= k
      ensures Climb(table, id, i) != Climb(table, id, j)
    {
      KindFixesChain(works, table, id, i);
      KindFixesChain(works, table, id, j);
    }
  }

  /** Neither the path guard nor the cap ever cuts a tree: `subtree` is everything that climbs to its root. */
  lemma SubtreeIsComplete(works: map<Id, WorkItem>, table: seq<Node>, root: Id, id: Id)
    requires Nested(works) && IsScan(table, works)
    ensures InSubtree(table, root, id) <==> Reaches(table, id, root)
  {
    if r :| r in Subtree(table, root) && r.id == id {
      QueryExact(Down, table, root, MAX_DEPTH, id, r.depth);
    }
    if Reaches(table, id, root) {
      var k: nat :| Climb(table, id, k) == Some(root);
      ChainsAreSimple(works, table, id, root, k);
      QueryExact(Down, table, root, MAX_DEPTH, id, k);
    }
  }

  /** A row's depth is the difference of the two kinds, and no item is listed twice. */
  lemma SubtreeDepths(works: map<Id, WorkItem>, table: seq<Node>, root: Id, r: Row)
    requires Nested(works) && IsScan(table, works) && r in Subtree(table, root)
    ensures r.id in works && root in works && r.depth == Rank(works[r.id].kind) - Rank(works[root].kind)
    ensures Once(Subtree(table, root))
  {
    QueryExact(Down, table, root, MAX_DEPTH, r.id, r.depth);
    ChainsAreSimple(works, table, r.id, root, r.depth);
    QueryOnce(Down, table, root, MAX_DEPTH);
  }

  lemma ChildOnTheWay(works: map<Id, WorkItem>, table: seq<Node>, root: Id, id: Id, k: nat)
    returns (c: Id)
    requires Nested(works) && IsScan(table, works)
    requires k > 0 && Climb(table, id, k) == Some(root)
    ensures c in works && works[c].parent == Some(root) && Reaches(table, id, c)
  {
    ClimbPrefix(table, id, k - 1, k);
    ClimbSplit(table, id, k - 1, 1);
    c := Climb(table, id, k - 1).value;
    assert Climb(table, c, 1) == Some(root);
    ScanParent(works, table, c);
    assert ParentOf(table, c).Some? && Climb(table, ParentOf(table, c).value, 0) == Some(root);
  }

  lemma ThroughChild(works: map<Id, WorkItem>, table: seq<Node>, root: Id, c: Id, id: Id)
    requires Nested(works) && IsScan(table, works)
    requires root in works && c in works && works[c].parent == Some(root) && Reaches(table, id, c)
    ensures Reaches(table, id, root)
  {
    hide Nested, IsScan;
    var k: nat :| Climb(table, id, k) == Some(c);
    ScanParent(works, table, c);
    ScanParent(works, table, root);
    ClimbSplit(table, id, k, 1);
    assert Climb(table, c, 1) == Climb(table, root, 0) == Some(root);
    assert Climb(table, id, k + 1) == Some(root);
  }

  /** A subtree is its root and its children's subtrees. */
  lemma SubtreeSplits(works: map<Id, WorkItem>, table: seq<Node>, root: Id, id: Id)
    requires Nested(works) && IsScan(table, works) && root in works
    ensures InSubtree(table, root, id) <==>
            id == root || (exists c :: c in works && works[c].parent == Some(root) && InSubtree(table, c, id))
  {
    SubtreeIsComplete(works, table, root, id);
    ScanParent(works, table, root);
    if id == root {
      assert Climb(table, id, 0) == Some(root);
    } else if InSubtree(table, root, id) {
      var k: nat :| Climb(table, id, k) == Some(root);
      var c := ChildOnTheWay(works, table, root, id, k);
      SubtreeIsComplete(works, table, c, id);
    }
    if c :| c in works && works[c].parent == Some(root) && InSubtree(table, c, id) {
      SubtreeIsComplete(works, table, c, id);
      ThroughChild(works, table, root, c, id);
    }
  }

  /** Subtrees of different items of one kind share nothing. */
  lemma SiblingsDisjoint(works: map<Id, WorkItem>, table: seq<Node>, a: Id, b: Id, id: Id)
    requires Nested(works) && IsScan(table, works)
    requires a in works && b in works && works[a].kind == works[b].kind
    requires InSubtree(table, a, id) && InSubtree(table, b, id)
    ensures a == b
  {
    SubtreeIsComplete(works, table, a, id);
    SubtreeIsComplete(works, table, b, id);
    var i: nat :| Climb(table, id, i) == Some(a);
    var j: nat :| Climb(table, id, j) == Some(b);
    ChainsAreSimple(works, table, id, a, i);
    ChainsAreSimple(works, table, id, b, j);
    assert i == j;
  }

  /** Every item lies under one initiative and no other. */
  lemma OneInitiative(works: map<Id, WorkItem>, table: seq<Node>, id: Id) returns (top: Id)
    requires Nested(works) && IsScan(table, works) && id in works
    ensures top in works && works[top].kind == INITIATIVE && InSubtree(table, top, id)
    ensures forall other | other in works && works[other].kind == INITIATIVE && InSubtree(table, other, id) :: other == top
  {
    var k := Rank(works[id].kind);
    KindFixesChain(works, table, id, k);
    top := Climb(table, id, k).value;
    SubtreeIsComplete(works, table, top, id);
    forall other | other in works && works[other].kind == INITIATIVE && InSubtree(table, other, id)
      ensures other == top
    {
      SiblingsDisjoint(works, table, top, other, id);
    }
  }

  /** `ancestors`: the query drops the item itself. */
  function Ancestors(table: seq<Node>, id: Id): seq<Row> {
    var rows := Query(Up, table, id, MAX_DEPTH);
    if rows == [] then [] else rows[1..]
  }

  lemma UpReaches(works: map<Id, WorkItem>, table: seq<Node>, id: Id, k: nat)
    requires Nested(works) && IsScan(table, works) && id in works
    ensures k < |Query(Up, table, id, MAX_DEPTH)| <==> k <= Rank(works[id].kind)
  {
    hide Nested, Rank, Query, Linked, Climb;
    var rows := Query(Up, table, id, MAX_DEPTH);
    KindFixesChain(works, table, id, k);
    if k < |rows| {
      AncestorRow(table, id, k);
    }
    if k <= Rank(works[id].kind) {
      var a := Climb(table, id, k).value;
      ChainsAreSimple(works, table, id, a, k);
      QueryExact(Up, table, id, MAX_DEPTH, a, k);
      var r :| r in rows && r.id == a && r.depth == k;
      var i :| 0 <= i < |rows| && rows[i] == r;
      AncestorRow(table, id, i);
    }
  }

  /** A task's ancestors are its responsibility and then its initiative; a responsibility's, its initiative. */
  lemma AncestorsAreTheChain(works: map<Id, WorkItem>, table: seq<Node>, id: Id, i: nat)
    requires Nested(works) && IsScan(table, works) && id in works
    ensures |Ancestors(table, id)| == Rank(works[id].kind)
    ensures i < |Ancestors(table, id)| ==>
              var r := Ancestors(table, id)[i];
              && r.depth == i + 1 && Climb(table, id, i + 1) == Some(r.id)
              && r.id in works && Rank(works[r.id].kind) == Rank(works[id].kind) - (i + 1)
  {
    hide Nested, Query;
    UpReaches(works, table, id, Rank(works[id].kind));
    UpReaches(works, table, id, Rank(works[id].kind) + 1);
    UpReaches(works, table, id, i + 1);
    KindFixesChain(works, table, id, i + 1);
    if i < |Ancestors(table, id)| {
      AncestorRow(table, id, i + 1);
    }
  }

  lemma AncestorRow(table: seq<Node>, id: Id, k: nat)
    requires Keyed(table) && k < |Query(Up, table, id, MAX_DEPTH)|
    ensures var r := Query(Up, table, id, MAX_DEPTH)[k]; r.depth == k && Climb(table, id, k) == Some(r.id)
  {
    hide Keyed;
    UpRoundsInOrder(table, id, 0, MAX_DEPTH, k);
  }
}
