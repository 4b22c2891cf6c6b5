/** The organization hierarchy: who is below whom, as far as the walk goes. */
module OrgGraph {
  import opened Common
  import opened Schema
  import opened Walk

  const MAX_DEPTH := 32

  datatype Related = Related(member: Id, depth: nat)

  function Nodes(members: seq<Membership>): seq<Node> {
    seq(|members|, i requires 0 <= i < |members| => Node(members[i].id, members[i].manager))
  }

  /** The rows below the root of the query, which is dropped by `depth > 0`. */
  function Below(rows: seq<Row>): seq<Related> {
    if rows == [] then []
    else (if rows[0].depth > 0 then [Related(rows[0].id, rows[0].depth)] else []) + Below(rows[1..])
  }

  function Descendants(members: seq<Membership>, id: Id): seq<Related> {
    Below(Query(Down, Nodes(members), id, MAX_DEPTH))
  }

  function Ancestors(members: seq<Membership>, id: Id): seq<Related> {
    Below(Query(Up, Nodes(members), id, MAX_DEPTH))
  }

  predicate IsAncestor(members: seq<Membership>, ancestor: Id, descendant: Id) {
    ancestor != descendant &&
    exists r | r in Ancestors(members, descendant) :: r.member == ancestor
  }

  function ScopeIds(members: seq<Membership>, id: Id): set<Id> {
    {id} + set r | r in Descendants(members, id) :: r.member
  }

  // --- meaning -----------------------------------------------------------------------------

  /** The `k`-fold manager. */
  function Manager(members: seq<Membership>, id: Id, k: nat): Option<Id> {
    Climb(Nodes(members), id, k)
  }

  ghost predicate ReportsTo(members: seq<Membership>, low: Id, high: Id) {
    exists k: nat :: Manager(members, low, k) == Some(high)
  }

  lemma NodesKeyed(members: seq<Membership>)
    requires MembersOk(members)
    ensures Keyed(Nodes(members))
  {}

  lemma {:induction false} BelowExact(rows: seq<Row>, id: Id, k: nat)
    ensures Related(id, k) in Below(rows) <==>
            k > 0 && (exists r :: r in rows && r.id == id && r.depth == k)
  {
    if rows != [] {
      BelowExact(rows[1..], id, k);
      if r :| r in rows && r.id == id && r.depth == k {
        assert r == rows[0] || r in rows[1..];
      }
    }
  }

  /** `descendants`: each row is the number of manager steps back to the root, all below `MAX_DEPTH`. */
  lemma DescendantsExact(members: seq<Membership>, root: Id, id: Id, k: nat)
    requires MembersOk(members)
    ensures Related(id, k) in Descendants(members, root) <==>
            0 < k <= MAX_DEPTH && Linked(Nodes(members), id, root, k)
  {
    NodesKeyed(members);
    BelowExact(Query(Down, Nodes(members), root, MAX_DEPTH), id, k);
    QueryExact(Down, Nodes(members), root, MAX_DEPTH, id, k);
  }

  lemma AncestorsExact(members: seq<Membership>, root: Id, id: Id, k: nat)
    requires MembersOk(members)
    ensures Related(id, k) in Ancestors(members, root) <==>
            0 < k <= MAX_DEPTH && Linked(Nodes(members), root, id, k)
  {
    NodesKeyed(members);
    BelowExact(Query(Up, Nodes(members), root, MAX_DEPTH), id, k);
    QueryExact(Up, Nodes(members), root, MAX_DEPTH, id, k);
  }

  /** The cheap upward walk answers the downward question, distance included, on any manager map. */
  lemma UpAgreesWithDown(members: seq<Membership>, a: Id, d: Id, k: nat)
    requires MembersOk(members)
    ensures Related(d, k) in Descendants(members, a) <==> Related(a, k) in Ancestors(members, d)
  {
    DescendantsExact(members, a, d, k);
    AncestorsExact(members, d, a, k);
  }

  lemma IsAncestorIsScope(members: seq<Membership>, a: Id, d: Id)
    requires MembersOk(members)
    ensures IsAncestor(members, a, d) <==> d in ScopeIds(members, a) && d != a
  {
    hide MembersOk, Descendants, Ancestors;
    if r :| r in Ancestors(members, d) && r.member == a {
      UpAgreesWithDown(members, a, d, r.depth);
      assert Related(d, r.depth) in Descendants(members, a);
    }
    if r :| r in Descendants(members, a) && r.member == d {
      UpAgreesWithDown(members, a, d, r.depth);
      assert Related(a, r.depth) in Ancestors(members, d);
    }
  }

  lemma {:induction false} BelowDistinct(rows: seq<Row>)
    requires Once(rows)
    ensures forall i, j | 0 <= i < j < |Below(rows)| :: Below(rows)[i].member != Below(rows)[j].member
    ensures forall r | r in Below(rows) :: exists x :: x in rows && x.id == r.member && x.depth == r.depth > 0
  {
    if rows != [] {
      BelowDistinct(rows[1..]);
      var rest := Below(rows[1..]);
      assert forall x | x in rows[1..] :: x in rows && x.id != rows[0].id;
      forall r | r in Below(rows)
        ensures exists x :: x in rows && x.id == r.member && x.depth == r.depth > 0
      {
        if r in rest {
          var x :| x in rows[1..] && x.id == r.member && x.depth == r.depth > 0;
          assert x in rows;
        }
      }
    }
  }

  /** Each membership at most once, never the root, whatever cycles the manager pointers make. */
  lemma DescendantsOnce(members: seq<Membership>, root: Id)
    requires MembersOk(members)
    ensures var ds := Descendants(members, root);
            && (forall i, j | 0 <= i < j < |ds| :: ds[i].member != ds[j].member)
            && (forall d | d in ds :: d.member != root)
  {
    NodesKeyed(members);
    QueryOnce(Down, Nodes(members), root, MAX_DEPTH);
    BelowDistinct(Query(Down, Nodes(members), root, MAX_DEPTH));
    forall d | d in Descendants(members, root)
      ensures d.member != root
    {
      DescendantsExact(members, root, d.member, d.depth);
      assert Climb(Nodes(members), d.member, 0) != Climb(Nodes(members), d.member, d.depth);
    }
  }

  lemma {:induction false} BelowAtLeast(rows: seq<Row>, k: nat)
    requires forall x | x in rows :: x.depth >= k
    ensures forall r | r in Below(rows) :: r.depth >= k
  {
    if rows != [] {
      assert rows[0] in rows;
      BelowAtLeast(rows[1..], k);
    }
  }

  lemma {:induction false} BelowInOrder(rows: seq<Row>)
    requires Nearest(rows)
    ensures forall i, j | 0 <= i < j < |Below(rows)| :: Below(rows)[i].depth <= Below(rows)[j].depth
  {
    if rows != [] {
      BelowInOrder(rows[1..]);
      BelowAtLeast(rows[1..], rows[0].depth);
      assert forall r :: r in Below(rows[1..]) ==> r.depth >= rows[0].depth;
    }
  }

  /** Nearest first, both ways. */
  lemma NearestFirst(members: seq<Membership>, root: Id, i: nat, j: nat)
    requires MembersOk(members) && i < j
    ensures j < |Descendants(members, root)| ==>
              Descendants(members, root)[i].depth <= Descendants(members, root)[j].depth
    ensures j < |Ancestors(members, root)| ==> Ancestors(members, root)[i].depth < Ancestors(members, root)[j].depth
  {
    hide MembersOk, Query, Below;
    NodesKeyed(members);
    QueryNearestFirst(Down, Nodes(members), root, MAX_DEPTH);
    BelowInOrder(Query(Down, Nodes(members), root, MAX_DEPTH));
    if j < |Ancestors(members, root)| {
      AncestorsInOrder(members, root, i);
      AncestorsInOrder(members, root, j);
    }
  }

  lemma {:induction false} BelowTail(rows: seq<Row>)
    requires forall i | 0 <= i < |rows| :: rows[i].depth > 0
    ensures |Below(rows)| == |rows|
    ensures forall i | 0 <= i < |rows| :: Below(rows)[i] == Related(rows[i].id, rows[i].depth)
  {
    if rows != [] {
      BelowTail(rows[1..]);
    }
  }

  /** The i-th ancestor is the (i+1)-fold manager. */
  lemma AncestorsInOrder(members: seq<Membership>, id: Id, i: nat)
    requires MembersOk(members) && i < |Ancestors(members, id)|
    ensures Ancestors(members, id)[i].depth == i + 1
    ensures Manager(members, id, i + 1) == Some(Ancestors(members, id)[i].member)
  {
    NodesKeyed(members);
    var rows := Query(Up, Nodes(members), id, MAX_DEPTH);
    forall j | 0 <= j < |rows|
      ensures rows[j].depth == j && Manager(members, id, j) == Some(rows[j].id)
    {
      UpRoundsInOrder(Nodes(members), id, 0, MAX_DEPTH, j);
    }
    BelowTail(rows[1..]);
    assert Below(rows) == Below(rows[1..]);
  }

  /** `_approver_for` reads this: somebody else exactly when there is a manager above. */
  lemma FirstAncestor(members: seq<Membership>, id: Id)
    requires MembersOk(members)
    ensures Ancestors(members, id) != [] <==> Manager(members, id, 1).Some?
    ensures Ancestors(members, id) != [] ==>
              var a := Ancestors(members, id)[0].member;
              a != id && Manager(members, id, 1) == Some(a)
  {
    NodesKeyed(members);
    if Manager(members, id, 1).Some? {
      var m := Manager(members, id, 1).value;
      var n := RowOf(Nodes(members), id).value;
      var i :| 0 <= i < |members| && Nodes(members)[i] == n;
      assert ManagerFits(members, members[i]);
      assert Manager(members, id, 0) == Some(id);
      assert Climb(Nodes(members), m, 0) == Some(m);
      assert Linked(Nodes(members), id, m, 1);
      AncestorsExact(members, id, m, 1);
    }
    if Ancestors(members, id) != [] {
      AncestorsInOrder(members, id, 0);
      var r := Ancestors(members, id)[0];
      AncestorsExact(members, id, r.member, r.depth);
      assert Climb(Nodes(members), id, 0) != Climb(Nodes(members), id, 1);
      assert Climb(Nodes(members), id, 0) == Some(id);
    }
  }

  // --- scopes ------------------------------------------------------------------------------

  lemma InScope(members: seq<Membership>, root: Id, id: Id)
    requires MembersOk(members)
    ensures id in ScopeIds(members, root) <==>
            id == root || (exists k: nat :: 0 < k <= MAX_DEPTH && Linked(Nodes(members), id, root, k))
  {
    if r :| r in Descendants(members, root) && r.member == id {
      DescendantsExact(members, root, id, r.depth);
    }
    if k: nat :| 0 < k <= MAX_DEPTH && Linked(Nodes(members), id, root, k) {
      DescendantsExact(members, root, id, k);
      assert Related(id, k) in Descendants(members, root);
    }
  }

  /** Overlapping scopes are nested at their roots: one root is inside the other's scope. */
  lemma ScopesLaminar(members: seq<Membership>, a: Id, b: Id, d: Id)
    requires MembersOk(members)
    requires d in ScopeIds(members, a) && d in ScopeIds(members, b)
    ensures a in ScopeIds(members, b) || b in ScopeIds(members, a)
  {
    var table := Nodes(members);
    InScope(members, a, d);
    InScope(members, b, d);
    InScope(members, a, b);
    InScope(members, b, a);
    if d != a && d != b && a != b {
      var i: nat :| 0 < i <= MAX_DEPTH && Linked(table, d, a, i);
      var j: nat :| 0 < j <= MAX_DEPTH && Linked(table, d, b, j);
      if i <= j {
        Chain(table, d, a, i, b, j);
        assert 0 < j - i <= MAX_DEPTH;
      } else {
        Chain(table, d, b, j, a, i);
        assert 0 < i - j <= MAX_DEPTH;
      }
    }
  }

  /** The depth cap cuts nobody off. */
  ghost predicate ChainsFit(members: seq<Membership>) {
    forall low: Id, high: Id, k: nat | Linked(Nodes(members), low, high, k) :: k <= MAX_DEPTH
  }

  /** Any organization of at most 33 memberships fits, cycles or not. */
  lemma SmallOrganizationsFit(members: seq<Membership>)
    requires |members| <= 33
    ensures ChainsFit(members)
  {
    forall low: Id, high: Id, k: nat | Linked(Nodes(members), low, high, k)
      ensures k <= MAX_DEPTH
    {
      PathGuardBoundsDepth(Nodes(members), low, high, k);
    }
  }

  ghost predicate ScopeIsClosure(members: seq<Membership>, root: Id) {
    forall id :: id in ScopeIds(members, root) <==> id == root || ReportsTo(members, id, root)
  }

  lemma FitScopeIsClosure(members: seq<Membership>, root: Id, id: Id)
    requires MembersOk(members) && ChainsFit(members)
    ensures id in ScopeIds(members, root) <==> id == root || ReportsTo(members, id, root)
  {
    InScope(members, root, id);
    if id != root && id in ScopeIds(members, root) {
      var k: nat :| 0 < k <= MAX_DEPTH && Linked(Nodes(members), id, root, k);
      assert Manager(members, id, k) == Some(root);
    }
    if id != root && ReportsTo(members, id, root) {
      var n: nat :| Manager(members, id, n) == Some(root);
      var k := ReachesLinked(Nodes(members), id, root, n);
      assert k <= MAX_DEPTH && k != 0;
    }
  }

  lemma ClosedScopeFits(members: seq<Membership>, low: Id, high: Id, k: nat)
    requires MembersOk(members) && ScopeIsClosure(members, high)
    requires Linked(Nodes(members), low, high, k)
    ensures k <= MAX_DEPTH
  {
    if k > 0 {
      ClimbPrefix(Nodes(members), low, 0, k);
      assert Manager(members, low, 0) == Some(low) != Manager(members, low, k);
      InScope(members, high, low);
      var j: nat :| 0 < j <= MAX_DEPTH && Linked(Nodes(members), low, high, j);
      AtOneDepth(Down, Nodes(members), high, low, j, k);
    }
  }

  /** Scopes are the whole reflexive-transitive closure exactly when no chain outgrows the cap. */
  lemma ScopesAreClosuresIff(members: seq<Membership>)
    requires MembersOk(members)
    ensures ChainsFit(members) <==> forall root :: ScopeIsClosure(members, root)
  {
    if ChainsFit(members) {
      forall root: Id, id: Id
        ensures id in ScopeIds(members, root) <==> id == root || ReportsTo(members, id, root)
      {
        FitScopeIsClosure(members, root, id);
      }
    }
    if forall root :: ScopeIsClosure(members, root) {
      forall low: Id, high: Id, k: nat | Linked(Nodes(members), low, high, k)
        ensures k <= MAX_DEPTH
      {
        ClosedScopeFits(members, low, high, k);
      }
    }
  }

  /** `n` people, each reporting to the one before. */
  function Line(n: nat): seq<Membership> {
    seq(n, i requires 0 <= i < n => Membership(i, 0, i, if i == 0 then None else Some(i - 1), false, ACTIVE_MEMBER))
  }

  lemma LineOk(n: nat)
    ensures MembersOk(Line(n))
  {
    forall m | m in Line(n) && m.manager.Some?
      ensures InOrg(Line(n), m.manager.value, m.org)
    {
      assert Line(n)[m.id - 1] in Line(n);
    }
  }

  lemma LineParent(n: nat, i: nat)
    requires i < n
    ensures RowOf(Nodes(Line(n)), i).Some?
    ensures i > 0 ==> ParentOf(Nodes(Line(n)), i) == Some(i - 1)
  {
    LineOk(n);
    NodesKeyed(Line(n));
    var table := Nodes(Line(n));
    RowOfMember(table, table[i]);
    if i > 0 {
      RowOfMember(table, table[i - 1]);
    }
  }

  lemma {:induction false} ClimbLine(n: nat, i: nat, k: nat)
    requires k <= i < n
    ensures Manager(Line(n), i, k) == Some(i - k)
    decreases k
  {
    LineParent(n, i);
    if k > 0 {
      ClimbLine(n, i - 1, k - 1);
    }
  }

  /** The cap is real: one person more than it allows and the last report is out of scope. */
  lemma DeepChainIsCut()
    ensures MembersOk(Line(34)) && ReportsTo(Line(34), 33, 0) && 33 !in ScopeIds(Line(34), 0)
  {
    var members, last := Line(34), 33;
    LineOk(34);
    ClimbLine(34, last, last);
    assert Manager(members, last, last) == Some(0);
    InScope(members, 0, last);
    forall k: nat | 0 < k <= MAX_DEPTH
      ensures !Linked(Nodes(members), last, 0, k)
    {
      ClimbLine(34, last, k);
    }
  }

  /** Inside the cap, being in a scope means having your whole scope in it. */
  lemma ScopeInclusion(members: seq<Membership>, a: Id, b: Id)
    requires MembersOk(members) && ChainsFit(members)
    requires b in ScopeIds(members, a)
    ensures ScopeIds(members, b) <= ScopeIds(members, a)
  {
    ScopesAreClosuresIff(members);
    assert ScopeIsClosure(members, a) && ScopeIsClosure(members, b);
    forall d | d in ScopeIds(members, b)
      ensures d in ScopeIds(members, a)
    {
      if d != b && b != a {
        var i: nat :| Manager(members, d, i) == Some(b);
        var j: nat :| Manager(members, b, j) == Some(a);
        ClimbSplit(Nodes(members), d, i, j);
        assert Manager(members, d, i + j) == Some(a);
      }
    }
  }

  lemma {:induction false} ClimbStaysInOrg(members: seq<Membership>, id: Id, k: nat, org: Id)
    requires MembersOk(members) && InOrg(members, id, org)
    requires Manager(members, id, k).Some?
    ensures InOrg(members, Manager(members, id, k).value, org)
    decreases k
  {
    hide Keyed;
    if k > 0 {
      var n := RowOf(Nodes(members), id).value;
      var i :| 0 <= i < |members| && Nodes(members)[i] == n;
      var m :| m in members && m.id == id && m.org == org;
      assert members[i] == m;
      assert ManagerFits(members, m);
      ClimbStaysInOrg(members, n.up.value, k - 1, org);
    }
  }

  /** Authority stops at the edge of the organization. */
  lemma ScopeStaysInOrg(members: seq<Membership>, root: Id, org: Id, id: Id)
    requires MembersOk(members) && InOrg(members, root, org)
    requires id in ScopeIds(members, root)
    ensures InOrg(members, id, org)
  {
    InScope(members, root, id);
    if id != root {
      var k: nat :| 0 < k <= MAX_DEPTH && Linked(Nodes(members), id, root, k);
      ClimbPrefix(Nodes(members), id, 0, k);
      var n := RowOf(Nodes(members), id).value;
      var i :| 0 <= i < |members| && Nodes(members)[i] == n;
      var m := members[i];
      assert InOrg(members, id, m.org);
      ClimbStaysInOrg(members, id, k, m.org);
      OneOrg(members, root, m.org, org);
    }
  }

  lemma OneOrg(members: seq<Membership>, id: Id, a: Id, b: Id)
    requires MembersOk(members) && InOrg(members, id, a) && InOrg(members, id, b)
    ensures a == b
  {
    var x :| x in members && x.id == id && x.org == a;
    var y :| y in members && y.id == id && y.org == b;
    MemberIsUnique(members, x);
    MemberIsUnique(members, y);
  }
}
