/** `list_items`: a plan's rows as one ordered sequence, and what each edit does to it. */
module PlanItems {
  import opened Common
  import opened Schema

  // --- the listing -------------------------------------------------------------------------

  ghost predicate Ordered(l: seq<PlanItem>) {
    forall i, j | 0 <= i < j < |l| :: l[i].sort < l[j].sort
  }

  /** The rows named by `ids`, all of them, by ascending sort order. */
  ghost predicate Lists(items: map<Id, PlanItem>, ids: set<Id>, l: seq<PlanItem>) {
    && (forall x | x in l :: x.id in ids && x.id in items && items[x.id] == x)
    && (forall i | i in ids && i in items :: items[i] in l)
    && Ordered(l)
  }

  function IdsOf(items: map<Id, PlanItem>, plan: Id): set<Id> {
    set i | i in items && items[i].plan == plan
  }

  ghost function Listing(items: map<Id, PlanItem>, plan: Id): seq<PlanItem> {
    if l :| Lists(items, IdsOf(items, plan), l) then l else []
  }

  ghost predicate Keyed(items: map<Id, PlanItem>) {
    forall i | i in items :: items[i].id == i
  }

  function Insert(l: seq<PlanItem>, x: PlanItem): (r: seq<PlanItem>) {
    if l == [] || x.sort < l[0].sort then [x] + l else [l[0]] + Insert(l[1..], x)
  }

  lemma {:induction false} InsertLists(items: map<Id, PlanItem>, ids: set<Id>, l: seq<PlanItem>, x: PlanItem)
    requires Keyed(items) && x.id in items && items[x.id] == x && x.id !in ids
    requires Lists(items, ids, l)
    requires forall y | y in l :: y.sort != x.sort
    ensures Lists(items, ids + {x.id}, Insert(l, x))
  {
    InsertOrdered(l, x);
    InsertMembers(l, x);
  }

  lemma {:induction false} InsertMembers(l: seq<PlanItem>, x: PlanItem)
    ensures forall y :: y in Insert(l, x) <==> y in l || y == x
  {
    if !(l == [] || x.sort < l[0].sort) {
      InsertMembers(l[1..], x);
    }
  }

  lemma {:induction false} InsertOrdered(l: seq<PlanItem>, x: PlanItem)
    requires Ordered(l) && forall y | y in l :: y.sort != x.sort
    ensures Ordered(Insert(l, x))
  {
    if !(l == [] || x.sort < l[0].sort) {
      InsertOrdered(l[1..], x);
      InsertMembers(l[1..], x);
      var rest := Insert(l[1..], x);
      forall j | 0 <= j < |rest|
        ensures l[0].sort < rest[j].sort
      {
        assert rest[j] in rest;
      }
    }
  }

  lemma HasElement(l: seq<PlanItem>)
    requires l != []
    ensures exists x :: x in l
  {
    assert l[0] in l;
  }

  /** An ordered sequence is determined by its elements. */
  lemma {:induction false} OrderedUnique(a: seq<PlanItem>, b: seq<PlanItem>)
    requires Ordered(a) && Ordered(b)
    requires forall x :: x in a <==> x in b
    ensures a == b
  {
    if a == [] {
      assert b == [] by {
        if b != [] {
          HasElement(b);
        }
      }
    } else {
      assert a[|a| - 1] in b;
      var lastA, lastB := a[|a| - 1], b[|b| - 1];
      assert lastB in a;
      assert lastA == lastB;
      var restA, restB := a[..|a| - 1], b[..|b| - 1];
      forall x
        ensures x in restA <==> x in restB
      {
        assert x in restA ==> x in a && x.sort < lastA.sort;
        assert x in restB ==> x in b && x.sort < lastB.sort;
      }
      OrderedUnique(restA, restB);
    }
  }

  lemma ListsUnique(items: map<Id, PlanItem>, ids: set<Id>, a: seq<PlanItem>, b: seq<PlanItem>)
    requires ids <= items.Keys && Keyed(items)
    requires Lists(items, ids, a) && Lists(items, ids, b)
    ensures a == b
  {
    OrderedUnique(a, b);
  }

  /** The query itself. */
  method ListItems(session: Session, plan: Id) returns (l: seq<PlanItem>)
    requires Keyed(session.items) && SortsDistinct(session.items)
    ensures Lists(session.items, IdsOf(session.items, plan), l)
    ensures l == Listing(session.items, plan)
  {
    var items, all := session.items, IdsOf(session.items, plan);
    l := [];
    var rest := all;
    while rest != {}
      invariant rest <= all && Lists(items, all - rest, l)
      decreases rest
    {
      var i :| i in rest;
      InsertLists(items, all - rest, l, items[i]);
      l := Insert(l, items[i]);
      assert all - rest + {i} == all - (rest - {i});
      rest := rest - {i};
    }
    assert all - rest == all;
    ListsUnique(items, all, l, Listing(items, plan));
  }

  lemma {:induction false} ListingExists(items: map<Id, PlanItem>, plan: Id, ids: set<Id>) returns (l: seq<PlanItem>)
    requires Keyed(items) && SortsDistinct(items) && ids <= IdsOf(items, plan)
    ensures Lists(items, ids, l)
    decreases ids
  {
    if ids == {} {
      l := [];
    } else {
      var i :| i in ids;
      l := ListingExists(items, plan, ids - {i});
      InsertLists(items, ids - {i}, l, items[i]);
      l := Insert(l, items[i]);
      assert ids - {i} + {i} == ids;
    }
  }

  lemma ListingLists(items: map<Id, PlanItem>, plan: Id)
    requires Keyed(items) && SortsDistinct(items)
    ensures Lists(items, IdsOf(items, plan), Listing(items, plan))
  {
    var _ := ListingExists(items, plan, IdsOf(items, plan));
  }

  lemma ListingIs(items: map<Id, PlanItem>, plan: Id, l: seq<PlanItem>)
    requires Keyed(items) && SortsDistinct(items)
    requires Lists(items, IdsOf(items, plan), l)
    ensures Listing(items, plan) == l
  {
    ListingLists(items, plan);
    ListsUnique(items, IdsOf(items, plan), l, Listing(items, plan));
  }

  /** A plan whose rows did not change lists the same. */
  lemma ListingFrame(before: map<Id, PlanItem>, after: map<Id, PlanItem>, plan: Id)
    requires Keyed(before) && SortsDistinct(before) && Keyed(after) && SortsDistinct(after)
    requires forall i | i in before && before[i].plan == plan :: i in after && after[i] == before[i]
    requires forall i | i in after && after[i].plan == plan :: i in before
    requires forall i | i in before && i in after :: before[i].plan == after[i].plan
    ensures Listing(after, plan) == Listing(before, plan)
  {
    ListingLists(before, plan);
    assert IdsOf(before, plan) == IdsOf(after, plan);
    ListingIs(after, plan, Listing(before, plan));
  }

  lemma ListingSize(items: map<Id, PlanItem>, plan: Id)
    requires Keyed(items) && SortsDistinct(items)
    ensures |Listing(items, plan)| == |IdsOf(items, plan)|
  {
    ListingLists(items, plan);
    var l := Listing(items, plan);
    forall i, j | 0 <= i < j < |l|
      ensures l[i].id != l[j].id
    {
      assert l[i] in l && l[j] in l;
    }
    DistinctIds(l);
    assert (set x | x in l :: x.id) == IdsOf(items, plan) by {
      forall i | i in IdsOf(items, plan)
        ensures i in set x | x in l :: x.id
      {
        assert items[i] in l;
      }
    }
  }

  lemma {:induction false} DistinctIds(l: seq<PlanItem>)
    requires forall i, j | 0 <= i < j < |l| :: l[i].id != l[j].id
    ensures |set x | x in l :: x.id| == |l|
  {
    if l != [] {
      var last, front := l[|l| - 1], l[..|l| - 1];
      DistinctIds(front);
      assert forall x :: x in l <==> x in front || x == last;
      assert (set x | x in l :: x.id) == (set x | x in front :: x.id) + {last.id};
      assert last.id !in set x | x in front :: x.id;
    }
  }

  // --- edits as sequence operations --------------------------------------------------------

  function NextSort(l: seq<PlanItem>): nat {
    if l == [] then 0 else l[|l| - 1].sort + 1
  }

  lemma LastSort(items: map<Id, PlanItem>, plan: Id)
    requires Keyed(items) && SortsDistinct(items)
    ensures forall i | i in items && items[i].plan == plan :: items[i].sort < NextSort(Listing(items, plan))
  {
    hide SortsDistinct;
    var l := Listing(items, plan);
    ListingLists(items, plan);
    forall i | i in items && items[i].plan == plan
      ensures items[i].sort < NextSort(l)
    {
      assert items[i] in l;
    }
  }

  /** Adding a row at the next sort order appends it. */
  lemma AddAppends(items: map<Id, PlanItem>, x: PlanItem)
    requires Keyed(items) && SortsDistinct(items) && x.id !in items
    requires x.sort == NextSort(Listing(items, x.plan))
    ensures Listing(items[x.id := x], x.plan) == Listing(items, x.plan) + [x]
    ensures SortsDistinct(items[x.id := x]) && Keyed(items[x.id := x])
    ensures forall i | i in items && items[i].plan == x.plan :: items[i].sort < x.sort
  {
    var l, after := Listing(items, x.plan), items[x.id := x];
    ListingLists(items, x.plan);
    forall i | i in items && items[i].plan == x.plan
      ensures items[i].sort < x.sort
    {
      assert items[i] in l;
    }
    assert IdsOf(after, x.plan) == IdsOf(items, x.plan) + {x.id};
    assert Lists(after, IdsOf(after, x.plan), l + [x]);
    ListingIs(after, x.plan, l + [x]);
  }

  /** The rows named by `ids` with one of them replaced in place. */
  lemma ReplaceLists(items: map<Id, PlanItem>, ids: set<Id>, l: seq<PlanItem>, k: nat, x: PlanItem)
    requires Lists(items, ids, l) && k < |l| && l[k].id == x.id && x.sort == l[k].sort && Keyed(items)
    ensures Lists(items[x.id := x], ids, l[k := x])
  {
    var r, after := l[k := x], items[x.id := x];
    forall i | i in ids && i in after
      ensures after[i] in r
    {
      if i == x.id {
        assert r[k] == x;
      } else {
        var j :| 0 <= j < |l| && l[j] == items[i];
        assert r[j] == items[i];
      }
    }
    forall j | 0 <= j < |r|
      ensures r[j].id in ids && r[j].id in after && after[r[j].id] == r[j]
    {
      assert l[j] in l && l[k] in l;
      assert j != k ==> l[j].id != x.id;
    }
  }

  /** Replacing a row that keeps its plan and sort order replaces it in place. */
  lemma EditReplaces(items: map<Id, PlanItem>, x: PlanItem) returns (k: nat)
    requires Keyed(items) && SortsDistinct(items) && x.id in items
    requires x.plan == items[x.id].plan && x.sort == items[x.id].sort
    ensures k < |Listing(items, x.plan)| && Listing(items, x.plan)[k] == items[x.id]
    ensures Listing(items[x.id := x], x.plan) == Listing(items, x.plan)[k := x]
  {
    var l, after := Listing(items, x.plan), items[x.id := x];
    ListingLists(items, x.plan);
    assert items[x.id] in l;
    k :| 0 <= k < |l| && l[k] == items[x.id];
    ReplaceLists(items, IdsOf(items, x.plan), l, k, x);
    assert IdsOf(after, x.plan) == IdsOf(items, x.plan);
    ListingIs(after, x.plan, l[k := x]);
  }

  /** `i` is `root` or hangs somewhere below it: what ON DELETE CASCADE takes with it. */
  predicate Under(items: map<Id, PlanItem>, i: Id, root: Id)
    requires ParentsFirst(items) && i in items
    decreases items[i].sort
  {
    assert ParentFirst(items, items[i]);
    i == root || (items[i].parent.Some? && Under(items, items[i].parent.value, root))
  }

  function Without(items: map<Id, PlanItem>, root: Id): map<Id, PlanItem>
    requires ParentsFirst(items)
  {
    map i | i in items && !Under(items, i, root) :: items[i]
  }

  ghost function Kept(l: seq<PlanItem>, items: map<Id, PlanItem>, root: Id): seq<PlanItem>
    requires ParentsFirst(items) && forall x | x in l :: x.id in items
  {
    if l == [] then []
    else Kept(l[..|l| - 1], items, root) + if Under(items, l[|l| - 1].id, root) then [] else [l[|l| - 1]]
  }

  lemma {:induction false} KeptMembers(l: seq<PlanItem>, items: map<Id, PlanItem>, root: Id)
    requires ParentsFirst(items) && forall x | x in l :: x.id in items
    ensures forall x :: x in Kept(l, items, root) <==> x in l && !Under(items, x.id, root)
  {
    hide ParentsFirst, Under;
    if l != [] {
      KeptMembers(l[..|l| - 1], items, root);
      assert forall x :: x in l <==> x in l[..|l| - 1] || x == l[|l| - 1];
    }
  }

  lemma {:induction false} KeptOrdered(l: seq<PlanItem>, items: map<Id, PlanItem>, root: Id)
    requires ParentsFirst(items) && Ordered(l) && forall x | x in l :: x.id in items
    ensures Ordered(Kept(l, items, root))
  {
    hide ParentsFirst, Under;
    if l != [] {
      var front := l[..|l| - 1];
      KeptOrdered(front, items, root);
      KeptMembers(front, items, root);
      forall x | x in Kept(front, items, root)
        ensures x.sort < l[|l| - 1].sort
      {
        assert x in front;
      }
    }
  }

  lemma {:induction false} UnderSamePlan(items: map<Id, PlanItem>, i: Id, root: Id)
    requires ParentsFirst(items) && i in items && Under(items, i, root)
    ensures root in items && items[i].plan == items[root].plan
    decreases items[i].sort
  {
    if i != root {
      assert ParentFirst(items, items[i]);
      UnderSamePlan(items, items[i].parent.value, root);
    }
  }

  /** Removing a row deletes it and everything nested under it, leaving the rest in order. */
  lemma RemoveDeletes(items: map<Id, PlanItem>, root: Id)
    requires Keyed(items) && SortsDistinct(items) && ParentsFirst(items) && root in items
    ensures Keyed(Without(items, root)) && SortsDistinct(Without(items, root)) && ParentsFirst(Without(items, root))
    ensures forall x | x in Listing(items, items[root].plan) :: x.id in items
    ensures Listing(Without(items, root), items[root].plan) == Kept(Listing(items, items[root].plan), items, root)
    ensures forall i | i in items && items[i].plan != items[root].plan :: i in Without(items, root)
  {
    var plan, after := items[root].plan, Without(items, root);
    var l := Listing(items, plan);
    ListingLists(items, plan);
    KeptMembers(l, items, root);
    KeptOrdered(l, items, root);
    var kept := Kept(l, items, root);
    assert Lists(after, IdsOf(after, plan), kept);
    ListingIs(after, plan, kept);
    forall i | i in after
      ensures ParentFirst(after, after[i])
    {
      assert ParentFirst(items, items[i]);
    }
    forall i | i in items && items[i].plan != plan
      ensures i in after
    {
      if Under(items, i, root) {
        UnderSamePlan(items, i, root);
      }
    }
  }

  /** A child is always listed after its parent. */
  lemma ChildAfterParent(items: map<Id, PlanItem>, plan: Id, c: nat)
    requires Keyed(items) && SortsDistinct(items) && ParentsFirst(items)
    requires c < |Listing(items, plan)| && Listing(items, plan)[c].parent.Some?
    ensures exists p :: 0 <= p < c && Some(Listing(items, plan)[p].id) == Listing(items, plan)[c].parent
  {
    ListingLists(items, plan);
    var l := Listing(items, plan);
    assert l[c] in l;
    assert ParentFirst(items, items[l[c].id]);
    var up := items[l[c].parent.value];
    assert up in l;
    var p :| 0 <= p < |l| && l[p] == up;
  }
}
