/** A plan's item rows, edited as rows, behave as one plain list edited as a list. */
module ItemLists {
  import opened Common
  import opened Schema
  import opened PlanItems
  import opened Ledger
  import opened Steps
  import opened Runs
  import Delegation
  import Work
  import Approval
  import Trail

  // --- the list machine --------------------------------------------------------------------

  /** The ids a removal of `root` takes with it, found by one pass from the front of the list. */
  function Gone(l: seq<PlanItem>, root: Id): set<Id> {
    if l == [] then {root}
    else
      var before, last := Gone(l[..|l| - 1], root), l[|l| - 1];
      if last.parent.Some? && last.parent.value in before then before + {last.id} else before
  }

  function Prune(l: seq<PlanItem>, gone: set<Id>): seq<PlanItem> {
    if l == [] then []
    else Prune(l[..|l| - 1], gone) + if l[|l| - 1].id in gone then [] else [l[|l| - 1]]
  }

  function Replace(l: seq<PlanItem>, item: Id, e: Delegation.ItemEdit): seq<PlanItem> {
    seq(|l|, i requires 0 <= i < |l| => if l[i].id == item then Delegation.EditedItem(l[i], e) else l[i])
  }

  /** Append, replace in place, or delete with everything nested below. */
  function ListEdit(p: Plan, l: seq<PlanItem>, s: Step): seq<PlanItem>
    requires Edits(s)
  {
    match s
    case AddItem(_, n, id) => l + [Delegation.ItemFor(p, n, id, NextSort(l))]
    case UpdateItem(_, item, e) => Replace(l, item, e)
    case RemoveItem(_, item) => Prune(l, Gone(l, item))
  }

  // --- rows refine the list ----------------------------------------------------------------

  lemma {:induction false} GoneIsUnder(items: map<Id, PlanItem>, l: seq<PlanItem>, plan: Id, n: nat, root: Id)
    requires Keyed(items) && SortsDistinct(items) && ParentsFirst(items)
    requires l == Listing(items, plan) && n <= |l|
    ensures forall i | 0 <= i < n :: l[i].id in items
    ensures forall i | 0 <= i < n :: l[i].id in Gone(l[..n], root) <==> Under(items, l[i].id, root)
    ensures root in Gone(l[..n], root)
    ensures forall g | g in Gone(l[..n], root) :: g == root || exists i :: 0 <= i < n && l[i].id == g
  {
    hide Keyed, SortsDistinct, ParentsFirst, Listing, Lists;
    if n > 0 {
      GoneIsUnder(items, l, plan, n - 1, root);
      assert l[..n][..n - 1] == l[..n - 1];
      Placed(items, plan, n - 1);
      var last, before := l[n - 1], Gone(l[..n - 1], root);
      assert last.id in before <==> last.id == root;
      if last.parent.Some? {
        var i :| 0 <= i < n - 1 && l[i].id == last.parent.value;
        assert l[i].id in before <==> Under(items, l[i].id, root);
      }
    }
  }

  /** One row of a listing: a row of the table, listed once, its parent listed before it. */
  lemma Placed(items: map<Id, PlanItem>, plan: Id, n: nat)
    requires Keyed(items) && SortsDistinct(items) && ParentsFirst(items) && n < |Listing(items, plan)|
    ensures var l := Listing(items, plan);
            && l[n].id in items && items[l[n].id] == l[n]
            && (forall i | 0 <= i < n :: l[i].id != l[n].id)
            && (l[n].parent.Some? ==> exists i :: 0 <= i < n && l[i].id == l[n].parent.value)
  {
    hide ParentsFirst;
    var l := Listing(items, plan);
    ListingLists(items, plan);
    assert l[n] in l;
    forall i | 0 <= i < n
      ensures l[i].id != l[n].id
    {
      assert l[i] in l;
    }
    if l[n].parent.Some? {
      ChildAfterParent(items, plan, n);
    }
  }

  lemma {:induction false} KeptIsPruned(l: seq<PlanItem>, items: map<Id, PlanItem>, root: Id, gone: set<Id>)
    requires ParentsFirst(items)
    requires forall i | 0 <= i < |l| :: l[i].id in items
    requires forall i | 0 <= i < |l| :: l[i].id in gone <==> Under(items, l[i].id, root)
    ensures Kept(l, items, root) == Prune(l, gone)
  {
    hide ParentsFirst, Under;
    if l != [] {
      KeptIsPruned(l[..|l| - 1], items, root, gone);
    }
  }

  /** Deleting a row with its cascade prunes the list in one pass, without looking at the table. */
  lemma RemovePrunes(items: map<Id, PlanItem>, root: Id)
    requires Keyed(items) && SortsDistinct(items) && ParentsFirst(items) && root in items
    ensures var l := Listing(items, items[root].plan);
            Listing(Without(items, root), items[root].plan) == Prune(l, Gone(l, root))
  {
    hide Keyed, SortsDistinct, ParentsFirst, Under, Listing, Without;
    var l := Listing(items, items[root].plan);
    RemoveDeletes(items, root);
    GoneIsUnder(items, l, items[root].plan, |l|, root);
    assert l[..|l|] == l;
    KeptIsPruned(l, items, root, Gone(l, root));
  }

  lemma EditStaysPut(x: PlanItem, e: Delegation.ItemEdit)
    ensures var r := Delegation.EditedItem(x, e);
            r.id == x.id && r.plan == x.plan && r.sort == x.sort && r.parent == x.parent
  {}

  lemma UpdateReplaces(items: map<Id, PlanItem>, item: Id, e: Delegation.ItemEdit)
    requires Keyed(items) && SortsDistinct(items) && ParentsFirst(items) && item in items
    ensures Listing(items[item := Delegation.EditedItem(items[item], e)], items[item].plan) ==
            Replace(Listing(items, items[item].plan), item, e)
  {
    hide SortsDistinct, ParentsFirst, Listing, Delegation.EditedItem;
    var l, x := Listing(items, items[item].plan), Delegation.EditedItem(items[item], e);
    EditStaysPut(items[item], e);
    var k := EditReplaces(items, x);
    forall i | 0 <= i < |l|
      ensures l[i].id == item <==> i == k
    {
      Placed(items, items[item].plan, if i < k then k else i);
    }
    assert l[k := x] == Replace(l, item, e);
  }

  /** One edit of the rows is one edit of the list. */
  lemma EditIsListEdit(db: Db, s: Step)
    requires Inv(db) && Edits(s) && Next(db, s) != db
    ensures s.plan in db.plans
    ensures Listing(Next(db, s).items, s.plan) == ListEdit(db.plans[s.plan], Listing(db.items, s.plan), s)
  {
    hide Inv, Consistent, Keyed, SortsDistinct, ParentsFirst, Listing, Without, Takes, Delegation.EditedItem,
      MembersOk, InOrgIfAny, Work.CreateOutcome, Work.MoveOutcome, Delegation.CreatePlanOutcome, Gone, Prune;
    Tables(db);
    match s
    case AddItem(plan, n, id) => AddAppends(db.items, Delegation.AddedItem(db, plan, n, id));
    case UpdateItem(plan, item, e) => UpdateReplaces(db.items, item, e);
    case RemoveItem(plan, item) => RemovePrunes(db.items, item);
  }

  // --- over runs ---------------------------------------------------------------------------

  /** The list machine run beside the tables: it sees the calls and which of them went through. */
  ghost function ListAfter(states: seq<Db>, steps: seq<Step>, n: nat, p: Id): seq<PlanItem>
    requires n < |states| == |steps| + 1
  {
    if n == 0 then []
    else
      var l, s := ListAfter(states, steps, n - 1, p), steps[n - 1];
      if Edits(s) && s.plan == p && p in states[n - 1].plans && states[n] != states[n - 1]
      then ListEdit(states[n - 1].plans[p], l, s) else l
  }

  lemma OtherStepsKeepListings(db: Db, s: Step, p: Id)
    requires Inv(db) && (!Edits(s) || s.plan != p || Next(db, s) == db)
    ensures Listing(Next(db, s).items, p) == Listing(db.items, p)
  {
    hide Inv, Next, EditsOnly, Listing;
    if Next(db, s) != db {
      if Edits(s) {
        EditTouches(db, s);
        OtherListingsStay(db.items, Next(db, s).items, s.plan);
      } else {
        OnlyEditsMoveItems(db, s);
      }
    }
  }

  lemma OnlyEditsMoveItems(db: Db, s: Step)
    requires Inv(db) && !Edits(s)
    ensures Next(db, s).items == db.items
  {
    hide Inv, Takes, Work.CreateOutcome, Work.MoveOutcome, Delegation.CreatePlanOutcome, Delegation.CanSubmit,
      KeepsPeople, MembersOk, Delegation.SubmissionNotice, Approval.AddTasks, Approval.WritesOf;
    if s.Decide? && Takes(db, s) {
      Trail.DecidesPending(db, s);
    }
  }

  /** `list_items` after any run is what the list machine says. */
  lemma {:induction false} RowsRefineList(states: seq<Db>, steps: seq<Step>, n: nat, p: Id)
    requires Run(states, steps) && n < |states|
    ensures Listing(states[n].items, p) == ListAfter(states, steps, n, p)
  {
    hide Inv, Next, Listing, ListEdit;
    if n == 0 {
      ListingIs(map[], p, []);
    } else {
      RowsRefineList(states, steps, n - 1, p);
      var db, s := states[n - 1], steps[n - 1];
      if Edits(s) && s.plan == p && Next(db, s) != db {
        EditIsListEdit(db, s);
      } else {
        OtherStepsKeepListings(db, s, p);
      }
    }
  }
}
