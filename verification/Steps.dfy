/** The serial machine: every service call as one atomic step, and the invariant it keeps. */
module Steps {
  import opened Common
  import opened Schema
  import opened PlanItems
  import opened Permissions
  import opened Ledger
  import Delegation
  import Work
  import Approval

  datatype Step =
    | CreateWork(org: Id, kind: WorkItemType, title: string, description: Option<string>, createdBy: Id,
                 parent: Option<Id>, owner: Option<Id>, due: Option<Time>, draw: Draw)
    | MoveWork(work: Id, to: WorkItemStatus, actor: Option<Id>)
    | CreatePlan(scope: Id, createdBy: Id, draw: Draw)
    | AddItem(plan: Id, newItem: Delegation.NewItem, id: Id)
    | UpdateItem(plan: Id, item: Id, edit: Delegation.ItemEdit)
    | RemoveItem(plan: Id, item: Id)
    | Submit(plan: Id, now: Time)
      // the decider is whoever the caller loaded, at this state or an earlier one
    | Decide(decision: Decision, plan: Id, decider: Actor, expected: Option<nat>, comment: Option<string>, now: Time,
             draws: nat -> Draw)
      // memberships and addresses, edited by anyone, with nobody deleted or moved to another organization
    | Outside(members: seq<Membership>, identities: seq<Identity>)

  ghost predicate KeepsPeople(before: seq<Membership>, after: seq<Membership>) {
    forall id, org | InOrg(before, id, org) :: InOrg(after, id, org)
  }

  function RequestOf(s: Step): Approval.Request
    requires s.Decide?
  {
    Approval.Request(s.plan, s.decider, s.expected, s.comment, s.now, s.draws)
  }

  /** A decision step that takes effect. */
  ghost predicate Takes(db: Db, s: Step) {
    s.Decide? && Approval.Goes(db, s.decision, RequestOf(s))
  }

  /** The tables after a step; a refused or failing call leaves them alone. */
  ghost function Next(db: Db, s: Step): Db
    requires Inv(db)
  {
    match s
    case CreateWork(org, kind, title, description, createdBy, parent, owner, due, draw) =>
      if parent.Some? && parent.value !in db.works then db
      else
        var up := if parent.Some? then Some(db.works[parent.value]) else None;
        var r := Work.CreateOutcome(db, org, kind, title, description, createdBy, up, owner, due, draw);
        if r.Ok? then Work.WithWork(db, r.value) else db
    case MoveWork(work, to, actor) =>
      if work in db.works && Work.MoveOutcome(db, db.works[work], to, actor) == Ok(true)
      then Work.Moved(db, db.works[work], to, actor) else db
    case CreatePlan(scope, createdBy, draw) =>
      if scope !in db.works then db
      else
        var r := Delegation.CreatePlanOutcome(db, db.works[scope], createdBy, draw);
        if r.Ok? then Delegation.WithPlan(db, r.value) else db
    case AddItem(plan, n, id) =>
      if Delegation.CanAdd(db, plan, n, id) then Delegation.Added(db, plan, n, id) else db
    case UpdateItem(plan, item, e) =>
      if Delegation.CanUpdate(db, plan, item, e) then Delegation.Updated(db, plan, item, e) else db
    case RemoveItem(plan, item) =>
      if Delegation.CanRemove(db, plan, item) then Delegation.Removed(db, plan, item) else db
    case Submit(plan, now) =>
      if Delegation.CanSubmit(db, plan, now) then Delegation.Submitted(db, plan, now) else db
    case Decide(_, _, _, _, _, _, _) =>
      if Takes(db, s) then Approval.Apply(db, Approval.WritesOf(db, s.decision, RequestOf(s))) else db
    case Outside(members, identities) =>
      if MembersOk(members) && KeepsPeople(db.members, members)
      then db.(members := members, identities := identities) else db
  }

  /** The parts of the invariant the steps below use. */
  lemma Tables(db: Db)
    requires Inv(db)
    ensures Consistent(db) && WorksOk(db.members, db.works) && Work.EventsOk(db.works, db.events)
    ensures PlanItems.Keyed(db.items) && SortsDistinct(db.items) && ParentsFirst(db.items)
    ensures forall p | p in db.plans :: db.plans[p].id == p
    ensures forall w | w in db.works :: db.works[w].id == w
  {}

  // --- edits are drafting ------------------------------------------------------------------

  /** The two item tables differ in one plan's rows only. */
  ghost predicate EditsOnly(before: map<Id, PlanItem>, after: map<Id, PlanItem>, plan: Id) {
    && PlanItems.Keyed(before) && SortsDistinct(before) && PlanItems.Keyed(after) && SortsDistinct(after)
    && (forall i | i in before && before[i].plan != plan :: i in after && after[i] == before[i])
    && (forall i | i in after && after[i].plan != plan :: i in before)
    && (forall i | i in before && i in after :: before[i].plan == after[i].plan)
  }

  lemma OtherListingsStay(before: map<Id, PlanItem>, after: map<Id, PlanItem>, plan: Id)
    requires EditsOnly(before, after, plan)
    ensures forall q | q != plan :: Listing(after, q) == Listing(before, q)
  {
    forall q | q != plan
      ensures Listing(after, q) == Listing(before, q)
    {
      ListingFrame(before, after, q);
    }
  }

  /** Replacing one open plan's row and some of its items is drafting. */
  lemma EditDrafts(db: Db, after: Db, p: Plan)
    requires p.id in db.plans && Editable(db.plans[p.id].status) && Editable(p.status)
    requires p.createdBy == db.plans[p.id].createdBy && after.plans == db.plans[p.id := p]
    requires EditsOnly(db.items, after.items, p.id)
    ensures Drafts(db, after)
  {
    OtherListingsStay(db.items, after.items, p.id);
  }

  /** One edit of an open plan, from the consistency of the tables around it to the invariant. */
  lemma EditKeeps(db: Db, after: Db, plan: Id)
    requires Inv(db) && Consistent(after)
    requires plan in db.plans && Editable(db.plans[plan].status)
    requires after == db.(items := after.items, plans := db.plans[plan := Delegation.Touched(db.plans[plan])])
    requires EditsOnly(db.items, after.items, plan)
    ensures Inv(after)
  {
    var p := Delegation.Touched(db.plans[plan]);
    EditDrafts(db, after, p);
    SentOnStays(db.plans, p);
    QuietDraftKeeps(db, after);
  }

  lemma RowEdits(items: map<Id, PlanItem>, x: PlanItem)
    requires PlanItems.Keyed(items) && SortsDistinct(items) && SortsDistinct(items[x.id := x])
    requires x.id in items ==> items[x.id].plan == x.plan
    ensures EditsOnly(items, items[x.id := x], x.plan)
  {}

  lemma AddEdits(db: Db, plan: Id, n: Delegation.NewItem, id: Id)
    requires PlanItems.Keyed(db.items) && SortsDistinct(db.items)
    requires plan in db.plans && db.plans[plan].id == plan && id !in db.items
    ensures EditsOnly(db.items, Delegation.Added(db, plan, n, id).items, plan)
  {
    var x := Delegation.AddedItem(db, plan, n, id);
    AddAppends(db.items, x);
    RowEdits(db.items, x);
  }

  lemma UpdateEdits(db: Db, plan: Id, item: Id, e: Delegation.ItemEdit)
    requires PlanItems.Keyed(db.items) && SortsDistinct(db.items)
    requires plan in db.plans && item in db.items && db.items[item].plan == plan
    ensures EditsOnly(db.items, Delegation.Updated(db, plan, item, e).items, plan)
  {
    RowEdits(db.items, Delegation.EditedItem(db.items[item], e));
  }

  lemma RemoveEdits(db: Db, plan: Id, item: Id)
    requires PlanItems.Keyed(db.items) && SortsDistinct(db.items) && ParentsFirst(db.items)
    requires plan in db.plans && item in db.items && db.items[item].plan == plan
    ensures EditsOnly(db.items, Delegation.Removed(db, plan, item).items, plan)
  {
    RemoveDeletes(db.items, item);
  }

  lemma SubmitSends(plans: map<Id, Plan>, p: Plan, sent: bool)
    requires p.id in plans && plans[p.id].status == DRAFT && p.status != DRAFT
    requires sent <==> p.approver != Some(p.createdBy)
    ensures |SentOn(plans[p.id := p])| == |SentOn(plans)| + if sent then 1 else 0
  {
    forall q
      ensures q in SentOn(plans[p.id := p]) <==> q in SentOn(plans) || (q == p.id && sent)
    {}
    assert p.id !in SentOn(plans);
    assert SentOn(plans[p.id := p]) == if sent then SentOn(plans) + {p.id} else SentOn(plans);
  }

  lemma SubmitDrafts(db: Db, plan: Id, now: Time)
    requires PlanItems.Keyed(db.items) && SortsDistinct(db.items)
    requires plan in db.plans && db.plans[plan].id == plan && db.plans[plan].status == DRAFT
    ensures Drafts(db, Delegation.Submitted(db, plan, now))
    ensures |SentOn(Delegation.Submitted(db, plan, now).plans)| ==
            |SentOn(db.plans)| + |Delegation.SubmissionNotice(db, db.plans[plan], now)|
    ensures forall m | m in Delegation.SubmissionNotice(db, db.plans[plan], now) :: m.kind == PLAN_SUBMITTED
  {
    var p := Delegation.SubmittedPlan(db.members, db.plans[plan], now);
    EditDrafts(db, Delegation.Submitted(db, plan, now), p);
    SubmitSends(db.plans, p, p.approver != Some(p.createdBy));
  }

  lemma SubmitKeepsInv(db: Db, plan: Id, now: Time)
    requires Inv(db) && Delegation.CanSubmit(db, plan, now)
    ensures Inv(Delegation.Submitted(db, plan, now))
  {
    Delegation.SubmitKeeps(db, plan, now);
    SubmitDrafts(db, plan, now);
    DraftStepKeeps(db, Delegation.Submitted(db, plan, now), Delegation.SubmissionNotice(db, db.plans[plan], now));
  }

  lemma NewPlanDrafts(db: Db, p: Plan)
    requires p.id !in db.plans && p.status == DRAFT
    ensures Drafts(db, Delegation.WithPlan(db, p)) && SentOn(Delegation.WithPlan(db, p).plans) == SentOn(db.plans)
  {
    forall q
      ensures q in SentOn(db.plans[p.id := p]) <==> q in SentOn(db.plans)
    {}
  }

  lemma NewPlanKeeps(db: Db, p: Plan)
    requires Inv(db) && p.id !in db.plans && p.status == DRAFT && Consistent(Delegation.WithPlan(db, p))
    ensures Inv(Delegation.WithPlan(db, p))
  {
    NewPlanDrafts(db, p);
    QuietDraftKeeps(db, Delegation.WithPlan(db, p));
  }

  lemma CreatePlanKeepsInv(db: Db, scope: Id, createdBy: Id, draw: Draw)
    requires Inv(db) && scope in db.works
    requires Delegation.CreatePlanOutcome(db, db.works[scope], createdBy, draw).Ok?
    ensures Inv(Delegation.WithPlan(db, Delegation.CreatePlanOutcome(db, db.works[scope], createdBy, draw).value))
  {
    hide Inv, Consistent, Work.CreateOutcome, Next, Takes;
    Tables(db);
    Delegation.CreatePlanKeeps(db, db.works[scope], createdBy, draw);
    NewPlanKeeps(db, Delegation.CreatePlanOutcome(db, db.works[scope], createdBy, draw).value);
  }

  lemma OutsideStep(db: Db, members: seq<Membership>, identities: seq<Identity>)
    requires Consistent(db) && MembersOk(members) && KeepsPeople(db.members, members)
    ensures Consistent(db.(members := members, identities := identities))
  {
    forall p | p in db.plans
      ensures db.plans[p].id == p && PlanOk(members, db.works, db.plans[p])
    {
      assert PlanOk(db.members, db.works, db.plans[p]);
    }
    forall i | i in db.items
      ensures db.items[i].id == i && ItemOk(members, db.plans, db.items[i])
    {
      assert ItemOk(db.members, db.plans, db.items[i]);
    }
  }

  lemma OutsideKeepsInv(db: Db, members: seq<Membership>, identities: seq<Identity>)
    requires Inv(db) && MembersOk(members) && KeepsPeople(db.members, members)
    ensures Inv(db.(members := members, identities := identities))
  {
    hide Consistent, Work.EventsOk, DecisionsOk, CreationsOk, MailOk;
    OutsideStep(db, members, identities);
  }

  lemma CreateWorkStep(db: Db, s: Step)
    requires Inv(db) && s.CreateWork? && Next(db, s) != db
    ensures Inv(Next(db, s))
  {
    hide Inv, Consistent, WorksOk, Work.EventsOk, Work.CreateOutcome, Takes, Work.MoveOutcome;
    Tables(db);
    var up := if s.parent.Some? then Some(db.works[s.parent.value]) else None;
    Work.CreatedFits(db, s.org, s.kind, s.title, s.description, s.createdBy, up, s.owner, s.due, s.draw);
    var w := Work.CreateOutcome(db, s.org, s.kind, s.title, s.description, s.createdBy, up, s.owner, s.due, s.draw).value;
    NewWorkKeeps(db, w);
  }

  lemma NewWorkKeeps(db: Db, w: WorkItem)
    requires Inv(db) && Work.FitsIn(db.members, db.works, w)
    ensures Inv(Work.WithWork(db, w))
  {
    hide Inv, Consistent, Work.EventsOk, PlansOk, ItemsOk, WorkCodesUnique;
    Tables(db);
    Work.WithWorkKeepsWorks(db, w);
    Work.WithWorkKeepsEvents(db, w);
    WorkStepKeeps(db, Work.WithWork(db, w));
  }

  lemma MoveWorkStep(db: Db, s: Step)
    requires Inv(db) && s.MoveWork? && Next(db, s) != db
    ensures Inv(Next(db, s))
  {
    hide Inv, Consistent, WorksOk, Work.EventsOk, Takes, Work.CreateOutcome;
    Tables(db);
    Work.MovedKeepsWorks(db, s.work, s.to, s.actor);
    Work.MovedKeepsEvents(db, s.work, s.to, s.actor);
    WorkStepKeeps(db, Next(db, s));
  }

  predicate Edits(s: Step) {
    s.AddItem? || s.UpdateItem? || s.RemoveItem?
  }

  /** An edit that goes through touches one open plan and its own rows. */
  lemma EditTouches(db: Db, s: Step)
    requires Inv(db) && Edits(s) && Next(db, s) != db
    ensures var after := Next(db, s);
            && s.plan in db.plans && Editable(db.plans[s.plan].status)
            && after == db.(items := after.items, plans := db.plans[s.plan := Delegation.Touched(db.plans[s.plan])])
            && EditsOnly(db.items, after.items, s.plan)
  {
    hide Inv, Consistent, EditsOnly, SortsDistinct, PlanItems.Keyed, ParentsFirst, Takes, Work.CreateOutcome,
      Work.MoveOutcome, Delegation.CreatePlanOutcome, Delegation.CanSubmit, MembersOk, Delegation.AddedItem,
      Without, Delegation.EditedItem, InOrgIfAny;
    Tables(db);
    match s
    case AddItem(plan, n, id) => AddEdits(db, plan, n, id);
    case UpdateItem(plan, item, e) => UpdateEdits(db, plan, item, e);
    case RemoveItem(plan, item) => RemoveEdits(db, plan, item);
  }

  lemma EditStaysConsistent(db: Db, s: Step)
    requires Inv(db) && Edits(s) && Next(db, s) != db
    ensures Consistent(Next(db, s))
  {
    hide Inv, Consistent, Delegation.CanAdd, Delegation.Added, Delegation.Removed, Delegation.Updated,
      Delegation.CanUpdate, Delegation.CanRemove, Takes, Work.CreateOutcome, Work.MoveOutcome,
      Delegation.CreatePlanOutcome, Delegation.CanSubmit;
    Tables(db);
    match s
    case AddItem(plan, n, id) => Delegation.AddKeeps(db, plan, n, id);
    case UpdateItem(plan, item, e) => Delegation.UpdateKeeps(db, plan, item, e);
    case RemoveItem(plan, item) => Delegation.RemoveKeeps(db, plan, item);
  }

  lemma EditStep(db: Db, s: Step)
    requires Inv(db) && Edits(s) && Next(db, s) != db
    ensures Inv(Next(db, s))
  {
    hide Inv, Consistent, EditsOnly, Next;
    EditTouches(db, s);
    EditStaysConsistent(db, s);
    EditKeeps(db, Next(db, s), s.plan);
  }

  /** Every step of every service keeps the invariant. */
  lemma NextKeepsInv(db: Db, s: Step)
    requires Inv(db)
    ensures Inv(Next(db, s))
  {
    hide Inv, MembersOk, KeepsPeople, Work.CreateOutcome, Work.MoveOutcome, Delegation.CreatePlanOutcome,
      Delegation.CanAdd, Delegation.CanUpdate, Delegation.CanRemove, Approval.Goes;
    match s
    case CreateWork(_, _, _, _, _, _, _, _, _) =>
      if Next(db, s) != db {
        CreateWorkStep(db, s);
      }
    case MoveWork(_, _, _) =>
      if Next(db, s) != db {
        MoveWorkStep(db, s);
      }
    case Decide(_, _, _, _, _, _, _) =>
      if Takes(db, s) {
        DecideKeeps(db, s.decision, RequestOf(s));
      }
    case Outside(members, identities) =>
      if MembersOk(members) && KeepsPeople(db.members, members) {
        OutsideKeepsInv(db, members, identities);
      }
    case CreatePlan(scope, createdBy, draw) =>
      if Next(db, s) != db {
        CreatePlanKeepsInv(db, scope, createdBy, draw);
      }
    case Submit(plan, now) =>
      if Next(db, s) != db {
        SubmitKeepsInv(db, plan, now);
      }
    case _ =>
      if Next(db, s) != db {
        EditStep(db, s);
      }
  }
}
