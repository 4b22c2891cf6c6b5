/** Drafting, editing and submitting delegation plans. */
module Delegation {
  import opened Common
  import opened Schema
  import opened Text
  import opened PlanItems
  import OrgGraph
  import Notifications
  import Walk

  // --- create ------------------------------------------------------------------------------

  /** `create_plan` as a verdict on the tables: the row it inserts, or the error it raises. */
  function CreatePlanOutcome(db: Db, scope: WorkItem, createdBy: Id, draw: Draw): Result<Plan> {
    if scope.kind != RESPONSIBILITY || scope.status == CANCELLED then Err(PlanNotReady)
    else match FirstFree(TakenPlanCodes(db.plans, scope.org), draw.codes)
      case None => Err(CodeExhausted)
      case Some(code) =>
        if draw.id in db.plans || !InOrg(db.members, createdBy, scope.org) || OpenPlanOn(db.plans, scope.id)
        then Err(IntegrityError)
        else Ok(Plan(draw.id, scope.org, scope.id, createdBy, None, DRAFT, code, 1, None, None))
  }

  function WithPlan(db: Db, p: Plan): Db {
    db.(plans := db.plans[p.id := p])
  }

  method AllocateCode(session: Session, org: Id, candidates: Candidates) returns (r: Result<string>)
    ensures r == match FirstFree(TakenPlanCodes(session.plans, org), candidates)
                 case None => Err(CodeExhausted)
                 case Some(code) => Ok(code)
  {
    var taken := TakenPlanCodes(session.plans, org);
    for i := 0 to CODE_ATTEMPTS
      invariant FirstFree(taken, candidates) == FirstFree(taken, candidates[i..])
    {
      assert candidates[i..][1..] == candidates[i + 1..];
      if candidates[i] !in taken {
        return Ok(candidates[i]);
      }
    }
    return Err(CodeExhausted);
  }

  method CreatePlan(session: Session, scope: WorkItem, createdBy: Id, draw: Draw) returns (r: Result<Plan>)
    modifies session
    ensures r == CreatePlanOutcome(old(session.Tables()), scope, createdBy, draw)
    ensures session.Tables() == if r.Ok? then WithPlan(old(session.Tables()), r.value) else old(session.Tables())
  {
    if scope.kind != RESPONSIBILITY {
      return Err(PlanNotReady);
    }
    if scope.status == CANCELLED {
      return Err(PlanNotReady);
    }
    var code := AllocateCode(session, scope.org, draw.codes);
    if code.Err? {
      return Err(code.error);
    }
    if draw.id in session.plans || !InOrg(session.members, createdBy, scope.org) || OpenPlanOn(session.plans, scope.id) {
      return Err(IntegrityError);
    }
    var plan := Plan(draw.id, scope.org, scope.id, createdBy, None, DRAFT, code.value, 1, None, None);
    session.plans := session.plans[plan.id := plan];
    return Ok(plan);
  }

  // --- edit --------------------------------------------------------------------------------

  datatype NewItem = NewItem(
    title: string, description: Option<string>, assignee: Option<Id>, due: Option<Time>, parent: Option<Id>)

  /** `_UNSET` or a value, so that clearing a field differs from leaving it alone. */
  datatype Change<+T> = Unset | Set(value: T) {
    function Over(before: T): T {
      if Set? then value else before
    }
  }

  datatype ItemEdit = ItemEdit(
    title: Option<string>, assignee: Change<Option<Id>>, due: Change<Option<Time>>, description: Change<Option<string>>)

  function Touched(p: Plan): Plan {
    p.(version := p.version + 1)
  }

  /** The row `add_item` writes for a plan, at the given place. */
  function ItemFor(p: Plan, n: NewItem, id: Id, sort: nat): PlanItem {
    PlanItem(id, p.id, p.org, n.parent, TASK, Strip(n.title), n.description, n.assignee, n.due, sort)
  }

  ghost function AddedItem(db: Db, plan: Id, n: NewItem, id: Id): PlanItem
    requires plan in db.plans
  {
    ItemFor(db.plans[plan], n, id, NextSort(Listing(db.items, plan)))
  }

  predicate CanAdd(db: Db, plan: Id, n: NewItem, id: Id) {
    && plan in db.plans && Editable(db.plans[plan].status)
    && id !in db.items
    && (n.parent.Some? ==> n.parent.value in db.items && db.items[n.parent.value].plan == plan)
    && InOrgIfAny(db.members, n.assignee, db.plans[plan].org)
  }

  ghost function Added(db: Db, plan: Id, n: NewItem, id: Id): Db
    requires plan in db.plans
  {
    db.(items := db.items[id := AddedItem(db, plan, n, id)], plans := db.plans[plan := Touched(db.plans[plan])])
  }

  function EditedItem(x: PlanItem, e: ItemEdit): PlanItem {
    x.(title := if e.title.Some? then Strip(e.title.value) else x.title,
       assignee := e.assignee.Over(x.assignee),
       due := e.due.Over(x.due),
       description := e.description.Over(x.description))
  }

  predicate CanUpdate(db: Db, plan: Id, item: Id, e: ItemEdit) {
    && plan in db.plans && Editable(db.plans[plan].status)
    && item in db.items && db.items[item].plan == plan
    && InOrgIfAny(db.members, EditedItem(db.items[item], e).assignee, db.items[item].org)
  }

  function Updated(db: Db, plan: Id, item: Id, e: ItemEdit): Db
    requires plan in db.plans && item in db.items
  {
    db.(items := db.items[item := EditedItem(db.items[item], e)],
        plans := db.plans[plan := Touched(db.plans[plan])])
  }

  predicate CanRemove(db: Db, plan: Id, item: Id) {
    && plan in db.plans && Editable(db.plans[plan].status)
    && item in db.items && db.items[item].plan == plan
  }

  function Removed(db: Db, plan: Id, item: Id): Db
    requires plan in db.plans && ParentsFirst(db.items)
  {
    db.(items := Without(db.items, item), plans := db.plans[plan := Touched(db.plans[plan])])
  }

  method NextSortOrder(session: Session, plan: Id) returns (n: nat)
    requires PlanItems.Keyed(session.items) && SortsDistinct(session.items)
    ensures n == NextSort(Listing(session.items, plan))
  {
    var l := ListItems(session, plan);
    n := if l == [] then 0 else l[|l| - 1].sort + 1;
  }

  method Touch(session: Session, plan: Id)
    requires plan in session.plans
    modifies session
    ensures session.Tables() == old(session.Tables()).(plans := old(session.plans)[plan := Touched(old(session.plans[plan]))])
  {
    var p := session.plans[plan];
    session.plans := session.plans[plan := p.(version := p.version + 1)];
  }

  method AddItem(session: Session, plan: Id, n: NewItem, id: Id) returns (r: Result<PlanItem>)
    requires PlanItems.Keyed(session.items) && SortsDistinct(session.items)
    requires plan in session.plans && session.plans[plan].id == plan
    modifies session
    ensures r.Ok? <==> CanAdd(old(session.Tables()), plan, n, id)
    ensures r.Ok? ==> r.value == AddedItem(old(session.Tables()), plan, n, id)
    ensures r.Err? ==> r.error == if Editable(old(session.plans[plan].status)) then IntegrityError else PlanNotEditable
    ensures session.Tables() == if r.Ok? then Added(old(session.Tables()), plan, n, id) else old(session.Tables())
  {
    hide NextSort, Listing, Strip, InOrg, SortsDistinct;
    var p := session.plans[plan];
    if !Editable(p.status) {
      return Err(PlanNotEditable);
    }
    var sort := NextSortOrder(session, plan);
    var item := ItemFor(p, n, id, sort);
    if id in session.items
       || (n.parent.Some? && (n.parent.value !in session.items || session.items[n.parent.value].plan != plan))
       || !InOrgIfAny(session.members, n.assignee, p.org) {
      return Err(IntegrityError);
    }
    session.items := session.items[id := item];
    Touch(session, plan);
    return Ok(item);
  }

  method UpdateItem(session: Session, plan: Id, item: Id, e: ItemEdit) returns (r: Result<PlanItem>)
    requires plan in session.plans && item in session.items
    modifies session
    ensures r.Ok? <==> CanUpdate(old(session.Tables()), plan, item, e)
    ensures r.Ok? ==> EditedAs(old(session.items[item]), r.value, e)
    ensures r.Ok? ==> r.value == EditedItem(old(session.items[item]), e)
    ensures r.Err? ==>
              r.error == if Editable(old(session.plans[plan].status)) && old(session.items[item]).plan == plan
                         then IntegrityError else PlanNotEditable
    ensures session.Tables() == if r.Ok? then Updated(old(session.Tables()), plan, item, e) else old(session.Tables())
  {
    hide Strip, InOrg;
    var saved := session.Tables();
    var x := session.items[item];
    EditSays(x, e);
    if !Editable(session.plans[plan].status) || x.plan != plan {
      return Err(PlanNotEditable);
    }
    if e.title.Some? {
      x := x.(title := Strip(e.title.value));
    }
    if e.assignee.Set? {
      x := x.(assignee := e.assignee.value);
    }
    if e.due.Set? {
      x := x.(due := e.due.value);
    }
    if e.description.Set? {
      x := x.(description := e.description.value);
    }
    session.items := session.items[item := x];
    Touch(session, plan);
    if !InOrgIfAny(session.members, x.assignee, x.org) {
      session.Rollback(saved);
      return Err(IntegrityError);
    }
    return Ok(x);
  }

  method RemoveItem(session: Session, plan: Id, item: Id) returns (r: Result<()>)
    requires ParentsFirst(session.items) && plan in session.plans && item in session.items
    modifies session
    ensures r.Ok? <==> CanRemove(old(session.Tables()), plan, item)
    ensures r.Err? ==> r.error == PlanNotEditable
    ensures session.Tables() == if r.Ok? then Removed(old(session.Tables()), plan, item) else old(session.Tables())
  {
    if !Editable(session.plans[plan].status) || session.items[item].plan != plan {
      return Err(PlanNotEditable);
    }
    session.items := Without(session.items, item);
    Touch(session, plan);
    return Ok(());
  }

  // --- submit ------------------------------------------------------------------------------

  /** What `_validate_ready` demands of one item. */
  predicate ItemReady(x: PlanItem, scope: set<Id>, now: Time) {
    x.assignee.Some? && x.due.Some? && x.due.value >= now && x.assignee.value in scope
  }

  ghost predicate Ready(db: Db, plan: Id, now: Time)
    requires plan in db.plans
  {
    var l := Listing(db.items, plan);
    l != [] && forall x | x in l :: ItemReady(x, OrgGraph.ScopeIds(db.members, db.plans[plan].createdBy), now)
  }

  ghost predicate CanSubmit(db: Db, plan: Id, now: Time) {
    plan in db.plans && db.plans[plan].status == DRAFT && Ready(db, plan, now)
  }

  function ApproverFor(members: seq<Membership>, createdBy: Id): Id {
    var chain := OrgGraph.Ancestors(members, createdBy);
    if chain != [] then chain[0].member else createdBy
  }

  function SubmittedPlan(members: seq<Membership>, p: Plan, now: Time): Plan {
    p.(approver := Some(ApproverFor(members, p.createdBy)), status := PENDING_APPROVAL,
       submittedAt := Some(now), version := p.version + 1)
  }

  function SubmissionNotice(db: Db, p: Plan, now: Time): seq<Message> {
    var approver := ApproverFor(db.members, p.createdBy);
    if approver == p.createdBy then []
    else [Notifications.MessageFor(db.members, db.identities, p.org, approver, PLAN_SUBMITTED, now)]
  }

  function Submitted(db: Db, plan: Id, now: Time): Db
    requires plan in db.plans
  {
    var p := db.plans[plan];
    db.(plans := db.plans[plan := SubmittedPlan(db.members, p, now)],
        outbox := db.outbox + SubmissionNotice(db, p, now))
  }

  method ValidateReady(session: Session, plan: Id, now: Time) returns (ok: bool)
    requires PlanItems.Keyed(session.items) && SortsDistinct(session.items) && plan in session.plans
    ensures ok <==> Ready(session.Tables(), plan, now)
  {
    var items := ListItems(session, plan);
    if items == [] {
      return false;
    }
    var nameless := exists x | x in items :: x.assignee.None?;
    var undated := exists x | x in items :: x.due.None?;
    if nameless || undated {
      return false;
    }
    if exists x | x in items :: x.due.value < now {
      return false;
    }
    var reachable := OrgGraph.ScopeIds(session.members, session.plans[plan].createdBy);
    return forall x | x in items :: x.assignee.value in reachable;
  }

  lemma ApproverInOrg(members: seq<Membership>, createdBy: Id, org: Id)
    requires MembersOk(members) && InOrg(members, createdBy, org)
    ensures InOrg(members, ApproverFor(members, createdBy), org)
  {
    OrgGraph.FirstAncestor(members, createdBy);
    if OrgGraph.Ancestors(members, createdBy) != [] {
      OrgGraph.ClimbStaysInOrg(members, createdBy, 1, org);
    }
  }

  method SubmitPlan(session: Session, plan: Id, now: Time) returns (r: Result<Plan>)
    requires PlanItems.Keyed(session.items) && SortsDistinct(session.items) && plan in session.plans
    requires MembersOk(session.members) && InOrg(session.members, session.plans[plan].createdBy, session.plans[plan].org)
    modifies session
    ensures r.Ok? <==> CanSubmit(old(session.Tables()), plan, now)
    ensures r.Ok? ==> r.value == SubmittedPlan(old(session.members), old(session.plans[plan]), now)
    ensures r.Err? ==> r.error == if old(session.plans[plan].status) == DRAFT then PlanNotReady else InvalidPlanState
    ensures session.Tables() == if r.Ok? then Submitted(old(session.Tables()), plan, now) else old(session.Tables())
  {
    hide Ready, MembersOk, InOrg, ApproverFor;
    var p := session.plans[plan];
    if p.status != DRAFT {
      return Err(InvalidPlanState);
    }
    var ready := ValidateReady(session, plan, now);
    if !ready {
      return Err(PlanNotReady);
    }
    var approver := ApproverFor(session.members, p.createdBy);
    p := p.(approver := Some(approver));
    p := p.(status := PENDING_APPROVAL, submittedAt := Some(now), version := p.version + 1);
    session.plans := session.plans[plan := p];
    if approver != p.createdBy {
      ApproverInOrg(session.members, p.createdBy, p.org);
      var sent := Notifications.Enqueue(session, p.org, Some(approver), PLAN_SUBMITTED, now);
    }
    return Ok(p);
  }

  // --- what each call says, field by field --------------------------------------------------

  predicate Moves(p: Plan, after: Plan) {
    after == p.(version := p.version + 1)
  }

  lemma CreatePlanSays(db: Db, scope: WorkItem, createdBy: Id, draw: Draw)
    ensures var r := CreatePlanOutcome(db, scope, createdBy, draw);
            var plannable := scope.kind == RESPONSIBILITY && scope.status != CANCELLED;
            var codeLeft := exists c | c in draw.codes :: c !in TakenPlanCodes(db.plans, scope.org);
            var rowFits :=
              && draw.id !in db.plans && InOrg(db.members, createdBy, scope.org)
              && !exists p | p in db.plans :: db.plans[p].scope == scope.id && Editable(db.plans[p].status);
            && (r.Ok? <==> plannable && codeLeft && rowFits)
            && (r == Err(PlanNotReady) <==> !plannable)
            && (r == Err(CodeExhausted) <==> plannable && !codeLeft)
            && (r == Err(IntegrityError) <==> plannable && codeLeft && !rowFits)
            && (r.Ok? ==>
                  var p := r.value;
                  && p.id == draw.id && p.org == scope.org && p.scope == scope.id && p.createdBy == createdBy
                  && p.status == DRAFT && p.version == 1
                  && p.approver.None? && p.submittedAt.None? && p.approvedAt.None?
                  && p.code in draw.codes && p.code !in TakenPlanCodes(db.plans, scope.org)
                  && WithPlan(db, p) == db.(plans := db.plans[p.id := p]))
  {
    hide TakenPlanCodes, InOrg;
  }

  /** A new item goes last, trimmed, as a task of its plan and organization; only it and the version are new. */
  lemma AddSays(db: Db, plan: Id, n: NewItem, id: Id)
    requires PlanItems.Keyed(db.items) && SortsDistinct(db.items)
    requires plan in db.plans && db.plans[plan].id == plan
    ensures CanAdd(db, plan, n, id) <==>
              && (db.plans[plan].status == DRAFT || db.plans[plan].status == PENDING_APPROVAL) && id !in db.items
              && (n.parent.Some? ==> exists up | up in db.items :: up == n.parent.value && db.items[up].plan == plan)
              && (n.assignee.Some? ==> InOrg(db.members, n.assignee.value, db.plans[plan].org))
    ensures var x, after := AddedItem(db, plan, n, id), Added(db, plan, n, id);
            && x.id == id && x.plan == plan && x.org == db.plans[plan].org && x.kind == TASK && x.parent == n.parent
            && Trims(n.title, x.title) && x.description == n.description && x.assignee == n.assignee && x.due == n.due
            && (forall i | i in db.items && db.items[i].plan == plan :: db.items[i].sort < x.sort)
            && after == db.(items := after.items, plans := after.plans) && after.items == db.items[id := x]
            && after.plans == db.plans[plan := after.plans[plan]] && Moves(db.plans[plan], after.plans[plan])
  {
    hide Trims, Strip, Listing, PlanItems.Keyed, SortsDistinct, InOrg;
    StripTrims(n.title);
    LastSort(db.items, plan);
  }

  /** What was sent is set, cleared included; what was not is kept; nothing else changes. */
  ghost predicate EditedAs(x: PlanItem, y: PlanItem, e: ItemEdit) {
    && y.id == x.id && y.plan == x.plan && y.org == x.org && y.parent == x.parent && y.kind == x.kind && y.sort == x.sort
    && (match e.title
        case None => y.title == x.title
        case Some(title) => Trims(title, y.title))
    && (match e.assignee
        case Unset => y.assignee == x.assignee
        case Set(assignee) => y.assignee == assignee)
    && (match e.due
        case Unset => y.due == x.due
        case Set(due) => y.due == due)
    && (match e.description
        case Unset => y.description == x.description
        case Set(description) => y.description == description)
  }

  lemma EditSays(x: PlanItem, e: ItemEdit)
    ensures EditedAs(x, EditedItem(x, e), e)
  {
    hide Trims, Strip;
    if e.title.Some? {
      StripTrims(e.title.value);
    }
  }

  lemma UpdateSays(db: Db, plan: Id, item: Id, e: ItemEdit)
    requires plan in db.plans && item in db.items && db.items[item].id == item
    ensures var after := Updated(db, plan, item, e);
            && item in after.items && EditedAs(db.items[item], after.items[item], e)
            && after == db.(items := db.items[item := after.items[item]], plans := after.plans)
            && after.plans == db.plans[plan := after.plans[plan]] && Moves(db.plans[plan], after.plans[plan])
    ensures CanUpdate(db, plan, item, e) <==>
              && Editable(db.plans[plan].status) && db.items[item].plan == plan
              && (e.assignee.Set? && e.assignee.value.Some? ==> InOrg(db.members, e.assignee.value.value, db.items[item].org))
              && (e.assignee.Unset? ==> InOrgIfAny(db.members, db.items[item].assignee, db.items[item].org))
  {
    hide Trims, Strip, InOrg;
    EditSays(db.items[item], e);
  }

  /** The row goes, and every row whose parent goes; nothing else changes. */
  lemma RemoveSays(db: Db, plan: Id, item: Id)
    requires plan in db.plans && ParentsFirst(db.items) && item in db.items
    ensures CanRemove(db, plan, item) <==> Editable(db.plans[plan].status) && db.items[item].plan == plan
    ensures var after := Removed(db, plan, item);
            && item !in after.items
            && (forall i | i in after.items :: i in db.items && after.items[i] == db.items[i])
            && (forall i | i in db.items && i != item ::
                  i in after.items <==> db.items[i].parent.None? || db.items[i].parent.value in after.items)
            && after == db.(items := after.items, plans := after.plans)
            && after.plans == db.plans[plan := after.plans[plan]] && Moves(db.plans[plan], after.plans[plan])
  {
    forall i | i in db.items && i != item
      ensures i in Without(db.items, item) <==> db.items[i].parent.None? || db.items[i].parent.value in Without(db.items, item)
    {
      assert ParentFirst(db.items, db.items[i]);
    }
  }

  /** A draft goes out exactly when it has items and each is for somebody at most 32 steps below, dated, and not late. */
  lemma SubmitSaysWhen(db: Db, plan: Id, now: Time)
    requires MembersOk(db.members) && plan in db.plans
    ensures CanSubmit(db, plan, now) <==>
              && db.plans[plan].status == DRAFT && Listing(db.items, plan) != []
              && forall x | x in Listing(db.items, plan) ::
                   && x.due.Some? && x.due.value >= now && x.assignee.Some?
                   && Below(db.members, db.plans[plan].createdBy, x.assignee.value)
  {
    hide MembersOk, Listing, OrgGraph.ScopeIds, Below;
    forall id
      ensures id in OrgGraph.ScopeIds(db.members, db.plans[plan].createdBy) <==>
              Below(db.members, db.plans[plan].createdBy, id)
    {
      BelowIsScope(db.members, db.plans[plan].createdBy, id);
    }
  }

  /** Oneself, or somebody whose `k`-fold manager one is, by a chain of at most 32 different people. */
  ghost predicate Below(members: seq<Membership>, root: Id, id: Id) {
    id == root || exists k: nat :: 0 < k <= 32 && Walk.Linked(OrgGraph.Nodes(members), id, root, k)
  }

  lemma BelowIsScope(members: seq<Membership>, root: Id, id: Id)
    requires MembersOk(members)
    ensures id in OrgGraph.ScopeIds(members, root) <==> Below(members, root, id)
  {
    hide MembersOk, OrgGraph.ScopeIds, Walk.Linked;
    OrgGraph.InScope(members, root, id);
  }

  /** The manager is asked and told; without one, the creator is asked and nobody told. */
  lemma SubmitSays(db: Db, plan: Id, now: Time)
    requires MembersOk(db.members) && plan in db.plans
    ensures var p, after := db.plans[plan], Submitted(db, plan, now);
            var manager := OrgGraph.Manager(db.members, p.createdBy, 1);
            && after == db.(plans := after.plans, outbox := after.outbox)
            && after.plans == db.plans[plan := p.(
                 approver := Some(if manager.Some? then manager.value else p.createdBy),
                 status := PENDING_APPROVAL, submittedAt := Some(now), version := p.version + 1)]
            && (manager.None? ==> after.outbox == db.outbox)
            && (manager.Some? ==>
                  && |after.outbox| == |db.outbox| + 1 && after.outbox[..|db.outbox|] == db.outbox
                  && var m := after.outbox[|db.outbox|];
                     m.recipient == manager.value && m.kind == PLAN_SUBMITTED && m.org == p.org && m.availableAt == now)
  {
    hide MembersOk, OrgGraph.Ancestors, OrgGraph.Manager;
    OrgGraph.FirstAncestor(db.members, db.plans[plan].createdBy);
  }

  // --- every step keeps the tables consistent ----------------------------------------------

  predicate SameIdentity(a: Plan, b: Plan) {
    a.id == b.id && a.org == b.org && a.scope == b.scope && a.createdBy == b.createdBy && a.code == b.code
  }

  lemma PlanRowsKeep(members: seq<Membership>, works: map<Id, WorkItem>, plans: map<Id, Plan>, p: Plan)
    requires PlansOk(members, works, plans) && PlanOk(members, works, p)
    requires p.id in plans ==>
               SameIdentity(p, plans[p.id]) && (Editable(p.status) ==> Editable(plans[p.id].status))
    requires p.id !in plans ==> p.code !in TakenPlanCodes(plans, p.org) && !OpenPlanOn(plans, p.scope)
    ensures PlansOk(members, works, plans[p.id := p])
  {
    var after := plans[p.id := p];
    forall q | q in plans && q != p.id && plans[q].org == p.org
      ensures plans[q].code != p.code
    {
      if p.id in plans {
        assert plans[p.id].org == plans[q].org;
      } else {
        assert plans[q].code in TakenPlanCodes(plans, p.org);
      }
    }
    assert PlanCodesUnique(after);
    forall q | q in plans && q != p.id && plans[q].scope == p.scope
      ensures !(Editable(plans[q].status) && Editable(p.status))
    {
      if p.id in plans {
        assert plans[p.id].scope == plans[q].scope;
      }
    }
    assert OneOpenPerScope(after);
  }

  lemma ItemRowsKeep(members: seq<Membership>, before: map<Id, Plan>, after: map<Id, Plan>, items: map<Id, PlanItem>)
    requires ItemsOk(members, before, items)
    requires forall p | p in before :: p in after && after[p].org == before[p].org
    ensures ItemsOk(members, after, items)
  {
    forall i | i in items
      ensures items[i].id == i && ItemOk(members, after, items[i])
    {
      assert ItemOk(members, before, items[i]);
    }
  }

  lemma ReplacePlanKeeps(db: Db, p: Plan)
    requires Consistent(db) && p.id in db.plans && SameIdentity(p, db.plans[p.id])
    requires PlanOk(db.members, db.works, p) && (Editable(p.status) ==> Editable(db.plans[p.id].status))
    ensures Consistent(db.(plans := db.plans[p.id := p]))
  {
    PlanRowsKeep(db.members, db.works, db.plans, p);
    ItemRowsKeep(db.members, db.plans, db.plans[p.id := p], db.items);
  }

  lemma CreatePlanKeeps(db: Db, scope: WorkItem, createdBy: Id, draw: Draw)
    requires Consistent(db) && scope.id in db.works && db.works[scope.id] == scope
    requires CreatePlanOutcome(db, scope, createdBy, draw).Ok?
    ensures Consistent(WithPlan(db, CreatePlanOutcome(db, scope, createdBy, draw).value))
  {
    var p := CreatePlanOutcome(db, scope, createdBy, draw).value;
    PlanRowsKeep(db.members, db.works, db.plans, p);
    ItemRowsKeep(db.members, db.plans, db.plans[p.id := p], db.items);
  }

  lemma ItemRowKeeps(members: seq<Membership>, plans: map<Id, Plan>, items: map<Id, PlanItem>, x: PlanItem)
    requires ItemsOk(members, plans, items) && ItemOk(members, plans, x)
    requires x.id in items ==> x.plan == items[x.id].plan && x.sort == items[x.id].sort && x.parent == items[x.id].parent
    requires x.id !in items ==>
               && (forall i | i in items && items[i].plan == x.plan :: items[i].sort < x.sort)
               && (x.parent.Some? ==> x.parent.value in items && items[x.parent.value].plan == x.plan)
    ensures ItemsOk(members, plans, items[x.id := x])
  {
    var after := items[x.id := x];
    assert SortsDistinct(after) by {
      forall i | i in items && i != x.id && items[i].plan == x.plan
        ensures items[i].sort != x.sort
      {
        if x.id in items {
          assert items[x.id].plan == items[i].plan;
        }
      }
    }
    forall i | i in after
      ensures ParentFirst(after, after[i])
    {
      assert i != x.id ==> ParentFirst(items, items[i]);
      assert x.id in items ==> ParentFirst(items, items[x.id]);
    }
  }

  lemma AddKeeps(db: Db, plan: Id, n: NewItem, id: Id)
    requires Consistent(db) && CanAdd(db, plan, n, id)
    ensures Consistent(Added(db, plan, n, id))
  {
    var x := AddedItem(db, plan, n, id);
    assert PlanOk(db.members, db.works, db.plans[plan]);
    AddAppends(db.items, x);
    StripStripped(n.title);
    assert ItemOk(db.members, db.plans, x);
    ItemRowKeeps(db.members, db.plans, db.items, x);
    TouchKeeps(db.(items := db.items[id := x]), plan);
  }

  lemma TouchKeeps(db: Db, plan: Id)
    requires Consistent(db) && plan in db.plans
    ensures Consistent(db.(plans := db.plans[plan := Touched(db.plans[plan])]))
  {
    assert PlanOk(db.members, db.works, db.plans[plan]);
    ReplacePlanKeeps(db, Touched(db.plans[plan]));
  }

  lemma UpdateKeeps(db: Db, plan: Id, item: Id, e: ItemEdit)
    requires Consistent(db) && CanUpdate(db, plan, item, e)
    ensures Consistent(Updated(db, plan, item, e))
  {
    var x := EditedItem(db.items[item], e);
    assert ItemOk(db.members, db.plans, db.items[item]);
    if e.title.Some? {
      StripStripped(e.title.value);
    }
    ItemRowKeeps(db.members, db.plans, db.items, x);
    TouchKeeps(db.(items := db.items[item := x]), plan);
  }

  lemma RemoveKeeps(db: Db, plan: Id, item: Id)
    requires Consistent(db) && CanRemove(db, plan, item)
    ensures Consistent(Removed(db, plan, item))
  {
    RemoveDeletes(db.items, item);
    TouchKeeps(db.(items := Without(db.items, item)), plan);
  }

  lemma SubmitKeeps(db: Db, plan: Id, now: Time)
    requires Consistent(db) && CanSubmit(db, plan, now)
    ensures Consistent(Submitted(db, plan, now))
  {
    var p := db.plans[plan];
    assert PlanOk(db.members, db.works, p);
    ApproverInOrg(db.members, p.createdBy, p.org);
    ReplacePlanKeeps(db, SubmittedPlan(db.members, p, now));
  }
}
