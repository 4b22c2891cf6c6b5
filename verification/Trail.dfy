/** What a run leaves behind: nothing is forgotten, and every decision can be traced to its authority. */
module Trail {
  import opened Common
  import opened Schema
  import opened PlanItems
  import opened Permissions
  import opened Ledger
  import opened Steps
  import opened Runs
  import OrgGraph
  import Delegation
  import Notifications
  import Work
  import Approval

  // --- nothing is forgotten ----------------------------------------------------------------

  /** Logs only grow at the end, and a work item keeps everything but its status and version. */
  ghost predicate Extends(db: Db, after: Db) {
    && db.events <= after.events
    && db.approvals <= after.approvals
    && db.audit <= after.audit
    && db.outbox <= after.outbox
    && Grows(db.works, after.works)
  }

  lemma {:induction false} AddTasksExtends(db: Db, tasks: seq<WorkItem>)
    requires Approval.FreshTasks(db.works, tasks)
    ensures db.events <= Approval.AddTasks(db, tasks).events
    ensures Grows(db.works, Approval.AddTasks(db, tasks).works)
  {
    if tasks != [] {
      var front := tasks[..|tasks| - 1];
      AddTasksExtends(db, front);
      Approval.AddTasksFrame(db, tasks);
    }
  }

  lemma DecisionExtends(db: Db, d: Decision, req: Approval.Request)
    requires Inv(db) && Approval.Goes(db, d, req)
    ensures Extends(db, Approval.Apply(db, Approval.WritesOf(db, d, req)))
  {
    hide Inv, Consistent, WorksOk, Work.EventsOk, Approval.Decidable, Approval.AddTasks, Approval.Goes,
      Approval.WritesOf, RowSound, MadeSound;
    Tables(db);
    var w := Approval.WritesOf(db, d, req);
    Approval.PlansAreDecidable(db, req.plan);
    WritesSound(db, d, req);
    Approval.WritesAreFresh(db, d, req);
    AddTasksExtends(db, w.tasks);
    Approval.AddTasksFrame(db, w.tasks);
  }

  lemma StepExtends(db: Db, s: Step)
    requires Inv(db)
    ensures Extends(db, Next(db, s))
  {
    hide Inv, Approval.Goes, Work.CreateOutcome, Delegation.CreatePlanOutcome, Delegation.CanAdd,
      Delegation.CanUpdate, Delegation.CanRemove, Delegation.CanSubmit, Delegation.SubmissionNotice, MembersOk,
      KeepsPeople, Approval.WritesOf, Approval.Apply, Consistent, Work.EventsOk, WorksOk, SortsDistinct,
      ParentsFirst, FindMember, Without, Delegation.AddedItem, Delegation.EditedItem, Work.CreationEvents,
      Delegation.SubmittedPlan, FirstFree;
    if Next(db, s) != db {
      match s
      case Decide(_, _, _, _, _, _, _) =>
        DecisionExtends(db, s.decision, RequestOf(s));
      case CreateWork(org, kind, title, description, createdBy, parent, owner, due, draw) =>
        var up := if parent.Some? then Some(db.works[parent.value]) else None;
        NewWorkIsNew(db, org, kind, title, description, createdBy, up, owner, due, draw);
      case MoveWork(_, _, _) =>
        Tables(db);
      case _ =>
    }
  }

  lemma NewWorkIsNew(
    db: Db, org: Id, kind: WorkItemType, title: string, description: Option<string>, createdBy: Id,
    parent: Option<WorkItem>, owner: Option<Id>, due: Option<Time>, draw: Draw)
    requires Work.CreateOutcome(db, org, kind, title, description, createdBy, parent, owner, due, draw).Ok?
    ensures Work.CreateOutcome(db, org, kind, title, description, createdBy, parent, owner, due, draw).value.id !in db.works
  {}

  /** History is append-only over whole runs. */
  lemma {:induction false} NothingIsForgotten(states: seq<Db>, steps: seq<Step>, i: nat, j: nat)
    requires Run(states, steps) && i <= j < |states|
    ensures Extends(states[i], states[j])
    decreases j
  {
    hide Inv, Next;
    if i < j {
      NothingIsForgotten(states, steps, i, j - 1);
      StepExtends(states[j - 1], steps[j - 1]);
      var a, b, c := states[i], states[j - 1], states[j];
      forall w | w in a.works
        ensures w in c.works && SameJob(a.works[w], c.works[w])
      {
        assert SameJob(a.works[w], b.works[w]) && SameJob(b.works[w], c.works[w]);
      }
    }
  }

  /** An approved plan's tasks stay what was proposed, under the same audit entry, whatever happens next. */
  lemma ApprovedStaysMade(states: seq<Db>, steps: seq<Step>, i: nat, j: nat, p: Id, k: nat)
    requires Run(states, steps) && i <= j < |states|
    requires p in states[i].plans && states[i].plans[p].status == APPROVED
    requires k < |states[i].audit| && states[i].audit[k].target == p
    ensures k < |states[j].audit| && states[j].audit[k] == states[i].audit[k]
    ensures states[i].audit[k].action == APPROVE
    ensures MadeFrom(states[j].works, states[i].plans[p], Listing(states[i].items, p), states[i].audit[k].created)
    ensures forall m | 0 <= m < |states[j].audit| && states[j].audit[m].target == p :: m == k
  {
    hide Inv, Next, MadeFrom, Grows;
    NothingIsForgotten(states, steps, i, j);
    DecidedIsFrozen(states, steps, i, j, p);
    RunInv(states, steps, j);
    var only := ApprovedPlanIsItsTasks(states[j], p);
    assert states[j].audit[k] == states[i].audit[k];
  }

  // --- from a decision back to its submission ----------------------------------------------

  /** `s` is the submission of `p`, from these tables. */
  ghost predicate Submits(db: Db, s: Step, p: Id) {
    s.Submit? && s.plan == p && p in db.plans && Delegation.CanSubmit(db, p, s.now)
  }

  /** A decision that takes effect closes one pending plan and touches no other plan and no item. */
  lemma DecidesPending(db: Db, s: Step)
    requires Inv(db) && Takes(db, s)
    ensures s.plan in db.plans && db.plans[s.plan].status == PENDING_APPROVAL
    ensures var after := Next(db, s);
            && after.plans == db.plans[s.plan := Approval.PlanAfter(db.plans[s.plan], s.decision, s.now)]
            && after.items == db.items
  {
    hide Inv, Consistent, WorksOk, Work.EventsOk, SortsDistinct, ParentsFirst, Approval.Goes, Approval.WritesOf,
      Approval.Apply;
    Tables(db);
    Approval.WrittenRows(db, s.decision, RequestOf(s));
    Approval.ApplyFrame(db, Approval.WritesOf(db, s.decision, RequestOf(s)));
  }

  /** The only way out of DRAFT is a submission. */
  lemma LeavesDraft(db: Db, s: Step, after: Db, p: Id)
    requires Inv(db) && after == Next(db, s) && p in after.plans && after.plans[p].status != DRAFT
    requires p !in db.plans || db.plans[p].status == DRAFT
    ensures Submits(db, s, p) && after == Delegation.Submitted(db, p, s.now)
  {
    hide Inv, Consistent, Work.CreateOutcome, Work.MoveOutcome, Takes, MembersOk, KeepsPeople, InOrg,
      Delegation.Ready, Delegation.ApproverFor, Delegation.AddedItem, Work.EventsOk, WorksOk, SortsDistinct,
      ParentsFirst;
    Tables(db);
    if s.Decide? && Takes(db, s) {
      DecidesPending(db, s);
    }
  }

  const PLAN_TRANSITIONS: set<(PlanStatus, PlanStatus)> :=
    {(DRAFT, PENDING_APPROVAL), (PENDING_APPROVAL, APPROVED), (PENDING_APPROVAL, REJECTED)}

  /** No step moves a plan except along the declared state machine, and every plan starts as a draft. */
  lemma StatusFollowsTransitions(db: Db, s: Step, after: Db, p: Id)
    requires Inv(db) && after == Next(db, s) && p in after.plans
    ensures p !in db.plans ==> after.plans[p].status == DRAFT
    ensures p in db.plans ==>
              after.plans[p].status == db.plans[p].status ||
              (db.plans[p].status, after.plans[p].status) in PLAN_TRANSITIONS
  {
    hide Inv, Next, Delegation.Ready, Delegation.ApproverFor;
    StepVersioned(db, s, p);
    if (p !in db.plans || db.plans[p].status == DRAFT) && after.plans[p].status != DRAFT {
      LeavesDraft(db, s, after, p);
    }
  }

  /** Every plan past DRAFT was submitted once, and still has the approver that submission chose. */
  lemma {:induction false} WasSubmitted(states: seq<Db>, steps: seq<Step>, n: nat, p: Id) returns (q: nat)
    requires Run(states, steps) && n < |states|
    requires p in states[n].plans && states[n].plans[p].status != DRAFT
    ensures q < n && Submits(states[q], steps[q], p)
    ensures states[q + 1] == Delegation.Submitted(states[q], p, steps[q].now)
    ensures Delegation.SameIdentity(states[q].plans[p], states[n].plans[p])
    ensures states[n].plans[p].approver ==
            Some(Delegation.ApproverFor(states[q].members, states[q].plans[p].createdBy))
  {
    hide Inv, Next, Delegation.Ready, Delegation.ApproverFor, OrgGraph.Ancestors;
    var db, s := states[n - 1], steps[n - 1];
    if p in db.plans && db.plans[p].status != DRAFT {
      q := WasSubmitted(states, steps, n - 1, p);
      StepVersioned(db, s, p);
      assert Versioned(db, states[n], p);
    } else {
      LeavesDraft(db, s, states[n], p);
      q := n - 1;
    }
  }

  /** `s`, taken in these tables, wrote `a`, for somebody entitled to. */
  ghost predicate Records(db: Db, s: Step, a: Schema.Approval) {
    && Takes(db, s) && s.plan in db.plans
    && s.plan == a.plan && s.decision == a.decision && s.decider.member == a.approver
    && s.comment == a.comment && s.now == a.decidedAt
    && db.plans[a.plan].status == PENDING_APPROVAL && db.plans[a.plan].version == a.planVersion
    && Entitled(s.decider, db.plans[a.plan])
  }

  lemma DecisionRecords(db: Db, s: Step)
    requires Inv(db) && Takes(db, s)
    ensures |Next(db, s).approvals| == |db.approvals| + 1
    ensures Next(db, s).approvals[..|db.approvals|] == db.approvals
    ensures Records(db, s, Next(db, s).approvals[|db.approvals|])
  {
    hide Inv, Consistent, WorksOk, Work.EventsOk, SortsDistinct, ParentsFirst, Approval.Goes, Approval.WritesOf,
      Approval.Apply, Entitled, Approval.CheckRow;
    Tables(db);
    Approval.WrittenRows(db, s.decision, RequestOf(s));
    Approval.ApplyFrame(db, Approval.WritesOf(db, s.decision, RequestOf(s)));
    TakenIsEntitled(db, s);
  }

  lemma TakenIsEntitled(db: Db, s: Step)
    requires Takes(db, s)
    ensures s.plan in db.plans && Entitled(s.decider, db.plans[s.plan])
  {
    hide Approval.Placeable, Approval.Drawable, Approval.Recordable, Approval.CheckRow, Entitled;
    RowProceeds(db.plans[s.plan], s.decision, RequestOf(s));
  }

  lemma OtherStepsRecordNothing(db: Db, s: Step)
    requires Inv(db) && !Takes(db, s)
    ensures Next(db, s).approvals == db.approvals
  {
    hide Inv, Takes, Work.CreateOutcome, Work.MoveOutcome, Delegation.CreatePlanOutcome, Delegation.CanAdd,
      Delegation.CanUpdate, Delegation.CanSubmit, KeepsPeople, MembersOk, Delegation.AddedItem,
      Delegation.SubmissionNotice;
  }

  /** Every recorded decision was written by one call, entitled when it was made. */
  lemma {:induction false} WasDecided(states: seq<Db>, steps: seq<Step>, n: nat, a: Schema.Approval) returns (i: nat)
    requires Run(states, steps) && n < |states| && a in states[n].approvals
    ensures i < n && Records(states[i], steps[i], a)
  {
    hide Inv, Next, Takes, Records;
    var db, s := states[n - 1], steps[n - 1];
    if a in db.approvals {
      i := WasDecided(states, steps, n - 1, a);
    } else {
      if Takes(db, s) {
        DecisionRecords(db, s);
        assert states[n].approvals == db.approvals + [states[n].approvals[|db.approvals|]];
      } else {
        OtherStepsRecordNothing(db, s);
      }
      i := n - 1;
    }
  }

  /** Every decider was loaded from the tables, when the decision was made or before. */
  ghost predicate Loaded(states: seq<Db>, steps: seq<Step>) {
    && |states| == |steps| + 1
    && forall j | 0 <= j < |steps| && steps[j].Decide? :: LoadedBy(states, steps[j].decider, j)
  }

  ghost predicate LoadedBy(states: seq<Db>, actor: Actor, j: nat)
    requires j < |states|
  {
    exists i :: 0 <= i <= j && LoadActor(states[i].members, actor.member) == Some(actor)
  }

  /** What the tables of that moment say of the decider: active, of the organization, and the approver or a superadmin. */
  predicate MayDecide(members: seq<Membership>, p: Plan, decider: Id) {
    match FindMember(members, decider)
    case None => false
    case Some(m) => m.status == ACTIVE_MEMBER && m.org == p.org && (m.superadmin || p.approver == Some(decider))
  }

  lemma LoadedIsEntitled(members: seq<Membership>, actor: Actor, p: Plan)
    requires LoadActor(members, actor.member) == Some(actor) && Entitled(actor, p)
    ensures MayDecide(members, p, actor.member)
  {
    hide OrgGraph.ScopeIds;
  }

  /** Nobody with a manager decides their own plan, unless they run the organization. */
  lemma AuthorityIsElsewhere(db: Db, at: seq<Membership>, p: Plan, decider: Id)
    requires MembersOk(db.members) && OrgGraph.Manager(db.members, p.createdBy, 1).Some?
    requires p.approver == Some(Delegation.ApproverFor(db.members, p.createdBy)) && MayDecide(at, p, decider)
    ensures p.approver == OrgGraph.Manager(db.members, p.createdBy, 1)
    ensures decider == p.createdBy ==> FindMember(at, decider).value.superadmin
  {
    OrgGraph.FirstAncestor(db.members, p.createdBy);
  }

  /**
   The whole trail of a decision: a submission fixed the approver (the creator's manager, if there
   was one), and later, at the version recorded, somebody decided who, when they were loaded, was an
   active member of the organization: that approver or a superadmin.  A creator who had a manager
   decides only as a superadmin.
   */
  lemma DecisionTrail(states: seq<Db>, steps: seq<Step>, n: nat, a: Schema.Approval) returns (q: nat, l: nat, i: nat)
    requires Run(states, steps) && Loaded(states, steps) && n < |states| && a in states[n].approvals
    ensures q < i < n && l <= i && Submits(states[q], steps[q], a.plan) && Records(states[i], steps[i], a)
    ensures Delegation.SameIdentity(states[q].plans[a.plan], states[i].plans[a.plan])
    ensures MayDecide(states[l].members, states[i].plans[a.plan], a.approver)
    ensures var creator := states[q].plans[a.plan].createdBy;
            && states[i].plans[a.plan].approver == Some(Delegation.ApproverFor(states[q].members, creator))
            && (OrgGraph.Manager(states[q].members, creator, 1).Some? ==>
                  && states[i].plans[a.plan].approver == OrgGraph.Manager(states[q].members, creator, 1)
                  && (a.approver == creator ==> FindMember(states[l].members, creator).value.superadmin))
  {
    hide Inv, Next, Entitled, Delegation.CanSubmit, Delegation.ApproverFor, OrgGraph.Manager, MembersOk,
      FindMember, LoadActor, Approval.Goes;
    i := WasDecided(states, steps, n, a);
    q := WasSubmitted(states, steps, i, a.plan);
    RunMembers(states, steps, q);
    assert LoadedBy(states, steps[i].decider, i);
    l :| 0 <= l <= i && LoadActor(states[l].members, a.approver) == Some(steps[i].decider);
    var plan := states[i].plans[a.plan];
    LoadedIsEntitled(states[l].members, steps[i].decider, plan);
    if OrgGraph.Manager(states[q].members, plan.createdBy, 1).Some? {
      AuthorityIsElsewhere(states[q], states[l].members, plan, a.approver);
    }
  }

  lemma RunMembers(states: seq<Db>, steps: seq<Step>, n: nat)
    requires Run(states, steps) && n < |states|
    ensures MembersOk(states[n].members)
  {
    hide Next;
    RunInv(states, steps, n);
  }

  // --- what submission checked still holds of the tasks ------------------------------------

  /** The approver a submission picks has the creator's whole scope, inside the depth cap. */
  lemma ApproverCoversCreator(members: seq<Membership>, creator: Id)
    requires MembersOk(members) && OrgGraph.ChainsFit(members)
    ensures OrgGraph.ScopeIds(members, creator) <= OrgGraph.ScopeIds(members, Delegation.ApproverFor(members, creator))
  {
    hide MembersOk, OrgGraph.ChainsFit, OrgGraph.ScopeIds;
    var approver := Delegation.ApproverFor(members, creator);
    OrgGraph.FirstAncestor(members, creator);
    if approver != creator {
      assert OrgGraph.IsAncestor(members, approver, creator);
      OrgGraph.IsAncestorIsScope(members, approver, creator);
      OrgGraph.ScopeInclusion(members, approver, creator);
    }
  }

  /** The task is for somebody in `scope`, and was not already late at `now`. */
  predicate ProposedProperly(w: WorkItem, scope: set<Id>, now: Time) {
    w.owner.Some? && w.owner.value in scope && w.due.Some? && w.due.value >= now
  }

  /** The tasks made pass submission's checks exactly when the items they were made from do. */
  lemma MadeProperlyIff(works: map<Id, WorkItem>, p: Plan, l: seq<PlanItem>, ids: seq<Id>, scope: set<Id>, now: Time)
    requires MadeFrom(works, p, l, ids)
    ensures (forall w | w in ids :: w in works && ProposedProperly(works[w], scope, now)) <==>
            (forall x | x in l :: Delegation.ItemReady(x, scope, now))
  {
    forall k | 0 <= k < |l|
      ensures ids[k] in ids && l[k] in l && ids[k] in works
      ensures ProposedProperly(works[ids[k]], scope, now) <==> Delegation.ItemReady(l[k], scope, now)
    {
      assert Realises(works[ids[k]], p, l[k]);
    }
  }

  lemma ItemsOutliveDecision(states: seq<Db>, steps: seq<Step>, i: nat, n: nat)
    requires Run(states, steps) && i < n < |states| && Takes(states[i], steps[i])
    ensures Listing(states[n].items, steps[i].plan) == Listing(states[i].items, steps[i].plan)
  {
    hide Inv, Next, Approval.Goes, Listing;
    DecidesPending(states[i], steps[i]);
    DecidedIsFrozen(states, steps, i + 1, n, steps[i].plan);
  }

  lemma EntryMakes(db: Db, k: nat)
    requires Inv(db) && k < |db.approvals| && db.approvals[k].decision == APPROVE
    ensures k < |db.audit| && db.approvals[k].plan in db.plans
    ensures MadeFrom(db.works, db.plans[db.approvals[k].plan], Listing(db.items, db.approvals[k].plan), db.audit[k].created)
  {
    hide Consistent, Work.EventsOk, MailOk, MadeFrom;
    assert RecordOk(db.plans, db.approvals[k], db.audit[k]);
    assert WorkOk(db.works, db.plans, db.items, db.audit[k]);
  }

  /** Every task an approval made is for somebody in `scope` and was not late at `now`. */
  ghost predicate TasksProper(db: Db, k: nat, scope: set<Id>, now: Time)
    requires k < |db.audit|
  {
    forall w | w in db.audit[k].created :: w in db.works && ProposedProperly(db.works[w], scope, now)
  }

  ghost predicate ItemsProper(db: Db, p: Id, scope: set<Id>, now: Time) {
    forall x | x in Listing(db.items, p) :: Delegation.ItemReady(x, scope, now)
  }

  /**
   An approved plan's tasks stay inside the creator's scope, and in time, exactly when the items did
   at the moment of approval: submission's check, which approval does not repeat, is what decides.
   */
  lemma ApprovedProperlyIff(states: seq<Db>, steps: seq<Step>, n: nat, k: nat) returns (q: nat, i: nat)
    requires Run(states, steps) && n < |states| && k < |states[n].approvals|
    requires states[n].approvals[k].decision == APPROVE
    ensures var a := states[n].approvals[k];
            q < i < n && Submits(states[q], steps[q], a.plan) && Records(states[i], steps[i], a)
    ensures k < |states[n].audit|
    ensures var p := states[n].approvals[k].plan;
            var scope := OrgGraph.ScopeIds(states[q].members, states[q].plans[p].createdBy);
            && (TasksProper(states[n], k, scope, steps[q].now) <==> ItemsProper(states[i], p, scope, steps[q].now))
            && (states[n].approvals[k].planVersion == states[q].plans[p].version + 1 ==>
                  ItemsProper(states[i], p, scope, steps[q].now))
  {
    hide Inv, Next, Takes, MadeFrom, ProposedProperly, Delegation.ItemReady, OrgGraph.ScopeIds, Entitled, Listing,
      CreationsOk, DecisionsOk;
    var a := states[n].approvals[k];
    q, i := SubmittedThenDecided(states, steps, n, a);
    var scope := OrgGraph.ScopeIds(states[q].members, states[q].plans[a.plan].createdBy);
    RunInv(states, steps, n);
    EntryMakes(states[n], k);
    ItemsOutliveDecision(states, steps, i, n);
    MadeProperlyIff(states[n].works, states[n].plans[a.plan], Listing(states[n].items, a.plan),
                    states[n].audit[k].created, scope, steps[q].now);
    if a.planVersion == states[q].plans[a.plan].version + 1 {
      VersionNamesContents(states, steps, q + 1, i, a.plan);
    }
  }

  /**
   Approved as submitted: when the decision's version is the one the submission produced, every task
   is for somebody in the creator's scope as computed at submission and was not late then; and inside
   the depth cap the approver's scope already contained them all.
   */
  lemma ApprovedAsSubmitted(states: seq<Db>, steps: seq<Step>, n: nat, k: nat) returns (q: nat)
    requires Run(states, steps) && n < |states| && k < |states[n].approvals|
    requires states[n].approvals[k].decision == APPROVE
    ensures q < n && Submits(states[q], steps[q], states[n].approvals[k].plan) && k < |states[n].audit|
    ensures var plan := states[q].plans[states[n].approvals[k].plan];
            var scope := OrgGraph.ScopeIds(states[q].members, plan.createdBy);
            var above := OrgGraph.ScopeIds(states[q].members, Delegation.ApproverFor(states[q].members, plan.createdBy));
            states[n].approvals[k].planVersion == plan.version + 1 ==>
              && TasksProper(states[n], k, scope, steps[q].now)
              && (OrgGraph.ChainsFit(states[q].members) ==> scope <= above)
  {
    hide Inv, Next, Takes, TasksProper, ItemsProper, OrgGraph.ScopeIds, OrgGraph.ChainsFit,
      Delegation.ApproverFor, MembersOk, Entitled;
    var i: nat;
    q, i := ApprovedProperlyIff(states, steps, n, k);
    RunMembers(states, steps, q);
    if OrgGraph.ChainsFit(states[q].members) {
      ApproverCoversCreator(states[q].members, states[q].plans[states[n].approvals[k].plan].createdBy);
    }
  }

  lemma SubmittedThenDecided(states: seq<Db>, steps: seq<Step>, n: nat, a: Schema.Approval) returns (q: nat, i: nat)
    requires Run(states, steps) && n < |states| && a in states[n].approvals
    ensures q < i < n && Submits(states[q], steps[q], a.plan) && Records(states[i], steps[i], a)
    ensures states[q + 1] == Delegation.Submitted(states[q], a.plan, steps[q].now)
  {
    hide Inv, Next, Takes, Entitled, Delegation.CanSubmit;
    i := WasDecided(states, steps, n, a);
    q := WasSubmitted(states, steps, i, a.plan);
  }

  /**
   Submission's checks are not repeated.  Whoever a late edit names, in scope or not, and whatever
   date it sets, the approval that would have gone through still does, and makes that very task.
   */
  lemma LateEditIsNotRechecked(db: Db, edit: Step, s: Step) returns (k: nat)
    requires Inv(db) && edit.UpdateItem? && Delegation.CanUpdate(db, edit.plan, edit.item, edit.edit)
    requires Delegation.EditedItem(db.items[edit.item], edit.edit).assignee.Some?
    requires s.Decide? && s.decision == APPROVE && s.plan == edit.plan && s.expected.None? && Takes(db, s)
    ensures Takes(Next(db, edit), s) && Inv(Next(db, edit))
    ensures var after, x := Next(Next(db, edit), s), Delegation.EditedItem(db.items[edit.item], edit.edit);
            && k < |LastCreated(after)| && LastCreated(after)[k] in after.works
            && after.works[LastCreated(after)[k]].owner == x.assignee
            && after.works[LastCreated(after)[k]].due == x.due
  {
    hide Inv, Next, Takes, Approvable, InOrgIfAny, Listing;
    var mid := Next(db, edit);
    NextKeepsInv(db, edit);
    EditedTables(db, edit);
    k := EditedListing(db, edit);
    ApprovalSucceedsIff(db, s);
    ApprovableAfterEdit(db, mid, s, k, Delegation.EditedItem(db.items[edit.item], edit.edit));
    ApprovalSucceedsIff(mid, s);
    ApprovalMakes(mid, s);
    assert Realises(Next(mid, s).works[LastCreated(Next(mid, s))[k]], Next(mid, s).plans[s.plan],
                    Listing(mid.items, s.plan)[k]);
  }

  lemma ApprovableAfterEdit(db: Db, after: Db, s: Step, k: nat, x: PlanItem)
    requires s.Decide? && Approvable(db, s) && s.expected.None?
    requires after == db.(items := after.items, plans := after.plans)
    requires db.plans[s.plan].id == s.plan
    requires s.plan in after.plans && after.plans[s.plan] == Delegation.Touched(db.plans[s.plan])
    requires var l := Listing(db.items, s.plan);
             k < |l| && Listing(after.items, s.plan) == l[k := x] && x.parent == l[k].parent && x.assignee.Some?
    ensures Approvable(after, s)
  {
    hide Approval.IdsFree, Approval.CodesFor, FindMember;
    var l := Listing(db.items, s.plan);
    forall y: PlanItem | y in l[k := x]
      ensures y.parent.None? && y.assignee.Some?
    {
      assert l[k] in l;
      assert y in l || y == x;
    }
  }

  lemma EditedTables(db: Db, edit: Step)
    requires Inv(db) && edit.UpdateItem? && Delegation.CanUpdate(db, edit.plan, edit.item, edit.edit)
    ensures Next(db, edit) == db.(items := Next(db, edit).items, plans := Next(db, edit).plans)
    ensures db.plans[edit.plan].id == edit.plan && edit.plan in Next(db, edit).plans
    ensures Next(db, edit).plans[edit.plan] == Delegation.Touched(db.plans[edit.plan])
  {
    hide Inv, Consistent, WorksOk, Work.EventsOk;
    Tables(db);
  }

  lemma EditedListing(db: Db, edit: Step) returns (k: nat)
    requires Inv(db) && edit.UpdateItem? && Delegation.CanUpdate(db, edit.plan, edit.item, edit.edit)
    ensures var l := Listing(db.items, edit.plan);
            && k < |l| && l[k] == db.items[edit.item]
            && Listing(Next(db, edit).items, edit.plan) == l[k := Delegation.EditedItem(l[k], edit.edit)]
  {
    hide Inv, Consistent, Work.EventsOk, WorksOk;
    Tables(db);
    k := EditReplaces(db.items, Delegation.EditedItem(db.items[edit.item], edit.edit));
  }

  // --- who touches a plan that is waiting --------------------------------------------------

  /** Every edit was let through by the permission engine, on the plan as it stood, as the routes require. */
  ghost predicate Gated(states: seq<Db>, steps: seq<Step>, editors: seq<Actor>) {
    && |states| == |steps| + 1 && |editors| == |steps|
    && forall j | 0 <= j < |steps| && Edits(steps[j]) && steps[j].plan in states[j].plans ::
         Can(editors[j], EDIT_PLAN, Some(SubjectForPlan(states[j].plans[steps[j].plan]))) == ALLOW
  }

  lemma PendingMovesByEdits(db: Db, s: Step, p: Id)
    requires Inv(db) && p in db.plans && p in Next(db, s).plans
    requires db.plans[p].status == PENDING_APPROVAL && Next(db, s).plans[p].status == PENDING_APPROVAL
    requires Next(db, s).plans[p].version != db.plans[p].version
    ensures Edits(s) && s.plan == p
  {
    hide Inv, Takes, Work.CreateOutcome, Work.MoveOutcome, Delegation.CanAdd, Delegation.CanUpdate,
      Delegation.CanRemove, Delegation.Ready, Delegation.AddedItem, MembersOk, KeepsPeople, Approval.WritesOf,
      Approval.Apply;
    if s.Decide? && Takes(db, s) {
      DecidesPending(db, s);
    }
  }

  /** Between two moments a plan waits for approval, only its approver or a superadmin can have changed it. */
  lemma {:induction false} WaitingPlanIsTheApprovers(
    states: seq<Db>, steps: seq<Step>, editors: seq<Actor>, i: nat, j: nat, p: Id) returns (k: nat)
    requires Run(states, steps) && Gated(states, steps, editors) && i <= j < |states|
    requires p in states[i].plans && states[i].plans[p].status == PENDING_APPROVAL
    requires p in states[j].plans && states[j].plans[p].status == PENDING_APPROVAL
    requires states[j].plans[p].version != states[i].plans[p].version
    ensures i <= k < j && Edits(steps[k]) && steps[k].plan == p
    ensures p in states[k].plans && states[k].plans[p].approver == states[i].plans[p].approver
    ensures Entitled(editors[k], states[k].plans[p])
    decreases j
  {
    hide Inv, Next, Listing;
    var db, s := states[j - 1], steps[j - 1];
    ApproverIsFrozen(states, steps, i, j - 1, p);
    StillPending(states, steps, i, j, p);
    if db.plans[p].version == states[j].plans[p].version {
      k := WaitingPlanIsTheApprovers(states, steps, editors, i, j - 1, p);
    } else {
      PendingMovesByEdits(db, s, p);
      k := j - 1;
    }
  }

  lemma StillPending(states: seq<Db>, steps: seq<Step>, i: nat, j: nat, p: Id)
    requires Run(states, steps) && i < j < |states|
    requires p in states[i].plans && states[i].plans[p].status == PENDING_APPROVAL
    requires p in states[j].plans && states[j].plans[p].status == PENDING_APPROVAL
    ensures p in states[j - 1].plans && states[j - 1].plans[p].status == PENDING_APPROVAL
  {
    hide Inv, Next, Listing;
    ApproverIsFrozen(states, steps, i, j - 1, p);
    if !Editable(states[j - 1].plans[p].status) {
      DecidedIsFrozen(states, steps, j - 1, j, p);
    }
  }

  /** What was decided differs from what was submitted only through edits of the approver or a superadmin. */
  lemma ChangedByTheApprover(states: seq<Db>, steps: seq<Step>, editors: seq<Actor>, n: nat, a: Schema.Approval)
    returns (q: nat, k: nat, i: nat)
    requires Run(states, steps) && Gated(states, steps, editors) && n < |states| && a in states[n].approvals
    ensures q < i < n && Submits(states[q], steps[q], a.plan) && Records(states[i], steps[i], a)
    ensures a.planVersion != states[q].plans[a.plan].version + 1 ==>
              && q < k < i && Edits(steps[k]) && steps[k].plan == a.plan && a.plan in states[k].plans
              && Entitled(editors[k], states[k].plans[a.plan])
  {
    hide Inv, Next, Takes, Entitled, Gated, Delegation.CanSubmit, Delegation.ApproverFor;
    q, i := SubmittedThenDecided(states, steps, n, a);
    k := 0;
    if a.planVersion != states[q].plans[a.plan].version + 1 {
      k := WaitingPlanIsTheApprovers(states, steps, editors, q + 1, i, a.plan);
    }
  }

  // --- one notice per submission -----------------------------------------------------------

  /** A submission by somebody who has a manager. */
  ghost predicate HandsOn(db: Db, s: Step) {
    s.Submit? && Submits(db, s, s.plan) && OrgGraph.Manager(db.members, db.plans[s.plan].createdBy, 1).Some?
  }

  /** The submissions of a run that went to somebody other than the creator. */
  ghost function HandedOn(states: seq<Db>, steps: seq<Step>, n: nat): set<nat>
    requires n < |states| == |steps| + 1
  {
    set j | 0 <= j < n && HandsOn(states[j], steps[j])
  }

  /** The managers, as of each submission, of the creators who had one, in order. */
  ghost function Asked(states: seq<Db>, steps: seq<Step>, n: nat): seq<Id>
    requires n < |states| == |steps| + 1
  {
    if n == 0 then []
    else
      var db, s := states[n - 1], steps[n - 1];
      Asked(states, steps, n - 1) +
      if HandsOn(db, s) then [OrgGraph.Manager(db.members, db.plans[s.plan].createdBy, 1).value] else []
  }

  lemma SubmitsNext(db: Db, s: Step)
    requires Inv(db) && s.Submit?
    ensures Next(db, s) == if Submits(db, s, s.plan) then Delegation.Submitted(db, s.plan, s.now) else db
    ensures MembersOk(db.members)
  {
    hide Delegation.Ready, Delegation.ApproverFor, Work.EventsOk, DecisionsOk, CreationsOk, MailOk, WorksOk,
      PlansOk, ItemsOk;
  }

  lemma OneMore(sent: seq<Message>, m: Message, kind: MessageType)
    ensures Notifications.Recipients(sent + [m], kind) ==
            Notifications.Recipients(sent, kind) + if m.kind == kind then [m.recipient] else []
  {
    assert (sent + [m])[..|sent|] == sent;
  }

  lemma SubmissionMail(db: Db, s: Step)
    requires Inv(db) && s.Submit?
    ensures Notifications.Recipients(Next(db, s).outbox, PLAN_SUBMITTED) ==
            Notifications.Recipients(db.outbox, PLAN_SUBMITTED) +
            if HandsOn(db, s) then [OrgGraph.Manager(db.members, db.plans[s.plan].createdBy, 1).value] else []
  {
    hide Inv, Next, MembersOk, Delegation.CanSubmit, Delegation.Submitted, OrgGraph.Manager,
      Notifications.Recipients;
    SubmitsNext(db, s);
    if Submits(db, s, s.plan) {
      Delegation.SubmitSays(db, s.plan, s.now);
      var after := Next(db, s);
      if HandsOn(db, s) {
        assert after.outbox == db.outbox + [after.outbox[|db.outbox|]];
        OneMore(db.outbox, after.outbox[|db.outbox|], PLAN_SUBMITTED);
      }
    }
  }

  lemma DecisionMail(db: Db, s: Step)
    requires Inv(db) && Takes(db, s)
    ensures Notifications.Recipients(Next(db, s).outbox, PLAN_SUBMITTED) ==
            Notifications.Recipients(db.outbox, PLAN_SUBMITTED)
  {
    hide Inv, Approval.Goes, Approval.WritesOf, Approval.AddTasks, Notifications.Recipients;
    var w := Approval.WritesOf(db, s.decision, RequestOf(s));
    DecisionsAnnounceNoSubmission(db, s.decision, RequestOf(s));
    Notifications.RecipientsConcat(db.outbox, w.messages, PLAN_SUBMITTED);
  }

  lemma QuietMail(db: Db, s: Step)
    requires Inv(db) && !s.Submit? && !Takes(db, s)
    ensures Next(db, s).outbox == db.outbox
  {
    hide Inv, Takes, Work.CreateOutcome, Work.MoveOutcome, Delegation.CreatePlanOutcome, Delegation.CanAdd,
      Delegation.CanUpdate, Delegation.CanRemove, KeepsPeople, MembersOk, Delegation.AddedItem, Without;
  }

  /** PLAN_SUBMITTED goes, submission by submission, to the manager the creator had then, and to nobody else. */
  lemma {:induction false} SubmissionsReachTheApprover(states: seq<Db>, steps: seq<Step>, n: nat)
    requires Run(states, steps) && n < |states|
    ensures Notifications.Recipients(states[n].outbox, PLAN_SUBMITTED) == Asked(states, steps, n)
  {
    hide Inv, Next, Takes, HandsOn, Notifications.Recipients;
    if n == 0 {
      NobodyTold();
    } else {
      SubmissionsReachTheApprover(states, steps, n - 1);
      var db, s := states[n - 1], steps[n - 1];
      if s.Submit? {
        SubmissionMail(db, s);
      } else {
        NotHandsOn(db, s);
        if Takes(db, s) {
          DecisionMail(db, s);
        } else {
          QuietMail(db, s);
        }
      }
    }
  }

  lemma NobodyTold()
    ensures Notifications.Recipients([], PLAN_SUBMITTED) == []
  {}

  lemma NotHandsOn(db: Db, s: Step)
    requires !s.Submit?
    ensures !HandsOn(db, s)
  {}

  /** And who was told is who must decide: the row still names the manager the notice went to. */
  lemma ToldIsTheApprover(states: seq<Db>, steps: seq<Step>, j: nat, n: nat)
    requires Run(states, steps) && j < n < |states| && HandsOn(states[j], steps[j])
    ensures steps[j].plan in states[n].plans
    ensures states[n].plans[steps[j].plan].approver ==
            OrgGraph.Manager(states[j].members, states[j].plans[steps[j].plan].createdBy, 1)
  {
    hide Inv, Next, MembersOk, Delegation.CanSubmit, Delegation.Submitted, OrgGraph.Manager;
    SubmitsNext(states[j], steps[j]);
    Delegation.SubmitSays(states[j], steps[j].plan, steps[j].now);
    ApproverIsFrozen(states, steps, j + 1, n, steps[j].plan);
  }

  lemma {:induction false} AskedCount(states: seq<Db>, steps: seq<Step>, n: nat)
    requires n < |states| == |steps| + 1
    ensures |Asked(states, steps, n)| == |HandedOn(states, steps, n)|
  {
    hide HandsOn;
    if n == 0 {
      assert HandedOn(states, steps, 0) == {};
    } else {
      AskedCount(states, steps, n - 1);
      var handed := if HandsOn(states[n - 1], steps[n - 1]) then {n - 1} else {};
      assert HandedOn(states, steps, n) == HandedOn(states, steps, n - 1) + handed;
    }
  }

  /** As many PLAN_SUBMITTED messages as submissions that went to somebody other than the creator. */
  lemma OneNoticePerSubmission(states: seq<Db>, steps: seq<Step>, n: nat)
    requires Run(states, steps) && n < |states|
    ensures |Notifications.Recipients(states[n].outbox, PLAN_SUBMITTED)| == |HandedOn(states, steps, n)|
  {
    hide Inv, Next, HandedOn, Asked;
    SubmissionsReachTheApprover(states, steps, n);
    AskedCount(states, steps, n);
  }
}
