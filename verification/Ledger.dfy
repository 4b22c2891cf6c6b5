/** The cross-table invariant: approvals, audit entries, created work and queued messages agree. */
module Ledger {
  import opened Common
  import opened Schema
  import opened PlanItems
  import opened Notifications
  import opened Work
  import opened Approval
  import Delegation
  import Permissions

  // --- decisions ---------------------------------------------------------------------------

  ghost predicate RecordOk(plans: map<Id, Plan>, a: Schema.Approval, e: AuditEvent) {
    && a.plan in plans
    && plans[a.plan].status == Decided(a.decision)
    && plans[a.plan].version == a.planVersion + 1
    && e.org == plans[a.plan].org && e.target == a.plan && e.action == a.decision && e.actor == a.approver
    && e.before == Snapshot(PENDING_APPROVAL, a.planVersion)
    && e.after == Snapshot(Decided(a.decision), a.planVersion + 1)
    && (a.decision == REJECT ==> e.created == [])
  }

  /** One approval row and one audit row for each decided plan, none for any other. */
  ghost predicate DecisionsOk(plans: map<Id, Plan>, approvals: seq<Schema.Approval>, audit: seq<AuditEvent>) {
    && |approvals| == |audit|
    && (forall i | 0 <= i < |approvals| :: RecordOk(plans, approvals[i], audit[i]))
    && (forall i, j | 0 <= i < j < |approvals| :: approvals[i].plan != approvals[j].plan)
    && (forall p | p in plans && !Editable(plans[p].status) :: exists a :: a in approvals && a.plan == p)
  }

  // --- created work ------------------------------------------------------------------------

  /** The task a plan item became; only its status and version may have moved since. */
  predicate Realises(w: WorkItem, p: Plan, x: PlanItem) {
    && w.org == p.org && w.parent == Some(p.scope) && w.kind == TASK
    && w.title == x.title && w.description == x.description
    && w.owner == x.assignee && x.assignee.Some? && w.due == x.due && w.createdBy == p.createdBy
  }

  ghost predicate MadeFrom(works: map<Id, WorkItem>, p: Plan, l: seq<PlanItem>, ids: seq<Id>) {
    && |ids| == |l|
    && (forall i, j | 0 <= i < j < |ids| :: ids[i] != ids[j])
    && forall i | 0 <= i < |ids| :: ids[i] in works && Realises(works[ids[i]], p, l[i])
  }

  ghost predicate WorkOk(
    works: map<Id, WorkItem>, plans: map<Id, Plan>, items: map<Id, PlanItem>, e: AuditEvent)
  {
    e.action == APPROVE ==> e.target in plans && MadeFrom(works, plans[e.target], Listing(items, e.target), e.created)
  }

  /** Approved plans became exactly the tasks they proposed, and no task belongs to two plans. */
  ghost predicate CreationsOk(
    works: map<Id, WorkItem>, plans: map<Id, Plan>, items: map<Id, PlanItem>, audit: seq<AuditEvent>)
  {
    && (forall e | e in audit :: WorkOk(works, plans, items, e))
    && (forall i, j, w | 0 <= i < j < |audit| && w in audit[i].created :: w !in audit[j].created)
  }

  // --- messages ----------------------------------------------------------------------------

  function OwnersOf(works: map<Id, WorkItem>, ids: seq<Id>): seq<Id> {
    if ids == [] then []
    else
      var last := ids[|ids| - 1];
      OwnersOf(works, ids[..|ids| - 1]) +
      if last in works && works[last].owner.Some? then [works[last].owner.value] else []
  }

  /** The owners of everything approvals created, in order. */
  function Assigned(works: map<Id, WorkItem>, audit: seq<AuditEvent>): seq<Id> {
    if audit == [] then []
    else Assigned(works, audit[..|audit| - 1]) + OwnersOf(works, audit[|audit| - 1].created)
  }

  /** The creators whose plans somebody else decided this way, in order. */
  function Informed(plans: map<Id, Plan>, approvals: seq<Schema.Approval>, d: Decision): seq<Id> {
    if approvals == [] then []
    else
      var last := approvals[|approvals| - 1];
      Informed(plans, approvals[..|approvals| - 1], d) +
      if last.decision == d && last.plan in plans && plans[last.plan].createdBy != last.approver
      then [plans[last.plan].createdBy] else []
  }

  /** Plans that were sent to somebody other than their creator. */
  function SentOn(plans: map<Id, Plan>): set<Id> {
    set p | p in plans && plans[p].status != DRAFT && plans[p].approver != Some(plans[p].createdBy)
  }

  /** Every message is accounted for, and nobody was told twice. */
  ghost predicate MailOk(
    works: map<Id, WorkItem>, plans: map<Id, Plan>, approvals: seq<Schema.Approval>, audit: seq<AuditEvent>,
    outbox: seq<Message>)
  {
    && Recipients(outbox, ASSIGNMENT) == Assigned(works, audit)
    && Recipients(outbox, PLAN_APPROVED) == Informed(plans, approvals, APPROVE)
    && Recipients(outbox, PLAN_REJECTED) == Informed(plans, approvals, REJECT)
    && |Recipients(outbox, PLAN_SUBMITTED)| == |SentOn(plans)|
  }

  /** The invariant of every reachable database. */
  ghost predicate Inv(db: Db) {
    && Consistent(db)
    && EventsOk(db.works, db.events)
    && DecisionsOk(db.plans, db.approvals, db.audit)
    && CreationsOk(db.works, db.plans, db.items, db.audit)
    && MailOk(db.works, db.plans, db.approvals, db.audit, db.outbox)
  }

  // --- changing work -----------------------------------------------------------------------

  /** What no later step changes about a work item. */
  predicate SameJob(a: WorkItem, b: WorkItem) {
    b == a.(status := b.status, version := b.version)
  }

  ghost predicate Grows(before: map<Id, WorkItem>, after: map<Id, WorkItem>) {
    forall w | w in before :: w in after && SameJob(before[w], after[w])
  }

  lemma PlansSurviveWork(
    members: seq<Membership>, before: map<Id, WorkItem>, after: map<Id, WorkItem>, plans: map<Id, Plan>)
    requires PlansOk(members, before, plans) && Grows(before, after)
    ensures PlansOk(members, after, plans)
  {
    forall p | p in plans
      ensures plans[p].id == p && PlanOk(members, after, plans[p])
    {
      assert PlanOk(members, before, plans[p]);
    }
  }

  lemma CreationsSurviveWork(
    before: map<Id, WorkItem>, after: map<Id, WorkItem>, plans: map<Id, Plan>, items: map<Id, PlanItem>,
    audit: seq<AuditEvent>)
    requires CreationsOk(before, plans, items, audit) && Grows(before, after)
    ensures CreationsOk(after, plans, items, audit)
  {
    forall e | e in audit
      ensures WorkOk(after, plans, items, e)
    {
      assert WorkOk(before, plans, items, e);
    }
  }

  lemma {:induction false} OwnersStay(before: map<Id, WorkItem>, after: map<Id, WorkItem>, ids: seq<Id>)
    requires Grows(before, after) && forall i | i in ids :: i in before
    ensures OwnersOf(after, ids) == OwnersOf(before, ids)
  {
    if ids != [] {
      OwnersStay(before, after, ids[..|ids| - 1]);
      assert ids[|ids| - 1] in before;
    }
  }

  lemma {:induction false} AssignedStays(
    before: map<Id, WorkItem>, after: map<Id, WorkItem>, audit: seq<AuditEvent>)
    requires Grows(before, after) && forall e, i | e in audit && i in e.created :: i in before
    ensures Assigned(after, audit) == Assigned(before, audit)
  {
    if audit != [] {
      AssignedStays(before, after, audit[..|audit| - 1]);
      assert audit[|audit| - 1] in audit;
      OwnersStay(before, after, audit[|audit| - 1].created);
    }
  }

  lemma CreatedExist(
    works: map<Id, WorkItem>, plans: map<Id, Plan>, items: map<Id, PlanItem>, approvals: seq<Schema.Approval>,
    audit: seq<AuditEvent>, e: AuditEvent, i: Id)
    requires DecisionsOk(plans, approvals, audit) && CreationsOk(works, plans, items, audit)
    requires e in audit && i in e.created
    ensures i in works
  {
    var k :| 0 <= k < |audit| && audit[k] == e;
    assert RecordOk(plans, approvals[k], audit[k]);
    assert WorkOk(works, plans, items, e);
    var j :| 0 <= j < |e.created| && e.created[j] == i;
  }

  /** A step that only adds or moves work keeps the whole invariant. */
  lemma WorkStepKeeps(db: Db, after: Db)
    requires Inv(db) && after == db.(works := after.works, events := after.events)
    requires WorksOk(db.members, after.works) && EventsOk(after.works, after.events) && Grows(db.works, after.works)
    ensures Inv(after)
  {
    PlansSurviveWork(db.members, db.works, after.works, db.plans);
    CreationsSurviveWork(db.works, after.works, db.plans, db.items, db.audit);
    forall e, i | e in db.audit && i in e.created
      ensures i in db.works
    {
      CreatedExist(db.works, db.plans, db.items, db.approvals, db.audit, e, i);
    }
    AssignedStays(db.works, after.works, db.audit);
  }

  // --- changing proposals ------------------------------------------------------------------

  /** Drafting moves only undecided plans and their items, and decides none. */
  ghost predicate Drafts(db: Db, after: Db) {
    && (forall p | p in db.plans ::
          && p in after.plans
          && after.plans[p].createdBy == db.plans[p].createdBy
          && (Editable(db.plans[p].status) ==> Editable(after.plans[p].status))
          && (!Editable(db.plans[p].status) ==>
                after.plans[p] == db.plans[p] && Listing(after.items, p) == Listing(db.items, p)))
    && (forall p | p in after.plans && p !in db.plans :: Editable(after.plans[p].status))
  }

  lemma DecisionsSurviveDrafting(db: Db, after: Db)
    requires DecisionsOk(db.plans, db.approvals, db.audit) && Drafts(db, after)
    ensures DecisionsOk(after.plans, db.approvals, db.audit)
  {
    forall i | 0 <= i < |db.approvals|
      ensures RecordOk(after.plans, db.approvals[i], db.audit[i])
    {
      assert RecordOk(db.plans, db.approvals[i], db.audit[i]);
    }
  }

  lemma CreationsSurviveDrafting(db: Db, after: Db)
    requires DecisionsOk(db.plans, db.approvals, db.audit)
    requires CreationsOk(db.works, db.plans, db.items, db.audit) && Drafts(db, after)
    ensures CreationsOk(db.works, after.plans, after.items, db.audit)
  {
    forall e | e in db.audit
      ensures WorkOk(db.works, after.plans, after.items, e)
    {
      var k :| 0 <= k < |db.audit| && db.audit[k] == e;
      assert RecordOk(db.plans, db.approvals[k], db.audit[k]);
      assert WorkOk(db.works, db.plans, db.items, e);
    }
  }

  lemma {:induction false} InformedStays(
    before: map<Id, Plan>, after: map<Id, Plan>, approvals: seq<Schema.Approval>, d: Decision)
    requires forall a | a in approvals :: a.plan in before && a.plan in after &&
                                          after[a.plan].createdBy == before[a.plan].createdBy
    ensures Informed(after, approvals, d) == Informed(before, approvals, d)
  {
    if approvals != [] {
      InformedStays(before, after, approvals[..|approvals| - 1], d);
      assert approvals[|approvals| - 1] in approvals;
    }
  }

  lemma ApprovalsNamePlans(plans: map<Id, Plan>, approvals: seq<Schema.Approval>, audit: seq<AuditEvent>, a: Schema.Approval)
    requires DecisionsOk(plans, approvals, audit) && a in approvals
    ensures a.plan in plans && plans[a.plan].status == Decided(a.decision)
    ensures plans[a.plan].version == a.planVersion + 1
  {
    var k :| 0 <= k < |approvals| && approvals[k] == a;
    assert RecordOk(plans, approvals[k], audit[k]);
  }

  lemma DraftMail(db: Db, plans: map<Id, Plan>, sent: seq<Message>)
    requires DecisionsOk(db.plans, db.approvals, db.audit)
    requires MailOk(db.works, db.plans, db.approvals, db.audit, db.outbox)
    requires forall p | p in db.plans :: p in plans && plans[p].createdBy == db.plans[p].createdBy
    requires forall m | m in sent :: m.kind == PLAN_SUBMITTED
    requires |SentOn(plans)| == |SentOn(db.plans)| + |sent|
    ensures MailOk(db.works, plans, db.approvals, db.audit, db.outbox + sent)
  {
    forall a | a in db.approvals
      ensures a.plan in db.plans
    {
      ApprovalsNamePlans(db.plans, db.approvals, db.audit, a);
    }
    InformedStays(db.plans, plans, db.approvals, APPROVE);
    InformedStays(db.plans, plans, db.approvals, REJECT);
    OneKind(sent, PLAN_SUBMITTED);
    RecipientsConcat(db.outbox, sent, ASSIGNMENT);
    RecipientsConcat(db.outbox, sent, PLAN_APPROVED);
    RecipientsConcat(db.outbox, sent, PLAN_REJECTED);
    RecipientsConcat(db.outbox, sent, PLAN_SUBMITTED);
  }

  /** A drafting step keeps the invariant if it accounts for its own message. */
  lemma DraftStepKeeps(db: Db, after: Db, sent: seq<Message>)
    requires Inv(db) && after == db.(plans := after.plans, items := after.items, outbox := db.outbox + sent)
    requires Consistent(after) && Drafts(db, after)
    requires forall m | m in sent :: m.kind == PLAN_SUBMITTED
    requires |SentOn(after.plans)| == |SentOn(db.plans)| + |sent|
    ensures Inv(after)
  {
    DecisionsSurviveDrafting(db, after);
    CreationsSurviveDrafting(db, after);
    DraftMail(db, after.plans, sent);
  }

  /** A drafting step that sends nothing. */
  lemma QuietDraftKeeps(db: Db, after: Db)
    requires Inv(db) && after == db.(plans := after.plans, items := after.items)
    requires Consistent(after) && Drafts(db, after) && SentOn(after.plans) == SentOn(db.plans)
    ensures Inv(after)
  {
    hide Consistent, EventsOk, DecisionsOk, CreationsOk;
    assert db.outbox + [] == db.outbox;
    DraftStepKeeps(db, after, []);
  }

  lemma {:induction false} OneKind(sent: seq<Message>, kind: MessageType)
    requires forall m | m in sent :: m.kind == kind
    ensures forall k :: Recipients(sent, k) == if k == kind then Recipients(sent, kind) else []
    ensures |Recipients(sent, kind)| == |sent|
  {
    if sent != [] {
      OneKind(sent[..|sent| - 1], kind);
      assert sent[|sent| - 1] in sent;
    }
  }

  // --- deciding ----------------------------------------------------------------------------

  lemma IdsFreePrefix(works: map<Id, WorkItem>, draws: nat -> Draw, n: nat)
    requires IdsFree(works, draws, n + 1)
    ensures IdsFree(works, draws, n)
  {}

  /** The next draw is unused by the tables and by the tasks before it. */
  lemma NextDraw(
    db: Db, p: Plan, items: seq<PlanItem>, draws: nat -> Draw, n: nat, before: seq<WorkItem>, works: map<Id, WorkItem>)
    requires n < |items| && IdsFree(db.works, draws, n + 1) && CodesSoFar(db, p, draws, n + 1).Some?
    requires CodesSoFar(db, p, draws, n).Some?
    requires TasksMatch(p, items, draws, CodesSoFar(db, p, draws, n).value, n, before)
    requires works == AddTasks(db, before).works
    ensures FreshTasks(db.works, before)
    ensures draws(n).id !in works
    ensures CodesSoFar(db, p, draws, n + 1).value[n] !in TakenWorkCodes(works, p.org)
  {
    hide AddTasks, TaskFor, IdsFree, FreshTasks, TakenWorkCodes, TasksMatch;
    IdsFreePrefix(db.works, draws, n);
    MatchedTasks(db.works, p, items, draws, CodesSoFar(db, p, draws, n).value, n, before);
    AddTasksFrame(db, before);
    AddTasksCodes(db, before, p.org);
    NextIdFree(db.works, works, draws, n);
  }

  lemma TaskFits(
    db: Db, p: Plan, items: seq<PlanItem>, draws: nat -> Draw, n: nat, before: seq<WorkItem>, w: WorkItem)
    requires p.scope in db.works && Proposal(db, p, items, db.works[p.scope])
    requires n < |items| && db.works[p.scope].status != CANCELLED
    requires IdsFree(db.works, draws, n + 1) && CodesSoFar(db, p, draws, n + 1).Some?
    requires TasksMatch(p, items, draws, CodesSoFar(db, p, draws, n).value, n, before)
    requires w == TaskFor(p, items[n], draws(n), CodesSoFar(db, p, draws, n + 1).value[n])
    ensures FitsIn(db.members, AddTasks(db, before).works, w)
  {
    hide AddTasks, IdsFree, FreshTasks, TasksMatch, TakenWorkCodes;
    var works := AddTasks(db, before).works;
    NextDraw(db, p, items, draws, n, before, works);
    AddTasksFrame(db, before);
    assert works[p.scope] == db.works[p.scope];
  }

  /** Each task an approval adds fits where it goes, so adding them all keeps the work tables. */
  lemma {:induction false} AddTasksKeeps(
    db: Db, p: Plan, items: seq<PlanItem>, draws: nat -> Draw, n: nat, tasks: seq<WorkItem>)
    requires p.scope in db.works && Proposal(db, p, items, db.works[p.scope])
    requires n <= |items| && (n > 0 ==> db.works[p.scope].status != CANCELLED)
    requires IdsFree(db.works, draws, n) && CodesSoFar(db, p, draws, n).Some?
    requires TasksMatch(p, items, draws, CodesSoFar(db, p, draws, n).value, n, tasks)
    requires WorksOk(db.members, db.works) && EventsOk(db.works, db.events)
    ensures WorksOk(db.members, AddTasks(db, tasks).works)
    ensures EventsOk(AddTasks(db, tasks).works, AddTasks(db, tasks).events)
    decreases n
  {
    hide FitsIn, EventsOk, WorkCodesUnique, ParentFits, TaskFor, Placeable;
    if n > 0 {
      var front, last := tasks[..n - 1], tasks[n - 1];
      assert TasksMatch(p, items, draws, CodesSoFar(db, p, draws, n - 1).value, n - 1, front);
      AddTasksKeeps(db, p, items, draws, n - 1, front);
      TaskFits(db, p, items, draws, n - 1, front, last);
      var mid := AddTasks(db, front);
      AddTasksFrame(db, front);
      WithWorkKeepsWorks(mid, last);
      WithWorkKeepsEvents(mid, last);
    }
  }

  /** A decision's writes, as the facts the invariant needs: the row, the work, the mail. */
  ghost predicate RowSound(p: Plan, d: Decision, w: Writes) {
    && p.status == PENDING_APPROVAL
    && w.plan == p.(status := Decided(d), approvedAt := w.plan.approvedAt, version := p.version + 1)
    && (w.plan.approvedAt.Some? <==> d == APPROVE || p.approvedAt.Some?)
    && w.approval.plan == p.id && w.approval.planVersion == p.version && w.approval.decision == d
    && w.audit.org == p.org && w.audit.target == p.id && w.audit.action == d && w.audit.actor == w.approval.approver
    && w.audit.before == Snapshot(PENDING_APPROVAL, p.version)
    && w.audit.after == Snapshot(Decided(d), p.version + 1)
  }

  ghost predicate TablesSound(db: Db, tasks: seq<WorkItem>) {
    var after := AddTasks(db, tasks);
    && WorksOk(db.members, after.works) && EventsOk(after.works, after.events) && Grows(db.works, after.works)
    && after == db.(works := after.works, events := after.events)
  }

  ghost predicate MadeSound(before: map<Id, WorkItem>, after: map<Id, WorkItem>, d: Decision, l: seq<PlanItem>, w: Writes) {
    && |w.audit.created| == |w.tasks|
    && (forall i | 0 <= i < |w.tasks| ::
          w.audit.created[i] == w.tasks[i].id && w.tasks[i].id !in before &&
          w.tasks[i].id in after && after[w.tasks[i].id] == w.tasks[i])
    && (d == APPROVE ==> MadeFrom(after, w.plan, l, w.audit.created))
    && (d == REJECT ==> w.tasks == [])
  }

  ghost predicate MailSound(works: map<Id, WorkItem>, d: Decision, w: Writes) {
    var told := if w.plan.createdBy == w.approval.approver then [] else [w.plan.createdBy];
    && Recipients(w.messages, ASSIGNMENT) == OwnersOf(works, w.audit.created)
    && Recipients(w.messages, PLAN_APPROVED) == (if d == APPROVE then told else [])
    && Recipients(w.messages, PLAN_REJECTED) == (if d == REJECT then told else [])
    && Recipients(w.messages, PLAN_SUBMITTED) == []
  }

  lemma ApprovedTables(db: Db, p: Plan, items: seq<PlanItem>, draws: nat -> Draw, tasks: seq<WorkItem>)
    requires p.scope in db.works && Proposal(db, p, items, db.works[p.scope])
    requires items != [] ==> db.works[p.scope].status != CANCELLED
    requires IdsFree(db.works, draws, |items|) && CodesSoFar(db, p, draws, |items|).Some?
    requires tasks == TasksFor(p, items, draws, CodesSoFar(db, p, draws, |items|).value)
    requires WorksOk(db.members, db.works) && EventsOk(db.works, db.events)
    ensures TablesSound(db, tasks) && FreshTasks(db.works, tasks)
  {
    var codes := CodesSoFar(db, p, draws, |items|).value;
    assert TasksMatch(p, items, draws, codes, |items|, tasks);
    AddTasksKeeps(db, p, items, draws, |items|, tasks);
    MatchedTasks(db.works, p, items, draws, codes, |items|, tasks);
    AddTasksFrame(db, tasks);
  }

  lemma ApprovedMade(
    before: map<Id, WorkItem>, after: map<Id, WorkItem>, p: Plan, items: seq<PlanItem>, req: Request,
    codes: seq<string>, messages: seq<Message>)
    requires |codes| == |items| && forall i | 0 <= i < |items| :: items[i].assignee.Some?
    requires FreshTasks(before, TasksFor(p, items, req.draws, codes))
    requires forall t | t in TasksFor(p, items, req.draws, codes) :: t.id in after && after[t.id] == t
    ensures MadeSound(before, after, APPROVE, items, WritesFor(p, APPROVE, req, TasksFor(p, items, req.draws, codes), messages))
  {
    var tasks := TasksFor(p, items, req.draws, codes);
    forall i | 0 <= i < |items|
      ensures tasks[i] in tasks
    {}
  }

  lemma NoticeMail(members: seq<Membership>, identities: seq<Identity>, p: Plan, actor: Id, kind: MessageType, now: Time)
    ensures forall k :: Recipients(NoticeFor(members, identities, p, actor, kind, now), k) ==
                        if k == kind && p.createdBy != actor then [p.createdBy] else []
  {
    OneKind(NoticeFor(members, identities, p, actor, kind, now), kind);
  }

  lemma ApproveSound(db: Db, req: Request)
    requires WorksOk(db.members, db.works) && EventsOk(db.works, db.events) && Decidable(db, req.plan)
    requires Goes(db, APPROVE, req)
    ensures var w := WritesOf(db, APPROVE, req);
            && TablesSound(db, w.tasks)
            && MadeSound(db.works, AddTasks(db, w.tasks).works, APPROVE, Listing(db.items, req.plan), w)
  {
    var p, items, w := db.plans[req.plan], Listing(db.items, req.plan), WritesOf(db, APPROVE, req);
    ApprovedTables(db, p, items, req.draws, w.tasks);
    AddTasksFrame(db, w.tasks);
    forall i | 0 <= i < |items|
      ensures items[i].assignee.Some?
    {
      assert items[i] in items;
    }
    ApprovedMade(db.works, AddTasks(db, w.tasks).works, p, items, req, CodesSoFar(db, p, req.draws, |items|).value, w.messages);
  }

  lemma RowIsSound(db: Db, d: Decision, req: Request)
    requires Goes(db, d, req) && db.plans[req.plan].id == req.plan
    ensures RowSound(db.plans[req.plan], d, WritesOf(db, d, req))
  {
    hide Placeable, Drawable, Recordable, Permissions.Can, CodesFor, TasksFor, AssignmentsFor, NoticeFor, Listing;
  }

  lemma RejectSound(db: Db, req: Request)
    requires WorksOk(db.members, db.works) && EventsOk(db.works, db.events) && Goes(db, REJECT, req)
    ensures var w := WritesOf(db, REJECT, req);
            TablesSound(db, w.tasks) && MadeSound(db.works, AddTasks(db, w.tasks).works, REJECT, Listing(db.items, req.plan), w)
  {
    hide WorksOk, EventsOk, CheckRow, Recordable, NoticeFor, Listing;
  }

  lemma WritesSound(db: Db, d: Decision, req: Request)
    requires WorksOk(db.members, db.works) && EventsOk(db.works, db.events) && Decidable(db, req.plan)
    requires Goes(db, d, req)
    ensures var w := WritesOf(db, d, req);
            && RowSound(db.plans[req.plan], d, w)
            && TablesSound(db, w.tasks)
            && MadeSound(db.works, AddTasks(db, w.tasks).works, d, Listing(db.items, req.plan), w)
  {
    hide WorksOk, Work.EventsOk, Goes, WritesOf, TablesSound, MadeSound, RowSound, Decidable, Listing, AddTasks;
    RowIsKeyed(db, d, req);
    RowIsSound(db, d, req);
    if d == APPROVE {
      ApproveSound(db, req);
    } else {
      RejectSound(db, req);
    }
  }

  lemma DecisionsGrow(
    plans: map<Id, Plan>, approvals: seq<Schema.Approval>, audit: seq<AuditEvent>, p: Plan, a: Schema.Approval, e: AuditEvent)
    requires DecisionsOk(plans, approvals, audit)
    requires p.id in plans && Editable(plans[p.id].status) && a.plan == p.id
    requires RecordOk(plans[p.id := p], a, e)
    ensures DecisionsOk(plans[p.id := p], approvals + [a], audit + [e])
  {
    var after := plans[p.id := p];
    forall i | 0 <= i < |approvals + [a]|
      ensures RecordOk(after, (approvals + [a])[i], (audit + [e])[i])
      ensures i < |approvals| ==> approvals[i].plan != p.id
    {
      if i < |approvals| {
        assert RecordOk(plans, approvals[i], audit[i]);
      }
    }
    forall q | q in after && !Editable(after[q].status)
      ensures exists x :: x in approvals + [a] && x.plan == q
    {
      if q == p.id {
        assert a in approvals + [a];
      } else {
        var x :| x in approvals && x.plan == q;
        assert x in approvals + [a];
      }
    }
  }

  lemma CreationsGrow(
    before: map<Id, WorkItem>, after: map<Id, WorkItem>, plans: map<Id, Plan>, items: map<Id, PlanItem>,
    audit: seq<AuditEvent>, p: Plan, e: AuditEvent)
    requires CreationsOk(before, plans, items, audit) && Grows(before, after)
    requires forall x, i | x in audit && i in x.created :: i in before
    requires forall x | x in audit :: x.target != p.id
    requires e.action == APPROVE ==> forall i | i in e.created :: i !in before
    requires e.action == REJECT ==> e.created == []
    requires e.target == p.id && WorkOk(after, plans[p.id := p], items, e)
    ensures CreationsOk(after, plans[p.id := p], items, audit + [e])
  {
    CreationsSurviveWork(before, after, plans, items, audit);
    var all, now := audit + [e], plans[p.id := p];
    forall x | x in all
      ensures WorkOk(after, now, items, x)
    {
      if x in audit {
        assert WorkOk(after, plans, items, x);
      }
    }
    forall i, j, w | 0 <= i < j < |all| && w in all[i].created
      ensures w !in all[j].created
    {
      assert all[i] == audit[i] && audit[i] in audit;
    }
  }

  lemma {:induction false} AssignmentRecipients(
    members: seq<Membership>, identities: seq<Identity>, org: Id, tasks: seq<WorkItem>, now: Time,
    works: map<Id, WorkItem>, ids: seq<Id>)
    requires |ids| == |tasks| && forall i | 0 <= i < |tasks| :: ids[i] == tasks[i].id && ids[i] in works && works[ids[i]] == tasks[i]
    ensures forall kind :: Recipients(AssignmentsFor(members, identities, org, tasks, now), kind) ==
                           if kind == ASSIGNMENT then OwnersOf(works, ids) else []
  {
    if tasks != [] {
      var front := tasks[..|tasks| - 1];
      AssignmentRecipients(members, identities, org, front, now, works, ids[..|ids| - 1]);
      var sent := AssignmentsFor(members, identities, org, front, now);
      var last := tasks[|tasks| - 1];
      if last.owner.Some? {
        var m := MessageFor(members, identities, org, last.owner.value, ASSIGNMENT, now);
        assert (sent + [m])[..|sent|] == sent;
      } else {
        assert AssignmentsFor(members, identities, org, tasks, now) == sent;
      }
    }
  }

  lemma ApproveMail(db: Db, p: Plan, req: Request, works: map<Id, WorkItem>, tasks: seq<WorkItem>, w: Writes)
    requires forall t | t in tasks :: t.id in works && works[t.id] == t
    requires w == WritesFor(p, APPROVE, req, tasks,
                            AssignmentsFor(db.members, db.identities, p.org, tasks, req.now) +
                            NoticeFor(db.members, db.identities, p, req.actor.member, PLAN_APPROVED, req.now))
    ensures MailSound(works, APPROVE, w)
  {
    hide AssignmentsFor, NoticeFor, Recipients, OwnersOf, MessageFor;
    var sent := AssignmentsFor(db.members, db.identities, p.org, tasks, req.now);
    var notice := NoticeFor(db.members, db.identities, p, req.actor.member, PLAN_APPROVED, req.now);
    NoticeMail(db.members, db.identities, p, req.actor.member, PLAN_APPROVED, req.now);
    AssignmentRecipients(db.members, db.identities, p.org, tasks, req.now, works, w.audit.created);
    RecipientsConcat(sent, notice, ASSIGNMENT);
    RecipientsConcat(sent, notice, PLAN_APPROVED);
    RecipientsConcat(sent, notice, PLAN_REJECTED);
    RecipientsConcat(sent, notice, PLAN_SUBMITTED);
  }

  lemma RejectMail(db: Db, p: Plan, req: Request, works: map<Id, WorkItem>)
    ensures MailSound(works, REJECT, WritesFor(p, REJECT, req, [], NoticeFor(
              db.members, db.identities, p, req.actor.member, PLAN_REJECTED, req.now)))
  {
    hide NoticeFor, Recipients;
    NoticeMail(db.members, db.identities, p, req.actor.member, PLAN_REJECTED, req.now);
  }

  lemma WrittenMail(db: Db, d: Decision, req: Request, works: map<Id, WorkItem>)
    requires Goes(db, d, req) && MadeSound(db.works, works, d, Listing(db.items, req.plan), WritesOf(db, d, req))
    ensures MailSound(works, d, WritesOf(db, d, req))
  {
    hide CheckRow, Placeable, Drawable, Recordable, MadeFrom, MailSound, CodesFor, TasksFor, Listing;
    var p, w := db.plans[req.plan], WritesOf(db, d, req);
    forall t | t in w.tasks
      ensures t.id in works && works[t.id] == t
    {
      var i :| 0 <= i < |w.tasks| && w.tasks[i] == t;
    }
    if d == APPROVE {
      ApproveMail(db, p, req, works, w.tasks, w);
    } else {
      RejectMail(db, p, req, works);
    }
  }

  lemma AssignmentMailGrows(db: Db, works: map<Id, WorkItem>, w: Writes)
    requires Recipients(db.outbox, ASSIGNMENT) == Assigned(db.works, db.audit)
    requires DecisionsOk(db.plans, db.approvals, db.audit) && CreationsOk(db.works, db.plans, db.items, db.audit)
    requires Grows(db.works, works)
    requires Recipients(w.messages, ASSIGNMENT) == OwnersOf(works, w.audit.created)
    ensures Recipients(db.outbox + w.messages, ASSIGNMENT) == Assigned(works, db.audit + [w.audit])
  {
    RecipientsConcat(db.outbox, w.messages, ASSIGNMENT);
    AssignedGrows(db, works, w.audit);
  }

  lemma DecisionMailGrows(db: Db, works: map<Id, WorkItem>, d: Decision, w: Writes, kind: MessageType, k: Decision)
    requires Recipients(db.outbox, kind) == Informed(db.plans, db.approvals, k)
    requires (kind, k) == (PLAN_APPROVED, APPROVE) || (kind, k) == (PLAN_REJECTED, REJECT)
    requires DecisionsOk(db.plans, db.approvals, db.audit)
    requires w.plan.id in db.plans && RowSound(db.plans[w.plan.id], d, w) && MailSound(works, d, w)
    ensures Recipients(db.outbox + w.messages, kind) ==
            Informed(db.plans[w.plan.id := w.plan], db.approvals + [w.approval], k)
  {
    hide Recipients, Informed, DecisionsOk;
    RecipientsConcat(db.outbox, w.messages, kind);
    InformedGrows(db, db.plans[w.plan.id := w.plan], w.approval, k);
  }

  lemma MailGrows(db: Db, d: Decision, works: map<Id, WorkItem>, w: Writes)
    requires MailOk(db.works, db.plans, db.approvals, db.audit, db.outbox)
    requires DecisionsOk(db.plans, db.approvals, db.audit) && CreationsOk(db.works, db.plans, db.items, db.audit)
    requires w.plan.id in db.plans && RowSound(db.plans[w.plan.id], d, w)
    requires Grows(db.works, works) && MailSound(works, d, w)
    ensures MailOk(works, db.plans[w.plan.id := w.plan], db.approvals + [w.approval], db.audit + [w.audit],
                   db.outbox + w.messages)
  {
    AssignmentMailGrows(db, works, w);
    DecisionMailGrows(db, works, d, w, PLAN_APPROVED, APPROVE);
    DecisionMailGrows(db, works, d, w, PLAN_REJECTED, REJECT);
    RecipientsConcat(db.outbox, w.messages, PLAN_SUBMITTED);
    SentOnStays(db.plans, w.plan);
  }

  lemma SentOnStays(plans: map<Id, Plan>, p: Plan)
    requires p.id in plans
    requires plans[p.id].status == DRAFT <==> p.status == DRAFT
    requires p.approver == plans[p.id].approver && p.createdBy == plans[p.id].createdBy
    ensures SentOn(plans[p.id := p]) == SentOn(plans)
  {
    forall q
      ensures q in SentOn(plans[p.id := p]) <==> q in SentOn(plans)
    {
      assert q in SentOn(plans) <==> q in plans && plans[q].status != DRAFT && plans[q].approver != Some(plans[q].createdBy);
    }
  }

  lemma AssignedGrows(db: Db, works: map<Id, WorkItem>, e: AuditEvent)
    requires DecisionsOk(db.plans, db.approvals, db.audit) && CreationsOk(db.works, db.plans, db.items, db.audit)
    requires Grows(db.works, works)
    ensures Assigned(works, db.audit + [e]) == Assigned(db.works, db.audit) + OwnersOf(works, e.created)
  {
    forall x, i | x in db.audit && i in x.created
      ensures i in db.works
    {
      CreatedExist(db.works, db.plans, db.items, db.approvals, db.audit, x, i);
    }
    AssignedStays(db.works, works, db.audit);
    assert (db.audit + [e])[..|db.audit|] == db.audit;
  }

  lemma InformedGrows(db: Db, plans: map<Id, Plan>, a: Schema.Approval, d: Decision)
    requires DecisionsOk(db.plans, db.approvals, db.audit)
    requires forall p | p in db.plans :: p in plans && plans[p].createdBy == db.plans[p].createdBy
    requires a.plan in plans
    ensures Informed(plans, db.approvals + [a], d) ==
            Informed(db.plans, db.approvals, d) +
            if a.decision == d && plans[a.plan].createdBy != a.approver then [plans[a.plan].createdBy] else []
  {
    forall x | x in db.approvals
      ensures x.plan in db.plans
    {
      ApprovalsNamePlans(db.plans, db.approvals, db.audit, x);
    }
    InformedStays(db.plans, plans, db.approvals, d);
    assert (db.approvals + [a])[..|db.approvals|] == db.approvals;
  }

  lemma ConsistentGrows(db: Db, d: Decision, w: Writes)
    requires Consistent(db) && w.plan.id in db.plans && RowSound(db.plans[w.plan.id], d, w) && TablesSound(db, w.tasks)
    ensures Consistent(Apply(db, w))
  {
    var mid := AddTasks(db, w.tasks);
    assert PlanOk(db.members, db.works, db.plans[w.plan.id]);
    PlansSurviveWork(db.members, db.works, mid.works, db.plans);
    assert PlanOk(mid.members, mid.works, db.plans[w.plan.id]);
    Delegation.ReplacePlanKeeps(mid, w.plan);
  }

  lemma AuditNames(db: Db, p: Id)
    requires DecisionsOk(db.plans, db.approvals, db.audit) && p in db.plans && Editable(db.plans[p].status)
    ensures forall e | e in db.audit :: e.target != p
  {
    forall e | e in db.audit
      ensures e.target != p
    {
      var k :| 0 <= k < |db.audit| && db.audit[k] == e;
      assert RecordOk(db.plans, db.approvals[k], db.audit[k]);
    }
  }

  lemma CreationsGrowBy(db: Db, d: Decision, works: map<Id, WorkItem>, w: Writes)
    requires DecisionsOk(db.plans, db.approvals, db.audit) && CreationsOk(db.works, db.plans, db.items, db.audit)
    requires w.plan.id in db.plans && RowSound(db.plans[w.plan.id], d, w) && db.plans[w.plan.id].id == w.plan.id
    requires Grows(db.works, works) && MadeSound(db.works, works, d, Listing(db.items, w.plan.id), w)
    ensures CreationsOk(works, db.plans[w.plan.id := w.plan], db.items, db.audit + [w.audit])
  {
    AuditNames(db, w.plan.id);
    forall e, i | e in db.audit && i in e.created
      ensures i in db.works
    {
      CreatedExist(db.works, db.plans, db.items, db.approvals, db.audit, e, i);
    }
    CreationsGrow(db.works, works, db.plans, db.items, db.audit, w.plan, w.audit);
  }

  lemma DecisionsGrowBy(db: Db, d: Decision, works: map<Id, WorkItem>, w: Writes)
    requires DecisionsOk(db.plans, db.approvals, db.audit)
    requires w.plan.id in db.plans && RowSound(db.plans[w.plan.id], d, w) && db.plans[w.plan.id].id == w.plan.id
    requires MadeSound(db.works, works, d, Listing(db.items, w.plan.id), w)
    ensures DecisionsOk(db.plans[w.plan.id := w.plan], db.approvals + [w.approval], db.audit + [w.audit])
  {
    hide DecisionsOk, MadeFrom, Listing;
    DecisionsGrow(db.plans, db.approvals, db.audit, w.plan, w.approval, w.audit);
  }

  /** What a sound row, sound work and sound mail add up to. */
  lemma SoundWritesKeep(db: Db, d: Decision, w: Writes)
    requires Inv(db) && w.plan.id in db.plans && db.plans[w.plan.id].id == w.plan.id
    requires RowSound(db.plans[w.plan.id], d, w) && TablesSound(db, w.tasks)
    requires MadeSound(db.works, AddTasks(db, w.tasks).works, d, Listing(db.items, w.plan.id), w)
    requires MailSound(AddTasks(db, w.tasks).works, d, w)
    ensures Inv(Apply(db, w))
  {
    hide RowSound, MadeSound, MailSound, Consistent, DecisionsOk, CreationsOk, MailOk, WorksOk, EventsOk, Grows,
      Listing, AddTasks;
    ConsistentGrows(db, d, w);
    DecisionsGrowBy(db, d, AddTasks(db, w.tasks).works, w);
    CreationsGrowBy(db, d, AddTasks(db, w.tasks).works, w);
    MailGrows(db, d, AddTasks(db, w.tasks).works, w);
  }

  lemma WrittenPlan(db: Db, d: Decision, req: Request)
    requires Goes(db, d, req)
    ensures req.plan in db.plans && WritesOf(db, d, req).plan.id == db.plans[req.plan].id
  {
    hide Goes, WritesOf;
    WrittenRows(db, d, req);
  }

  lemma ConsistentAndFit(db: Db)
    requires Inv(db)
    ensures Consistent(db) && WorksOk(db.members, db.works) && EventsOk(db.works, db.events)
  {
    hide DecisionsOk, CreationsOk, MailOk, PlansOk, ItemsOk, MembersOk, Nested, WorkCodesUnique;
  }

  /** A decision that goes through keeps the invariant. */
  lemma DecideKeeps(db: Db, d: Decision, req: Request)
    requires Inv(db) && Goes(db, d, req)
    ensures Inv(Apply(db, WritesOf(db, d, req)))
  {
    hide Inv, Consistent, WorksOk, EventsOk, Goes, WritesOf, Apply, RowSound, MadeSound, MailSound, TablesSound,
      AddTasks, Decidable, Listing;
    ConsistentAndFit(db);
    PlansAreDecidable(db, req.plan);
    RowIsKeyed(db, d, req);
    WrittenPlan(db, d, req);
    WritesSound(db, d, req);
    WrittenMail(db, d, req, AddTasks(db, WritesOf(db, d, req).tasks).works);
    SoundWritesKeep(db, d, WritesOf(db, d, req));
  }

  lemma DecisionsAnnounceNoSubmission(db: Db, d: Decision, req: Request)
    requires Inv(db) && Goes(db, d, req)
    ensures Recipients(WritesOf(db, d, req).messages, PLAN_SUBMITTED) == []
  {
    hide Inv, Consistent, WorksOk, EventsOk, Goes, WritesOf, RowSound, MadeSound, TablesSound, AddTasks,
      Decidable, Listing;
    ConsistentAndFit(db);
    PlansAreDecidable(db, req.plan);
    RowIsKeyed(db, d, req);
    WritesSound(db, d, req);
    WrittenMail(db, d, req, AddTasks(db, WritesOf(db, d, req).tasks).works);
  }
}
