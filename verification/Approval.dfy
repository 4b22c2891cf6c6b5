/** Approving and rejecting: the moment a proposal becomes real work, in one transaction. */
module Approval {
  import opened Common
  import opened Schema
  import opened Text
  import opened PlanItems
  import opened Permissions
  import opened Notifications
  import opened Work

  /** One call of `approve_plan` or `reject_plan`, with the randomness its inserts will use. */
  datatype Request = Request(
    plan: Id, actor: Actor, expected: Option<nat>, comment: Option<string>, now: Time, draws: nat -> Draw)

  datatype Outcome = Outcome(
    plan: Plan, approval: Option<Schema.Approval>, created: seq<WorkItem>, notifications: seq<Message>, already: bool)

  // --- the checks made under the row lock --------------------------------------------------

  function Decided(d: Decision): PlanStatus {
    match d
    case APPROVE => APPROVED
    case REJECT => REJECTED
  }

  function ActionFor(d: Decision): Action {
    match d
    case APPROVE => APPROVE_PLAN
    case REJECT => REJECT_PLAN
  }

  datatype Check = Proceed | AlreadyDecided | Refused(error: Error)

  function CheckRow(p: Plan, d: Decision, req: Request): Check {
    if p.status == Decided(d) then AlreadyDecided
    else if p.status != PENDING_APPROVAL then Refused(InvalidPlanState)
    else if req.expected.Some? && req.expected.value != p.version then Refused(PlanChanged)
    else if Can(req.actor, ActionFor(d), Some(SubjectForPlan(p))) != ALLOW then Refused(PermissionDenied)
    else Proceed
  }

  // --- what a decision writes --------------------------------------------------------------

  /** The codes the first `n` insertions get, each loop seeing the codes before it as taken. */
  function CodesFor(taken: set<string>, draws: nat -> Draw, n: nat): (r: Option<seq<string>>)
    ensures r.Some? ==> |r.value| == n
  {
    if n == 0 then Some([])
    else match CodesFor(taken, draws, n - 1)
      case None => None
      case Some(before) =>
        match FirstFree(taken + Elements(before), draws(n - 1).codes)
        case None => None
        case Some(code) => Some(before + [code])
  }

  function CodesSoFar(db: Db, p: Plan, draws: nat -> Draw, n: nat): Option<seq<string>> {
    CodesFor(TakenWorkCodes(db.works, p.org), draws, n)
  }

  ghost predicate IdsFree(works: map<Id, WorkItem>, draws: nat -> Draw, n: nat) {
    && (forall i: nat | i < n :: draws(i).id !in works)
    && (forall i: nat, j: nat | i < j < n :: draws(i).id != draws(j).id)
  }

  function TaskFor(p: Plan, x: PlanItem, draw: Draw, code: string): WorkItem {
    WorkItem(draw.id, p.org, Some(p.scope), TASK, x.title, x.description, x.assignee, p.createdBy, ACTIVE, x.due, code, 1)
  }

  /** One task per item, position by position. */
  function TasksFor(p: Plan, items: seq<PlanItem>, draws: nat -> Draw, codes: seq<string>): (tasks: seq<WorkItem>)
    requires |codes| == |items|
    ensures |tasks| == |items|
    ensures forall i | 0 <= i < |items| :: tasks[i] == TaskFor(p, items[i], draws(i), codes[i])
  {
    seq(|items|, i requires 0 <= i < |items| => TaskFor(p, items[i], draws(i), codes[i]))
  }

  function AddTasks(db: Db, tasks: seq<WorkItem>): Db {
    if tasks == [] then db else WithWork(AddTasks(db, tasks[..|tasks| - 1]), tasks[|tasks| - 1])
  }

  /** One assignment message per task with an owner. */
  function AssignmentsFor(
    members: seq<Membership>, identities: seq<Identity>, org: Id, tasks: seq<WorkItem>, now: Time): seq<Message>
  {
    if tasks == [] then []
    else
      var last := tasks[|tasks| - 1];
      AssignmentsFor(members, identities, org, tasks[..|tasks| - 1], now) +
      if last.owner.Some? then [MessageFor(members, identities, org, last.owner.value, ASSIGNMENT, now)] else []
  }

  /** The creator hears about the decision unless they made it. */
  function NoticeFor(
    members: seq<Membership>, identities: seq<Identity>, p: Plan, actor: Id, kind: MessageType, now: Time): seq<Message>
  {
    if p.createdBy == actor then [] else [MessageFor(members, identities, p.org, p.createdBy, kind, now)]
  }

  datatype Writes = Writes(
    plan: Plan, approval: Schema.Approval, tasks: seq<WorkItem>, messages: seq<Message>, audit: AuditEvent)

  function PlanAfter(p: Plan, d: Decision, now: Time): Plan {
    p.(status := Decided(d), approvedAt := if d == APPROVE then Some(now) else p.approvedAt, version := p.version + 1)
  }

  function SnapshotOf(p: Plan): Snapshot {
    Snapshot(p.status, p.version)
  }

  function WritesFor(p: Plan, d: Decision, req: Request, tasks: seq<WorkItem>, messages: seq<Message>): Writes {
    Writes(
      PlanAfter(p, d, req.now),
      Schema.Approval(p.id, p.version, req.actor.member, d, req.comment, req.now),
      tasks,
      messages,
      AuditEvent(p.org, req.actor.member, d, p.id, SnapshotOf(p), SnapshotOf(PlanAfter(p, d, req.now)),
                 seq(|tasks|, i requires 0 <= i < |tasks| => tasks[i].id),
                 if d == APPROVE then |messages| else 0,
                 if d == REJECT then req.comment else None, req.now))
  }

  function Apply(db: Db, w: Writes): Db {
    AddTasks(db, w.tasks).(
      plans := db.plans[w.plan.id := w.plan],
      approvals := db.approvals + [w.approval],
      audit := db.audit + [w.audit],
      outbox := db.outbox + w.messages)
  }

  // --- when a decision goes through --------------------------------------------------------

  /** The rows an approval adds fit: every item flat and assigned, and something to hang them under. */
  ghost predicate Placeable(db: Db, p: Plan) {
    && p.scope in db.works
    && (forall x | x in Listing(db.items, p.id) :: x.parent.None? && x.assignee.Some?)
    && (Listing(db.items, p.id) != [] ==> db.works[p.scope].status != CANCELLED)
  }

  /** The draws yield a fresh id and a free code for every item. */
  ghost predicate Drawable(db: Db, p: Plan, draws: nat -> Draw) {
    var n := |Listing(db.items, p.id)|;
    IdsFree(db.works, draws, n) && CodesSoFar(db, p, draws, n).Some?
  }

  /** Foreign keys of the approval and audit rows, and the one-approval-per-plan index. */
  predicate Recordable(db: Db, p: Plan, d: Decision, actor: Id) {
    InOrg(db.members, actor, p.org) &&
    (d == APPROVE ==> !exists a | a in db.approvals :: a.plan == p.id && a.decision == APPROVE)
  }

  ghost predicate Goes(db: Db, d: Decision, req: Request) {
    && req.plan in db.plans
    && CheckRow(db.plans[req.plan], d, req) == Proceed
    && Recordable(db, db.plans[req.plan], d, req.actor.member)
    && (d == APPROVE ==> Placeable(db, db.plans[req.plan]) && Drawable(db, db.plans[req.plan], req.draws))
  }

  ghost function WritesOf(db: Db, d: Decision, req: Request): Writes
    requires Goes(db, d, req)
  {
    var p := db.plans[req.plan];
    match d
    case APPROVE =>
      var items := Listing(db.items, p.id);
      var codes := CodesSoFar(db, p, req.draws, |items|).value;
      var tasks := TasksFor(p, items, req.draws, codes);
      WritesFor(p, d, req, tasks,
                AssignmentsFor(db.members, db.identities, p.org, tasks, req.now) +
                NoticeFor(db.members, db.identities, p, req.actor.member, PLAN_APPROVED, req.now))
    case REJECT =>
      WritesFor(p, d, req, [], NoticeFor(db.members, db.identities, p, req.actor.member, PLAN_REJECTED, req.now))
  }

  /** The whole effect of one decision request on the tables. */
  ghost function AfterDecision(db: Db, d: Decision, req: Request): Db {
    if Goes(db, d, req) then Apply(db, WritesOf(db, d, req)) else db
  }

  ghost predicate Flat(items: seq<PlanItem>, n: nat)
    requires n <= |items|
  {
    forall i | 0 <= i < n :: items[i].parent.None?
  }

  /** What can stop an approval after the row checks. */
  ghost predicate Stopped(db: Db, p: Plan, items: seq<PlanItem>, draws: nat -> Draw, e: Error) {
    match e
    case InvalidStructure => (p.scope in db.works && db.works[p.scope].status == CANCELLED) || !Flat(items, |items|)
    case CodeExhausted => CodesSoFar(db, p, draws, |items|).None?
    case IntegrityError => !IdsFree(db.works, draws, |items|) || exists x :: x in items && x.assignee.None?
    case _ => false
  }

  /** What each error says about the request. */
  ghost predicate Explains(db: Db, d: Decision, req: Request, e: Error) {
    if req.plan !in db.plans then e == PlanNotFound
    else
      var p := db.plans[req.plan];
      match CheckRow(p, d, req)
      case Refused(error) => e == error
      case AlreadyDecided => false
      case Proceed =>
        if !Recordable(db, p, d, req.actor.member) then e == IntegrityError
        else d == APPROVE && Stopped(db, p, Listing(db.items, p.id), req.draws, e)
  }

  // --- adding tasks ------------------------------------------------------------------------

  ghost predicate FreshTasks(works: map<Id, WorkItem>, tasks: seq<WorkItem>) {
    && (forall t | t in tasks :: t.id !in works)
    && (forall i, j | 0 <= i < j < |tasks| :: tasks[i].id != tasks[j].id)
  }

  ghost function Ids(tasks: seq<WorkItem>): set<Id> {
    set t | t in tasks :: t.id
  }

  /** Adding tasks touches nothing but works and events, and loses no row. */
  lemma {:induction false} AddTasksFrame(db: Db, tasks: seq<WorkItem>)
    ensures AddTasks(db, tasks) == db.(works := AddTasks(db, tasks).works, events := AddTasks(db, tasks).events)
    ensures AddTasks(db, tasks).works.Keys == db.works.Keys + Ids(tasks)
    ensures FreshTasks(db.works, tasks) ==> forall w | w in db.works :: AddTasks(db, tasks).works[w] == db.works[w]
    ensures FreshTasks(db.works, tasks) ==> forall t | t in tasks :: AddTasks(db, tasks).works[t.id] == t
  {
    if tasks != [] {
      var front, last := tasks[..|tasks| - 1], tasks[|tasks| - 1];
      AddTasksFrame(db, front);
      assert forall t :: t in tasks <==> t in front || t == last;
    }
  }

  lemma AddTasksCodes(db: Db, tasks: seq<WorkItem>, org: Id)
    requires FreshTasks(db.works, tasks) && forall t | t in tasks :: t.org == org
    ensures TakenWorkCodes(AddTasks(db, tasks).works, org) ==
            TakenWorkCodes(db.works, org) + set t | t in tasks :: t.code
  {
    AddTasksFrame(db, tasks);
    var works := AddTasks(db, tasks).works;
    forall t | t in tasks
      ensures t.code in TakenWorkCodes(works, org)
    {
      assert works[t.id] == t;
    }
    forall c | c in TakenWorkCodes(db.works, org)
      ensures c in TakenWorkCodes(works, org)
    {
      var w :| w in db.works && db.works[w].org == org && db.works[w].code == c;
      assert works[w] == db.works[w];
    }
  }

  /** A decision's plan and approval rows, whatever it creates and whoever it tells. */
  lemma WrittenRows(db: Db, d: Decision, req: Request)
    requires Goes(db, d, req)
    ensures req.plan in db.plans && db.plans[req.plan].status == PENDING_APPROVAL
    ensures var p, w := db.plans[req.plan], WritesOf(db, d, req);
            w.plan == PlanAfter(p, d, req.now) &&
            w.approval == Schema.Approval(p.id, p.version, req.actor.member, d, req.comment, req.now)
  {
    hide Placeable, Drawable, Recordable, Can, CodesFor, TasksFor, AssignmentsFor, NoticeFor, Listing;
  }

  lemma ApplyFrame(db: Db, w: Writes)
    ensures var after := Apply(db, w);
            && after.members == db.members && after.identities == db.identities && after.items == db.items
            && after.plans == db.plans[w.plan.id := w.plan]
            && after.approvals == db.approvals + [w.approval]
  {
    hide AddTasks;
    AddTasksFrame(db, w.tasks);
  }

  lemma WritesAreFresh(db: Db, d: Decision, req: Request)
    requires Goes(db, d, req)
    ensures FreshTasks(db.works, WritesOf(db, d, req).tasks)
  {
    hide CheckRow, Placeable, Recordable, CodesFor, AssignmentsFor, NoticeFor;
    var tasks := WritesOf(db, d, req).tasks;
    if d == APPROVE {
      forall i | 0 <= i < |tasks|
        ensures tasks[i].id == req.draws(i).id
      {}
    }
  }

  // --- materialise -------------------------------------------------------------------------

  ghost predicate ParentEarlier(items: seq<PlanItem>, i: nat)
    requires i < |items|
  {
    items[i].parent.Some? ==> exists j :: 0 <= j < i && Some(items[j].id) == items[i].parent
  }

  /** What the plan's own invariant tells `_materialise` about its input. */
  ghost predicate Proposal(db: Db, p: Plan, items: seq<PlanItem>, scope: WorkItem) {
    && p.scope == scope.id && scope.kind == RESPONSIBILITY && scope.org == p.org
    && InOrg(db.members, p.createdBy, p.org)
    && (forall i | 0 <= i < |items| ::
          items[i].kind == TASK && Stripped(items[i].title) && InOrgIfAny(db.members, items[i].assignee, p.org))
    && (forall i | 0 <= i < |items| :: ParentEarlier(items, i))
  }

  /** One task per item, position by position, for the first `n` items. */
  ghost predicate TasksMatch(
    p: Plan, items: seq<PlanItem>, draws: nat -> Draw, codes: seq<string>, n: nat, tasks: seq<WorkItem>)
    requires n <= |items|
  {
    && |tasks| == |codes| == n
    && forall i | 0 <= i < n :: tasks[i] == TaskFor(p, items[i], draws(i), codes[i])
  }

  /** The loop's state after `n` items: the first `n` tasks and nothing else. */
  ghost predicate Progress(
    before: Db, now: Db, p: Plan, items: seq<PlanItem>, scope: WorkItem, draws: nat -> Draw, n: nat,
    created: seq<WorkItem>, byPlanItem: map<Id, WorkItem>)
  {
    && n <= |items|
    && Flat(items, n)
    && (n > 0 ==> scope.status != CANCELLED)
    && IdsFree(before.works, draws, n)
    && CodesSoFar(before, p, draws, n).Some?
    && TasksMatch(p, items, draws, CodesSoFar(before, p, draws, n).value, n, created)
    && now == AddTasks(before, created)
    && (forall i | 0 <= i < n :: items[i].id in byPlanItem)
    && (forall k | k in byPlanItem :: byPlanItem[k].kind == TASK)
  }

  lemma MatchedTasks(
    works: map<Id, WorkItem>, p: Plan, items: seq<PlanItem>, draws: nat -> Draw, codes: seq<string>, n: nat,
    tasks: seq<WorkItem>)
    requires n <= |items| && TasksMatch(p, items, draws, codes, n, tasks)
    ensures (set t | t in tasks :: t.code) == Elements(codes)
    ensures forall t | t in tasks :: t.org == p.org
    ensures Ids(tasks) == set i | 0 <= i < n :: draws(i).id
    ensures IdsFree(works, draws, n) ==> FreshTasks(works, tasks)
  {
    hide FirstFree;
    forall c | c in codes
      ensures c in set t | t in tasks :: t.code
    {
      var i :| 0 <= i < |codes| && codes[i] == c;
      assert tasks[i] in tasks;
    }
    forall i | 0 <= i < n
      ensures draws(i).id in Ids(tasks)
    {
      assert tasks[i] in tasks;
    }
  }

  lemma NextIdFree(before: map<Id, WorkItem>, now: map<Id, WorkItem>, draws: nat -> Draw, n: nat)
    requires IdsFree(before, draws, n) && now.Keys == before.Keys + set i | 0 <= i < n :: draws(i).id
    ensures IdsFree(before, draws, n + 1) <==> draws(n).id !in now
  {
    assert draws(n).id in now <==> draws(n).id in before || exists i: nat :: i < n && draws(i).id == draws(n).id;
  }

  /** The tables in mid-loop, in terms of the tables before it. */
  lemma ProgressTables(
    before: Db, now: Db, p: Plan, items: seq<PlanItem>, scope: WorkItem, draws: nat -> Draw, n: nat,
    created: seq<WorkItem>, byPlanItem: map<Id, WorkItem>)
    requires Progress(before, now, p, items, scope, draws, n, created, byPlanItem)
    ensures now.members == before.members
    ensures TakenWorkCodes(now.works, p.org) ==
            TakenWorkCodes(before.works, p.org) + Elements(CodesSoFar(before, p, draws, n).value)
    ensures IdsFree(before.works, draws, n + 1) <==> draws(n).id !in now.works
  {
    hide FirstFree, Flat, CodesFor, TaskFor, IdsFree, FreshTasks;
    MatchedTasks(before.works, p, items, draws, CodesSoFar(before, p, draws, n).value, n, created);
    AddTasksFrame(before, created);
    AddTasksCodes(before, created, p.org);
    NextIdFree(before.works, now.works, draws, n);
  }

  /** What `create_work_item` answers for one item of a proposal. */
  lemma ItemOutcome(now: Db, p: Plan, x: PlanItem, scope: WorkItem, parent: WorkItem, draw: Draw)
    requires p.scope == scope.id && scope.kind == RESPONSIBILITY && scope.org == p.org
    requires InOrg(now.members, p.createdBy, p.org) && InOrgIfAny(now.members, x.assignee, p.org)
    requires x.kind == TASK && Stripped(x.title)
    requires if x.parent.Some? then parent.kind == TASK else parent == scope
    ensures var out := CreateOutcome(now, p.org, x.kind, x.title, x.description, p.createdBy, Some(parent), x.assignee, x.due, draw);
            var code := FirstFree(TakenWorkCodes(now.works, p.org), draw.codes);
            && (out.Ok? <==> x.parent.None? && scope.status != CANCELLED && code.Some? && draw.id !in now.works)
            && (out.Ok? ==> out.value == TaskFor(p, x, draw, code.value))
            && (out.Err? ==>
                  || (out.error == InvalidStructure && (x.parent.Some? || scope.status == CANCELLED))
                  || (out.error == CodeExhausted && code.None?)
                  || (out.error == IntegrityError && draw.id in now.works))
  {
    hide Strip, FirstFree, TakenWorkCodes, InOrg;
    StripStripped(x.title);
  }

  lemma MatchGrows(
    p: Plan, items: seq<PlanItem>, draws: nat -> Draw, taken: set<string>, n: nat, created: seq<WorkItem>)
    requires n < |items| && CodesFor(taken, draws, n + 1).Some? && CodesFor(taken, draws, n).Some?
    requires TasksMatch(p, items, draws, CodesFor(taken, draws, n).value, n, created)
    ensures var codes := CodesFor(taken, draws, n + 1).value;
            TasksMatch(p, items, draws, codes, n + 1, created + [TaskFor(p, items[n], draws(n), codes[n])])
  {
    hide FirstFree, Elements, TaskFor;
  }

  lemma ProgressStep(
    before: Db, now: Db, p: Plan, items: seq<PlanItem>, scope: WorkItem, draws: nat -> Draw, n: nat,
    created: seq<WorkItem>, byPlanItem: map<Id, WorkItem>, w: WorkItem)
    requires n < |items| && Progress(before, now, p, items, scope, draws, n, created, byPlanItem)
    requires items[n].parent.None? && scope.status != CANCELLED && IdsFree(before.works, draws, n + 1)
    requires CodesSoFar(before, p, draws, n + 1).Some?
    requires w == TaskFor(p, items[n], draws(n), CodesSoFar(before, p, draws, n + 1).value[n])
    ensures Progress(before, WithWork(now, w), p, items, scope, draws, n + 1, created + [w], byPlanItem[items[n].id := w])
  {
    hide IdsFree, FirstFree, CodesFor, TasksMatch, WithWork;
    assert (created + [w])[..|created|] == created;
    assert AddTasks(before, created + [w]) == WithWork(now, w);
    MatchGrows(p, items, draws, TakenWorkCodes(before.works, p.org), n, created);
  }

  /** `_materialise` succeeds exactly on a flat proposal under live scope with luck in its draws. */
  ghost predicate Materialised(
    db: Db, after: Db, p: Plan, items: seq<PlanItem>, scope: WorkItem, draws: nat -> Draw, r: Result<seq<WorkItem>>)
  {
    var codes := CodesSoFar(db, p, draws, |items|);
    var flat := Flat(items, |items|);
    var free := IdsFree(db.works, draws, |items|);
    match r
    case Ok(tasks) =>
      && flat && (items != [] ==> scope.status != CANCELLED) && free && codes.Some?
      && tasks == TasksFor(p, items, draws, codes.value) && after == AddTasks(db, tasks)
    case Err(e) =>
      || (e == InvalidStructure && items != [] && (!flat || scope.status == CANCELLED))
      || (e == CodeExhausted && codes.None?)
      || (e == IntegrityError && !free)
  }

  lemma LoopDone(
    before: Db, now: Db, p: Plan, items: seq<PlanItem>, scope: WorkItem, draws: nat -> Draw,
    created: seq<WorkItem>, byPlanItem: map<Id, WorkItem>)
    requires Progress(before, now, p, items, scope, draws, |items|, created, byPlanItem)
    ensures Materialised(before, now, p, items, scope, draws, Ok(created))
  {
    assert created == TasksFor(p, items, draws, CodesSoFar(before, p, draws, |items|).value);
  }

  lemma LoopFailed(
    before: Db, now: Db, p: Plan, items: seq<PlanItem>, scope: WorkItem, draws: nat -> Draw, n: nat, e: Error)
    requires n < |items|
    requires
      || (e == InvalidStructure && (items[n].parent.Some? || scope.status == CANCELLED))
      || (e == CodeExhausted && CodesSoFar(before, p, draws, n + 1).None?)
      || (e == IntegrityError && !IdsFree(before.works, draws, n + 1))
    ensures Materialised(before, now, p, items, scope, draws, Err(e))
  {
    CodesPrefix(TakenWorkCodes(before.works, p.org), draws, n + 1, |items|);
  }

  /** The task made from the item above, if there is one; otherwise the scope. */
  function ParentFor(x: PlanItem, scope: WorkItem, byPlanItem: map<Id, WorkItem>): WorkItem {
    if x.parent.Some? && x.parent.value in byPlanItem then byPlanItem[x.parent.value] else scope
  }

  /** The parent an item resolves to: its plan's scope, or the task made from the item it hangs under. */
  lemma ResolvedParent(
    before: Db, now: Db, p: Plan, items: seq<PlanItem>, scope: WorkItem, draws: nat -> Draw, n: nat,
    created: seq<WorkItem>, byPlanItem: map<Id, WorkItem>)
    requires n < |items| && ParentEarlier(items, n)
    requires Progress(before, now, p, items, scope, draws, n, created, byPlanItem)
    ensures var up := ParentFor(items[n], scope, byPlanItem);
            if items[n].parent.Some? then up.kind == TASK else up == scope
  {
    hide IdsFree, CodesFor, TasksMatch, AddTasks, Flat;
  }

  /** The next code, against the tables in mid-loop or against those before the loop. */
  lemma NextCode(
    before: Db, now: Db, p: Plan, items: seq<PlanItem>, scope: WorkItem, draws: nat -> Draw, n: nat,
    created: seq<WorkItem>, byPlanItem: map<Id, WorkItem>)
    requires Progress(before, now, p, items, scope, draws, n, created, byPlanItem)
    ensures var code := FirstFree(TakenWorkCodes(now.works, p.org), draws(n).codes);
            var codes := CodesSoFar(before, p, draws, n + 1);
            && (codes.Some? <==> code.Some?)
            && (codes.Some? ==> codes.value[n] == code.value)
  {
    hide IdsFree, FirstFree, TasksMatch, AddTasks, Flat, TakenWorkCodes;
    ProgressTables(before, now, p, items, scope, draws, n, created, byPlanItem);
  }

  /** One turn of the loop: either one more task, or the error that ends it. */
  lemma LoopTurn(
    before: Db, now: Db, p: Plan, items: seq<PlanItem>, scope: WorkItem, draws: nat -> Draw, n: nat,
    created: seq<WorkItem>, byPlanItem: map<Id, WorkItem>, w: Result<WorkItem>)
    requires Proposal(before, p, items, scope) && n < |items|
    requires Progress(before, now, p, items, scope, draws, n, created, byPlanItem)
    requires w == CreateOutcome(now, p.org, items[n].kind, items[n].title, items[n].description, p.createdBy,
                                Some(ParentFor(items[n], scope, byPlanItem)), items[n].assignee, items[n].due, draws(n))
    ensures w.Ok? ==> Progress(before, WithWork(now, w.value), p, items, scope, draws, n + 1, created + [w.value],
                               byPlanItem[items[n].id := w.value])
    ensures w.Err? ==> forall after :: Materialised(before, after, p, items, scope, draws, Err(w.error))
  {
    hide Progress, Materialised, CreateOutcome, IdsFree, FirstFree, CodesFor, ParentFor, ParentEarlier, WithWork;
    ProgressTables(before, now, p, items, scope, draws, n, created, byPlanItem);
    assert ParentEarlier(items, n);
    ResolvedParent(before, now, p, items, scope, draws, n, created, byPlanItem);
    NextCode(before, now, p, items, scope, draws, n, created, byPlanItem);
    ItemOutcome(now, p, items[n], scope, ParentFor(items[n], scope, byPlanItem), draws(n));
    if w.Ok? {
      ProgressStep(before, now, p, items, scope, draws, n, created, byPlanItem, w.value);
    } else {
      forall after
        ensures Materialised(before, after, p, items, scope, draws, Err(w.error))
      {
        LoopFailed(before, after, p, items, scope, draws, n, w.error);
      }
    }
  }

  method Materialise(session: Session, p: Plan, items: seq<PlanItem>, scope: WorkItem, draws: nat -> Draw)
    returns (r: Result<seq<WorkItem>>)
    requires Proposal(session.Tables(), p, items, scope)
    modifies session
    ensures Materialised(old(session.Tables()), session.Tables(), p, items, scope, draws, r)
  {
    ghost var before := session.Tables();
    var created: seq<WorkItem> := [];
    var byPlanItem: map<Id, WorkItem> := map[];
    for n := 0 to |items|
      invariant Progress(before, session.Tables(), p, items, scope, draws, n, created, byPlanItem)
    {
      var item := items[n];
      var parent := ParentFor(item, scope, byPlanItem);
      ghost var at := session.Tables();
      var w := CreateWorkItem(session, p.org, item.kind, item.title, item.description, p.createdBy, Some(parent),
                              item.assignee, item.due, draws(n));
      LoopTurn(before, at, p, items, scope, draws, n, created, byPlanItem, w);
      if w.Err? {
        return Err(w.error);
      }
      created := created + [w.value];
      byPlanItem := byPlanItem[item.id := w.value];
    }
    LoopDone(before, session.Tables(), p, items, scope, draws, created, byPlanItem);
    return Ok(created);
  }

  lemma {:induction false} CodesPrefix(taken: set<string>, draws: nat -> Draw, n: nat, m: nat)
    requires n <= m
    ensures CodesFor(taken, draws, m).Some? ==> CodesFor(taken, draws, n).Some?
    decreases m
  {
    if n < m {
      CodesPrefix(taken, draws, n, m - 1);
    }
  }

  // --- the two transactions ----------------------------------------------------------------

  function ExistingDecision(approvals: seq<Schema.Approval>, plan: Id, d: Decision): (r: Option<Schema.Approval>)
    ensures r.Some? ==> r.value in approvals && r.value.plan == plan && r.value.decision == d
    ensures r.None? ==> forall a | a in approvals :: !(a.plan == plan && a.decision == d)
  {
    if approvals == [] then None
    else if approvals[0].plan == plan && approvals[0].decision == d then Some(approvals[0])
    else ExistingDecision(approvals[1..], plan, d)
  }

  function OutcomeOf(w: Writes): Outcome {
    Outcome(w.plan, Some(w.approval), w.tasks, w.messages, false)
  }

  /**
   The row checks, in their order: the same decision again, a draft or the other decision, another
   version than the one read, somebody else's plan, and then nothing in the way.
   */
  lemma CheckSays(p: Plan, d: Decision, req: Request)
    ensures var already := if d == APPROVE then APPROVED else REJECTED;
            var stale := req.expected.Some? && req.expected.value != p.version;
            && (CheckRow(p, d, req) == AlreadyDecided <==> p.status == already)
            && (CheckRow(p, d, req) == Refused(InvalidPlanState) <==> p.status != already && p.status != PENDING_APPROVAL)
            && (CheckRow(p, d, req) == Refused(PlanChanged) <==> p.status == PENDING_APPROVAL && stale)
            && (CheckRow(p, d, req) == Refused(PermissionDenied) <==>
                  p.status == PENDING_APPROVAL && !stale && !Entitled(req.actor, p))
            && (CheckRow(p, d, req) == Proceed <==> p.status == PENDING_APPROVAL && !stale && Entitled(req.actor, p))
  {}

  /** The plan's row moves once: its status, its version, and when it was approved. */
  predicate Closes(p: Plan, q: Plan, d: Decision, now: Time) {
    q == p.(status := if d == APPROVE then APPROVED else REJECTED, version := p.version + 1,
            approvedAt := if d == APPROVE then Some(now) else p.approvedAt)
  }

  /** The tables after a decision that took effect, and what the caller is handed of them. */
  ghost predicate Reported(before: Db, after: Db, d: Decision, req: Request, out: Outcome) {
    && req.plan in before.plans && req.plan in after.plans
    && |after.approvals| == |before.approvals| + 1 && after.approvals[..|before.approvals|] == before.approvals
    && |after.audit| == |before.audit| + 1 && after.audit[..|before.audit|] == before.audit
    && |after.outbox| >= |before.outbox| && after.outbox[..|before.outbox|] == before.outbox
    && var p, q := before.plans[req.plan], after.plans[req.plan];
       var a, e := after.approvals[|before.approvals|], after.audit[|before.audit|];
       && after.plans == before.plans[req.plan := q] && Closes(p, q, d, req.now)
       && a == Schema.Approval(req.plan, p.version, req.actor.member, d, req.comment, req.now)
       && e.org == p.org && e.actor == req.actor.member && e.action == d && e.target == req.plan && e.createdAt == req.now
       && e.before == Snapshot(p.status, p.version) && e.after == Snapshot(q.status, q.version)
       && e.notified == (if d == APPROVE then |after.outbox| - |before.outbox| else 0)
       && e.comment == (if d == REJECT then req.comment else None)
       && OnlyAdds(before, after, e.created)
       && Told(p, d, req, out.created, out.notifications)
       && Handed(before, after, q, a, e, out)
  }

  /** Nothing that was there moves, the plan apart, and no work appears beside `created`. */
  ghost predicate OnlyAdds(before: Db, after: Db, created: seq<Id>) {
    && after == before.(works := after.works, events := after.events, plans := after.plans,
                        approvals := after.approvals, audit := after.audit, outbox := after.outbox)
    && after.works.Keys == before.works.Keys + (set id | id in created)
    && forall w | w in before.works :: w in after.works && after.works[w] == before.works[w]
  }

  predicate Sent(m: Message, org: Id, recipient: Id, kind: MessageType, now: Time) {
    m.org == org && m.recipient == recipient && m.kind == kind && m.availableAt == now
  }

  /** The owner of each created task hears of it, in order, and then a creator who did not decide. */
  predicate Told(p: Plan, d: Decision, req: Request, tasks: seq<WorkItem>, news: seq<Message>) {
    var absent := p.createdBy != req.actor.member;
    && |news| == |tasks| + (if absent then 1 else 0)
    && (forall i | 0 <= i < |tasks| ::
          tasks[i].owner.Some? && Sent(news[i], p.org, tasks[i].owner.value, ASSIGNMENT, req.now))
    && (absent ==> Sent(news[|tasks|], p.org, p.createdBy, if d == APPROVE then PLAN_APPROVED else PLAN_REJECTED, req.now))
  }

  lemma {:induction false} AssignmentsGo(
    members: seq<Membership>, identities: seq<Identity>, org: Id, tasks: seq<WorkItem>, now: Time)
    requires forall t | t in tasks :: t.owner.Some?
    ensures var sent := AssignmentsFor(members, identities, org, tasks, now);
            && |sent| == |tasks|
            && forall i | 0 <= i < |tasks| :: tasks[i].owner.Some? && Sent(sent[i], org, tasks[i].owner.value, ASSIGNMENT, now)
  {
    hide MessageFor;
    if tasks != [] {
      var front, last := tasks[..|tasks| - 1], tasks[|tasks| - 1];
      assert forall t | t in front :: t in tasks;
      assert last in tasks;
      AssignmentsGo(members, identities, org, front, now);
      MessageSays(members, identities, org, last.owner.value, ASSIGNMENT, now);
    }
  }

  lemma EveryoneIsTold(db: Db, d: Decision, req: Request)
    requires Goes(db, d, req)
    ensures var w := WritesOf(db, d, req);
            Told(db.plans[req.plan], d, req, w.tasks, w.messages)
  {
    hide CheckRow, Drawable, Recordable, CodesFor, AssignmentsFor, Listing, Notifications.MessageFor, Sent;
    var p, w := db.plans[req.plan], WritesOf(db, d, req);
    if p.createdBy != req.actor.member {
      NoticeGoes(db, p, req.actor.member, if d == APPROVE then PLAN_APPROVED else PLAN_REJECTED, req.now);
    }
    if d == APPROVE {
      forall t | t in w.tasks
        ensures t.owner.Some?
      {
        var i :| 0 <= i < |w.tasks| && w.tasks[i] == t;
        assert Listing(db.items, p.id)[i] in Listing(db.items, p.id);
      }
      AssignmentsGo(db.members, db.identities, p.org, w.tasks, req.now);
    }
  }

  lemma NoticeGoes(db: Db, p: Plan, actor: Id, kind: MessageType, now: Time)
    requires p.createdBy != actor
    ensures var notice := NoticeFor(db.members, db.identities, p, actor, kind, now);
            |notice| == 1 && Sent(notice[0], p.org, p.createdBy, kind, now)
  {}

  /** The caller gets the rows themselves, created tasks in the order of the audit entry's ids. */
  ghost predicate Handed(before: Db, after: Db, q: Plan, a: Schema.Approval, e: AuditEvent, out: Outcome) {
    && !out.already && out.plan == q && out.approval == Some(a)
    && |before.outbox| <= |after.outbox| && out.notifications == after.outbox[|before.outbox|..]
    && |out.created| == |e.created|
    && forall i | 0 <= i < |out.created| ::
         && out.created[i].id == e.created[i] && e.created[i] !in before.works
         && e.created[i] in after.works && after.works[e.created[i]] == out.created[i]
  }

  lemma HandedWrites(db: Db, d: Decision, req: Request)
    requires Goes(db, d, req) && db.plans[req.plan].id == req.plan
    ensures var w := WritesOf(db, d, req);
            Handed(db, Apply(db, w), w.plan, w.approval, w.audit, OutcomeOf(w))
  {
    hide CheckRow, Placeable, Drawable, Recordable, CodesFor, TasksFor, AssignmentsFor, NoticeFor, AddTasks,
      Listing;
    var w := WritesOf(db, d, req);
    WritesAreFresh(db, d, req);
    AddTasksFrame(db, w.tasks);
    forall i | 0 <= i < |w.tasks|
      ensures w.tasks[i].id !in db.works && w.tasks[i].id in Apply(db, w).works
      ensures Apply(db, w).works[w.tasks[i].id] == w.tasks[i]
    {
      assert w.tasks[i] in w.tasks;
    }
  }

  lemma NewWorks(db: Db, d: Decision, req: Request)
    requires Goes(db, d, req)
    ensures OnlyAdds(db, Apply(db, WritesOf(db, d, req)), WritesOf(db, d, req).audit.created)
  {
    hide CheckRow, Placeable, Drawable, Recordable, CodesFor, TasksFor, AssignmentsFor, NoticeFor, AddTasks,
      Listing;
    var w := WritesOf(db, d, req);
    WritesAreFresh(db, d, req);
    AddTasksFrame(db, w.tasks);
    IdsListed(w.tasks, w.audit.created);
  }

  lemma IdsListed(tasks: seq<WorkItem>, ids: seq<Id>)
    requires |ids| == |tasks| && forall i | 0 <= i < |tasks| :: ids[i] == tasks[i].id
    ensures (set id | id in ids) == Ids(tasks)
  {
    forall t | t in tasks
      ensures t.id in ids
    {
      var i :| 0 <= i < |tasks| && tasks[i] == t;
      assert ids[i] == t.id;
    }
  }

  /** A decision that goes through writes exactly these rows, and the caller is told of all of them. */
  lemma OutcomeSays(db: Db, d: Decision, req: Request)
    requires Goes(db, d, req) && db.plans[req.plan].id == req.plan
    ensures Reported(db, AfterDecision(db, d, req), d, req, OutcomeOf(WritesOf(db, d, req)))
  {
    hide CheckRow, Placeable, Drawable, Recordable, CodesFor, TasksFor, AssignmentsFor, NoticeFor, AddTasks,
      Handed, Told, OnlyAdds, Listing;
    var w := WritesOf(db, d, req);
    WrittenRows(db, d, req);
    NewWorks(db, d, req);
    EveryoneIsTold(db, d, req);
    ApplyFrame(db, w);
    AddTasksFrame(db, w.tasks);
    HandedWrites(db, d, req);
  }

  /** What the caller is told, beside what `AfterDecision` does to the tables. */
  ghost predicate Answers(db: Db, d: Decision, req: Request, r: Result<Outcome>) {
    match r
    case Err(e) => Explains(db, d, req, e) && !Goes(db, d, req)
    case Ok(out) =>
      && req.plan in db.plans
      && if out.already then
           && CheckRow(db.plans[req.plan], d, req) == AlreadyDecided
           && out == Outcome(db.plans[req.plan], ExistingDecision(db.approvals, req.plan, d), [], [], true)
         else
           && Goes(db, d, req)
           && out == OutcomeOf(WritesOf(db, d, req))
  }

  /** What a decision on `plan` relies on; every consistent database provides it. */
  ghost predicate Decidable(db: Db, plan: Id) {
    && PlanItems.Keyed(db.items) && SortsDistinct(db.items)
    && (plan in db.plans ==>
          && db.plans[plan].id == plan
          && db.plans[plan].scope in db.works
          && Proposal(db, db.plans[plan], Listing(db.items, plan), db.works[db.plans[plan].scope]))
  }

  lemma RowIsKeyed(db: Db, d: Decision, req: Request)
    requires Goes(db, d, req) && Decidable(db, req.plan)
    ensures req.plan in db.plans && db.plans[req.plan].id == req.plan
  {
    hide CheckRow, Placeable, Drawable, Recordable, Proposal, Listing;
  }

  lemma PlansAreDecidable(db: Db, plan: Id)
    requires Consistent(db)
    ensures Decidable(db, plan)
  {
    if plan in db.plans {
      var p, items := db.plans[plan], Listing(db.items, plan);
      assert PlanOk(db.members, db.works, p);
      ListingLists(db.items, plan);
      forall i | 0 <= i < |items|
        ensures items[i].kind == TASK && Stripped(items[i].title) && InOrgIfAny(db.members, items[i].assignee, p.org)
      {
        assert items[i] in items;
        assert ItemOk(db.members, db.plans, items[i]);
      }
      forall i | 0 <= i < |items|
        ensures ParentEarlier(items, i)
      {
        if items[i].parent.Some? {
          ChildAfterParent(db.items, plan, i);
        }
      }
    }
  }

  method NotifyAssignees(session: Session, org: Id, tasks: seq<WorkItem>, now: Time) returns (r: Result<seq<Message>>)
    requires forall t | t in tasks :: InOrgIfAny(session.members, t.owner, org)
    modifies session
    ensures r.Ok? <==> forall t | t in tasks :: t.owner.Some?
    ensures r.Ok? ==>
              && r.value == AssignmentsFor(old(session.members), old(session.identities), org, tasks, now)
              && session.Tables() == old(session.Tables()).(outbox := old(session.outbox) + r.value)
    ensures r.Err? ==> r.error == IntegrityError
  {
    hide MessageFor, InOrg;
    ghost var before := session.Tables();
    var sent: seq<Message> := [];
    for i := 0 to |tasks|
      invariant session.Tables() == before.(outbox := before.outbox + sent)
      invariant sent == AssignmentsFor(before.members, before.identities, org, tasks[..i], now)
      invariant forall j | 0 <= j < i :: tasks[j].owner.Some?
    {
      assert tasks[i] in tasks;
      assert tasks[..i + 1][..i] == tasks[..i];
      var message := Enqueue(session, org, tasks[i].owner, ASSIGNMENT, now);
      if message.Err? {
        return Err(message.error);
      }
      sent := sent + [message.value];
    }
    assert tasks[..|tasks|] == tasks;
    return Ok(sent);
  }

  /** Everybody proposed is a member, and all are told exactly when nobody is missing. */
  lemma OwnersAreAssignees(
    members: seq<Membership>, p: Plan, items: seq<PlanItem>, draws: nat -> Draw, codes: seq<string>, tasks: seq<WorkItem>)
    requires |codes| == |items| && tasks == TasksFor(p, items, draws, codes)
    requires forall i | 0 <= i < |items| :: InOrgIfAny(members, items[i].assignee, p.org)
    ensures forall t | t in tasks :: InOrgIfAny(members, t.owner, p.org)
    ensures (forall t | t in tasks :: t.owner.Some?) <==> forall x | x in items :: x.assignee.Some?
  {
    forall i | 0 <= i < |items|
      ensures tasks[i].owner == items[i].assignee && tasks[i] in tasks && items[i] in items
    {}
  }

  lemma FlatItems(items: seq<PlanItem>)
    ensures Flat(items, |items|) <==> forall x | x in items :: x.parent.None?
  {
    forall i | 0 <= i < |items|
      ensures items[i] in items
    {}
  }

  /** The rows the approval transaction has gathered are the ones `WritesOf` describes. */
  lemma ApproveGathers(db: Db, after: Db, req: Request, tasks: seq<WorkItem>)
    requires Decidable(db, req.plan) && req.plan in db.plans
    requires CheckRow(db.plans[req.plan], APPROVE, req) == Proceed
    requires Recordable(db, db.plans[req.plan], APPROVE, req.actor.member)
    requires var p := db.plans[req.plan];
             Materialised(db, after, p, Listing(db.items, req.plan), db.works[p.scope], req.draws, Ok(tasks))
    ensures (forall x | x in Listing(db.items, req.plan) :: x.assignee.Some?) <==> Goes(db, APPROVE, req)
    ensures Goes(db, APPROVE, req) ==> WritesOf(db, APPROVE, req).tasks == tasks
  {
    FlatItems(Listing(db.items, req.plan));
  }

  /** Why an approval that got past the row checks stopped while creating work. */
  lemma ApproveStops(db: Db, after: Db, req: Request, e: Error)
    requires Decidable(db, req.plan) && req.plan in db.plans
    requires CheckRow(db.plans[req.plan], APPROVE, req) == Proceed
    requires Recordable(db, db.plans[req.plan], APPROVE, req.actor.member)
    requires var p := db.plans[req.plan];
             Materialised(db, after, p, Listing(db.items, req.plan), db.works[p.scope], req.draws, Err(e))
    ensures !Goes(db, APPROVE, req) && Explains(db, APPROVE, req, e)
  {
    FlatItems(Listing(db.items, req.plan));
  }

  /** Creating work does not look at the approvals table. */
  lemma MaterialisedElsewhere(
    saved: Db, at: Db, after: Db, p: Plan, items: seq<PlanItem>, scope: WorkItem, draws: nat -> Draw,
    r: Result<seq<WorkItem>>)
    requires at == saved.(approvals := at.approvals)
    requires Materialised(at, after, p, items, scope, draws, r)
    ensures r.Ok? ==> Materialised(saved, AddTasks(saved, r.value), p, items, scope, draws, r)
    ensures r.Ok? ==> after == AddTasks(saved, r.value).(approvals := at.approvals)
    ensures r.Err? ==> Materialised(saved, after, p, items, scope, draws, r)
  {
    if r.Ok? {
      AddTasksElsewhere(saved, at, r.value);
    }
  }

  lemma {:induction false} AddTasksElsewhere(a: Db, b: Db, tasks: seq<WorkItem>)
    requires b == a.(approvals := b.approvals)
    ensures AddTasks(b, tasks) == AddTasks(a, tasks).(approvals := b.approvals)
  {
    if tasks != [] {
      AddTasksElsewhere(a, b, tasks[..|tasks| - 1]);
    }
  }

  /** The last step of both decisions: the plan row and its audit entry. */
  method MarkDecided(session: Session, p: Plan, d: Decision, req: Request, tasks: seq<WorkItem>, notifications: seq<Message>)
    returns (after: Plan)
    requires p.id in session.plans
    modifies session
    ensures after == PlanAfter(p, d, req.now)
    ensures session.Tables() == old(session.Tables()).(
              plans := old(session.plans)[p.id := after],
              audit := old(session.audit) + [WritesFor(p, d, req, tasks, notifications).audit])
  {
    var before := SnapshotOf(p);
    after := p.(status := Decided(d), version := p.version + 1);
    if d == APPROVE {
      after := after.(approvedAt := Some(req.now));
    }
    session.plans := session.plans[p.id := after];
    var ids := seq(|tasks|, i requires 0 <= i < |tasks| => tasks[i].id);
    session.audit := session.audit +
      [AuditEvent(p.org, req.actor.member, d, p.id, before, SnapshotOf(after), ids,
                  if d == APPROVE then |notifications| else 0, if d == REJECT then req.comment else None, req.now)];
  }

  method NotifyCreator(session: Session, p: Plan, actor: Id, kind: MessageType, now: Time) returns (sent: seq<Message>)
    requires InOrg(session.members, p.createdBy, p.org)
    modifies session
    ensures sent == NoticeFor(session.members, session.identities, p, actor, kind, now)
    ensures session.Tables() == old(session.Tables()).(outbox := old(session.outbox) + sent)
  {
    sent := [];
    if p.createdBy != actor {
      var notice := Enqueue(session, p.org, Some(p.createdBy), kind, now);
      sent := [notice.value];
    }
  }

  /** What `_materialise` left behind, put in terms of the tables before the transaction. */
  lemma Gathered(saved: Db, at: Db, after: Db, p: Plan, req: Request, created: Result<seq<WorkItem>>)
    requires Decidable(saved, req.plan) && req.plan in saved.plans && saved.plans[req.plan] == p
    requires CheckRow(p, APPROVE, req) == Proceed && Recordable(saved, p, APPROVE, req.actor.member)
    requires at == saved.(approvals := at.approvals)
    requires Materialised(at, after, p, Listing(saved.items, req.plan), saved.works[p.scope], req.draws, created)
    ensures created.Err? ==> !Goes(saved, APPROVE, req) && Explains(saved, APPROVE, req, created.error)
    ensures created.Ok? ==>
              var tasks := created.value;
              && after == saved.(works := after.works, events := after.events, approvals := at.approvals)
              && after.works == AddTasks(saved, tasks).works && after.events == AddTasks(saved, tasks).events
              && (forall t | t in tasks :: InOrgIfAny(saved.members, t.owner, p.org))
              && ((forall t | t in tasks :: t.owner.Some?) <==> Goes(saved, APPROVE, req))
              && (!Goes(saved, APPROVE, req) ==> Explains(saved, APPROVE, req, IntegrityError))
    ensures created.Ok? && Goes(saved, APPROVE, req) ==>
              WritesOf(saved, APPROVE, req) ==
              WritesFor(p, APPROVE, req, created.value,
                        AssignmentsFor(saved.members, saved.identities, p.org, created.value, req.now) +
                        NoticeFor(saved.members, saved.identities, p, req.actor.member, PLAN_APPROVED, req.now))
  {
    var items, scope := Listing(saved.items, req.plan), saved.works[p.scope];
    MaterialisedElsewhere(saved, at, after, p, items, scope, req.draws, created);
    if created.Err? {
      ApproveStops(saved, after, req, created.error);
    } else {
      var tasks := created.value;
      OwnersAreAssignees(saved.members, p, items, req.draws, CodesSoFar(saved, p, req.draws, |items|).value, tasks);
      ApproveGathers(saved, AddTasks(saved, tasks), req, tasks);
      AddTasksFrame(saved, tasks);
    }
  }

  lemma Applied(saved: Db, w: Writes, after: Db)
    requires after.members == saved.members && after.identities == saved.identities && after.items == saved.items
    requires after.works == AddTasks(saved, w.tasks).works && after.events == AddTasks(saved, w.tasks).events
    requires after.plans == saved.plans[w.plan.id := w.plan]
    requires after.approvals == saved.approvals + [w.approval]
    requires after.audit == saved.audit + [w.audit]
    requires after.outbox == saved.outbox + w.messages
    ensures after == Apply(saved, w)
  {
    AddTasksFrame(saved, w.tasks);
  }

  /** The second half of an approval: tell everyone, then mark the plan decided. */
  method Conclude(session: Session, p: Plan, req: Request, tasks: seq<WorkItem>) returns (r: Result<seq<Message>>)
    requires forall t | t in tasks :: InOrgIfAny(session.members, t.owner, p.org)
    requires InOrg(session.members, p.createdBy, p.org) && p.id in session.plans
    modifies session
    ensures r.Ok? <==> forall t | t in tasks :: t.owner.Some?
    ensures r.Ok? ==>
              && r.value == AssignmentsFor(old(session.members), old(session.identities), p.org, tasks, req.now) +
                            NoticeFor(old(session.members), old(session.identities), p, req.actor.member, PLAN_APPROVED, req.now)
              && session.Tables() == old(session.Tables()).(
                   outbox := old(session.outbox) + r.value,
                   plans := old(session.plans)[p.id := PlanAfter(p, APPROVE, req.now)],
                   audit := old(session.audit) + [WritesFor(p, APPROVE, req, tasks, r.value).audit])
    ensures r.Err? ==> r.error == IntegrityError
  {
    var sent := NotifyAssignees(session, p.org, tasks, req.now);
    if sent.Err? {
      return sent;
    }
    var notice := NotifyCreator(session, p, req.actor.member, PLAN_APPROVED, req.now);
    var notifications := sent.value + notice;
    var after := MarkDecided(session, p, APPROVE, req, tasks, notifications);
    assert old(session.outbox) + sent.value + notice == old(session.outbox) + notifications;
    return Ok(notifications);
  }

  /** Everything an approval does once the row checks have passed. */
  method CarryOut(session: Session, p: Plan, req: Request) returns (r: Result<Outcome>)
    requires Decidable(session.Tables(), req.plan) && req.plan in session.plans && session.plans[req.plan] == p
    requires CheckRow(p, APPROVE, req) == Proceed && Recordable(session.Tables(), p, APPROVE, req.actor.member)
    modifies session
    ensures session.Tables() == AfterDecision(old(session.Tables()), APPROVE, req)
    ensures r.Ok? <==> Goes(old(session.Tables()), APPROVE, req)
    ensures r.Ok? ==> r.value == OutcomeOf(WritesOf(old(session.Tables()), APPROVE, req))
    ensures r.Err? ==> Explains(old(session.Tables()), APPROVE, req, r.error)
  {
    var saved := session.Tables();
    var items := ListItems(session, req.plan);
    var scope := session.works[p.scope];
    var approval := Schema.Approval(p.id, p.version, req.actor.member, APPROVE, req.comment, req.now);
    session.approvals := session.approvals + [approval];

    ghost var at := session.Tables();
    var created := Materialise(session, p, items, scope, req.draws);
    Gathered(saved, at, session.Tables(), p, req, created);
    if created.Err? {
      session.Rollback(saved);
      return Err(created.error);
    }
    var sent := Conclude(session, p, req, created.value);
    if sent.Err? {
      session.Rollback(saved);
      return Err(sent.error);
    }
    Applied(saved, WritesOf(saved, APPROVE, req), session.Tables());
    return Ok(Outcome(session.plans[req.plan], Some(approval), created.value, sent.value, false));
  }

  method ApprovePlan(session: Session, req: Request) returns (r: Result<Outcome>)
    requires Decidable(session.Tables(), req.plan)
    modifies session
    ensures session.Tables() == AfterDecision(old(session.Tables()), APPROVE, req)
    ensures r.Ok? && !r.value.already ==>
              Reported(old(session.Tables()), session.Tables(), APPROVE, req, r.value)
    ensures Answers(old(session.Tables()), APPROVE, req, r)
  {
    hide Reported, Placeable, Drawable, WritesOf, Stopped, Apply;
    ghost var before := session.Tables();
    if req.plan !in session.plans {
      return Err(PlanNotFound);
    }
    var p := session.plans[req.plan];
    var check := CheckRow(p, APPROVE, req);
    if check == AlreadyDecided {
      return Ok(Outcome(p, ExistingDecision(session.approvals, req.plan, APPROVE), [], [], true));
    }
    if check.Refused? {
      return Err(check.error);
    }
    if !Recordable(session.Tables(), p, APPROVE, req.actor.member) {
      return Err(IntegrityError);
    }
    r := CarryOut(session, p, req);
    if r.Ok? {
      OutcomeSays(before, APPROVE, req);
    }
  }

  method RejectPlan(session: Session, req: Request) returns (r: Result<Outcome>)
    requires Decidable(session.Tables(), req.plan)
    modifies session
    ensures session.Tables() == AfterDecision(old(session.Tables()), REJECT, req)
    ensures r.Ok? && !r.value.already ==>
              Reported(old(session.Tables()), session.Tables(), REJECT, req, r.value)
    ensures Answers(old(session.Tables()), REJECT, req, r)
  {
    hide Reported, Stopped;
    ghost var before := session.Tables();
    if req.plan !in session.plans {
      return Err(PlanNotFound);
    }
    var p := session.plans[req.plan];
    var check := CheckRow(p, REJECT, req);
    if check == AlreadyDecided {
      return Ok(Outcome(p, ExistingDecision(session.approvals, req.plan, REJECT), [], [], true));
    }
    if check.Refused? {
      return Err(check.error);
    }
    if !Recordable(session.Tables(), p, REJECT, req.actor.member) {
      return Err(IntegrityError);
    }
    var approval := Schema.Approval(p.id, p.version, req.actor.member, REJECT, req.comment, req.now);
    session.approvals := session.approvals + [approval];
    var notice := NotifyCreator(session, p, req.actor.member, PLAN_REJECTED, req.now);
    var after := MarkDecided(session, p, REJECT, req, [], notice);
    OutcomeSays(before, REJECT, req);
    return Ok(Outcome(after, Some(approval), [], notice, false));
  }
}
