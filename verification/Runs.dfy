/** What holds over whole runs of the serial machine. */
module Runs {
  import opened Common
  import opened Schema
  import opened PlanItems
  import opened Permissions
  import opened Ledger
  import opened Steps
  import Delegation
  import Notifications
  import Walk
  import Work
  import WorkTree
  import Approval

  // --- runs --------------------------------------------------------------------------------

  /** Nothing planned and nothing to do yet; any organization. */
  ghost predicate Start(db: Db) {
    && MembersOk(db.members)
    && db.works == map[] && db.plans == map[] && db.items == map[]
    && db.events == [] && db.approvals == [] && db.audit == [] && db.outbox == []
  }

  ghost predicate Run(states: seq<Db>, steps: seq<Step>) {
    && |states| == |steps| + 1
    && Start(states[0])
    && forall i | 0 <= i < |steps| :: Inv(states[i]) && states[i + 1] == Next(states[i], steps[i])
  }

  lemma StartInv(db: Db)
    requires Start(db)
    ensures Inv(db)
  {
    assert SentOn(db.plans) == {};
  }

  lemma RunExtends(states: seq<Db>, steps: seq<Step>, s: Step)
    requires Run(states, steps) && Inv(states[|steps|])
    ensures Run(states + [Next(states[|steps|], s)], steps + [s])
  {
    hide Inv, Next, Start;
  }

  /** Any start and any sequence of calls is a run: no call is ever stuck. */
  lemma {:induction false} RunsExist(start: Db, steps: seq<Step>) returns (states: seq<Db>)
    requires Start(start)
    ensures |states| == |steps| + 1 && states[0] == start && Run(states, steps)
    ensures Inv(states[|steps|])
  {
    hide Inv, Next, Start;
    StartInv(start);
    if steps == [] {
      states := [start];
    } else {
      var last := steps[|steps| - 1];
      var front := RunsExist(start, steps[..|steps| - 1]);
      NextKeepsInv(front[|steps| - 1], last);
      states := front + [Next(front[|steps| - 1], last)];
      RunExtends(front, steps[..|steps| - 1], last);
      assert steps[..|steps| - 1] + [last] == steps;
    }
  }

  /** Every reachable database satisfies the invariant. */
  lemma RunInv(states: seq<Db>, steps: seq<Step>, n: nat)
    requires Run(states, steps) && n < |states|
    ensures Inv(states[n])
  {
    hide Inv, Next;
    if n == 0 {
      StartInv(states[0]);
    } else {
      NextKeepsInv(states[n - 1], steps[n - 1]);
    }
  }

  /** Never two plans in flight for one responsibility. */
  lemma OneOpenPlanPerScope(states: seq<Db>, steps: seq<Step>, n: nat, p: Id, q: Id)
    requires Run(states, steps) && n < |states|
    requires p in states[n].plans && q in states[n].plans && states[n].plans[p].scope == states[n].plans[q].scope
    requires Editable(states[n].plans[p].status) && Editable(states[n].plans[q].status)
    ensures p == q
  {
    hide Next, Work.EventsOk, DecisionsOk, CreationsOk, MailOk, MembersOk, WorksOk, ItemsOk;
    RunInv(states, steps, n);
  }

  /** At every moment of a run each work item is what its history replays to, in at most two moves for a task. */
  lemma HistoryNeverDiverges(states: seq<Db>, steps: seq<Step>, n: nat, w: Id)
    requires Run(states, steps) && n < |states| && w in states[n].works
    ensures var item := states[n].works[w];
            && Work.Replay(Work.LogOf(states[n].events, w)) == Some(Work.Replayed(item.status, item.owner, item.version))
            && item.version <= if item.kind == TASK then 3 else 2
  {
    hide Next, Consistent, DecisionsOk, CreationsOk, MailOk, Work.EventsOk, Work.Replay, Work.LogOf;
    RunInv(states, steps, n);
    Work.LogReplaysToState(states[n].works, states[n].events, w);
  }

  /** No item's creation ever follows its parent's cancellation in the log. */
  lemma NothingAppearsUnderCancelledWork(states: seq<Db>, steps: seq<Step>, n: nat, i: nat, j: nat)
    requires Run(states, steps) && n < |states| && i < j < |states[n].events|
    requires states[n].events[i].kind == WORK_CANCELLED && states[n].events[j].kind == WORK_CREATED
    ensures states[n].events[j].work in states[n].works
    ensures states[n].works[states[n].events[j].work].parent != Some(states[n].events[i].work)
  {
    hide Next, Consistent, DecisionsOk, CreationsOk, MailOk, Work.HistoryOf;
    RunInv(states, steps, n);
    assert states[n].events[j] in states[n].events;
  }

  /** Every reachable work item lies in exactly one initiative's subtree, whatever order the table is scanned in. */
  lemma EveryItemHasOneInitiative(states: seq<Db>, steps: seq<Step>, n: nat, table: seq<Walk.Node>, w: Id)
    returns (top: Id)
    requires Run(states, steps) && n < |states| && w in states[n].works && WorkTree.IsScan(table, states[n].works)
    ensures top in states[n].works && states[n].works[top].kind == INITIATIVE && WorkTree.InSubtree(table, top, w)
    ensures forall other | other in states[n].works && states[n].works[other].kind == INITIATIVE &&
                           WorkTree.InSubtree(table, other, w) :: other == top
  {
    hide Inv, Consistent, Next, WorkTree.IsScan, WorkTree.InSubtree, WorkCodesUnique;
    RunInv(states, steps, n);
    Tables(states[n]);
    top := WorkTree.OneInitiative(states[n].works, table, w);
  }

  // --- a plan's version names its contents -------------------------------------------------

  /** One step either leaves a plan and its items alone or moves its version. */
  ghost predicate Versioned(db: Db, after: Db, p: Id) {
    p in db.plans ==>
      && p in after.plans
      && Delegation.SameIdentity(db.plans[p], after.plans[p])
      && (|| after.plans[p].version > db.plans[p].version
          || (after.plans[p] == db.plans[p] && Listing(after.items, p) == Listing(db.items, p)))
      && (db.plans[p].status != DRAFT ==>
            after.plans[p].status != DRAFT && after.plans[p].approver == db.plans[p].approver)
      && (!Editable(db.plans[p].status) ==>
            after.plans[p] == db.plans[p] && Listing(after.items, p) == Listing(db.items, p))
  }

  lemma EditVersioned(db: Db, after: Db, plan: Id, p: Id)
    requires plan in db.plans && Editable(db.plans[plan].status)
    requires after.plans == db.plans[plan := Delegation.Touched(db.plans[plan])]
    requires EditsOnly(db.items, after.items, plan)
    ensures Versioned(db, after, p)
  {
    OtherListingsStay(db.items, after.items, plan);
  }

  lemma EditStepVersioned(db: Db, s: Step, p: Id)
    requires Inv(db) && Edits(s) && Next(db, s) != db
    ensures Versioned(db, Next(db, s), p)
  {
    hide Inv, EditsOnly, Versioned, Next;
    EditTouches(db, s);
    EditVersioned(db, Next(db, s), s.plan, p);
  }

  lemma DecisionVersioned(db: Db, d: Decision, req: Approval.Request, p: Id)
    requires Consistent(db) && Approval.Goes(db, d, req)
    ensures Versioned(db, Approval.Apply(db, Approval.WritesOf(db, d, req)), p)
  {
    hide MembersOk, WorksOk, ItemsOk, Approval.Placeable, Approval.Drawable, Approval.Recordable, Permissions.Can,
      Approval.AddTasks, Approval.TasksFor, Approval.AssignmentsFor, Approval.NoticeFor, OneOpenPerScope,
      PlanCodesUnique, PlanOk;
    assert db.plans[req.plan].id == req.plan;
    Approval.AddTasksFrame(db, Approval.WritesOf(db, d, req).tasks);
  }

  lemma SubmitVersioned(db: Db, plan: Id, now: Time, p: Id)
    requires plan in db.plans && db.plans[plan].status == DRAFT
    ensures Versioned(db, Delegation.Submitted(db, plan, now), p)
  {}

  lemma NewPlanVersioned(db: Db, q: Plan, p: Id)
    requires q.id !in db.plans
    ensures Versioned(db, Delegation.WithPlan(db, q), p)
  {}

  lemma OtherStepVersioned(db: Db, s: Step, p: Id)
    requires Inv(db) && !s.Decide? && !Edits(s)
    ensures Versioned(db, Next(db, s), p)
  {
    hide Inv, Versioned;
    if Next(db, s) == db {
      SameVersioned(db, db, p);
    } else if s.Submit? {
      SubmitVersioned(db, s.plan, s.now, p);
    } else if s.CreatePlan? {
      NewPlanVersioned(db, Delegation.CreatePlanOutcome(db, db.works[s.scope], s.createdBy, s.draw).value, p);
    } else {
      SameVersioned(db, Next(db, s), p);
    }
  }

  lemma SameVersioned(db: Db, after: Db, p: Id)
    requires after.plans == db.plans && after.items == db.items
    ensures Versioned(db, after, p)
  {}

  lemma StepVersioned(db: Db, s: Step, p: Id)
    requires Inv(db)
    ensures Versioned(db, Next(db, s), p)
  {
    hide Versioned;
    if s.Decide? {
      DecideStepVersioned(db, s, p);
    } else if Edits(s) {
      hide Inv;
      if Next(db, s) == db {
        SameVersioned(db, db, p);
      } else {
        EditStepVersioned(db, s, p);
      }
    } else {
      OtherStepVersioned(db, s, p);
    }
  }

  lemma DecideStepVersioned(db: Db, s: Step, p: Id)
    requires Inv(db) && s.Decide?
    ensures Versioned(db, Next(db, s), p)
  {
    hide Versioned, Approval.Goes, Work.EventsOk, DecisionsOk, CreationsOk, MailOk;
    if Takes(db, s) {
      DecisionVersioned(db, s.decision, RequestOf(s), p);
    } else {
      SameVersioned(db, db, p);
    }
  }

  /** Two moments of a run at which a plan shows the same version show the same plan and the same items. */
  lemma {:induction false} VersionNamesContents(states: seq<Db>, steps: seq<Step>, i: nat, j: nat, p: Id)
    requires Run(states, steps) && i <= j < |states| && p in states[i].plans
    ensures p in states[j].plans && Delegation.SameIdentity(states[i].plans[p], states[j].plans[p])
    ensures states[i].plans[p].version <= states[j].plans[p].version
    ensures states[i].plans[p].version == states[j].plans[p].version ==>
              && states[i].plans[p] == states[j].plans[p]
              && Listing(states[i].items, p) == Listing(states[j].items, p)
    decreases j
  {
    hide Inv, Next;
    if i < j {
      VersionNamesContents(states, steps, i, j - 1, p);
      StepVersioned(states[j - 1], steps[j - 1], p);
      assert Versioned(states[j - 1], states[j], p);
    }
  }

  /** A decided plan is history: its row and its items never change again. */
  lemma {:induction false} DecidedIsFrozen(states: seq<Db>, steps: seq<Step>, i: nat, j: nat, p: Id)
    requires Run(states, steps) && i <= j < |states|
    requires p in states[i].plans && !Editable(states[i].plans[p].status)
    ensures p in states[j].plans && states[j].plans[p] == states[i].plans[p]
    ensures Listing(states[j].items, p) == Listing(states[i].items, p)
    decreases j
  {
    hide Inv, Next;
    if i < j {
      DecidedIsFrozen(states, steps, i, j - 1, p);
      StepVersioned(states[j - 1], steps[j - 1], p);
      assert Versioned(states[j - 1], states[j], p);
    }
  }

  lemma {:induction false} ApproverIsFrozen(states: seq<Db>, steps: seq<Step>, i: nat, j: nat, p: Id)
    requires Run(states, steps) && i <= j < |states|
    requires p in states[i].plans && states[i].plans[p].status != DRAFT
    ensures p in states[j].plans && states[j].plans[p].status != DRAFT
    ensures states[j].plans[p].approver == states[i].plans[p].approver
    ensures Delegation.SameIdentity(states[i].plans[p], states[j].plans[p])
    decreases j
  {
    hide Inv, Next;
    if i < j {
      ApproverIsFrozen(states, steps, i, j - 1, p);
      StepVersioned(states[j - 1], steps[j - 1], p);
      assert Versioned(states[j - 1], states[j], p);
    }
  }

  // --- approval creates what was read ------------------------------------------------------

  /** The ids the last audit entry of a state names. */
  function LastCreated(db: Db): seq<Id> {
    if db.audit == [] then [] else db.audit[|db.audit| - 1].created
  }

  lemma ApprovalMakes(db: Db, s: Step)
    requires Inv(db) && Takes(db, s) && s.decision == APPROVE
    ensures s.plan in db.plans && (s.expected.Some? ==> s.expected.value == db.plans[s.plan].version)
    ensures var after := Next(db, s);
            s.plan in after.plans && MadeFrom(after.works, after.plans[s.plan], Listing(db.items, s.plan), LastCreated(after))
  {
    hide Inv, Consistent, Work.EventsOk, WorksOk, Approval.Decidable, TablesSound, MadeFrom, Approval.AddTasks,
      Approval.Recordable, Approval.Placeable, Approval.Drawable;
    var req := RequestOf(s);
    var w := Approval.WritesOf(db, APPROVE, req);
    Tables(db);
    Approval.PlansAreDecidable(db, s.plan);
    WritesSound(db, APPROVE, req);
  }

  /** An approval given the version somebody read creates tasks from exactly the items they saw. */
  lemma ApprovalBindsToWhatWasRead(states: seq<Db>, steps: seq<Step>, i: nat, j: nat, p: Id)
    requires Run(states, steps) && i <= j < |steps| && p in states[i].plans
    requires Takes(states[j], steps[j]) && steps[j].decision == APPROVE && steps[j].plan == p
    requires steps[j].expected == Some(states[i].plans[p].version)
    ensures p in states[j + 1].plans
    ensures MadeFrom(states[j + 1].works, states[j + 1].plans[p], Listing(states[i].items, p), LastCreated(states[j + 1]))
  {
    hide Inv, Next, Takes, MadeFrom;
    ApprovalMakes(states[j], steps[j]);
    VersionNamesContents(states, steps, i, j, p);
  }

  // --- the record of decisions -------------------------------------------------------------

  lemma EntryMatches(db: Db, i: nat)
    requires DecisionsOk(db.plans, db.approvals, db.audit) && i < |db.approvals|
    ensures |db.audit| == |db.approvals| && db.audit[i].target == db.approvals[i].plan && db.approvals[i].plan in db.plans
    ensures db.plans[db.approvals[i].plan].status == Approval.Decided(db.approvals[i].decision)
    ensures db.plans[db.approvals[i].plan].version == db.approvals[i].planVersion + 1
  {
    assert RecordOk(db.plans, db.approvals[i], db.audit[i]);
  }

  /** Exactly one approval row and one audit row for a decided plan, none for an open one. */
  lemma OneDecisionEach(db: Db, p: Id)
    requires Inv(db) && p in db.plans
    ensures |db.audit| == |db.approvals|
    ensures |set i | 0 <= i < |db.approvals| && db.approvals[i].plan == p| == if Editable(db.plans[p].status) then 0 else 1
    ensures |set i | 0 <= i < |db.audit| && db.audit[i].target == p| == if Editable(db.plans[p].status) then 0 else 1
    ensures forall i | 0 <= i < |db.approvals| && db.approvals[i].plan == p ::
              && db.audit[i].target == p
              && db.plans[p].status == Approval.Decided(db.approvals[i].decision)
              && db.plans[p].version == db.approvals[i].planVersion + 1
  {
    hide Consistent, Work.EventsOk, CreationsOk, MailOk, RecordOk;
    forall i | 0 <= i < |db.approvals|
      ensures db.audit[i].target == db.approvals[i].plan
      ensures db.approvals[i].plan == p ==>
                && db.plans[p].status == Approval.Decided(db.approvals[i].decision)
                && db.plans[p].version == db.approvals[i].planVersion + 1
    {
      EntryMatches(db, i);
    }
    var rows := set i | 0 <= i < |db.approvals| && db.approvals[i].plan == p;
    assert rows == set i | 0 <= i < |db.audit| && db.audit[i].target == p;
    if Editable(db.plans[p].status) {
      assert rows == {};
    } else {
      var a :| a in db.approvals && a.plan == p;
      var k :| 0 <= k < |db.approvals| && db.approvals[k] == a;
      assert rows == {k};
    }
  }

  /** A repeated call is told the one decision on record. */
  lemma RepeatReportsTheDecision(db: Db, p: Id, d: Decision)
    requires Inv(db) && p in db.plans && db.plans[p].status == Approval.Decided(d)
    ensures var told := Approval.ExistingDecision(db.approvals, p, d);
            told.Some? && forall a | a in db.approvals && a.plan == p :: a == told.value
  {
    hide Consistent, Work.EventsOk, CreationsOk, MailOk, RecordOk;
    var a :| a in db.approvals && a.plan == p;
    ApprovalsNamePlans(db.plans, db.approvals, db.audit, a);
    var told := Approval.ExistingDecision(db.approvals, p, d);
    forall b | b in db.approvals && b.plan == p
      ensures b == told.value
    {
      var i :| 0 <= i < |db.approvals| && db.approvals[i] == b;
      var j :| 0 <= j < |db.approvals| && db.approvals[j] == told.value;
    }
  }

  /** Each approved plan's one audit entry names, in order, distinct tasks that are its items. */
  lemma ApprovedPlanIsItsTasks(db: Db, p: Id) returns (k: nat)
    requires Inv(db) && p in db.plans && db.plans[p].status == APPROVED
    ensures k < |db.audit| && db.audit[k].target == p && db.audit[k].action == APPROVE
    ensures MadeFrom(db.works, db.plans[p], Listing(db.items, p), db.audit[k].created)
    ensures forall j | 0 <= j < |db.audit| && db.audit[j].target == p :: j == k
  {
    hide Consistent, Work.EventsOk, MailOk, MadeFrom;
    var a :| a in db.approvals && a.plan == p;
    k :| 0 <= k < |db.approvals| && db.approvals[k] == a;
    assert RecordOk(db.plans, db.approvals[k], db.audit[k]);
    assert WorkOk(db.works, db.plans, db.items, db.audit[k]);
    forall j | 0 <= j < |db.audit| && db.audit[j].target == p
      ensures j == k
    {
      assert RecordOk(db.plans, db.approvals[j], db.audit[j]);
    }
  }

  /** No work item was created by two plans. */
  lemma NoTaskOfTwoPlans(states: seq<Db>, steps: seq<Step>, n: nat, j: nat, k: nat, w: Id)
    requires Run(states, steps) && n < |states| && j < |states[n].audit| && k < |states[n].audit|
    requires w in states[n].audit[j].created && w in states[n].audit[k].created
    ensures j == k
    ensures w in states[n].works
  {
    hide Next, Consistent, Work.EventsOk, MailOk, WorkOk, RecordOk;
    RunInv(states, steps, n);
    var db := states[n];
    CreatedExist(db.works, db.plans, db.items, db.approvals, db.audit, db.audit[j], w);
  }

  // --- conservation ------------------------------------------------------------------------

  /** The item rows of approved plans. */
  ghost function ApprovedItems(db: Db): set<Id> {
    set i | i in db.items && db.items[i].plan in db.plans && db.plans[db.items[i].plan].status == APPROVED
  }

  lemma {:induction false} OwnersCount(works: map<Id, WorkItem>, ids: seq<Id>)
    requires forall i | i in ids :: i in works && works[i].owner.Some?
    ensures |OwnersOf(works, ids)| == |ids|
  {
    if ids != [] {
      OwnersCount(works, ids[..|ids| - 1]);
      assert ids[|ids| - 1] in ids;
    }
  }

  /** The item rows of the plans approved among the first `n` decisions. */
  ghost function ItemsDecided(db: Db, n: nat): set<Id>
    requires n <= |db.approvals|
  {
    set i | i in db.items && exists k :: 0 <= k < n && db.approvals[k].decision == APPROVE && db.approvals[k].plan == db.items[i].plan
  }

  lemma EntryCount(db: Db, n: nat)
    requires Inv(db) && n < |db.approvals|
    ensures |OwnersOf(db.works, db.audit[n].created)| ==
            if db.approvals[n].decision == APPROVE then |IdsOf(db.items, db.approvals[n].plan)| else 0
  {
    hide Consistent, Work.EventsOk, MailOk;
    Tables(db);
    var e := db.audit[n];
    assert RecordOk(db.plans, db.approvals[n], e);
    assert WorkOk(db.works, db.plans, db.items, e);
    if e.action == APPROVE {
      ListingSize(db.items, e.target);
      forall i | i in e.created
        ensures i in db.works && db.works[i].owner.Some?
      {
        var k :| 0 <= k < |e.created| && e.created[k] == i;
        assert Realises(db.works[e.created[k]], db.plans[e.target], Listing(db.items, e.target)[k]);
      }
      OwnersCount(db.works, e.created);
    }
  }

  lemma ItemsDecidedGrow(db: Db, n: nat)
    requires Inv(db) && n < |db.approvals|
    ensures |ItemsDecided(db, n + 1)| ==
            |ItemsDecided(db, n)| + if db.approvals[n].decision == APPROVE then |IdsOf(db.items, db.approvals[n].plan)| else 0
  {
    hide Consistent, Work.EventsOk, MailOk, CreationsOk, RecordOk;
    var added := if db.approvals[n].decision == APPROVE then IdsOf(db.items, db.approvals[n].plan) else {};
    assert ItemsDecided(db, n + 1) == ItemsDecided(db, n) + added;
    assert ItemsDecided(db, n) !! added;
  }

  lemma {:induction false} AssignedCount(db: Db, n: nat)
    requires Inv(db) && n <= |db.audit|
    ensures |Assigned(db.works, db.audit[..n])| == |ItemsDecided(db, n)|
  {
    hide Consistent, Work.EventsOk, MailOk, CreationsOk, RecordOk;
    if n == 0 {
      assert ItemsDecided(db, 0) == {};
    } else {
      AssignedCount(db, n - 1);
      assert db.audit[..n][..n - 1] == db.audit[..n - 1];
      EntryCount(db, n - 1);
      ItemsDecidedGrow(db, n - 1);
    }
  }

  lemma ApprovedMeansDecided(db: Db, i: Id)
    requires DecisionsOk(db.plans, db.approvals, db.audit) && i in db.items
    ensures i in ApprovedItems(db) <==> i in ItemsDecided(db, |db.approvals|)
  {
    hide RecordOk;
    var p := db.items[i].plan;
    if i in ApprovedItems(db) {
      var a :| a in db.approvals && a.plan == p;
      ApprovalsNamePlans(db.plans, db.approvals, db.audit, a);
      var k :| 0 <= k < |db.approvals| && db.approvals[k] == a;
    }
    if k :| 0 <= k < |db.approvals| && db.approvals[k].decision == APPROVE && db.approvals[k].plan == p {
      ApprovalsNamePlans(db.plans, db.approvals, db.audit, db.approvals[k]);
    }
  }

  /** As many assignment messages as there are items in approved plans. */
  lemma OneAssignmentPerApprovedItem(db: Db)
    requires Inv(db)
    ensures |Notifications.Recipients(db.outbox, ASSIGNMENT)| == |ApprovedItems(db)|
  {
    hide Consistent, Work.EventsOk, CreationsOk, RecordOk;
    var n := |db.approvals|;
    AssignedCount(db, n);
    assert db.audit[..n] == db.audit;
    forall i | i in db.items
      ensures i in ApprovedItems(db) <==> i in ItemsDecided(db, n)
    {
      ApprovedMeansDecided(db, i);
    }
    assert ApprovedItems(db) == ItemsDecided(db, n);
  }

  predicate DecidedByOther(plans: map<Id, Plan>, a: Schema.Approval, d: Decision) {
    a.decision == d && a.plan in plans && plans[a.plan].createdBy != a.approver
  }

  /** The plans decided this way by somebody other than their creator. */
  ghost function DecidedByOthers(plans: map<Id, Plan>, approvals: seq<Schema.Approval>, d: Decision): set<Id> {
    set a | a in approvals && DecidedByOther(plans, a, d) :: a.plan
  }

  lemma OthersGrow(plans: map<Id, Plan>, approvals: seq<Schema.Approval>, a: Schema.Approval, d: Decision)
    requires forall b | b in approvals :: b.plan != a.plan
    ensures |DecidedByOthers(plans, approvals + [a], d)| ==
            |DecidedByOthers(plans, approvals, d)| + if DecidedByOther(plans, a, d) then 1 else 0
  {
    hide DecidedByOther;
    var told := if DecidedByOther(plans, a, d) then {a.plan} else {};
    assert DecidedByOthers(plans, approvals + [a], d) == DecidedByOthers(plans, approvals, d) + told;
  }

  lemma {:induction false} InformedCount(plans: map<Id, Plan>, approvals: seq<Schema.Approval>, d: Decision)
    requires forall i, j | 0 <= i < j < |approvals| :: approvals[i].plan != approvals[j].plan
    ensures |Informed(plans, approvals, d)| == |DecidedByOthers(plans, approvals, d)|
  {
    if approvals != [] {
      var front, last := approvals[..|approvals| - 1], approvals[|approvals| - 1];
      InformedCount(plans, front, d);
      assert approvals == front + [last];
      OthersGrow(plans, front, last, d);
    }
  }

  /** Creators hear of a decision once, exactly when somebody else made it. */
  lemma OneNoticePerDecision(states: seq<Db>, steps: seq<Step>, n: nat)
    requires Run(states, steps) && n < |states|
    ensures var db := states[n];
            && |Notifications.Recipients(db.outbox, PLAN_APPROVED)| == |DecidedByOthers(db.plans, db.approvals, APPROVE)|
            && |Notifications.Recipients(db.outbox, PLAN_REJECTED)| == |DecidedByOthers(db.plans, db.approvals, REJECT)|
  {
    hide Next, Consistent, Work.EventsOk, CreationsOk, RecordOk;
    RunInv(states, steps, n);
    InformedCount(states[n].plans, states[n].approvals, APPROVE);
    InformedCount(states[n].plans, states[n].approvals, REJECT);
  }

  /** An approval tells each item's assignee, in order, then an absent creator, and counts them in its audit entry. */
  lemma ApprovalTellsEveryone(db: Db, req: Approval.Request)
    requires Approval.Goes(db, APPROVE, req)
    ensures var w, p := Approval.WritesOf(db, APPROVE, req), db.plans[req.plan];
            var l := Listing(db.items, p.id);
            && w.audit.notified == |w.messages| == |l| + (if p.createdBy == req.actor.member then 0 else 1)
            && (forall i | 0 <= i < |l| ::
                  && w.messages[i].kind == ASSIGNMENT && l[i].assignee.Some?
                  && w.messages[i].recipient == l[i].assignee.value)
            && (p.createdBy != req.actor.member ==>
                  w.messages[|l|].kind == PLAN_APPROVED && w.messages[|l|].recipient == p.createdBy)
  {
    hide Approval.CheckRow, Approval.Drawable, Approval.Recordable, Listing, Approval.AssignmentsFor,
      Notifications.MessageFor;
    Approval.EveryoneIsTold(db, APPROVE, req);
  }

  // --- when approval succeeds --------------------------------------------------------------

  lemma RowProceeds(p: Plan, d: Decision, req: Approval.Request)
    ensures Approval.CheckRow(p, d, req) == Approval.Proceed <==>
              && p.status == PENDING_APPROVAL
              && (req.expected.Some? ==> req.expected.value == p.version)
              && Entitled(req.actor, p)
  {}

  /** A pending plan has no approval row to collide with. */
  lemma PendingIsRecordable(db: Db, p: Plan, actor: Id, d: Decision)
    requires Inv(db)
    requires p.id in db.plans && db.plans[p.id] == p && p.status == PENDING_APPROVAL && InOrg(db.members, actor, p.org)
    ensures Approval.Recordable(db, p, d, actor)
  {
    hide RecordOk, DecisionsOk;
    forall a | a in db.approvals
      ensures a.plan != p.id
    {
      ApprovalsNamePlans(db.plans, db.approvals, db.audit, a);
    }
  }

  /** Pending, at the version named if any, decided by a member who is entitled to. */
  predicate RowAllows(db: Db, s: Step)
    requires s.Decide?
  {
    && s.plan in db.plans
    && var p := db.plans[s.plan];
       && p.status == PENDING_APPROVAL
       && (s.expected.Some? ==> s.expected.value == p.version)
       && Entitled(s.decider, p) && InOrg(db.members, s.decider.member, p.org)
  }

  /** Decidable, and every item flat and assigned, the scope able to take them, the draws unused. */
  ghost predicate Approvable(db: Db, s: Step)
    requires s.Decide?
  {
    && RowAllows(db, s)
    && var p, items := db.plans[s.plan], Listing(db.items, s.plan);
       && (forall x | x in items :: x.parent.None? && x.assignee.Some?)
       && p.scope in db.works && (items != [] ==> db.works[p.scope].status != CANCELLED)
       && Approval.Drawable(db, p, s.draws)
  }

  lemma RowAllowsIff(db: Db, s: Step)
    requires Inv(db) && s.Decide?
    ensures RowAllows(db, s) <==>
              && s.plan in db.plans
              && Approval.CheckRow(db.plans[s.plan], s.decision, RequestOf(s)) == Approval.Proceed
              && Approval.Recordable(db, db.plans[s.plan], s.decision, s.decider.member)
    ensures s.plan in db.plans ==> db.plans[s.plan].id == s.plan
  {
    hide Inv, Consistent, Work.EventsOk, WorksOk, ParentsFirst, SortsDistinct, Approval.CheckRow, Entitled, InOrg;
    Tables(db);
    if s.plan in db.plans {
      RowProceeds(db.plans[s.plan], s.decision, RequestOf(s));
      if RowAllows(db, s) {
        PendingIsRecordable(db, db.plans[s.plan], s.decider.member, s.decision);
      }
    }
  }

  /** Approval takes effect exactly under these conditions; in every other case no table changes. */
  lemma ApprovalSucceedsIff(db: Db, s: Step)
    requires Inv(db) && s.Decide? && s.decision == APPROVE
    ensures Takes(db, s) <==> Approvable(db, s)
    ensures Takes(db, s) <==> Next(db, s) != db
  {
    hide Inv, RowAllows, Listing, Approval.Drawable, Approval.CheckRow, Approval.Recordable, Approval.AddTasks,
      Approval.WritesOf;
    RowAllowsIff(db, s);
    if Takes(db, s) {
      assert |Next(db, s).approvals| == |db.approvals| + 1;
    }
  }

  /** Rejection needs the row and the person only: no proposal is too broken to turn down. */
  lemma RejectionSucceedsIff(db: Db, s: Step)
    requires Inv(db) && s.Decide? && s.decision == REJECT
    ensures Takes(db, s) <==> RowAllows(db, s)
    ensures Takes(db, s) <==> Next(db, s) != db
    ensures Next(db, s).works == db.works && Next(db, s).events == db.events
  {
    hide Inv, RowAllows, Listing, Approval.CheckRow, Approval.Recordable, Approval.NoticeFor;
    RowAllowsIff(db, s);
    if Takes(db, s) {
      assert |Next(db, s).approvals| == |db.approvals| + 1;
    }
  }

  /** A nested item is refused, never flattened: a plan that has one cannot be approved. */
  lemma NestedIsNeverFlattened(db: Db, s: Step, x: PlanItem)
    requires Inv(db) && s.Decide? && s.decision == APPROVE
    requires x in Listing(db.items, s.plan) && x.parent.Some?
    ensures Next(db, s) == db
  {
    hide Inv, Next, Takes;
    ApprovalSucceedsIff(db, s);
  }
}
