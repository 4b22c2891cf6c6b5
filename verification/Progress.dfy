/** Nothing is stuck and nothing above is empty: flat pending plans can be approved, and a run that gets there. */
module Progress {
  import opened Common
  import opened Schema
  import opened PlanItems
  import opened Permissions
  import opened Ledger
  import opened Steps
  import opened Runs
  import Approval
  import Delegation
  import OrgGraph
  import Text
  import Trail
  import Walk
  import Work

  // --- there are always draws --------------------------------------------------------------

  lemma {:induction false} AboveAll(ids: set<Id>) returns (bound: Id)
    ensures forall i | i in ids :: i < bound
  {
    if ids == {} {
      bound := 0;
    } else {
      var i :| i in ids;
      var rest := AboveAll(ids - {i});
      bound := if i < rest then rest else i + 1;
      assert forall j | j in ids :: j == i || j in ids - {i};
    }
  }

  lemma {:induction false} LongerThanAll(codes: set<string>) returns (length: nat)
    ensures forall c | c in codes :: |c| < length
  {
    if codes == {} {
      length := 0;
    } else {
      var c :| c in codes;
      var rest := LongerThanAll(codes - {c});
      length := if |c| < rest then rest else |c| + 1;
      assert forall d | d in codes :: d == c || d in codes - {c};
    }
  }

  function Code(length: nat): string {
    seq(length, _ => 'A')
  }

  /** Every insertion its own id and its own code, all new. */
  function FreshDraws(id: Id, length: nat): nat -> Draw {
    (i: nat) => Draw(id + i, seq(CODE_ATTEMPTS, _ => Code(length + i)))
  }

  lemma FirstOfMany(taken: set<string>, code: string)
    requires code !in taken
    ensures FirstFree(taken, seq(CODE_ATTEMPTS, _ => code)) == Some(code)
  {
    var candidates := seq(CODE_ATTEMPTS, _ => code);
    assert candidates[0] == code;
  }

  lemma {:induction false} FreshCodes(taken: set<string>, id: Id, length: nat, n: nat)
    requires forall c | c in taken :: |c| < length
    ensures Approval.CodesFor(taken, FreshDraws(id, length), n).Some?
    ensures forall c | c in Approval.CodesFor(taken, FreshDraws(id, length), n).value :: |c| < length + n
  {
    hide FirstFree;
    if n > 0 {
      FreshCodes(taken, id, length, n - 1);
      var before := Approval.CodesFor(taken, FreshDraws(id, length), n - 1).value;
      var code := Code(length + n - 1);
      assert |code| == length + n - 1;
      FirstOfMany(taken + Elements(before), code);
    }
  }

  lemma DrawsExist(db: Db, p: Plan) returns (draws: nat -> Draw)
    ensures Approval.Drawable(db, p, draws)
  {
    var id := AboveAll(db.works.Keys);
    var length := LongerThanAll(TakenWorkCodes(db.works, p.org));
    draws := FreshDraws(id, length);
    FreshCodes(TakenWorkCodes(db.works, p.org), id, length, |Listing(db.items, p.id)|);
  }

  // --- progress ----------------------------------------------------------------------------

  /** Every pending plan that is flat, assigned and not under called-off work can be approved by anybody entitled to. */
  lemma PendingCanBeApproved(db: Db, p: Id, decider: Actor, now: Time) returns (s: Step)
    requires Inv(db) && p in db.plans && db.plans[p].status == PENDING_APPROVAL
    requires Entitled(decider, db.plans[p]) && InOrg(db.members, decider.member, db.plans[p].org)
    requires forall x | x in Listing(db.items, p) :: x.parent.None? && x.assignee.Some?
    requires db.plans[p].scope in db.works
    requires Listing(db.items, p) != [] ==> db.works[db.plans[p].scope].status != CANCELLED
    ensures s.Decide? && s.plan == p && s.decision == APPROVE && s.decider == decider
    ensures s.expected == Some(db.plans[p].version) && Takes(db, s)
  {
    hide Inv, Takes, Approval.Drawable, Entitled, Listing;
    var draws := DrawsExist(db, db.plans[p]);
    s := Decide(APPROVE, p, decider, Some(db.plans[p].version), None, now, draws);
    ApprovalSucceedsIff(db, s);
  }

  // --- a run that approves -----------------------------------------------------------------

  /** Two people, the second reporting to the first, in organization 0. */
  function Pair(): seq<Membership> {
    [Membership(0, 0, 0, None, false, ACTIVE_MEMBER), Membership(1, 0, 1, Some(0), false, ACTIVE_MEMBER)]
  }

  function Codes(c: char): Candidates {
    seq(CODE_ATTEMPTS, _ => [c])
  }

  function Empty(): Db {
    Db(Pair(), [], map[], [], map[], map[], [], [], [])
  }

  const NEW_ITEM := Delegation.NewItem("Call", None, Some(1), Some(5), None)

  /** An initiative, a responsibility under it, a plan for that, one item, and off to the manager. */
  function Drafting(): seq<Step> {
    [CreateWork(0, INITIATIVE, "Launch", None, 1, None, None, None, Draw(0, Codes('I'))),
     CreateWork(0, RESPONSIBILITY, "Press", None, 1, Some(0), None, None, Draw(1, Codes('R'))),
     CreatePlan(1, 1, Draw(0, Codes('P'))),
     AddItem(0, NEW_ITEM, 0),
     Submit(0, 0)]
  }

  lemma StartsEmpty()
    ensures Start(Empty())
  {
    assert Pair()[0] in Pair();
  }

  lemma PairIsConnected()
    ensures FindMember(Pair(), 0) == Some(Pair()[0]) && InOrg(Pair(), 0, 0) && InOrg(Pair(), 1, 0)
    ensures 1 in OrgGraph.ScopeIds(Pair(), 1) && Delegation.ApproverFor(Pair(), 1) == 0
  {
    hide OrgGraph.Ancestors;
    StartsEmpty();
    assert Pair()[0] in Pair() && Pair()[1] in Pair();
    var table := OrgGraph.Nodes(Pair());
    Walk.RowOfMember(table, table[0]);
    Walk.RowOfMember(table, table[1]);
    assert Walk.ParentOf(table, 1) == Some(0);
    assert OrgGraph.Manager(Pair(), 1, 1) == Walk.Climb(table, 0, 0) == Some(0);
    OrgGraph.FirstAncestor(Pair(), 1);
  }

  lemma NobodyHas(works: map<Id, WorkItem>, org: Id, c: char)
    requires forall w | w in works :: works[w].code != [c]
    ensures FirstFree(TakenWorkCodes(works, org), Codes(c)) == Some([c])
  {
    FirstOfMany(TakenWorkCodes(works, org), [c]);
    assert Codes(c) == seq(CODE_ATTEMPTS, _ => [c]);
  }

  lemma FirstStep(db: Db, s: Step)
    requires Inv(db) && db == Empty() && s == Drafting()[0]
    ensures var after := Next(db, s);
            && after.members == Pair() && after.plans == map[] && after.items == map[] && after.works.Keys == {0}
            && after.works[0].kind == INITIATIVE && after.works[0].org == 0 && after.works[0].status == ACTIVE
            && after.works[0].code == "I" && after.works[0].id == 0
  {
    hide Inv, FirstFree, OrgGraph.ScopeIds, OrgGraph.Ancestors, TakenWorkCodes, Codes;
    PairIsConnected();
    NobodyHas(db.works, 0, 'I');
  }

  lemma SecondStep(db: Db, s: Step)
    requires Inv(db) && s == Drafting()[1] && db.members == Pair() && db.plans == map[] && db.items == map[]
    requires db.works.Keys == {0} && db.works[0].kind == INITIATIVE && db.works[0].org == 0 && db.works[0].id == 0
    requires db.works[0].status == ACTIVE && db.works[0].code == "I"
    ensures var after := Next(db, s);
            && after.members == Pair() && after.plans == map[] && after.items == map[] && after.works.Keys == {0, 1}
            && after.works[1].kind == RESPONSIBILITY && after.works[1].org == 0 && after.works[1].status == ACTIVE
            && after.works[1].id == 1
  {
    hide Inv, FirstFree, OrgGraph.ScopeIds, OrgGraph.Ancestors, TakenWorkCodes, Codes;
    PairIsConnected();
    NobodyHas(db.works, 0, 'R');
  }

  lemma ThirdStep(db: Db, s: Step)
    requires Inv(db) && s == Drafting()[2] && db.members == Pair() && db.plans == map[] && db.items == map[]
    requires 1 in db.works && db.works[1].kind == RESPONSIBILITY && db.works[1].org == 0 && db.works[1].id == 1
    requires db.works[1].status == ACTIVE
    ensures Next(db, s) == db.(plans := map[0 := Plan(0, 0, 1, 1, None, DRAFT, "P", 1, None, None)])
  {
    hide Inv, FirstFree, OrgGraph.ScopeIds, OrgGraph.Ancestors, Codes;
    PairIsConnected();
    FirstOfMany(TakenPlanCodes(db.plans, 0), "P");
    assert Codes('P') == seq(CODE_ATTEMPTS, _ => "P") by { CodesAre('P'); }
  }

  lemma CodesAre(c: char)
    ensures Codes(c) == seq(CODE_ATTEMPTS, _ => [c])
  {}

  lemma FourthStep(db: Db, s: Step)
    requires Inv(db) && s == Drafting()[3] && db.members == Pair() && db.items == map[]
    requires db.plans == map[0 := Plan(0, 0, 1, 1, None, DRAFT, "P", 1, None, None)]
    ensures Next(db, s) == db.(items := Next(db, s).items, plans := db.plans[0 := Delegation.Touched(db.plans[0])])
    ensures Listing(Next(db, s).items, 0) == [PlanItem(0, 0, 0, None, TASK, Text.Strip("Call"), None, Some(1), Some(5), 0)]
  {
    hide Inv, OrgGraph.ScopeIds, OrgGraph.Ancestors, Listing, Text.Strip, Takes, Work.CreateOutcome,
      Work.MoveOutcome, Delegation.CreatePlanOutcome, Delegation.CanSubmit, Consistent, WorksOk, Work.EventsOk,
      MembersOk, ParentsFirst;
    PairIsConnected();
    Tables(db);
    ListingIs(map[], 0, []);
    AddAppends(db.items, Delegation.AddedItem(db, 0, NEW_ITEM, 0));
  }

  lemma FifthStep(db: Db, s: Step)
    requires Inv(db) && s == Drafting()[4] && db.members == Pair()
    requires 0 in db.plans && db.plans[0].status == DRAFT && db.plans[0].createdBy == 1
    requires Listing(db.items, 0) == [PlanItem(0, 0, 0, None, TASK, Text.Strip("Call"), None, Some(1), Some(5), 0)]
    ensures Next(db, s).items == db.items && Next(db, s).works == db.works && Next(db, s).members == db.members
    ensures 0 in Next(db, s).plans
    ensures var p := Next(db, s).plans[0];
            && p.status == PENDING_APPROVAL && p.approver == Some(0)
            && p.org == db.plans[0].org && p.scope == db.plans[0].scope
    ensures Trail.Submits(db, s, 0)
  {
    hide Inv, OrgGraph.ScopeIds, Delegation.ApproverFor, Listing, Text.Strip;
    PairIsConnected();
  }

  /** Five calls in, the plan waits for its manager: one flat item, assigned, under live scope. */
  lemma DraftingRuns() returns (states: seq<Db>)
    ensures Run(states, Drafting()) && |states| == 6 && Inv(states[5])
    ensures states[4].members == Pair() && Trail.Submits(states[4], Drafting()[4], 0) && states[4].plans[0].createdBy == 1
    ensures var db := states[5];
            && db.members == Pair() && 1 in db.works && db.works[1].status == ACTIVE && 0 in db.plans
            && db.plans[0].status == PENDING_APPROVAL && db.plans[0].approver == Some(0) && db.plans[0].org == 0
            && db.plans[0].scope == 1
            && Listing(db.items, 0) == [PlanItem(0, 0, 0, None, TASK, Text.Strip("Call"), None, Some(1), Some(5), 0)]
  {
    hide Inv, Next, Takes, Start, Listing, Drafting, Pair, Text.Strip;
    StartsEmpty();
    states := RunsExist(Empty(), Drafting());
    DraftingSteps();
    FirstStep(states[0], Drafting()[0]);
    SecondStep(states[1], Drafting()[1]);
    ThirdStep(states[2], Drafting()[2]);
    FourthStep(states[3], Drafting()[3]);
    FifthStep(states[4], Drafting()[4]);
  }

  /** The manager, as the permission engine loads them. */
  function Boss(): Actor {
    Actor(0, 0, false, ACTIVE_MEMBER, OrgGraph.ScopeIds(Pair(), 0))
  }

  lemma BossIsLoaded()
    ensures LoadActor(Pair(), 0) == Some(Boss())
  {
    hide OrgGraph.ScopeIds;
    PairIsConnected();
  }

  lemma LoadedLast(states: seq<Db>, steps: seq<Step>)
    requires |states| == |steps| + 1 && |steps| > 0 && states[|steps| - 1].members == Pair()
    requires forall j | 0 <= j < |steps| - 1 :: !steps[j].Decide?
    requires steps[|steps| - 1].Decide? && steps[|steps| - 1].decider == Boss()
    ensures Trail.Loaded(states, steps)
  {
    hide LoadActor, Boss, Pair;
    BossIsLoaded();
    BossIsMember();
    assert Trail.LoadedBy(states, Boss(), |steps| - 1);
  }

  lemma BossIsMember()
    ensures Boss().member == 0
  {}

  /** The run theorems have something to say: from two people and nothing else, a plan is approved. */
  lemma SomeRunApproves() returns (states: seq<Db>, steps: seq<Step>)
    ensures Run(states, steps) && Trail.Loaded(states, steps) && |steps| == 6
    ensures Takes(states[5], steps[5]) && steps[5].decision == APPROVE
    ensures |Listing(states[5].items, steps[5].plan)| == 1
  {
    hide Inv, Next, Takes, Start, Listing, Drafting, OrgGraph.ScopeIds, Delegation.ApproverFor, Trail.Loaded;
    var before := DraftingRuns();
    DraftingSteps();
    PairIsConnected();
    var last := PendingCanBeApproved(before[5], 0, Boss(), 1);
    states, steps := before + [Next(before[5], last)], Drafting() + [last];
    RunExtends(before, Drafting(), last);
    LoadedLast(states, steps);
  }

  lemma DraftingSteps()
    ensures |Drafting()| == 5 && forall j | 0 <= j < 5 :: !Drafting()[j].Decide?
  {}

  // --- a run that escapes the scope check --------------------------------------------------

  /** The creator's own scope does not hold their manager. */
  lemma BossIsOutside()
    ensures 0 !in OrgGraph.ScopeIds(Pair(), 1)
  {
    hide OrgGraph.ScopeIds;
    StartsEmpty();
    OrgGraph.InScope(Pair(), 1, 0);
    var table := OrgGraph.Nodes(Pair());
    Walk.RowOfMember(table, table[0]);
    forall k: nat | k > 0
      ensures Walk.Climb(table, 0, k).None?
    {
      assert Walk.ParentOf(table, 0).None?;
    }
  }

  /** Waiting for approval, the one item is handed to the manager who will approve it. */
  const REASSIGN := UpdateItem(0, 0, Delegation.ItemEdit(None, Delegation.Set(Some(0)), Delegation.Unset, Delegation.Unset))

  lemma Reassigned(db: Db)
    requires Inv(db) && db.members == Pair() && 0 in db.plans && db.plans[0].org == 0
    requires db.plans[0].status == PENDING_APPROVAL
    requires Listing(db.items, 0) == [PlanItem(0, 0, 0, None, TASK, Text.Strip("Call"), None, Some(1), Some(5), 0)]
    ensures var mid := Next(db, REASSIGN);
            && Inv(mid) && mid == db.(items := mid.items, plans := mid.plans)
            && 0 in mid.plans && mid.plans[0] == Delegation.Touched(db.plans[0])
            && Listing(mid.items, 0) == [PlanItem(0, 0, 0, None, TASK, Text.Strip("Call"), None, Some(0), Some(5), 0)]
  {
    hide Inv, Next, Consistent, WorksOk, Work.EventsOk, SortsDistinct, ParentsFirst, Listing, Text.Strip;
    PairIsConnected();
    Tables(db);
    ListingLists(db.items, 0);
    assert Listing(db.items, 0)[0] in Listing(db.items, 0);
    NextKeepsInv(db, REASSIGN);
    Trail.EditedTables(db, REASSIGN);
    var k := Trail.EditedListing(db, REASSIGN);
  }

  lemma OneTaskMade(db: Db, s: Step, x: PlanItem)
    requires Inv(db) && Takes(db, s) && s.decision == APPROVE && Listing(db.items, s.plan) == [x]
    ensures var made := LastCreated(Next(db, s));
            |made| == 1 && made[0] in Next(db, s).works && Next(db, s).works[made[0]].owner == x.assignee
  {
    hide Inv, Next, Approval.Goes, Listing;
    ApprovalMakes(db, s);
    var after := Next(db, s);
    assert Realises(after.works[LastCreated(after)[0]], after.plans[s.plan], x);
  }

  /**
   Submission's scope check, escaped in seven calls: the plan is drafted for its creator, submitted,
   reassigned while it waits, and approved, and its one task is owned outside the scope that was checked.
   */
  lemma SomeRunEscapesTheScope() returns (states: seq<Db>, steps: seq<Step>)
    ensures Run(states, steps) && |steps| == 7
    ensures Trail.Submits(states[4], steps[4], 0) && steps[5] == REASSIGN
    ensures Takes(states[6], steps[6]) && steps[6].decision == APPROVE && steps[6].plan == 0
    ensures var made := LastCreated(states[7]);
            && |made| == 1 && made[0] in states[7].works && states[7].works[made[0]].owner == Some(0)
            && 0 !in OrgGraph.ScopeIds(states[4].members, states[4].plans[0].createdBy)
  {
    hide Inv, Next, Takes, Start, Listing, Drafting, OrgGraph.ScopeIds, Delegation.ApproverFor, Pair, Text.Strip,
      LastCreated, Delegation.CanSubmit;
    var before := DraftingRuns();
    DraftingSteps();
    BossIsOutside();
    PairIsConnected();
    var mid := Next(before[5], REASSIGN);
    Reassigned(before[5]);
    var last := PendingCanBeApproved(mid, 0, Boss(), 1);
    RunExtends(before, Drafting(), REASSIGN);
    RunExtends(before + [mid], Drafting() + [REASSIGN], last);
    states, steps := before + [mid] + [Next(mid, last)], Drafting() + [REASSIGN] + [last];
    OneTaskMade(mid, last, Listing(mid.items, 0)[0]);
  }
}
