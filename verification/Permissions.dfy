/** The permission engine: a pure verdict on (actor, action, subject). */
module Permissions {
  import opened Common
  import opened Schema
  import opened OrgGraph
  import Walk

  datatype Action =
    | CREATE_INITIATIVE | CREATE_WORK_ITEM | VIEW_WORK_ITEM | EDIT_WORK_ITEM | CANCEL_WORK_ITEM
    | DELEGATE_RESPONSIBILITY | START_TASK | COMPLETE_TASK | BLOCK_TASK | REASSIGN_TASK
    | CREATE_PLAN | EDIT_PLAN | SUBMIT_PLAN | APPROVE_PLAN | REJECT_PLAN
    | VIEW_MEMBER_WORK | VIEW_ORGANIZATION_WORK | MANAGE_MEMBERS | MANAGE_HIERARCHY

  datatype Subject =
    | MemberSubject(org: Id, member: Id)
    | WorkSubject(org: Id, work: Id, owner: Option<Id>, createdBy: Id)
    | DelegationSubject(org: Id, work: Id, owner: Option<Id>, createdBy: Id, proposedOwner: Id)
    | PlanSubject(org: Id, plan: Id, createdBy: Id, approver: Option<Id>, status: PlanStatus)
  {
    function Responsible(): Id
      requires WorkSubject? || DelegationSubject?
    {
      if owner.Some? then owner.value else createdBy
    }
  }

  datatype Actor = Actor(member: Id, org: Id, superadmin: bool, status: MembershipStatus, scope: set<Id>) {
    predicate Covers(id: Id) {
      id in scope
    }

    predicate Manages(id: Id) {
      id != member && id in scope
    }
  }

  function LoadActor(members: seq<Membership>, id: Id): Option<Actor> {
    match FindMember(members, id)
    case None => None
    case Some(m) => Some(Actor(m.id, m.org, m.superadmin, m.status, ScopeIds(members, m.id)))
  }

  /** `WRONG_SUBJECT` is the TypeError a rule raises on a subject of another kind. */
  datatype Verdict = ALLOW | DENY | WRONG_SUBJECT

  function When(allowed: bool): Verdict {
    if allowed then ALLOW else DENY
  }

  function Rule(actor: Actor, action: Action, subject: Option<Subject>): Verdict {
    match action
    case VIEW_MEMBER_WORK =>
      if subject.Some? && subject.value.MemberSubject? then When(actor.Covers(subject.value.member)) else WRONG_SUBJECT
    case VIEW_WORK_ITEM | EDIT_WORK_ITEM | CANCEL_WORK_ITEM | CREATE_WORK_ITEM | CREATE_PLAN =>
      if subject.Some? && subject.value.WorkSubject?
      then When(actor.Covers(subject.value.Responsible()))
      else WRONG_SUBJECT
    case START_TASK | COMPLETE_TASK =>
      if subject.Some? && subject.value.WorkSubject?
      then When(subject.value.owner == Some(actor.member))
      else WRONG_SUBJECT
    case DELEGATE_RESPONSIBILITY =>
      if subject.Some? && subject.value.DelegationSubject?
      then When(actor.Covers(subject.value.Responsible()) && actor.Manages(subject.value.proposedOwner))
      else WRONG_SUBJECT
    case EDIT_PLAN | SUBMIT_PLAN | APPROVE_PLAN | REJECT_PLAN =>
      if subject.Some? && subject.value.PlanSubject? then PlanRule(actor, action, subject.value) else WRONG_SUBJECT
    case CREATE_INITIATIVE | VIEW_ORGANIZATION_WORK | MANAGE_MEMBERS | MANAGE_HIERARCHY => DENY
    // no rule registered
    case BLOCK_TASK | REASSIGN_TASK => DENY
  }

  function PlanRule(actor: Actor, action: Action, plan: Subject): Verdict
    requires plan.PlanSubject?
  {
    if action == SUBMIT_PLAN then
      When(plan.status == DRAFT && plan.createdBy == actor.member)
    else if action == EDIT_PLAN && plan.status == DRAFT then
      When(plan.createdBy == actor.member)
    else
      When(plan.status == PENDING_APPROVAL && plan.approver == Some(actor.member))
  }

  function Can(actor: Actor, action: Action, subject: Option<Subject>): Verdict {
    if actor.status != ACTIVE_MEMBER then DENY
    else if subject.Some? && subject.value.org != actor.org then DENY
    else if actor.superadmin then ALLOW
    else Rule(actor, action, subject)
  }

  // --- what each verdict depends on -------------------------------------------------------

  function SubjectForPlan(p: Plan): Subject {
    PlanSubject(p.org, p.id, p.createdBy, p.approver, p.status)
  }

  function SubjectForMember(m: Membership): Subject {
    MemberSubject(m.org, m.id)
  }

  function SubjectForWork(w: WorkItem): Subject {
    WorkSubject(w.org, w.id, w.owner, w.createdBy)
  }

  function SubjectForHandover(w: WorkItem, to: Id): Subject {
    DelegationSubject(w.org, w.id, w.owner, w.createdBy, to)
  }

  /** The membership itself, or somebody in the chain of managers above it. */
  ghost predicate Over(members: seq<Membership>, high: Id, low: Id) {
    low == high || ReportsTo(members, low, high)
  }

  /** Who answers for a piece of work: its owner, and until it has one, its creator. */
  predicate AnswersFor(w: WorkItem, id: Id) {
    if w.owner.Some? then w.owner == Some(id) else id == w.createdBy
  }

  predicate MayActIn(m: Membership, org: Id) {
    m.status == ACTIVE_MEMBER && m.org == org
  }

  predicate OnWork(action: Action) {
    action in {VIEW_WORK_ITEM, EDIT_WORK_ITEM, CANCEL_WORK_ITEM, CREATE_WORK_ITEM, CREATE_PLAN}
  }

  lemma LoadedAs(members: seq<Membership>, m: Membership)
    requires MembersOk(members) && m in members
    ensures var a := LoadActor(members, m.id);
            && a.Some? && a.value.member == m.id && a.value.org == m.org && a.value.superadmin == m.superadmin
            && a.value.status == m.status && a.value.scope == ScopeIds(members, m.id)
  {
    hide ScopeIds;
    MemberIsUnique(members, m);
  }

  lemma ScopeIsOver(members: seq<Membership>, high: Id, low: Id)
    requires MembersOk(members) && ChainsFit(members)
    ensures low in ScopeIds(members, high) <==> Over(members, high, low)
  {
    hide ScopeIds, MembersOk, ChainsFit, ReportsTo;
    FitScopeIsClosure(members, high, low);
  }

  /** Work may be seen, changed, called off, added to and planned by whoever answers for it and everybody above them. */
  lemma WorkFollowsTheChain(members: seq<Membership>, m: Membership, w: WorkItem, action: Action)
    requires MembersOk(members) && ChainsFit(members) && m in members && OnWork(action)
    ensures Can(LoadActor(members, m.id).value, action, Some(SubjectForWork(w))) == ALLOW <==>
              MayActIn(m, w.org) && (m.superadmin || exists id :: AnswersFor(w, id) && Over(members, m.id, id))
  {
    hide MembersOk, ChainsFit, ScopeIds, Over, LoadActor;
    LoadedAs(members, m);
    var id := if w.owner.Some? then w.owner.value else w.createdBy;
    assert AnswersFor(w, id);
    ScopeIsOver(members, m.id, id);
  }

  /** A responsibility goes from whoever is over it to somebody strictly below them. */
  lemma HandoverStaysBelow(members: seq<Membership>, m: Membership, w: WorkItem, to: Id)
    requires MembersOk(members) && ChainsFit(members) && m in members
    ensures Can(LoadActor(members, m.id).value, DELEGATE_RESPONSIBILITY, Some(SubjectForHandover(w, to))) == ALLOW <==>
              MayActIn(m, w.org) &&
              (m.superadmin ||
               ((exists id :: AnswersFor(w, id) && Over(members, m.id, id)) && to != m.id && Over(members, m.id, to)))
  {
    hide MembersOk, ChainsFit, ScopeIds, Over, LoadActor;
    LoadedAs(members, m);
    var id := if w.owner.Some? then w.owner.value else w.createdBy;
    assert AnswersFor(w, id);
    ScopeIsOver(members, m.id, id);
    ScopeIsOver(members, m.id, to);
  }

  /** One's own work and that of everybody below is in view. */
  lemma ViewFollowsTheChain(members: seq<Membership>, m: Membership, target: Membership)
    requires MembersOk(members) && ChainsFit(members) && m in members
    ensures Can(LoadActor(members, m.id).value, VIEW_MEMBER_WORK, Some(SubjectForMember(target))) == ALLOW <==>
              MayActIn(m, target.org) && (m.superadmin || Over(members, m.id, target.id))
  {
    hide MembersOk, ChainsFit, ScopeIds, Over, LoadActor;
    LoadedAs(members, m);
    ScopeIsOver(members, m.id, target.id);
  }

  /** Starting and finishing are the assignee's to say, and an administrator's; not a manager's, not the creator's. */
  lemma OwnTasksOnly(members: seq<Membership>, m: Membership, w: WorkItem, action: Action)
    requires MembersOk(members) && m in members && (action == START_TASK || action == COMPLETE_TASK)
    ensures Can(LoadActor(members, m.id).value, action, Some(SubjectForWork(w))) == ALLOW <==>
              MayActIn(m, w.org) && (m.superadmin || (w.owner.Some? && w.owner.value == m.id))
  {
    hide MembersOk, ScopeIds, LoadActor;
    LoadedAs(members, m);
  }

  /** A draft is its writer's to change and send; a waiting plan its approver's to change and decide; a decided one nobody's. */
  lemma PlanIsIn(members: seq<Membership>, m: Membership, p: Plan, action: Action)
    requires MembersOk(members) && m in members && action in {EDIT_PLAN, SUBMIT_PLAN, APPROVE_PLAN, REJECT_PLAN}
    ensures Can(LoadActor(members, m.id).value, action, Some(SubjectForPlan(p))) == ALLOW <==>
              MayActIn(m, p.org) &&
              (|| m.superadmin
               || (p.status == DRAFT && p.createdBy == m.id && (action == EDIT_PLAN || action == SUBMIT_PLAN))
               || (p.status == PENDING_APPROVAL && p.approver == Some(m.id) && action != SUBMIT_PLAN))
  {
    hide MembersOk, ScopeIds, LoadActor;
    LoadedAs(members, m);
  }

  /** What no rule grants, only administrators of the organization may do. */
  lemma AdministratorsOnly(members: seq<Membership>, m: Membership, org: Id, action: Action, subject: Option<Subject>)
    requires MembersOk(members) && m in members && (subject.Some? ==> subject.value.org == org)
    requires action in {CREATE_INITIATIVE, VIEW_ORGANIZATION_WORK, MANAGE_MEMBERS, MANAGE_HIERARCHY, BLOCK_TASK, REASSIGN_TASK}
    ensures Can(LoadActor(members, m.id).value, action, subject) == ALLOW <==>
              m.status == ACTIVE_MEMBER && (subject.Some? ==> m.org == org) && m.superadmin
    ensures Can(LoadActor(members, m.id).value, action, subject) != WRONG_SUBJECT
  {
    hide MembersOk, ScopeIds, LoadActor;
    LoadedAs(members, m);
  }

  /** Active, of the plan's organization, and its required approver or a superadmin. */
  predicate Entitled(actor: Actor, p: Plan) {
    actor.status == ACTIVE_MEMBER && actor.org == p.org && (actor.superadmin || p.approver == Some(actor.member))
  }

  // --- what the verdicts add up to ---------------------------------------------------------

  predicate ScopeDecided(action: Action) {
    action in {VIEW_MEMBER_WORK, VIEW_WORK_ITEM, EDIT_WORK_ITEM, CANCEL_WORK_ITEM, CREATE_WORK_ITEM,
               CREATE_PLAN, DELEGATE_RESPONSIBILITY}
  }

  /** A responsibility offered to the manager who is asked: nobody delegates to themselves. */
  predicate OffersTo(subject: Option<Subject>, member: Id) {
    subject.Some? && subject.value.DelegationSubject? && subject.value.proposedOwner == member
  }

  /**
   Authority follows the management chain: what scope allows a member it allows every active
   manager above them, except that nobody below administrator level delegates to themselves.
   The exception takes two people who are each above the other.
   */
  lemma AuthorityFollowsTheChain(
    members: seq<Membership>, low: Id, high: Id, action: Action, subject: Option<Subject>)
    requires MembersOk(members) && ChainsFit(members)
    requires LoadActor(members, low).Some? && LoadActor(members, high).Some?
    requires low in ScopeIds(members, high)
    requires ScopeDecided(action) && !LoadActor(members, low).value.superadmin
    requires Can(LoadActor(members, low).value, action, subject) == ALLOW
    requires LoadActor(members, high).value.status == ACTIVE_MEMBER
    ensures Can(LoadActor(members, high).value, action, subject) == ALLOW <==>
            LoadActor(members, high).value.superadmin || !OffersTo(subject, high)
    ensures OffersTo(subject, high) ==> high in ScopeIds(members, low)
  {
    hide MembersOk, ChainsFit, ScopeIds;
    var l, h := FindMember(members, low).value, FindMember(members, high).value;
    ScopeInclusion(members, high, low);
    assert InOrg(members, high, h.org);
    ScopeStaysInOrg(members, high, h.org, low);
    assert InOrg(members, low, l.org);
    OneOrg(members, low, l.org, h.org);
  }

  /** Two people, each the other's manager, which no constraint forbids. */
  function Circle(): seq<Membership> {
    [Membership(0, 0, 0, Some(1), false, ACTIVE_MEMBER), Membership(1, 0, 1, Some(0), false, ACTIVE_MEMBER)]
  }

  lemma CircleIsMutual()
    ensures MembersOk(Circle()) && FindMember(Circle(), 0) == Some(Circle()[0]) && FindMember(Circle(), 1) == Some(Circle()[1])
    ensures 0 in ScopeIds(Circle(), 1) && 1 in ScopeIds(Circle(), 0)
  {
    hide Walk.Keyed, ScopeIds, Descendants, Walk.Query;
    var members, table := Circle(), Nodes(Circle());
    assert members[0] in members && members[1] in members;
    assert InOrg(members, 0, 0) && InOrg(members, 1, 0);
    Walk.RowOfMember(table, table[0]);
    Walk.RowOfMember(table, table[1]);
    assert Walk.ParentOf(table, 0) == Some(1) && Walk.ParentOf(table, 1) == Some(0);
    assert Walk.Climb(table, 1, 0) == Some(1) && Walk.Climb(table, 0, 0) == Some(0);
    assert Walk.Linked(table, 0, 1, 1) && Walk.Linked(table, 1, 0, 1);
    InScope(members, 1, 0);
    InScope(members, 0, 1);
  }

  /** There, the one below may hand work to the one above, who may not take it. */
  lemma CircleBreaksTheChain()
    ensures var offer := Some(DelegationSubject(0, 7, Some(1), 1, 0));
            && LoadActor(Circle(), 0).Some? && LoadActor(Circle(), 1).Some? && 1 in ScopeIds(Circle(), 0)
            && Can(LoadActor(Circle(), 1).value, DELEGATE_RESPONSIBILITY, offer) == ALLOW
            && Can(LoadActor(Circle(), 0).value, DELEGATE_RESPONSIBILITY, offer) == DENY
  {
    hide ScopeIds, MembersOk, FindMember;
    CircleIsMutual();
    OwnScope(Circle(), 1);
  }

  lemma OwnScope(members: seq<Membership>, id: Id)
    ensures id in ScopeIds(members, id)
  {}

  predicate Ordinary(actor: Actor, org: Id) {
    actor.status == ACTIVE_MEMBER && actor.org == org && !actor.superadmin
  }

  /**
   A plan is in one pair of hands at a time: below administrator level at most one membership
   may edit it, whoever may decide it may edit it, and nobody may both send and decide it.
   */
  lemma PlanHasOneHand(plan: Plan, a: Actor, b: Actor)
    requires Ordinary(a, plan.org) && Ordinary(b, plan.org)
    ensures var s := Some(SubjectForPlan(plan));
            && (Can(a, EDIT_PLAN, s) == ALLOW && Can(b, EDIT_PLAN, s) == ALLOW ==> a.member == b.member)
            && (Can(a, APPROVE_PLAN, s) == ALLOW ==> Can(a, EDIT_PLAN, s) == ALLOW)
            && (Can(a, APPROVE_PLAN, s) == Can(a, REJECT_PLAN, s))
            && !(Can(a, SUBMIT_PLAN, s) == ALLOW && Can(b, APPROVE_PLAN, s) == ALLOW)
            && (!Editable(plan.status) ==> Can(a, EDIT_PLAN, s) != ALLOW)
  {}
}
