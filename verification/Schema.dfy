/** The tables, their constraints as predicates, and the session that updates them. */
module Schema {
  import opened Common
  import opened Text

  // --- rows --------------------------------------------------------------------------------

  datatype MembershipStatus = ACTIVE_MEMBER | INACTIVE_MEMBER

  datatype Membership = Membership(
    id: Id, org: Id, user: Id, manager: Option<Id>, superadmin: bool, status: MembershipStatus)

  datatype Channel = IMESSAGE | SMS

  datatype Identity = Identity(user: Id, channel: Channel, raw: string, norm: string, verified: bool)

  datatype WorkItemType = INITIATIVE | RESPONSIBILITY | TASK

  datatype WorkItemStatus = ACTIVE | IN_PROGRESS | COMPLETE | CANCELLED

  datatype WorkItem = WorkItem(
    id: Id, org: Id, parent: Option<Id>, kind: WorkItemType, title: string, description: Option<string>,
    owner: Option<Id>, createdBy: Id, status: WorkItemStatus, due: Option<Time>, code: string, version: nat)

  datatype EventType = WORK_CREATED | ASSIGNED(assignee: Id) | STARTED | COMPLETED | WORK_CANCELLED

  datatype TaskEvent = TaskEvent(work: Id, kind: EventType, actor: Option<Id>)

  datatype PlanStatus = DRAFT | PENDING_APPROVAL | APPROVED | REJECTED

  datatype Plan = Plan(
    id: Id, org: Id, scope: Id, createdBy: Id, approver: Option<Id>, status: PlanStatus, code: string,
    version: nat, submittedAt: Option<Time>, approvedAt: Option<Time>)

  datatype PlanItem = PlanItem(
    id: Id, plan: Id, org: Id, parent: Option<Id>, kind: WorkItemType, title: string,
    description: Option<string>, assignee: Option<Id>, due: Option<Time>, sort: nat)

  datatype Decision = APPROVE | REJECT

  datatype Approval = Approval(
    plan: Id, planVersion: nat, approver: Id, decision: Decision, comment: Option<string>, decidedAt: Time)

  datatype Snapshot = Snapshot(status: PlanStatus, version: nat)

  /** `created` and `notified` are an approval's payload; a rejection's payload is its comment. */
  datatype AuditEvent = AuditEvent(
    org: Id, actor: Id, action: Decision, target: Id, before: Snapshot, after: Snapshot,
    created: seq<Id>, notified: nat, comment: Option<string>, createdAt: Time)

  datatype MessageType = ASSIGNMENT | PLAN_SUBMITTED | PLAN_APPROVED | PLAN_REJECTED

  datatype MessageStatus = PENDING | FAILED

  datatype Message = Message(
    org: Id, recipient: Id, channel: Channel, destination: Option<string>, kind: MessageType,
    status: MessageStatus, availableAt: Time)

  /** Everything a transaction can see. */
  datatype Db = Db(
    members: seq<Membership>, identities: seq<Identity>, works: map<Id, WorkItem>, events: seq<TaskEvent>,
    plans: map<Id, Plan>, items: map<Id, PlanItem>, approvals: seq<Approval>, audit: seq<AuditEvent>,
    outbox: seq<Message>)

  // --- memberships -------------------------------------------------------------------------

  function FindMember(members: seq<Membership>, id: Id): (r: Option<Membership>)
    ensures r.Some? ==> r.value in members && r.value.id == id
    ensures r.None? <==> forall m | m in members :: m.id != id
  {
    if members == [] then None
    else if members[0].id == id then Some(members[0])
    else FindMember(members[1..], id)
  }

  /** The target of every composite (membership, organization) foreign key. */
  predicate InOrg(members: seq<Membership>, id: Id, org: Id) {
    exists m | m in members :: m.id == id && m.org == org
  }

  predicate InOrgIfAny(members: seq<Membership>, id: Option<Id>, org: Id) {
    id.Some? ==> InOrg(members, id.value, org)
  }

  /** Primary key, one seat per person and organization, managers inside the organization. */
  ghost predicate MembersOk(members: seq<Membership>) {
    && (forall i, j | 0 <= i < j < |members| :: members[i].id != members[j].id)
    && (forall i, j | 0 <= i < j < |members| ::
          !(members[i].org == members[j].org && members[i].user == members[j].user))
    && (forall m {:trigger ManagerFits(members, m)} | m in members :: ManagerFits(members, m))
  }

  predicate ManagerFits(members: seq<Membership>, m: Membership) {
    m.manager.Some? ==> InOrg(members, m.manager.value, m.org) && m.manager.value != m.id
  }

  lemma MemberIsUnique(members: seq<Membership>, m: Membership)
    requires MembersOk(members) && m in members
    ensures FindMember(members, m.id) == Some(m)
  {
    var r := FindMember(members, m.id).value;
    var i :| 0 <= i < |members| && members[i] == m;
    var j :| 0 <= j < |members| && members[j] == r;
  }

  // --- work items --------------------------------------------------------------------------

  function AllowedParent(kind: WorkItemType): Option<WorkItemType> {
    match kind
    case INITIATIVE => None
    case RESPONSIBILITY => Some(INITIATIVE)
    case TASK => Some(RESPONSIBILITY)
  }

  function TakenWorkCodes(works: map<Id, WorkItem>, org: Id): set<string> {
    set w | w in works && works[w].org == org :: works[w].code
  }

  /** Strict nesting: an initiative on its own, everything else under an item of the kind above. */
  ghost predicate ParentFits(works: map<Id, WorkItem>, w: WorkItem) {
    match AllowedParent(w.kind)
    case None => w.parent.None?
    case Some(k) =>
      w.parent.Some? && w.parent.value in works &&
      works[w.parent.value].kind == k && works[w.parent.value].org == w.org
  }

  ghost predicate Nested(works: map<Id, WorkItem>) {
    && (forall w | w in works :: works[w].id == w)
    && (forall w {:trigger ParentFits(works, works[w])} | w in works :: ParentFits(works, works[w]))
  }

  ghost predicate WorkCodesUnique(works: map<Id, WorkItem>) {
    forall v, w | v in works && w in works && v != w && works[v].org == works[w].org ::
      works[v].code != works[w].code
  }

  /** Nesting, codes unique per organization, trimmed titles, owners and creators inside the organization. */
  ghost predicate WorksOk(members: seq<Membership>, works: map<Id, WorkItem>) {
    && Nested(works)
    && WorkCodesUnique(works)
    && (forall w | w in works ::
          && InOrg(members, works[w].createdBy, works[w].org) && InOrgIfAny(members, works[w].owner, works[w].org)
          && Stripped(works[w].title))
  }

  // --- plans -------------------------------------------------------------------------------

  predicate Editable(status: PlanStatus) {
    status == DRAFT || status == PENDING_APPROVAL
  }

  function TakenPlanCodes(plans: map<Id, Plan>, org: Id): set<string> {
    set p | p in plans && plans[p].org == org :: plans[p].code
  }

  predicate OpenPlanOn(plans: map<Id, Plan>, scope: Id) {
    exists p | p in plans :: plans[p].scope == scope && Editable(plans[p].status)
  }

  ghost predicate PlanOk(members: seq<Membership>, works: map<Id, WorkItem>, p: Plan) {
    && p.scope in works && works[p.scope].kind == RESPONSIBILITY && works[p.scope].org == p.org
    && InOrg(members, p.createdBy, p.org)
    && InOrgIfAny(members, p.approver, p.org)
    && (p.status != DRAFT ==> p.approver.Some? && p.submittedAt.Some?)
    && (p.status == APPROVED <==> p.approvedAt.Some?)
  }

  /** The partial unique index: at most one plan in flight per responsibility. */
  ghost predicate OneOpenPerScope(plans: map<Id, Plan>) {
    forall p, q | p in plans && q in plans && p != q && plans[p].scope == plans[q].scope ::
      !(Editable(plans[p].status) && Editable(plans[q].status))
  }

  ghost predicate PlanCodesUnique(plans: map<Id, Plan>) {
    forall p, q | p in plans && q in plans && p != q && plans[p].org == plans[q].org ::
      plans[p].code != plans[q].code
  }

  ghost predicate PlansOk(members: seq<Membership>, works: map<Id, WorkItem>, plans: map<Id, Plan>) {
    && (forall p | p in plans :: plans[p].id == p && PlanOk(members, works, plans[p]))
    && OneOpenPerScope(plans)
    && PlanCodesUnique(plans)
  }

  // --- plan items --------------------------------------------------------------------------

  /** A parent in the same plan, placed earlier. */
  ghost predicate ParentFirst(items: map<Id, PlanItem>, x: PlanItem) {
    x.parent.Some? ==>
      var up := x.parent.value;
      up in items && items[up].plan == x.plan && items[up].sort < x.sort
  }

  ghost predicate ParentsFirst(items: map<Id, PlanItem>) {
    forall i {:trigger ParentFirst(items, items[i])} | i in items :: ParentFirst(items, items[i])
  }

  ghost predicate SortsDistinct(items: map<Id, PlanItem>) {
    forall i, j | i in items && j in items && i != j && items[i].plan == items[j].plan ::
      items[i].sort != items[j].sort
  }

  ghost predicate ItemOk(members: seq<Membership>, plans: map<Id, Plan>, x: PlanItem) {
    && x.plan in plans && x.org == plans[x.plan].org
    && x.kind == TASK && Stripped(x.title)
    && InOrgIfAny(members, x.assignee, x.org)
  }

  ghost predicate ItemsOk(members: seq<Membership>, plans: map<Id, Plan>, items: map<Id, PlanItem>) {
    && (forall i | i in items :: items[i].id == i && ItemOk(members, plans, items[i]))
    && ParentsFirst(items)
    && SortsDistinct(items)
  }

  /** The row-level invariant of every reachable database. */
  ghost predicate Consistent(db: Db) {
    && MembersOk(db.members)
    && WorksOk(db.members, db.works)
    && PlansOk(db.members, db.works, db.plans)
    && ItemsOk(db.members, db.plans, db.items)
  }

  // --- the session -------------------------------------------------------------------------

  /** The unit of work every domain service is handed; its fields are the tables as it sees them. */
  class Session {
    var members: seq<Membership>
    var identities: seq<Identity>
    var works: map<Id, WorkItem>
    var events: seq<TaskEvent>
    var plans: map<Id, Plan>
    var items: map<Id, PlanItem>
    var approvals: seq<Approval>
    var audit: seq<AuditEvent>
    var outbox: seq<Message>

    constructor (db: Db)
      ensures Tables() == db
    {
      members, identities, works, events := db.members, db.identities, db.works, db.events;
      plans, items, approvals, audit, outbox := db.plans, db.items, db.approvals, db.audit, db.outbox;
    }

    function Tables(): Db
      reads this
    {
      Db(members, identities, works, events, plans, items, approvals, audit, outbox)
    }

    /** What an exception leaving the transaction does: back to the state it started from. */
    method Rollback(saved: Db)
      modifies this
      ensures Tables() == saved
    {
      members, identities, works, events := saved.members, saved.identities, saved.works, saved.events;
      plans, items, approvals, audit, outbox :=
        saved.plans, saved.items, saved.approvals, saved.audit, saved.outbox;
    }
  }
}
