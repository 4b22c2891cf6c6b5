/**
 Any number of approve and reject transactions at once, cut up at every point where the others can
 be noticed: waiting for the row lock, re-reading the row under it, checking, creating one task at
 a time against whatever has been committed meanwhile, and committing.
 */
module Interleaving {
  import opened Common
  import opened Schema
  import opened PlanItems
  import opened Approval
  import opened Ledger
  import Permissions
  import Runs
  import Work

  // --- transactions ------------------------------------------------------------------------

  datatype Answer = Committed | Repeated | Failed(error: Error)

  /** `seen` holds, for each code drawn, the committed codes the draw was checked against. */
  datatype Phase =
    | Waiting
    | Locked(row: Plan)
    | Writing(row: Plan, items: seq<PlanItem>, scope: Option<WorkItem>, seen: seq<set<string>>, codes: seq<string>)
    | Done(answer: Answer)

  datatype Tx = Tx(decision: Decision, req: Request, phase: Phase)

  /** Committed tables, who holds which plan row, and where each transaction is. */
  datatype Config = Config(db: Db, locks: map<Id, nat>, txs: map<nat, Tx>)

  datatype Act =
    | Begin(t: nat, decision: Decision, req: Request)
    | Lock(t: nat)
    | Check(t: nat)
    | CreateNext(t: nat)
    | Commit(t: nat)
    | Abort(t: nat, error: Error)

  predicate Holding(phase: Phase) {
    phase.Locked? || phase.Writing?
  }

  function Lookup(works: map<Id, WorkItem>, id: Id): Option<WorkItem> {
    if id in works then Some(works[id]) else None
  }

  function Moved(c: Config, t: nat, phase: Phase): Config
    requires t in c.txs
  {
    c.(txs := c.txs[t := c.txs[t].(phase := phase)])
  }

  /** The end of a transaction lets go of its row. */
  function Ended(c: Config, t: nat, answer: Answer): Config
    requires t in c.txs
  {
    var next := Moved(c, t, Done(answer));
    if Holding(c.txs[t].phase) then next.(locks := c.locks - {c.txs[t].req.plan}) else next
  }

  /** `SELECT ... FOR UPDATE`: wait, or take the lock and read what the row says now. */
  function Locks(c: Config, t: nat): Config
    requires t in c.txs
  {
    var plan := c.txs[t].req.plan;
    if plan !in c.db.plans then Ended(c, t, Failed(PlanNotFound))
    else if plan in c.locks then c
    else Moved(c, t, Locked(c.db.plans[plan])).(locks := c.locks[plan := t])
  }

  ghost function Checks(c: Config, t: nat, row: Plan): Config
    requires t in c.txs
  {
    var tx := c.txs[t];
    match CheckRow(row, tx.decision, tx.req)
    case AlreadyDecided => Ended(c, t, Repeated)
    case Refused(error) => Ended(c, t, Failed(error))
    case Proceed =>
      var items := if tx.decision == APPROVE then Listing(c.db.items, tx.req.plan) else [];
      Moved(c, t, Writing(row, items, Lookup(c.db.works, row.scope), [], []))
  }

  /** One turn of `_materialise`, against the codes committed by now and its own. */
  function Creates(c: Config, t: nat): Config
    requires t in c.txs && c.txs[t].phase.Writing?
  {
    var tx, ph := c.txs[t], c.txs[t].phase;
    var n := |ph.codes|;
    if n >= |ph.items| then c
    else if ph.items[n].parent.Some? || !Work.PlacementOk(TASK, ph.scope, ph.row.org) then
      Ended(c, t, Failed(InvalidStructure))
    else
      var taken := TakenWorkCodes(c.db.works, ph.row.org);
      match FirstFree(taken + Elements(ph.codes), tx.req.draws(n).codes)
      case None => Ended(c, t, Failed(CodeExhausted))
      case Some(code) => Moved(c, t, ph.(seen := ph.seen + [taken], codes := ph.codes + [code]))
  }

  function WrittenBy(db: Db, tx: Tx): Writes
    requires tx.phase.Writing? && |tx.phase.codes| == |tx.phase.items|
  {
    var row, req := tx.phase.row, tx.req;
    var tasks := TasksFor(row, tx.phase.items, req.draws, tx.phase.codes);
    var kind := if tx.decision == APPROVE then PLAN_APPROVED else PLAN_REJECTED;
    WritesFor(row, tx.decision, req, tasks,
              AssignmentsFor(db.members, db.identities, row.org, tasks, req.now) +
              NoticeFor(db.members, db.identities, row, req.actor.member, kind, req.now))
  }

  /** The constraints the tables hold a transaction to when its rows become everyone's. */
  ghost predicate Accepted(db: Db, tx: Tx)
    requires tx.phase.Writing?
  {
    && Recordable(db, tx.phase.row, tx.decision, tx.req.actor.member)
    && (forall x | x in tx.phase.items :: x.assignee.Some?)
    && IdsFree(db.works, tx.req.draws, |tx.phase.items|)
    && (forall x | x in tx.phase.codes :: x !in TakenWorkCodes(db.works, tx.phase.row.org))
  }

  ghost function Commits(c: Config, t: nat): Config
    requires t in c.txs && c.txs[t].phase.Writing?
  {
    var tx := c.txs[t];
    if |tx.phase.codes| != |tx.phase.items| then c
    else if Accepted(c.db, tx) then Ended(c, t, Committed).(db := Apply(c.db, WrittenBy(c.db, tx)))
    else Ended(c, t, Failed(IntegrityError))
  }

  /** What one act of one transaction does; an act out of turn does nothing. */
  ghost function After(c: Config, a: Act): Config {
    match a
    case Begin(t, decision, req) => if t in c.txs then c else c.(txs := c.txs[t := Tx(decision, req, Waiting)])
    case Lock(t) => if t in c.txs && c.txs[t].phase.Waiting? then Locks(c, t) else c
    case Check(t) => if t in c.txs && c.txs[t].phase.Locked? then Checks(c, t, c.txs[t].phase.row) else c
    case CreateNext(t) => if t in c.txs && c.txs[t].phase.Writing? then Creates(c, t) else c
    case Commit(t) => if t in c.txs && c.txs[t].phase.Writing? then Commits(c, t) else c
    case Abort(t, error) => if t in c.txs && !c.txs[t].phase.Done? then Ended(c, t, Failed(error)) else c
  }

  // --- the invariant -----------------------------------------------------------------------

  /** A row is locked by exactly the transaction that is between locking and ending on it. */
  ghost predicate LocksOk(locks: map<Id, nat>, txs: map<nat, Tx>) {
    && (forall p | p in locks :: locks[p] in txs && txs[locks[p]].req.plan == p && Holding(txs[locks[p]].phase))
    && (forall t | t in txs && Holding(txs[t].phase) :: txs[t].req.plan in locks && locks[txs[t].req.plan] == t)
  }

  ghost predicate DrawnAt(draws: nat -> Draw, seen: set<string>, codes: seq<string>, k: nat)
    requires k < |codes|
  {
    FirstFree(seen + Elements(codes[..k]), draws(k).codes) == Some(codes[k])
  }

  /** Each code was free of what was committed when it was drawn, and nothing committed since has left. */
  ghost predicate Drawn(taken: set<string>, draws: nat -> Draw, seen: seq<set<string>>, codes: seq<string>) {
    && |seen| == |codes|
    && forall k: nat | k < |codes| :: seen[k] <= taken && DrawnAt(draws, seen[k], codes, k)
  }

  /** What a transaction remembers having read is still so. */
  ghost predicate TxOk(db: Db, tx: Tx) {
    match tx.phase
    case Waiting => true
    case Locked(row) => tx.req.plan in db.plans && row == db.plans[tx.req.plan]
    case Writing(row, items, scope, seen, codes) =>
      && tx.req.plan in db.plans && row == db.plans[tx.req.plan]
      && CheckRow(row, tx.decision, tx.req) == Proceed
      && items == (if tx.decision == APPROVE then Listing(db.items, tx.req.plan) else [])
      && scope == Lookup(db.works, row.scope)
      && |codes| <= |items| && Flat(items, |codes|)
      && (codes != [] ==> Work.PlacementOk(TASK, scope, row.org))
      && Drawn(TakenWorkCodes(db.works, row.org), tx.req.draws, seen, codes)
    case Done(answer) =>
      answer.Failed? || (tx.req.plan in db.plans && db.plans[tx.req.plan].status == Decided(tx.decision))
  }

  predicate CommittedOn(tx: Tx, plan: Id) {
    tx.phase == Done(Committed) && tx.req.plan == plan
  }

  /** No plan is committed on twice. */
  ghost predicate OneWriter(txs: map<nat, Tx>) {
    forall s, t | s in txs && t in txs && s != t && CommittedOn(txs[s], txs[s].req.plan) ::
      !CommittedOn(txs[t], txs[s].req.plan)
  }

  ghost predicate WrittenOn(txs: map<nat, Tx>, p: Id) {
    exists t :: t in txs && CommittedOn(txs[t], p)
  }

  /** No plan has changed but those, open at the start, that somebody committed on. */
  ghost predicate Explained(start: map<Id, Plan>, now: map<Id, Plan>, txs: map<nat, Tx>) {
    && now.Keys == start.Keys
    && (forall p | p in start && now[p] != start[p] :: Editable(start[p].status) && WrittenOn(txs, p))
    && (forall t | t in txs && txs[t].phase == Done(Committed) ::
          txs[t].req.plan in start && Editable(start[txs[t].req.plan].status))
  }

  ghost predicate Safe(start: Db, c: Config) {
    && Inv(c.db)
    && LocksOk(c.locks, c.txs)
    && (forall t | t in c.txs :: TxOk(c.db, c.txs[t]))
    && OneWriter(c.txs)
    && Explained(start.plans, c.db.plans, c.txs)
  }

  // --- a commit is a serial call -----------------------------------------------------------

  /** Codes drawn against older tables are the codes a single loop would draw now, if they are still free. */
  lemma {:induction false} DrawnIsFresh(
    taken: set<string>, draws: nat -> Draw, seen: seq<set<string>>, codes: seq<string>, n: nat)
    requires Drawn(taken, draws, seen, codes) && n <= |codes|
    requires forall x | x in codes :: x !in taken
    ensures CodesFor(taken, draws, n) == Some(codes[..n])
    decreases n
  {
    hide FirstFree, Elements;
    if n > 0 {
      DrawnIsFresh(taken, draws, seen, codes, n - 1);
      assert DrawnAt(draws, seen[n - 1], codes, n - 1);
      var before := Elements(codes[..n - 1]);
      FirstFreeStable(seen[n - 1] + before, taken + before, draws(n - 1).codes);
      assert codes[..n] == codes[..n - 1] + [codes[n - 1]];
    }
  }

  lemma WritingIsPlaceable(db: Db, tx: Tx)
    requires tx.phase.Writing? && TxOk(db, tx) && tx.decision == APPROVE && |tx.phase.codes| == |tx.phase.items|
    requires forall x | x in tx.phase.items :: x.assignee.Some?
    requires tx.phase.row.id == tx.req.plan && tx.phase.row.scope in db.works
    ensures Placeable(db, tx.phase.row)
  {
    hide CheckRow, Drawn, Listing;
    FlatItems(tx.phase.items);
  }

  /** A rejection creates nothing, so it tells no assignee. */
  lemma NobodyAssigned(db: Db, tx: Tx)
    requires tx.phase.Writing? && tx.phase.items == [] && tx.phase.codes == []
    ensures TasksFor(tx.phase.row, tx.phase.items, tx.req.draws, tx.phase.codes) == []
    ensures AssignmentsFor(db.members, db.identities, tx.phase.row.org, [], tx.req.now) == []
  {}

  /** What commits is what the same call would have done alone, on the tables as they are at that moment. */
  lemma CommitIsSerial(db: Db, tx: Tx)
    requires Decidable(db, tx.req.plan)
    requires tx.phase.Writing? && TxOk(db, tx) && |tx.phase.codes| == |tx.phase.items| && Accepted(db, tx)
    ensures Goes(db, tx.decision, tx.req) && WrittenBy(db, tx) == WritesOf(db, tx.decision, tx.req)
  {
    hide CheckRow, Recordable, Drawn, Listing, IdsFree, Proposal, TakenWorkCodes, AssignmentsFor, NoticeFor;
    if tx.decision == APPROVE {
      WritingIsPlaceable(db, tx);
      var codes := tx.phase.codes;
      DrawnIsFresh(TakenWorkCodes(db.works, tx.phase.row.org), tx.req.draws, tx.phase.seen, codes, |codes|);
      assert codes[..|codes|] == codes;
    } else {
      NobodyAssigned(db, tx);
    }
  }

  // --- every act keeps it ------------------------------------------------------------------

  /** The answers `Committed` given before are still given. */
  ghost predicate KeepsWriters(txs: map<nat, Tx>, after: map<nat, Tx>) {
    forall t | t in txs && txs[t].phase == Done(Committed) :: t in after && after[t] == txs[t]
  }

  ghost predicate AddsNoWriter(txs: map<nat, Tx>, after: map<nat, Tx>) {
    forall t | t in after && after[t].phase == Done(Committed) :: t in txs && after[t] == txs[t]
  }

  lemma WriterStays(txs: map<nat, Tx>, after: map<nat, Tx>, p: Id)
    requires WrittenOn(txs, p) && KeepsWriters(txs, after)
    ensures WrittenOn(after, p)
  {
    var t :| t in txs && CommittedOn(txs[t], p);
    assert CommittedOn(after[t], p);
  }

  lemma StillExplained(start: map<Id, Plan>, now: map<Id, Plan>, txs: map<nat, Tx>, after: map<nat, Tx>)
    requires Explained(start, now, txs) && OneWriter(txs) && KeepsWriters(txs, after) && AddsNoWriter(txs, after)
    ensures Explained(start, now, after) && OneWriter(after)
  {
    hide WrittenOn;
    forall p | p in start && now[p] != start[p]
      ensures WrittenOn(after, p)
    {
      WriterStays(txs, after, p);
    }
  }

  /** Any act that leaves the tables alone and ends or advances one unfinished transaction. */
  lemma QuietKeeps(start: Db, c: Config, after: Config, t: nat, phase: Phase)
    requires Safe(start, c) && t in c.txs && !c.txs[t].phase.Done? && phase != Done(Committed)
    requires after == Moved(c, t, phase).(locks := after.locks)
    requires TxOk(c.db, after.txs[t]) && LocksOk(after.locks, after.txs)
    ensures Safe(start, after)
  {
    hide Inv, TxOk, LocksOk, OneWriter, Explained;
    StillExplained(start.plans, c.db.plans, c.txs, after.txs);
  }

  lemma EndedUnlocks(c: Config, t: nat, answer: Answer)
    requires LocksOk(c.locks, c.txs) && t in c.txs && !c.txs[t].phase.Done?
    ensures LocksOk(Ended(c, t, answer).locks, Ended(c, t, answer).txs)
  {}

  lemma FailedKeeps(start: Db, c: Config, t: nat, error: Error)
    requires Safe(start, c) && t in c.txs && !c.txs[t].phase.Done?
    ensures Safe(start, Ended(c, t, Failed(error)))
  {
    hide Inv, OneWriter, Explained, LocksOk, TxOk;
    EndedUnlocks(c, t, Failed(error));
    assert TxOk(c.db, Ended(c, t, Failed(error)).txs[t]) by { FailedOk(c.db, c.txs[t], error); }
    QuietKeeps(start, c, Ended(c, t, Failed(error)), t, Done(Failed(error)));
  }

  lemma FailedOk(db: Db, tx: Tx, error: Error)
    ensures TxOk(db, tx.(phase := Done(Failed(error))))
  {}

  lemma BeginKeeps(start: Db, c: Config, t: nat, d: Decision, req: Request)
    requires Safe(start, c) && t !in c.txs
    ensures Safe(start, c.(txs := c.txs[t := Tx(d, req, Waiting)]))
  {
    hide Inv, TxOk, OneWriter, Explained, LocksOk;
    var tx := Tx(d, req, Waiting);
    WaitingOk(c.db, tx);
    BeginUnlocked(c, t, tx);
    StillExplained(start.plans, c.db.plans, c.txs, c.txs[t := tx]);
  }

  lemma WaitingOk(db: Db, tx: Tx)
    requires tx.phase == Waiting
    ensures TxOk(db, tx)
  {}

  lemma BeginUnlocked(c: Config, t: nat, tx: Tx)
    requires LocksOk(c.locks, c.txs) && t !in c.txs && tx.phase == Waiting
    ensures LocksOk(c.locks, c.txs[t := tx])
  {}

  lemma LockKeeps(start: Db, c: Config, t: nat)
    requires Safe(start, c) && t in c.txs && c.txs[t].phase.Waiting?
    ensures Safe(start, Locks(c, t))
  {
    hide Inv, OneWriter, Explained;
    var plan, after := c.txs[t].req.plan, Locks(c, t);
    if plan !in c.db.plans {
      FailedKeeps(start, c, t, PlanNotFound);
    } else if plan !in c.locks {
      QuietKeeps(start, c, after, t, Locked(c.db.plans[plan]));
    }
  }

  /** Moving on with the lock in hand. */
  lemma StillHolding(c: Config, t: nat, phase: Phase)
    requires LocksOk(c.locks, c.txs) && t in c.txs && Holding(c.txs[t].phase) && Holding(phase)
    ensures LocksOk(Moved(c, t, phase).locks, Moved(c, t, phase).txs)
  {}

  lemma WritingStarts(db: Db, tx: Tx, row: Plan, items: seq<PlanItem>)
    requires tx.phase == Locked(row) && TxOk(db, tx) && CheckRow(row, tx.decision, tx.req) == Proceed
    requires items == if tx.decision == APPROVE then Listing(db.items, tx.req.plan) else []
    ensures TxOk(db, tx.(phase := Writing(row, items, Lookup(db.works, row.scope), [], [])))
  {
    hide CheckRow, Listing, FirstFree, TakenWorkCodes, Work.PlacementOk;
  }

  lemma RepeatOk(db: Db, tx: Tx, row: Plan)
    requires tx.phase == Locked(row) && TxOk(db, tx) && CheckRow(row, tx.decision, tx.req) == AlreadyDecided
    ensures TxOk(db, tx.(phase := Done(Repeated)))
  {}

  lemma CheckKeeps(start: Db, c: Config, t: nat)
    requires Safe(start, c) && t in c.txs && c.txs[t].phase.Locked?
    ensures Safe(start, Checks(c, t, c.txs[t].phase.row))
  {
    hide Inv, OneWriter, Explained, LocksOk, TxOk, CheckRow, Listing;
    var tx, row := c.txs[t], c.txs[t].phase.row;
    var after := Checks(c, t, row);
    match CheckRow(row, tx.decision, tx.req)
    case Refused(error) => FailedKeeps(start, c, t, error);
    case AlreadyDecided =>
      RepeatOk(c.db, tx, row);
      EndedUnlocks(c, t, Repeated);
      QuietKeeps(start, c, after, t, Done(Repeated));
    case Proceed =>
      WritingStarts(c.db, tx, row, if tx.decision == APPROVE then Listing(c.db.items, tx.req.plan) else []);
      StillHolding(c, t, after.txs[t].phase);
      QuietKeeps(start, c, after, t, after.txs[t].phase);
  }

  lemma DrawnGrows(taken: set<string>, draws: nat -> Draw, seen: seq<set<string>>, codes: seq<string>, code: string)
    requires Drawn(taken, draws, seen, codes)
    requires FirstFree(taken + Elements(codes), draws(|codes|).codes) == Some(code)
    ensures Drawn(taken, draws, seen + [taken], codes + [code])
  {
    hide FirstFree, Elements;
    forall k: nat | k < |codes| + 1
      ensures (seen + [taken])[k] <= taken && DrawnAt(draws, (seen + [taken])[k], codes + [code], k)
    {
      assert (codes + [code])[..k] == codes[..k];
      if k < |codes| {
        assert DrawnAt(draws, seen[k], codes, k);
      } else {
        assert codes[..k] == codes;
      }
    }
  }

  lemma WritingGoesOn(db: Db, tx: Tx, code: string)
    requires tx.phase.Writing? && TxOk(db, tx) && |tx.phase.codes| < |tx.phase.items|
    requires tx.phase.items[|tx.phase.codes|].parent.None? && Work.PlacementOk(TASK, tx.phase.scope, tx.phase.row.org)
    requires FirstFree(TakenWorkCodes(db.works, tx.phase.row.org) + Elements(tx.phase.codes),
                       tx.req.draws(|tx.phase.codes|).codes) == Some(code)
    ensures var taken := TakenWorkCodes(db.works, tx.phase.row.org);
            TxOk(db, tx.(phase := tx.phase.(seen := tx.phase.seen + [taken], codes := tx.phase.codes + [code])))
  {
    hide CheckRow, Listing, Drawn, FirstFree, Elements, TakenWorkCodes, Work.PlacementOk;
    DrawnGrows(TakenWorkCodes(db.works, tx.phase.row.org), tx.req.draws, tx.phase.seen, tx.phase.codes, code);
  }

  lemma CreateKeeps(start: Db, c: Config, t: nat)
    requires Safe(start, c) && t in c.txs && c.txs[t].phase.Writing?
    ensures Safe(start, Creates(c, t))
  {
    hide Inv, OneWriter, Explained, LocksOk, TxOk, FirstFree, Elements, TakenWorkCodes, Work.PlacementOk;
    var tx, ph, after := c.txs[t], c.txs[t].phase, Creates(c, t);
    var n := |ph.codes|;
    if n < |ph.items| {
      if after.txs[t].phase.Done? {
        FailedKeeps(start, c, t, after.txs[t].phase.answer.error);
      } else {
        WritingGoesOn(c.db, tx, after.txs[t].phase.codes[n]);
        StillHolding(c, t, after.txs[t].phase);
        QuietKeeps(start, c, after, t, after.txs[t].phase);
      }
    }
  }

  /** What a commit changes for everybody else: one plan they do not hold, and more work. */
  ghost predicate CommitsTo(db: Db, after: Db, plan: Id, d: Decision) {
    && plan in db.plans && db.plans[plan].status == PENDING_APPROVAL
    && after.plans.Keys == db.plans.Keys && after.plans[plan].status == Decided(d)
    && (forall p | p in db.plans && p != plan :: after.plans[p] == db.plans[p])
    && after.items == db.items
    && (forall w | w in db.works :: w in after.works && after.works[w] == db.works[w])
  }

  lemma TakenGrows(before: map<Id, WorkItem>, after: map<Id, WorkItem>, org: Id)
    requires forall w | w in before :: w in after && after[w] == before[w]
    ensures TakenWorkCodes(before, org) <= TakenWorkCodes(after, org)
  {
    forall x | x in TakenWorkCodes(before, org)
      ensures x in TakenWorkCodes(after, org)
    {
      var w :| w in before && before[w].org == org && before[w].code == x;
      assert after[w] == before[w];
    }
  }

  lemma TxSurvives(db: Db, after: Db, plan: Id, d: Decision, tx: Tx)
    requires CommitsTo(db, after, plan, d) && TxOk(db, tx)
    requires Holding(tx.phase) ==> tx.req.plan != plan
    requires forall p | p in db.plans :: db.plans[p].scope in db.works
    ensures TxOk(after, tx)
  {
    hide CheckRow, Listing, FirstFree, Work.PlacementOk, DrawnAt, TakenWorkCodes;
    if tx.phase.Writing? {
      TakenGrows(db.works, after.works, tx.phase.row.org);
    }
  }

  lemma CommitMoves(db: Db, d: Decision, req: Request)
    requires Goes(db, d, req) && db.plans[req.plan].id == req.plan
    ensures CommitsTo(db, Apply(db, WritesOf(db, d, req)), req.plan, d)
  {
    hide Placeable, Drawable, Recordable, Permissions.Can, AddTasks, FreshTasks, AssignmentsFor, NoticeFor,
      TasksFor;
    WritesAreFresh(db, d, req);
    AddTasksFrame(db, WritesOf(db, d, req).tasks);
  }

  /** Whoever has committed on a plan has decided it. */
  lemma PendingIsUncommitted(db: Db, txs: map<nat, Tx>, plan: Id)
    requires forall u | u in txs :: TxOk(db, txs[u])
    requires plan in db.plans && db.plans[plan].status == PENDING_APPROVAL
    ensures forall u | u in txs :: !CommittedOn(txs[u], plan)
  {
    hide CheckRow, Listing, Drawn, Flat, Work.PlacementOk;
    forall u | u in txs
      ensures !CommittedOn(txs[u], plan)
    {
      assert TxOk(db, txs[u]);
    }
  }

  lemma CommitExplained(start: Db, c: Config, after: Config, t: nat)
    requires Explained(start.plans, c.db.plans, c.txs) && OneWriter(c.txs)
    requires t in c.txs && forall u | u in c.txs :: TxOk(c.db, c.txs[u])
    requires !c.txs[t].phase.Done? && CommitsTo(c.db, after.db, c.txs[t].req.plan, c.txs[t].decision)
    requires after.txs == c.txs[t := c.txs[t].(phase := Done(Committed))]
    ensures Explained(start.plans, after.db.plans, after.txs) && OneWriter(after.txs)
  {
    hide TxOk, WrittenOn;
    var plan := c.txs[t].req.plan;
    PendingIsUncommitted(c.db, c.txs, plan);
    WritesOn(after.txs, t);
    forall p | p in start.plans && after.db.plans[p] != start.plans[p]
      ensures WrittenOn(after.txs, p)
    {
      if p != plan {
        WriterStays(c.txs, after.txs, p);
      }
    }
  }

  lemma WritesOn(txs: map<nat, Tx>, t: nat)
    requires t in txs && txs[t].phase == Done(Committed)
    ensures WrittenOn(txs, txs[t].req.plan)
  {
    assert CommittedOn(txs[t], txs[t].req.plan);
  }

  lemma PlansInPlace(db: Db)
    requires Inv(db)
    ensures Consistent(db) && forall p | p in db.plans :: db.plans[p].id == p && db.plans[p].scope in db.works
  {
    hide Work.EventsOk, DecisionsOk, CreationsOk, MailOk, MembersOk, WorksOk, ItemsOk;
    forall p | p in db.plans
      ensures db.plans[p].scope in db.works
    {
      assert PlanOk(db.members, db.works, db.plans[p]);
    }
  }

  lemma CommitKeeps(start: Db, c: Config, t: nat)
    requires Safe(start, c) && t in c.txs && c.txs[t].phase.Writing?
    requires |c.txs[t].phase.codes| == |c.txs[t].phase.items| && Accepted(c.db, c.txs[t])
    ensures Safe(start, Commits(c, t))
    ensures Goes(c.db, c.txs[t].decision, c.txs[t].req)
    ensures Commits(c, t).db == Apply(c.db, WritesOf(c.db, c.txs[t].decision, c.txs[t].req))
  {
    hide Inv, Consistent, OneWriter, Explained, LocksOk, TxOk, Goes, WritesOf, WrittenBy, Accepted, Apply,
      CommitsTo, Decidable;
    var tx, after := c.txs[t], Commits(c, t);
    var plan := tx.req.plan;
    PlansInPlace(c.db);
    PlansAreDecidable(c.db, plan);
    CommitIsSerial(c.db, tx);
    DecideKeeps(c.db, tx.decision, tx.req);
    RowIsKeyed(c.db, tx.decision, tx.req);
    CommitMoves(c.db, tx.decision, tx.req);
    EndedUnlocks(c, t, Committed);
    CommitExplained(start, c, after, t);
    OthersSurvive(c, after, t);
  }

  lemma OthersSurvive(c: Config, after: Config, t: nat)
    requires LocksOk(c.locks, c.txs) && t in c.txs && Holding(c.txs[t].phase)
    requires forall u | u in c.txs :: TxOk(c.db, c.txs[u])
    requires CommitsTo(c.db, after.db, c.txs[t].req.plan, c.txs[t].decision)
    requires after.txs == c.txs[t := c.txs[t].(phase := Done(Committed))]
    requires forall p | p in c.db.plans :: c.db.plans[p].scope in c.db.works
    ensures forall u | u in after.txs :: TxOk(after.db, after.txs[u])
  {
    hide CommitsTo, TxOk;
    forall u | u in after.txs
      ensures TxOk(after.db, after.txs[u])
    {
      if u == t {
        CommittedOk(c.db, after.db, c.txs[t]);
      } else {
        TxSurvives(c.db, after.db, c.txs[t].req.plan, c.txs[t].decision, c.txs[u]);
      }
    }
  }

  lemma CommittedOk(db: Db, after: Db, tx: Tx)
    requires CommitsTo(db, after, tx.req.plan, tx.decision)
    ensures TxOk(after, tx.(phase := Done(Committed)))
  {}

  /** Every act of every transaction keeps the invariant, whatever the others are doing. */
  lemma AfterKeeps(start: Db, c: Config, a: Act)
    requires Safe(start, c)
    ensures Safe(start, After(c, a))
  {
    hide Safe, Locks, Checks, Creates, Accepted;
    match a
    case Begin(t, d, req) =>
      if t !in c.txs {
        BeginKeeps(start, c, t, d, req);
      }
    case Lock(t) =>
      if t in c.txs && c.txs[t].phase.Waiting? {
        LockKeeps(start, c, t);
      }
    case Check(t) =>
      if t in c.txs && c.txs[t].phase.Locked? {
        CheckKeeps(start, c, t);
      }
    case CreateNext(t) =>
      if t in c.txs && c.txs[t].phase.Writing? {
        CreateKeeps(start, c, t);
      }
    case Commit(t) =>
      if t in c.txs && c.txs[t].phase.Writing? && |c.txs[t].phase.codes| == |c.txs[t].phase.items| {
        if Accepted(c.db, c.txs[t]) {
          CommitKeeps(start, c, t);
        } else {
          FailedKeeps(start, c, t, IntegrityError);
        }
      }
    case Abort(t, error) =>
      if t in c.txs && !c.txs[t].phase.Done? {
        FailedKeeps(start, c, t, error);
      }
  }

  // --- whole runs --------------------------------------------------------------------------

  /** Any transactions, any number of them, in any order of acts, from a database that is in order. */
  ghost predicate Interleaved(configs: seq<Config>, acts: seq<Act>) {
    && |configs| == |acts| + 1
    && Inv(configs[0].db) && configs[0].locks == map[] && configs[0].txs == map[]
    && forall i | 0 <= i < |acts| :: configs[i + 1] == After(configs[i], acts[i])
  }

  lemma {:induction false} AlwaysSafe(configs: seq<Config>, acts: seq<Act>, n: nat)
    requires Interleaved(configs, acts) && n < |configs|
    ensures Safe(configs[0].db, configs[n])
  {
    hide Inv, After;
    if n > 0 {
      AlwaysSafe(configs, acts, n - 1);
      AfterKeeps(configs[0].db, configs[n - 1], acts[n - 1]);
    }
  }

  /** The act is a commit that goes through. */
  ghost predicate TakesEffect(c: Config, a: Act) {
    && a.Commit? && a.t in c.txs && c.txs[a.t].phase.Writing?
    && |c.txs[a.t].phase.codes| == |c.txs[a.t].phase.items| && Accepted(c.db, c.txs[a.t])
  }

  /** The transactions that committed, in the order they did. */
  ghost function CommitOrder(configs: seq<Config>, acts: seq<Act>, n: nat): seq<Tx>
    requires n < |configs| == |acts| + 1
  {
    if n == 0 then []
    else
      CommitOrder(configs, acts, n - 1) +
      if TakesEffect(configs[n - 1], acts[n - 1]) then [configs[n - 1].txs[acts[n - 1].t]] else []
  }

  /** The same requests, one at a time, each call alone with the tables. */
  ghost function Serial(db: Db, order: seq<Tx>): Db {
    if order == [] then db
    else
      var last := order[|order| - 1];
      AfterDecision(Serial(db, order[..|order| - 1]), last.decision, last.req)
  }

  lemma SerialSnoc(db: Db, order: seq<Tx>, tx: Tx)
    ensures Serial(db, order + [tx]) == AfterDecision(Serial(db, order), tx.decision, tx.req)
  {
    hide AfterDecision;
    assert (order + [tx])[..|order|] == order;
  }

  lemma OnlyCommitsWrite(start: Db, c: Config, a: Act)
    requires Safe(start, c)
    ensures After(c, a).db ==
            if TakesEffect(c, a) then AfterDecision(c.db, c.txs[a.t].decision, c.txs[a.t].req) else c.db
  {
    hide Inv, Accepted, Goes, WritesOf, Apply, WrittenBy, CheckRow, Work.PlacementOk, LocksOk, TxOk, OneWriter,
      Explained;
    if TakesEffect(c, a) {
      CommitKeeps(start, c, a.t);
    }
  }

  /** Interleaved decisions are worth some serial order of them: the order they committed in. */
  lemma {:induction false} InterleavingIsSerial(configs: seq<Config>, acts: seq<Act>, n: nat)
    requires Interleaved(configs, acts) && n < |configs|
    ensures configs[n].db == Serial(configs[0].db, CommitOrder(configs, acts, n))
  {
    hide Inv, After, Safe, Accepted, AfterDecision;
    if n > 0 {
      InterleavingIsSerial(configs, acts, n - 1);
      AlwaysSafe(configs, acts, n - 1);
      OnlyCommitsWrite(configs[0].db, configs[n - 1], acts[n - 1]);
      var before := CommitOrder(configs, acts, n - 1);
      if TakesEffect(configs[n - 1], acts[n - 1]) {
        SerialSnoc(configs[0].db, before, configs[n - 1].txs[acts[n - 1].t]);
      } else {
        assert CommitOrder(configs, acts, n) == before;
      }
    }
  }

  /** Told that the decision stands, now or already. */
  predicate ToldYes(tx: Tx) {
    tx.phase == Done(Committed) || tx.phase == Done(Repeated)
  }

  /** All who are told yes about a plan made the same decision, and it is the plan's. */
  lemma AnswersAgree(configs: seq<Config>, acts: seq<Act>, n: nat, s: nat, t: nat)
    requires Interleaved(configs, acts) && n < |configs|
    requires s in configs[n].txs && t in configs[n].txs && configs[n].txs[s].req.plan == configs[n].txs[t].req.plan
    requires ToldYes(configs[n].txs[s]) && ToldYes(configs[n].txs[t])
    ensures configs[n].txs[s].decision == configs[n].txs[t].decision
    ensures configs[n].txs[s].req.plan in configs[n].db.plans
    ensures configs[n].db.plans[configs[n].txs[s].req.plan].status == Decided(configs[n].txs[s].decision)
    ensures configs[n].txs[s].phase == configs[n].txs[t].phase == Done(Committed) ==> s == t
  {
    hide Inv, After, LocksOk;
    AlwaysSafe(configs, acts, n);
    var c := configs[n];
    assert TxOk(c.db, c.txs[s]) && TxOk(c.db, c.txs[t]);
  }

  /** A plan that was open at the start and is decided now was decided by exactly one transaction. */
  lemma ExactlyOneTakesEffect(configs: seq<Config>, acts: seq<Act>, n: nat, p: Id) returns (t: nat)
    requires Interleaved(configs, acts) && n < |configs|
    requires p in configs[0].db.plans && p in configs[n].db.plans
    requires Editable(configs[0].db.plans[p].status) && !Editable(configs[n].db.plans[p].status)
    ensures t in configs[n].txs && CommittedOn(configs[n].txs[t], p)
    ensures configs[n].db.plans[p].status == Decided(configs[n].txs[t].decision)
    ensures forall u | u in configs[n].txs && CommittedOn(configs[n].txs[u], p) :: u == t
    ensures |set i | 0 <= i < |configs[n].db.audit| && configs[n].db.audit[i].target == p| == 1
  {
    hide Inv, After, LocksOk;
    AlwaysSafe(configs, acts, n);
    var c := configs[n];
    t :| t in c.txs && CommittedOn(c.txs[t], p);
    assert TxOk(c.db, c.txs[t]);
    Runs.OneDecisionEach(c.db, p);
  }

  /** A plan already decided at the start is never touched. */
  lemma DecidedIsUntouched(configs: seq<Config>, acts: seq<Act>, n: nat, p: Id)
    requires Interleaved(configs, acts) && n < |configs|
    requires p in configs[0].db.plans && !Editable(configs[0].db.plans[p].status)
    ensures p in configs[n].db.plans && configs[n].db.plans[p] == configs[0].db.plans[p]
    ensures forall t | t in configs[n].txs :: !CommittedOn(configs[n].txs[t], p)
  {
    hide Inv, After, LocksOk, TxOk;
    AlwaysSafe(configs, acts, n);
  }

  /**
   Checked under the lock, a repeat of a decision already committed is told so and the opposite
   decision is refused, whatever the row said when the caller last looked; neither writes anything.
   */
  lemma LateComersLearn(configs: seq<Config>, acts: seq<Act>, n: nat, t: nat, d: Decision)
    requires Interleaved(configs, acts) && n < |configs| && t in configs[n].txs && configs[n].txs[t].phase.Locked?
    requires var p := configs[n].txs[t].req.plan;
             p in configs[n].db.plans && configs[n].db.plans[p].status == Decided(d)
    ensures After(configs[n], Check(t)) ==
            Ended(configs[n], t, if configs[n].txs[t].decision == d then Repeated else Failed(InvalidPlanState))
    ensures After(configs[n], Check(t)).db == configs[n].db
  {
    hide Inv, Permissions.Can, LocksOk, OneWriter, Explained, Locks, Creates, Commits;
    AlwaysSafe(configs, acts, n);
    assert TxOk(configs[n].db, configs[n].txs[t]);
  }

  /** Turned away at the lock or the check, a caller gets an answer the lone call could have given at that moment. */
  lemma RefusedAsAlone(configs: seq<Config>, acts: seq<Act>, n: nat, t: nat, a: Act)
    requires Interleaved(configs, acts) && n < |configs| && (a == Lock(t) || a == Check(t))
    requires t in configs[n].txs && !configs[n].txs[t].phase.Done?
    requires t in After(configs[n], a).txs && After(configs[n], a).txs[t].phase.Done?
    ensures After(configs[n], a).db == configs[n].db
    ensures var tx := configs[n].txs[t];
            match After(configs[n], a).txs[t].phase.answer
            case Committed => false
            case Repeated =>
              tx.req.plan in configs[n].db.plans &&
              CheckRow(configs[n].db.plans[tx.req.plan], tx.decision, tx.req) == AlreadyDecided
            case Failed(e) => Explains(configs[n].db, tx.decision, tx.req, e) && !Goes(configs[n].db, tx.decision, tx.req)
  {
    hide Inv, CheckRow, LocksOk, OneWriter, Explained, Creates, Commits, Recordable, Placeable, Drawable, Stopped;
    AlwaysSafe(configs, acts, n);
    assert TxOk(configs[n].db, configs[n].txs[t]);
  }
}
