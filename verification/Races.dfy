/** What interleaved calls can do: alone, all that a serial call does; in a race, one wins and the other is told. */
module Races {
  import opened Common
  import opened Schema
  import opened PlanItems
  import opened Approval
  import opened Ledger
  import opened Interleaving
  import Permissions
  import Work

  /** The tables and transactions after a sequence of acts. */
  ghost function Play(c: Config, acts: seq<Act>): Config {
    if acts == [] then c else After(Play(c, acts[..|acts| - 1]), acts[|acts| - 1])
  }

  lemma {:induction false} PlayOn(c: Config, acts: seq<Act>, on: seq<Act>)
    ensures Play(c, acts + on) == Play(Play(c, acts), on)
    decreases |on|
  {
    hide After;
    if on == [] {
      assert acts + on == acts;
    } else {
      assert (acts + on)[..|acts + on| - 1] == acts + on[..|on| - 1];
      PlayOn(c, acts, on[..|on| - 1]);
    }
  }

  lemma PlayNone(c: Config)
    ensures Play(c, []) == c
  {}

  lemma PlayOne(c: Config, a: Act)
    ensures Play(c, [a]) == After(c, a)
  {
    hide After;
    assert [a][..0] == [];
    PlayNone(c);
  }

  lemma {:induction false} PlayKeeps(start: Db, c: Config, acts: seq<Act>)
    requires Safe(start, c)
    ensures Safe(start, Play(c, acts))
  {
    hide After, Safe;
    if acts != [] {
      PlayKeeps(start, c, acts[..|acts| - 1]);
      AfterKeeps(start, Play(c, acts[..|acts| - 1]), acts[|acts| - 1]);
    }
  }

  // --- a call left alone -------------------------------------------------------------------

  function Creations(t: nat, n: nat): seq<Act> {
    if n == 0 then [] else Creations(t, n - 1) + [CreateNext(t)]
  }

  /** How many tasks a decision will create. */
  ghost function ToCreate(db: Db, d: Decision, plan: Id): nat {
    if d == APPROVE then |Listing(db.items, plan)| else 0
  }

  /** What one caller does from start to end. */
  ghost function LoneCall(db: Db, t: nat, d: Decision, req: Request): seq<Act> {
    [Begin(t, d, req), Lock(t), Check(t)] + Creations(t, ToCreate(db, d, req.plan)) + [Commit(t)]
  }

  /** Where a transaction stands after its check and `n` creations nobody disturbed. */
  ghost predicate Created(c: Config, now: Config, t: nat, d: Decision, req: Request, n: nat)
    requires req.plan in c.db.plans
  {
    var row := c.db.plans[req.plan];
    var taken := TakenWorkCodes(c.db.works, row.org);
    && now.db == c.db && now.locks == c.locks[req.plan := t]
    && n <= ToCreate(c.db, d, req.plan) && CodesFor(taken, req.draws, n).Some?
    && now.txs == c.txs[t := Tx(d, req, Writing(
         row, if d == APPROVE then Listing(c.db.items, req.plan) else [], Lookup(c.db.works, row.scope),
         seq(n, _ => taken), CodesFor(taken, req.draws, n).value))]
  }

  /** A transaction that holds the row it is about to check. */
  ghost predicate Held(c: Config, now: Config, t: nat, d: Decision, req: Request)
    requires req.plan in c.db.plans
  {
    now == c.(locks := c.locks[req.plan := t], txs := c.txs[t := Tx(d, req, Locked(c.db.plans[req.plan]))])
  }

  lemma TakesTheLock(c: Config, t: nat, d: Decision, req: Request)
    requires t !in c.txs && req.plan !in c.locks && req.plan in c.db.plans
    ensures Held(c, After(After(c, Begin(t, d, req)), Lock(t)), t, d, req)
  {}

  lemma PassesTheCheck(c: Config, now: Config, t: nat, d: Decision, req: Request)
    requires Goes(c.db, d, req) && Held(c, now, t, d, req)
    ensures Created(c, After(now, Check(t)), t, d, req, 0)
  {
    hide CheckRow, Recordable, Placeable, Drawable, Listing, TakenWorkCodes;
    assert seq(0, _ => TakenWorkCodes(c.db.works, c.db.plans[req.plan].org)) == [];
  }

  /** The next item of a plan that goes through is flat, its scope live, and a code drawn for it free. */
  lemma NextGoes(db: Db, d: Decision, req: Request, n: nat)
    requires Goes(db, d, req) && db.plans[req.plan].id == req.plan && n < ToCreate(db, d, req.plan)
    ensures Listing(db.items, req.plan)[n].parent.None?
    ensures CodesFor(TakenWorkCodes(db.works, db.plans[req.plan].org), req.draws, n + 1).Some?
  {
    hide CheckRow, Recordable, Listing, CodesFor, IdsFree, TakenWorkCodes;
    var items := Listing(db.items, req.plan);
    assert items[n] in items;
    CodesPrefix(TakenWorkCodes(db.works, db.plans[req.plan].org), req.draws, n + 1, |items|);
  }

  lemma ScopeTakesTasks(db: Db, req: Request)
    requires Goes(db, APPROVE, req) && Approval.Decidable(db, req.plan) && Listing(db.items, req.plan) != []
    ensures var p := db.plans[req.plan];
            p.scope in db.works && Work.PlacementOk(TASK, Some(db.works[p.scope]), p.org)
  {
    hide CheckRow, Recordable, Listing, Drawable;
  }

  lemma CreatesNext(c: Config, now: Config, t: nat, d: Decision, req: Request, n: nat)
    requires Goes(c.db, d, req) && Approval.Decidable(c.db, req.plan)
    requires Created(c, now, t, d, req, n) && n < ToCreate(c.db, d, req.plan)
    ensures Created(c, After(now, CreateNext(t)), t, d, req, n + 1)
  {
    hide Goes, Approval.Decidable, Listing, FirstFree, Elements, TakenWorkCodes, Work.PlacementOk;
    RowIsKeyed(c.db, d, req);
    NextGoes(c.db, d, req, n);
    ScopeTakesTasks(c.db, req);
    var taken := TakenWorkCodes(c.db.works, c.db.plans[req.plan].org);
    assert seq(n, _ => taken) + [taken] == seq(n + 1, _ => taken);
  }

  lemma {:induction false} CreatesAll(c: Config, now: Config, t: nat, d: Decision, req: Request, n: nat)
    requires Goes(c.db, d, req) && Approval.Decidable(c.db, req.plan)
    requires Created(c, now, t, d, req, 0) && n <= ToCreate(c.db, d, req.plan)
    ensures Created(c, Play(now, Creations(t, n)), t, d, req, n)
  {
    hide Goes, Approval.Decidable, Created, ToCreate, After, Play;
    if n == 0 {
      PlayNone(now);
    } else {
      CreatesAll(c, now, t, d, req, n - 1);
      PlayOn(now, Creations(t, n - 1), [CreateNext(t)]);
      PlayOne(Play(now, Creations(t, n - 1)), CreateNext(t));
      CreatesNext(c, Play(now, Creations(t, n - 1)), t, d, req, n - 1);
    }
  }

  lemma {:induction false} CodesAreFree(taken: set<string>, draws: nat -> Draw, n: nat)
    requires CodesFor(taken, draws, n).Some?
    ensures forall x | x in CodesFor(taken, draws, n).value :: x !in taken
  {
    hide Elements;
    if n > 0 {
      CodesAreFree(taken, draws, n - 1);
    }
  }

  lemma AllAccepted(c: Config, now: Config, t: nat, d: Decision, req: Request)
    requires Goes(c.db, d, req) && Approval.Decidable(c.db, req.plan)
    requires Created(c, now, t, d, req, ToCreate(c.db, d, req.plan))
    ensures t in now.txs && now.txs[t].phase.Writing? && Accepted(now.db, now.txs[t])
    ensures |now.txs[t].phase.codes| == |now.txs[t].phase.items|
    ensures now.txs[t].decision == d && now.txs[t].req == req
  {
    hide CheckRow, Listing, FirstFree, Elements, TakenWorkCodes, Recordable, Proposal, CodesFor;
    CodesAreFree(TakenWorkCodes(c.db.works, c.db.plans[req.plan].org), req.draws, ToCreate(c.db, d, req.plan));
  }

  /** What is left when a call that goes through ends: its rows, its answer, and no lock of its own. */
  ghost predicate Finished(c: Config, now: Config, t: nat, d: Decision, req: Request) {
    && now.db == AfterDecision(c.db, d, req)
    && now.locks == c.locks - {req.plan}
    && now.txs == c.txs[t := Tx(d, req, Done(Committed))]
  }

  lemma CommitsLast(start: Db, c: Config, now: Config, t: nat, d: Decision, req: Request)
    requires Safe(start, now) && Goes(c.db, d, req) && Approval.Decidable(c.db, req.plan)
    requires Created(c, now, t, d, req, ToCreate(c.db, d, req.plan))
    ensures Finished(c, After(now, Commit(t)), t, d, req)
  {
    hide Inv, LocksOk, TxOk, OneWriter, Explained, Goes, Approval.Decidable, Accepted, WrittenBy, WritesOf, Apply,
      Listing, CodesFor, TakenWorkCodes;
    RowIsKeyed(c.db, d, req);
    AllAccepted(c, now, t, d, req);
    CommitKeeps(start, now, t);
    assert c.locks[req.plan := t] - {req.plan} == c.locks - {req.plan};
  }

  lemma ChecksCreatesCommits(start: Db, c: Config, now: Config, t: nat, d: Decision, req: Request)
    requires Safe(start, now) && Goes(c.db, d, req) && Approval.Decidable(c.db, req.plan) && Held(c, now, t, d, req)
    ensures var rest := [Check(t)] + Creations(t, ToCreate(c.db, d, req.plan)) + [Commit(t)];
            Finished(c, Play(now, rest), t, d, req)
  {
    hide Safe, Goes, Approval.Decidable, Created, After, Finished, ToCreate, Held, Play;
    RowIsKeyed(c.db, d, req);
    var n := ToCreate(c.db, d, req.plan);
    PassesTheCheck(c, now, t, d, req);
    PlayOne(now, Check(t));
    var checked := After(now, Check(t));
    CreatesAll(c, checked, t, d, req, n);
    PlayOn(now, [Check(t)], Creations(t, n));
    PlayOn(now, [Check(t)] + Creations(t, n), [Commit(t)]);
    var created := Play(now, [Check(t)] + Creations(t, n));
    PlayOne(created, Commit(t));
    PlayKeeps(start, now, [Check(t)] + Creations(t, n));
    CommitsLast(start, c, created, t, d, req);
  }

  /**
   Whatever else is half-way through, a request that would go through by itself does, if its row is
   free and nobody acts meanwhile: lock, check, one creation per item, commit, and the tables are
   those of the serial call.
   */
  lemma LoneCallCommits(start: Db, c: Config, t: nat, d: Decision, req: Request)
    requires Safe(start, c) && t !in c.txs && req.plan !in c.locks && Goes(c.db, d, req)
    ensures Finished(c, Play(c, LoneCall(c.db, t, d, req)), t, d, req)
  {
    hide Safe, Goes, After, Finished, Held, ToCreate, Play;
    SafeIsDecidable(start, c, req.plan);
    RowIsKeyed(c.db, d, req);
    TakesTheLock(c, t, d, req);
    var held := After(After(c, Begin(t, d, req)), Lock(t));
    TwoActs(c, Begin(t, d, req), Lock(t));
    PlayKeeps(start, c, [Begin(t, d, req), Lock(t)]);
    ChecksCreatesCommits(start, c, held, t, d, req);
    var n := ToCreate(c.db, d, req.plan);
    var rest := [Check(t)] + Creations(t, n) + [Commit(t)];
    PlayOn(c, [Begin(t, d, req), Lock(t)], rest);
    assert LoneCall(c.db, t, d, req) == [Begin(t, d, req), Lock(t)] + rest;
  }

  lemma SafeIsDecidable(start: Db, c: Config, plan: Id)
    requires Safe(start, c)
    ensures Approval.Decidable(c.db, plan)
  {
    hide Inv, LocksOk, TxOk, OneWriter, Explained, Approval.Decidable, Consistent;
    PlansInPlace(c.db);
    PlansAreDecidable(c.db, plan);
  }

  lemma TwoActs(c: Config, a: Act, b: Act)
    ensures Play(c, [a, b]) == After(After(c, a), b)
  {
    hide After, Play;
    PlayOne(c, a);
    PlayOn(c, [a], [b]);
    PlayOne(After(c, a), b);
    assert [a] + [b] == [a, b];
  }

  // --- a race ------------------------------------------------------------------------------

  /** Two callers on one plan: the second asks for the lock while the first holds it, and gets it afterwards. */
  ghost function Race(db: Db, s: nat, d: Decision, req: Request, t: nat, e: Decision, late: Request): seq<Act> {
    [Begin(t, e, late)] + [Begin(s, d, req), Lock(s)] + [Lock(t)] +
    ([Check(s)] + Creations(s, ToCreate(db, d, req.plan)) + [Commit(s)]) + [Lock(t), Check(t)]
  }

  /** The second to lock finds the decision made: its own already, or the other, refused; it writes nothing. */
  lemma OneWinsOneLearns(
    start: Db, c: Config, s: nat, d: Decision, req: Request, t: nat, e: Decision, late: Request)
    requires Safe(start, c) && s !in c.txs && t !in c.txs && s != t
    requires req.plan !in c.locks && late.plan == req.plan && Goes(c.db, d, req)
    ensures var after := Play(c, Race(c.db, s, d, req, t, e, late));
            && after.db == AfterDecision(c.db, d, req)
            && s in after.txs && after.txs[s].phase == Done(Committed)
            && t in after.txs && after.txs[t].phase == Done(if e == d then Repeated else Failed(InvalidPlanState))
            && after.locks == c.locks
  {
    hide Safe, Goes, After, Finished, ToCreate, AfterDecision, Held, Play;
    SafeIsDecidable(start, c, req.plan);
    RowIsKeyed(c.db, d, req);
    var begun := After(c, Begin(t, e, late));
    PlayOne(c, Begin(t, e, late));
    OnlyBegins(c, t, e, late);
    TakesTheLock(begun, s, d, req);
    TwoActs(begun, Begin(s, d, req), Lock(s));
    var held := After(After(begun, Begin(s, d, req)), Lock(s));
    Blocked(begun, held, s, d, req, t);
    PlayOne(held, Lock(t));
    PlayKeeps(start, c, [Begin(t, e, late)]);
    PlayKeeps(start, begun, [Begin(s, d, req), Lock(s)]);
    ChecksCreatesCommits(start, begun, held, s, d, req);
    var rest := [Check(s)] + Creations(s, ToCreate(c.db, d, req.plan)) + [Commit(s)];
    var won := Play(held, rest);
    Learns(begun, won, s, d, req, t, e, late);
    TwoActs(won, Lock(t), Check(t));
    PlayOn(c, [Begin(t, e, late)], [Begin(s, d, req), Lock(s)]);
    PlayOn(c, [Begin(t, e, late)] + [Begin(s, d, req), Lock(s)], [Lock(t)]);
    PlayOn(c, [Begin(t, e, late)] + [Begin(s, d, req), Lock(s)] + [Lock(t)], rest);
    PlayOn(c, [Begin(t, e, late)] + [Begin(s, d, req), Lock(s)] + [Lock(t)] + rest, [Lock(t), Check(t)]);
  }

  lemma OnlyBegins(c: Config, t: nat, e: Decision, late: Request)
    requires t !in c.txs
    ensures After(c, Begin(t, e, late)) == c.(txs := c.txs[t := Tx(e, late, Waiting)])
  {}

  /** Somebody else's lock makes one wait. */
  lemma Blocked(c: Config, held: Config, s: nat, d: Decision, req: Request, t: nat)
    requires req.plan in c.db.plans && Held(c, held, s, d, req)
    requires t in c.txs && t != s && c.txs[t].phase.Waiting? && c.txs[t].req.plan == req.plan
    ensures After(held, Lock(t)) == held
  {}

  lemma Learns(c: Config, won: Config, s: nat, d: Decision, req: Request, t: nat, e: Decision, late: Request)
    requires Goes(c.db, d, req) && req.plan in c.db.plans && c.db.plans[req.plan].id == req.plan
    requires req.plan !in c.locks && Finished(c, won, s, d, req) && t != s
    requires t in c.txs && c.txs[t] == Tx(e, late, Waiting) && late.plan == req.plan
    ensures var after := After(After(won, Lock(t)), Check(t));
            && after.db == AfterDecision(c.db, d, req) && after.locks == c.locks
            && after.txs == won.txs[t := Tx(e, late, Done(if e == d then Repeated else Failed(InvalidPlanState)))]
            && s in after.txs && after.txs[s].phase == Done(Committed)
  {
    hide Goes, WritesOf, Apply, Permissions.Can, Listing, FirstFree, TakenWorkCodes, CodesFor, Creates, Commits;
    WrittenRows(c.db, d, req);
    ApplyFrame(c.db, WritesOf(c.db, d, req));
    assert c.locks - {req.plan} == c.locks;
    assert c.locks[req.plan := t] - {req.plan} == c.locks;
  }
}
