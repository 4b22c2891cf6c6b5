/** Creating work items and moving them through their lifecycle, with the event log beside them. */
module Work {
  import opened Common
  import opened Schema
  import opened Text

  // --- creation ----------------------------------------------------------------------------

  predicate PlacementOk(kind: WorkItemType, parent: Option<WorkItem>, org: Id) {
    match AllowedParent(kind)
    case None => parent.None?
    case Some(expected) =>
      parent.Some? && parent.value.kind == expected && parent.value.org == org && parent.value.status != CANCELLED
  }

  /** `create_work_item` as a verdict on the tables: the row it inserts, or the error it raises. */
  function CreateOutcome(
    db: Db, org: Id, kind: WorkItemType, title: string, description: Option<string>, createdBy: Id,
    parent: Option<WorkItem>, owner: Option<Id>, due: Option<Time>, draw: Draw): Result<WorkItem>
  {
    if !PlacementOk(kind, parent, org) then Err(InvalidStructure)
    else match FirstFree(TakenWorkCodes(db.works, org), draw.codes)
      case None => Err(CodeExhausted)
      case Some(code) =>
        if draw.id in db.works || !InOrg(db.members, createdBy, org) || !InOrgIfAny(db.members, owner, org)
        then Err(IntegrityError)
        else Ok(WorkItem(draw.id, org, if parent.Some? then Some(parent.value.id) else None, kind, Strip(title),
                         description, owner, createdBy, ACTIVE, due, code, 1))
  }

  function CreationEvents(w: WorkItem): seq<TaskEvent> {
    [TaskEvent(w.id, WORK_CREATED, Some(w.createdBy))] +
    if w.owner.Some? then [TaskEvent(w.id, ASSIGNED(w.owner.value), Some(w.createdBy))] else []
  }

  function WithWork(db: Db, w: WorkItem): Db {
    db.(works := db.works[w.id := w], events := db.events + CreationEvents(w))
  }

  /** `_allocate_code`: the first of ten candidates the organization has not used. */
  method AllocateCode(session: Session, org: Id, candidates: Candidates) returns (r: Result<string>)
    ensures r == match FirstFree(TakenWorkCodes(session.works, org), candidates)
                 case None => Err(CodeExhausted)
                 case Some(code) => Ok(code)
  {
    var taken := TakenWorkCodes(session.works, org);
    for i := 0 to CODE_ATTEMPTS
      invariant FirstFree(taken, candidates) == FirstFree(taken, candidates[i..])
    {
      assert candidates[i..][1..] == candidates[i + 1..];
      if candidates[i] !in taken {
        return Ok(candidates[i]);
      }
    }
    return Err(CodeExhausted);
  }

  method RecordEvent(session: Session, work: Id, kind: EventType, actor: Option<Id>)
    modifies session
    ensures session.Tables() == old(session.Tables()).(events := old(session.events) + [TaskEvent(work, kind, actor)])
  {
    session.events := session.events + [TaskEvent(work, kind, actor)];
  }

  method CreateWorkItem(
    session: Session, org: Id, kind: WorkItemType, title: string, description: Option<string>, createdBy: Id,
    parent: Option<WorkItem>, owner: Option<Id>, due: Option<Time>, draw: Draw) returns (r: Result<WorkItem>)
    modifies session
    ensures r == CreateOutcome(old(session.Tables()), org, kind, title, description, createdBy, parent, owner, due, draw)
    ensures session.Tables() == if r.Ok? then WithWork(old(session.Tables()), r.value) else old(session.Tables())
  {
    hide FirstFree, TakenWorkCodes, InOrg, Strip;
    if !PlacementOk(kind, parent, org) {
      return Err(InvalidStructure);
    }
    var code := AllocateCode(session, org, draw.codes);
    if code.Err? {
      return Err(code.error);
    }
    if draw.id in session.works || !InOrg(session.members, createdBy, org) || !InOrgIfAny(session.members, owner, org) {
      return Err(IntegrityError);
    }
    var parentId := if parent.Some? then Some(parent.value.id) else None;
    var w := WorkItem(draw.id, org, parentId, kind, Strip(title), description, owner, createdBy, ACTIVE, due, code.value, 1);
    session.works := session.works[w.id := w];
    RecordEvent(session, w.id, WORK_CREATED, Some(createdBy));
    if owner.Some? {
      RecordEvent(session, w.id, ASSIGNED(owner.value), Some(createdBy));
    }
    return Ok(w);
  }

  /** Where an item of each kind may hang: nowhere, under a live initiative, under a live responsibility. */
  predicate MayHang(kind: WorkItemType, parent: Option<WorkItem>, org: Id) {
    match kind
    case INITIATIVE => parent.None?
    case RESPONSIBILITY =>
      parent.Some? && parent.value.kind == INITIATIVE && parent.value.org == org && parent.value.status != CANCELLED
    case TASK =>
      parent.Some? && parent.value.kind == RESPONSIBILITY && parent.value.org == org && parent.value.status != CANCELLED
  }

  /** When creation succeeds, which error says what, and every field of the row and of its history. */
  lemma CreationSays(
    db: Db, org: Id, kind: WorkItemType, title: string, description: Option<string>, createdBy: Id,
    parent: Option<WorkItem>, owner: Option<Id>, due: Option<Time>, draw: Draw)
    ensures var r := CreateOutcome(db, org, kind, title, description, createdBy, parent, owner, due, draw);
            var codeLeft := exists c | c in draw.codes :: c !in TakenWorkCodes(db.works, org);
            var rowFits := draw.id !in db.works && InOrg(db.members, createdBy, org) && InOrgIfAny(db.members, owner, org);
            && (r.Ok? <==> MayHang(kind, parent, org) && codeLeft && rowFits)
            && (r == Err(InvalidStructure) <==> !MayHang(kind, parent, org))
            && (r == Err(CodeExhausted) <==> MayHang(kind, parent, org) && !codeLeft)
            && (r == Err(IntegrityError) <==> MayHang(kind, parent, org) && codeLeft && !rowFits)
            && (r.Ok? ==>
                  var w, after := r.value, WithWork(db, r.value);
                  && w.id == draw.id && w.org == org && w.kind == kind && w.createdBy == createdBy
                  && Trims(title, w.title) && w.description == description && w.owner == owner && w.due == due
                  && w.parent == (if parent.Some? then Some(parent.value.id) else None)
                  && w.status == ACTIVE && w.version == 1
                  && w.code in draw.codes && w.code !in TakenWorkCodes(db.works, org)
                  && after == db.(works := after.works, events := after.events)
                  && after.works == db.works[w.id := w]
                  && after.events == db.events + [TaskEvent(w.id, WORK_CREATED, Some(createdBy))] +
                                     (if owner.Some? then [TaskEvent(w.id, ASSIGNED(owner.value), Some(createdBy))] else []))
  {
    hide Strip, Trims, TakenWorkCodes, InOrg;
    StripTrims(title);
  }

  // --- lifecycle ---------------------------------------------------------------------------

  const TASK_TRANSITIONS: set<(WorkItemStatus, WorkItemStatus)> :=
    {(ACTIVE, IN_PROGRESS), (ACTIVE, COMPLETE), (IN_PROGRESS, COMPLETE), (ACTIVE, CANCELLED), (IN_PROGRESS, CANCELLED)}

  const CONTAINER_TRANSITIONS: set<(WorkItemStatus, WorkItemStatus)> := {(ACTIVE, CANCELLED)}

  function AllowedTransitions(kind: WorkItemType): set<(WorkItemStatus, WorkItemStatus)> {
    if kind == TASK then TASK_TRANSITIONS else CONTAINER_TRANSITIONS
  }

  function EventFor(to: WorkItemStatus): EventType
    requires to != ACTIVE
  {
    match to
    case IN_PROGRESS => STARTED
    case COMPLETE => COMPLETED
    case CANCELLED => WORK_CANCELLED
  }

  /** Whether `transition` changes anything, or the error it raises. */
  function MoveOutcome(db: Db, w: WorkItem, to: WorkItemStatus, actor: Option<Id>): (r: Result<bool>)
    ensures r == Ok(true) ==> to != ACTIVE
  {
    if w.status == to then Ok(false)
    else if (w.status, to) !in AllowedTransitions(w.kind) then Err(InvalidTransition)
    else if actor.Some? && FindMember(db.members, actor.value).None? then Err(IntegrityError)
    else Ok(true)
  }

  function Moved(db: Db, w: WorkItem, to: WorkItemStatus, actor: Option<Id>): Db
    requires to != ACTIVE
  {
    db.(works := db.works[w.id := w.(status := to, version := w.version + 1)],
        events := db.events + [TaskEvent(w.id, EventFor(to), actor)])
  }

  /** The moves that lead an item of this kind to this status. */
  predicate MovesTo(kind: WorkItemType, status: WorkItemStatus, moves: seq<EventType>) {
    match status
    case ACTIVE => moves == []
    case IN_PROGRESS => kind == TASK && moves == [STARTED]
    case COMPLETE => kind == TASK && (moves == [COMPLETED] || moves == [STARTED, COMPLETED])
    case CANCELLED => moves == [WORK_CANCELLED] || (kind == TASK && moves == [STARTED, WORK_CANCELLED])
  }

  /** Some history of an item in this status goes on to that one. */
  ghost predicate Continues(kind: WorkItemType, from: WorkItemStatus, to: WorkItemStatus) {
    to != ACTIVE && exists moves :: MovesTo(kind, from, moves) && MovesTo(kind, to, moves + [EventFor(to)])
  }

  predicate Known(members: seq<Membership>, actor: Option<Id>) {
    actor.Some? ==> exists m | m in members :: m.id == actor.value
  }

  /** The transition tables are the grammar of the log: a move is allowed exactly when its event continues the word. */
  lemma MovesExtendIff(kind: WorkItemType, from: WorkItemStatus, to: WorkItemStatus, moves: seq<EventType>)
    requires MovesTo(kind, from, moves) && to != ACTIVE
    ensures (from, to) in AllowedTransitions(kind) <==> MovesTo(kind, to, moves + [EventFor(to)])
  {
    var e, word := EventFor(to), moves + [EventFor(to)];
    assert word[|moves|] == e && (|moves| > 0 ==> word[0] == moves[0]);
    assert moves == [] ==> word == [e];
    assert moves == [STARTED] ==> word == [STARTED, e];
  }

  lemma ContinuesIff(kind: WorkItemType, from: WorkItemStatus, to: WorkItemStatus)
    ensures Continues(kind, from, to) <==> (from, to) in AllowedTransitions(kind)
  {
    if Continues(kind, from, to) {
      var moves :| MovesTo(kind, from, moves) && MovesTo(kind, to, moves + [EventFor(to)]);
      MovesExtendIff(kind, from, to, moves);
    }
    if (from, to) in AllowedTransitions(kind) {
      var moves := if from == ACTIVE then [] else [STARTED];
      MovesExtendIff(kind, from, to, moves);
    }
  }

  /** A repeated move is a no-op; any other goes through exactly when its event continues the item's history. */
  lemma MoveSays(db: Db, w: WorkItem, to: WorkItemStatus, actor: Option<Id>)
    ensures var r := MoveOutcome(db, w, to, actor);
            && (w.status == to ==> r == Ok(false))
            && (w.status != to ==>
                  && (r == Ok(true) <==> Continues(w.kind, w.status, to) && Known(db.members, actor))
                  && (r == Err(InvalidTransition) <==> !Continues(w.kind, w.status, to))
                  && (r == Err(IntegrityError) <==> Continues(w.kind, w.status, to) && !Known(db.members, actor)))
  {
    hide Continues, AllowedTransitions;
    ContinuesIff(w.kind, w.status, to);
  }

  method Transition(session: Session, work: Id, to: WorkItemStatus, actor: Option<Id>) returns (r: Result<bool>)
    requires work in session.works && session.works[work].id == work
    modifies session
    ensures old(session.works[work]).status == to ==> r == Ok(false)
    ensures old(session.works[work]).status != to ==>
              var w := old(session.works[work]);
              && (r == Ok(true) <==> Continues(w.kind, w.status, to) && Known(old(session.members), actor))
              && (r == Err(InvalidTransition) <==> !Continues(w.kind, w.status, to))
              && (r == Err(IntegrityError) <==> Continues(w.kind, w.status, to) && !Known(old(session.members), actor))
    ensures r == Ok(true) ==>
              && session.works == old(session.works)[work := old(session.works[work]).(
                   status := to, version := old(session.works[work]).version + 1)]
              && to != ACTIVE && session.events == old(session.events) + [TaskEvent(work, EventFor(to), actor)]
    ensures r == MoveOutcome(old(session.Tables()), old(session.works[work]), to, actor)
    ensures session.Tables() == if r == Ok(true) then Moved(old(session.Tables()), old(session.works[work]), to, actor)
                                else old(session.Tables())
  {
    hide Continues, AllowedTransitions, Known, FindMember;
    var saved := session.Tables();
    var w := session.works[work];
    MoveSays(saved, w, to, actor);
    if w.status == to {
      return Ok(false);
    }
    if (w.status, to) !in AllowedTransitions(w.kind) {
      return Err(InvalidTransition);
    }
    session.works := session.works[work := w.(status := to, version := w.version + 1)];
    if actor.Some? && FindMember(session.members, actor.value).None? {
      session.Rollback(saved);
      return Err(IntegrityError);
    }
    RecordEvent(session, work, EventFor(to), actor);
    return Ok(true);
  }

  // --- the log replays to the state --------------------------------------------------------

  /** One item's history, oldest first. */
  function LogOf(events: seq<TaskEvent>, work: Id): seq<EventType> {
    if events == [] then []
    else
      var last := events[|events| - 1];
      LogOf(events[..|events| - 1], work) + if last.work == work then [last.kind] else []
  }

  datatype Replayed = Replayed(status: WorkItemStatus, owner: Option<Id>, version: nat)

  function ReplayOne(r: Option<Replayed>, e: EventType): Option<Replayed> {
    match (r, e)
    case (None, WORK_CREATED) => Some(Replayed(ACTIVE, None, 1))
    case (Some(s), ASSIGNED(a)) => Some(s.(owner := Some(a)))
    case (Some(s), STARTED) => Some(s.(status := IN_PROGRESS, version := s.version + 1))
    case (Some(s), COMPLETED) => Some(s.(status := COMPLETE, version := s.version + 1))
    case (Some(s), WORK_CANCELLED) => Some(s.(status := CANCELLED, version := s.version + 1))
    case _ => None
  }

  /** Rebuilding an item from nothing but its history. */
  function Replay(log: seq<EventType>): Option<Replayed> {
    if log == [] then None else ReplayOne(Replay(log[..|log| - 1]), log[|log| - 1])
  }

  function Opening(owner: Option<Id>): seq<EventType> {
    [WORK_CREATED] + if owner.Some? then [ASSIGNED(owner.value)] else []
  }

  /** The log is WORK_CREATED [ASSIGNED] and then the item's moves, one version each. */
  ghost predicate HistoryOf(w: WorkItem, log: seq<EventType>) {
    exists moves :: log == Opening(w.owner) + moves && MovesTo(w.kind, w.status, moves) && w.version == 1 + |moves|
  }

  /** No item was created after its parent was called off. */
  ghost predicate NothingUnderCancelled(works: map<Id, WorkItem>, events: seq<TaskEvent>) {
    forall i, j | 0 <= i < j < |events| ::
      events[j].kind == WORK_CREATED && events[i].kind == WORK_CANCELLED && events[j].work in works ==>
        works[events[j].work].parent != Some(events[i].work)
  }

  ghost predicate EventsOk(works: map<Id, WorkItem>, events: seq<TaskEvent>) {
    && (forall e | e in events :: e.work in works)
    && (forall w | w in works :: HistoryOf(works[w], LogOf(events, w)))
    && NothingUnderCancelled(works, events)
  }

  lemma {:induction false} LogConcat(a: seq<TaskEvent>, b: seq<TaskEvent>, work: Id)
    ensures LogOf(a + b, work) == LogOf(a, work) + LogOf(b, work)
    decreases |b|
  {
    if b == [] {
      assert a + b == a;
    } else {
      assert (a + b)[..|a + b| - 1] == a + b[..|b| - 1];
      LogConcat(a, b[..|b| - 1], work);
    }
  }

  lemma {:induction false} LogHas(events: seq<TaskEvent>, i: nat)
    requires i < |events|
    ensures events[i].kind in LogOf(events, events[i].work)
  {
    if i < |events| - 1 {
      LogHas(events[..|events| - 1], i);
    }
  }

  lemma {:induction false} LogEmpty(events: seq<TaskEvent>, work: Id)
    requires forall e | e in events :: e.work != work
    ensures LogOf(events, work) == []
  {
    if events != [] {
      LogEmpty(events[..|events| - 1], work);
    }
  }

  lemma CreationLog(w: WorkItem, work: Id)
    ensures LogOf(CreationEvents(w), work) == if work == w.id then Opening(w.owner) else []
  {
    var first := [TaskEvent(w.id, WORK_CREATED, Some(w.createdBy))];
    assert LogOf(first, work) == if work == w.id then [WORK_CREATED] else [];
    assert CreationEvents(w)[..1] == first;
  }

  lemma ReplayAppend(log: seq<EventType>, e: EventType)
    ensures Replay(log + [e]) == ReplayOne(Replay(log), e)
  {
    assert (log + [e])[..|log|] == log;
  }

  lemma ReplayOpening(owner: Option<Id>)
    ensures Replay(Opening(owner)) == Some(Replayed(ACTIVE, owner, 1))
  {
    ReplayAppend([], WORK_CREATED);
    assert [] + [WORK_CREATED] == [WORK_CREATED];
    if owner.Some? {
      ReplayAppend([WORK_CREATED], ASSIGNED(owner.value));
    } else {
      assert Opening(owner) == [WORK_CREATED];
    }
  }

  lemma ReplayHistory(w: WorkItem, log: seq<EventType>, moves: seq<EventType>)
    requires log == Opening(w.owner) + moves && MovesTo(w.kind, w.status, moves) && w.version == 1 + |moves|
    ensures Replay(log) == Some(Replayed(w.status, w.owner, w.version))
    ensures w.version <= if w.kind == TASK then 3 else 2
  {
    hide Replay;
    var opening := Opening(w.owner);
    ReplayOpening(w.owner);
    if |moves| == 0 {
      assert log == opening;
    } else {
      ReplayAppend(opening, moves[0]);
      if |moves| == 1 {
        assert log == opening + [moves[0]];
      } else {
        ReplayAppend(opening + [moves[0]], moves[1]);
        assert log == opening + [moves[0]] + [moves[1]];
      }
    }
  }

  /** History cannot diverge from state: every item is what its log replays to, within two moves. */
  lemma LogReplaysToState(works: map<Id, WorkItem>, events: seq<TaskEvent>, work: Id)
    requires EventsOk(works, events) && work in works
    ensures Replay(LogOf(events, work)) == Some(Replayed(works[work].status, works[work].owner, works[work].version))
    ensures works[work].version <= if works[work].kind == TASK then 3 else 2
  {
    hide LogOf, Replay, NothingUnderCancelled, MovesTo, Opening;
    var w, log := works[work], LogOf(events, work);
    assert HistoryOf(w, log);
    var moves :| log == Opening(w.owner) + moves && MovesTo(w.kind, w.status, moves) && w.version == 1 + |moves|;
    ReplayHistory(w, log, moves);
  }

  // --- steps keep it that way --------------------------------------------------------------

  /** The row `create_work_item` may insert into these tables. */
  ghost predicate FitsIn(members: seq<Membership>, works: map<Id, WorkItem>, w: WorkItem) {
    && w.id !in works
    && w.code !in TakenWorkCodes(works, w.org)
    && ParentFits(works, w)
    && InOrg(members, w.createdBy, w.org) && InOrgIfAny(members, w.owner, w.org)
    && w.status == ACTIVE && w.version == 1 && Stripped(w.title)
    && (w.parent.Some? ==> w.parent.value in works && works[w.parent.value].status != CANCELLED)
  }

  lemma CreatedFits(
    db: Db, org: Id, kind: WorkItemType, title: string, description: Option<string>, createdBy: Id,
    parent: Option<WorkItem>, owner: Option<Id>, due: Option<Time>, draw: Draw)
    requires parent.Some? ==> parent.value.id in db.works && db.works[parent.value.id] == parent.value
    requires CreateOutcome(db, org, kind, title, description, createdBy, parent, owner, due, draw).Ok?
    ensures FitsIn(db.members, db.works,
                   CreateOutcome(db, org, kind, title, description, createdBy, parent, owner, due, draw).value)
  {
    hide Stripped, Strip, InOrg, TakenWorkCodes;
    StripStripped(title);
  }

  lemma WithWorkKeepsWorks(db: Db, w: WorkItem)
    requires WorksOk(db.members, db.works) && FitsIn(db.members, db.works, w)
    ensures WorksOk(db.members, WithWork(db, w).works)
  {
    var works := WithWork(db, w).works;
    forall v | v in works
      ensures ParentFits(works, works[v])
    {
      assert v != w.id ==> ParentFits(db.works, db.works[v]);
    }
    forall v | v in db.works && db.works[v].org == w.org
      ensures db.works[v].code != w.code
    {
      assert db.works[v].code in TakenWorkCodes(db.works, w.org);
    }
  }

  /** The word of an item that was not called off has no cancellation in it. */
  lemma UncancelledWord(w: WorkItem, log: seq<EventType>)
    requires HistoryOf(w, log) && w.status != CANCELLED
    ensures WORK_CANCELLED !in log
  {
    var moves :| log == Opening(w.owner) + moves && MovesTo(w.kind, w.status, moves) && w.version == 1 + |moves|;
    assert WORK_CANCELLED !in Opening(w.owner) && WORK_CANCELLED !in moves;
  }

  lemma UncancelledHasNoCancellation(works: map<Id, WorkItem>, events: seq<TaskEvent>, i: nat)
    requires EventsOk(works, events) && i < |events|
    requires works[events[i].work].id == events[i].work && works[events[i].work].status != CANCELLED
    ensures events[i].kind != WORK_CANCELLED
  {
    hide LogOf, NothingUnderCancelled, HistoryOf;
    LogHas(events, i);
    UncancelledWord(works[events[i].work], LogOf(events, events[i].work));
  }

  lemma CreationHistory(db: Db, w: WorkItem, v: Id)
    requires EventsOk(db.works, db.events) && w.id !in db.works && w.status == ACTIVE && w.version == 1
    requires v in WithWork(db, w).works
    ensures HistoryOf(WithWork(db, w).works[v], LogOf(WithWork(db, w).events, v))
  {
    LogConcat(db.events, CreationEvents(w), v);
    CreationLog(w, v);
    if v == w.id {
      LogEmpty(db.events, v);
      assert LogOf(WithWork(db, w).events, v) == Opening(w.owner) + [];
    } else {
      assert LogOf(WithWork(db, w).events, v) == LogOf(db.events, v);
      assert HistoryOf(db.works[v], LogOf(db.events, v));
    }
  }

  lemma CreationNotUnderCancelled(db: Db, w: WorkItem)
    requires Nested(db.works) && EventsOk(db.works, db.events) && FitsIn(db.members, db.works, w)
    ensures NothingUnderCancelled(WithWork(db, w).works, WithWork(db, w).events)
  {
    hide HistoryOf, ParentFits, TakenWorkCodes, Stripped, InOrg, LogOf;
    var works, events := WithWork(db, w).works, WithWork(db, w).events;
    forall i, j | 0 <= i < j < |events| && events[j].kind == WORK_CREATED && events[i].kind == WORK_CANCELLED &&
                  events[j].work in works
      ensures works[events[j].work].parent != Some(events[i].work)
    {
      assert i < |db.events| && events[i] == db.events[i];
      assert db.events[i].work in db.works;
      if j < |db.events| {
        assert events[j] == db.events[j];
        assert events[j].work in db.works;
      } else if w.parent == Some(events[i].work) {
        UncancelledHasNoCancellation(db.works, db.events, i);
      }
    }
  }

  lemma WithWorkKeepsEvents(db: Db, w: WorkItem)
    requires Nested(db.works) && EventsOk(db.works, db.events) && FitsIn(db.members, db.works, w)
    ensures EventsOk(WithWork(db, w).works, WithWork(db, w).events)
  {
    var works, events := WithWork(db, w).works, WithWork(db, w).events;
    forall v | v in works
      ensures HistoryOf(works[v], LogOf(events, v))
    {
      CreationHistory(db, w, v);
    }
    CreationNotUnderCancelled(db, w);
    forall e | e in events
      ensures e.work in works
    {
      assert e in db.events || e in CreationEvents(w);
    }
  }

  lemma MovedKeepsWorks(db: Db, work: Id, to: WorkItemStatus, actor: Option<Id>)
    requires WorksOk(db.members, db.works) && work in db.works && to != ACTIVE
    ensures WorksOk(db.members, Moved(db, db.works[work], to, actor).works)
  {
    var works := Moved(db, db.works[work], to, actor).works;
    forall v | v in works
      ensures ParentFits(works, works[v])
    {
      assert ParentFits(db.works, db.works[v]);
    }
  }

  lemma MovesLeaveActive(kind: WorkItemType, from: WorkItemStatus, to: WorkItemStatus)
    requires (from, to) in AllowedTransitions(kind)
    ensures to != ACTIVE
  {}

  lemma HistoryExtends(w: WorkItem, log: seq<EventType>, to: WorkItemStatus)
    requires HistoryOf(w, log) && (w.status, to) in AllowedTransitions(w.kind)
    ensures to != ACTIVE
    ensures HistoryOf(w.(status := to, version := w.version + 1), log + [EventFor(to)])
  {
    hide MovesTo, AllowedTransitions, Opening;
    MovesLeaveActive(w.kind, w.status, to);
    var moves :| log == Opening(w.owner) + moves && MovesTo(w.kind, w.status, moves) && w.version == 1 + |moves|;
    MovesExtendIff(w.kind, w.status, to, moves);
    assert log + [EventFor(to)] == Opening(w.owner) + (moves + [EventFor(to)]);
  }

  lemma MovedLog(db: Db, w: WorkItem, to: WorkItemStatus, actor: Option<Id>, v: Id)
    requires to != ACTIVE
    ensures LogOf(Moved(db, w, to, actor).events, v) == LogOf(db.events, v) + if v == w.id then [EventFor(to)] else []
  {
    var last := TaskEvent(w.id, EventFor(to), actor);
    assert (db.events + [last])[..|db.events|] == db.events;
  }

  lemma MovedNotUnderCancelled(db: Db, work: Id, to: WorkItemStatus, actor: Option<Id>)
    requires EventsOk(db.works, db.events) && work in db.works && db.works[work].id == work
    requires to != ACTIVE
    ensures NothingUnderCancelled(Moved(db, db.works[work], to, actor).works,
                                  Moved(db, db.works[work], to, actor).events)
  {
    var works, events := Moved(db, db.works[work], to, actor).works, Moved(db, db.works[work], to, actor).events;
    forall i, j | 0 <= i < j < |events| && events[j].kind == WORK_CREATED && events[i].kind == WORK_CANCELLED &&
                  events[j].work in works
      ensures works[events[j].work].parent != Some(events[i].work)
    {
      assert j < |db.events|;
      assert events[i] == db.events[i] && events[j] == db.events[j];
    }
  }

  lemma MovedKeepsEvents(db: Db, work: Id, to: WorkItemStatus, actor: Option<Id>)
    requires WorksOk(db.members, db.works) && EventsOk(db.works, db.events) && work in db.works
    requires to != ACTIVE && (db.works[work].status, to) in AllowedTransitions(db.works[work].kind)
    ensures EventsOk(Moved(db, db.works[work], to, actor).works, Moved(db, db.works[work], to, actor).events)
  {
    var works, events := Moved(db, db.works[work], to, actor).works, Moved(db, db.works[work], to, actor).events;
    forall v | v in works
      ensures HistoryOf(works[v], LogOf(events, v))
    {
      MovedLog(db, db.works[work], to, actor, v);
      assert HistoryOf(db.works[v], LogOf(db.events, v));
      if v == work {
        HistoryExtends(db.works[v], LogOf(db.events, v), to);
      } else {
        assert LogOf(events, v) == LogOf(db.events, v);
      }
    }
    MovedNotUnderCancelled(db, work, to, actor);
    forall e | e in events
      ensures e.work in works
    {
      assert e in db.events || e.work == work;
    }
  }
}
