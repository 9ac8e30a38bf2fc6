/** Attempts count claims: a budget of attempts is spent by every claim, a lost lease
    defeats its holder, and passes that all commit never take a lease over. */
module RelayProgress {
  import opened Domain
  import opened BatchResult
  import opened Store
  import opened StoreEffects
  import opened Relay
  import opened Protocol
  import opened Invariant
  import opened Safety

  predicate Ended(m: Message) {
    m.state.Published? || m.state.Dead?
  }

  predicate Claims(step: Step, id: Id) {
    step.Claim? && id in step.ids
  }

  /** What one step may do to a stored message: an ended one is left alone, and
      attempts goes up by one when the step claims the row and otherwise never changes. */
  ghost predicate RowMoves(s: System, s': System, step: Step, id: Id)
    requires id in s.tables.outbox
  {
    && id in s'.tables.outbox
    && var m, m' := s.tables.outbox[id], s'.tables.outbox[id];
    && m'.attempts == m.attempts + (if Claims(step, id) then 1 else 0)
    && (Claims(step, id) ==> m'.state.Processing?)
    && (Ended(m) ==> m' == m && !Claims(step, id))
  }

  ghost predicate SameAttempts(t: Tables, t': Tables) {
    && (forall id | id in t'.outbox :: id in t.outbox)
    && forall id | id in t.outbox :: id in t'.outbox && t'.outbox[id].attempts == t.outbox[id].attempts
  }

  lemma {:induction false} SingleSameAttempts(t: Tables, id: Id, confirmed: bool)
    requires id in t.records && id in t.outbox && t.records[id].executionId == id
    requires SingleWriteBack(t, id, confirmed).Some?
    ensures SameAttempts(t, SingleWriteBack(t, id, confirmed).value)
  {
  }

  lemma {:induction false} ChunkSameAttempts(t: Tables, pending: seq<Record>, result: RunResult)
    requires ChunkWriteBack(t, pending, result).Some?
    ensures SameAttempts(t, ChunkWriteBack(t, pending, result).value)
  {
  }

  lemma {:induction false} RelaySameAttempts(
    t: Tables, token: string, copies: map<Id, Message>, plan: Plan, retryAt: Time)
    requires PlanDisjoint(plan) && forall x | x in plan.dead :: x in copies
    requires RelayWriteBack(t, token, copies, plan, retryAt).Some?
    ensures SameAttempts(t, RelayWriteBack(t, token, copies, plan, retryAt).value)
  {
  }

  lemma {:induction false} WriteBackKeepsAttempts(c: RelayConfig, s: System, actor: Actor)
    requires Inv(c, s) && Enabled(c, s, WriteBack(actor))
    ensures SameAttempts(s.tables, Apply(c, s, WriteBack(actor)).tables)
  {
    assert LocalOk(s, c.maxAttempts, s.locals[actor]);
    var t := WriteBackOf(c, s.tables, s.locals[actor]);
    if t.Some? {
      hide SameAttempts, RelayWriteBack, ChunkWriteBack, SingleWriteBack;
      match s.locals[actor]
      case SinglePublished(record, confirmed) =>
        var id := record.executionId;
        assert RecordIndexed(s.tables, id) && id in s.tables.records.Keys && id in s.tables.outbox.Keys;
        SingleSameAttempts(s.tables, id, confirmed);
      case ChunkPublished(pending, result) =>
        ChunkSameAttempts(s.tables, pending, result);
      case RelayPublished(token, now, ids, copies, plan) =>
        RelaySameAttempts(s.tables, token, copies, plan, RetryAt(c, now, plan.maxAttempt));
    }
  }

  lemma {:induction false} BeginKeepsOutbox(
    c: RelayConfig, s: System, actor: Actor, requestId: string, cases: seq<Case>, version: string, at: Time,
    single: bool)
    requires Inv(c, s) && requestId != ""
    ensures var s' := BeginWith(s, actor, version, PersistChunk(s.tables, requestId, cases, version, at), single);
      && OutboxKept(s.tables, s'.tables)
      && forall id | id in s'.tables.outbox && id !in s.tables.outbox ::
           s'.tables.outbox[id].attempts == 0 && s'.tables.outbox[id].state.Pending?
           && s'.tables.outbox[id].availableAt == at
  {
    assert Wf(s.tables) && Paired(s.tables);
    hide Inv, PersistChunk;
    var t', p := PersistChunkEffect(s.tables, requestId, cases, version, at);
    NewRowsAreFresh(s.tables, t', p, requestId, cases, at);
    hide PersistedOk, OutboxKept, Wf, Paired;
  }

  lemma {:induction false} NewRowsAreFresh(
    t: Tables, t': Tables, p: Persisted, requestId: string, cases: seq<Case>, at: Time)
    requires Paired(t) && PersistedOk(t, t', p, requestId, cases, at)
    ensures OutboxKept(t, t')
    ensures forall id | id in t'.outbox && id !in t.outbox ::
      t'.outbox[id].attempts == 0 && t'.outbox[id].state.Pending? && t'.outbox[id].availableAt == at
  {
  }

  lemma {:induction false} WriteBackMovesRow(c: RelayConfig, s: System, actor: Actor, id: Id)
    requires Inv(c, s) && Enabled(c, s, WriteBack(actor)) && id in s.tables.outbox
    ensures RowMoves(s, Apply(c, s, WriteBack(actor)), WriteBack(actor), id)
  {
    StepSettled(c, s, WriteBack(actor));
    WriteBackKeepsAttempts(c, s, actor);
    hide Inv, Apply;
  }

  lemma {:induction false} BeginMovesRow(
    c: RelayConfig, s: System, step: Step, actor: Actor, requestId: string, cases: seq<Case>, version: string, at: Time,
    single: bool, id: Id)
    requires Inv(c, s) && requestId != "" && !step.Claim? && id in s.tables.outbox
    ensures RowMoves(s, BeginWith(s, actor, version, PersistChunk(s.tables, requestId, cases, version, at), single),
      step, id)
  {
    BeginKeepsOutbox(c, s, actor, requestId, cases, version, at, single);
    hide Inv, PersistChunk, BeginWith;
  }

  lemma {:induction false} StepMovesRow(c: RelayConfig, s: System, step: Step, id: Id)
    requires Inv(c, s) && Enabled(c, s, step) && id in s.tables.outbox
    ensures RowMoves(s, Apply(c, s, step), step, id)
  {
    assert Wf(s.tables);
    hide Inv, Wf;
    match step
    case BeginSingle(actor, requestId, cs, version, at) =>
      SingleIsChunk(s.tables, requestId, cs, version, at);
      hide RowMoves, PersistChunk, PersistSingle;
      BeginMovesRow(c, s, step, actor, requestId, [cs], version, at, true, id);
    case BeginChunk(actor, requestId, cases, version, at) =>
      hide RowMoves, PersistChunk;
      BeginMovesRow(c, s, step, actor, requestId, cases, version, at, false, id);
    case WriteBack(actor) =>
      hide Apply, RowMoves;
      WriteBackMovesRow(c, s, actor, id);
    case Claim(actor, now, token, locked, ids) =>
      hide Apply, RowMoves;
      ClaimMovesRow(c, s, step, id);
    case _ =>
  }

  lemma {:induction false} ClaimMovesRow(c: RelayConfig, s: System, step: Step, id: Id)
    requires step.Claim? && Enabled(c, s, step) && id in s.tables.outbox
    ensures RowMoves(s, Apply(c, s, step), step, id)
  {
  }

  /** New rows start waiting, with no attempt used. */
  lemma {:induction false} StepAddsFreshRows(c: RelayConfig, s: System, step: Step, id: Id)
    requires Inv(c, s) && Enabled(c, s, step)
    requires id in Apply(c, s, step).tables.outbox && id !in s.tables.outbox
    ensures Apply(c, s, step).tables.outbox[id].attempts == 0
    ensures Apply(c, s, step).tables.outbox[id].state.Pending?
  {
    assert Wf(s.tables);
    hide Inv;
    match step
    case BeginSingle(actor, requestId, cs, version, at) =>
      SingleIsChunk(s.tables, requestId, cs, version, at);
      hide Wf, PersistChunk, PersistSingle;
      BeginKeepsOutbox(c, s, actor, requestId, [cs], version, at, true);
    case BeginChunk(actor, requestId, cases, version, at) =>
      hide Wf, PersistChunk;
      BeginKeepsOutbox(c, s, actor, requestId, cases, version, at, false);
    case WriteBack(actor) =>
      WriteBackKeepsAttempts(c, s, actor);
      hide Wf, Apply;
    case _ =>
      hide Wf;
  }

  // ---- the budget of attempts ---------------------------------------------------------

  /** Attempts a message may still use: none once it has ended. */
  function Left(m: Message, max: int): int {
    if Ended(m) then 0 else max - m.attempts
  }

  function Budget(outbox: map<Id, Message>, order: seq<Id>, max: int): int {
    if order == [] then 0
    else
      var id := order[|order| - 1];
      Budget(outbox, order[..|order| - 1], max) + if id in outbox then Left(outbox[id], max) else 0
  }

  lemma {:induction false} BudgetFalls(
    o: map<Id, Message>, o': map<Id, Message>, order: seq<Id>, claimed: set<Id>, max: int)
    requires forall id | id in order ::
      id in o && id in o' && Left(o'[id], max) <= Left(o[id], max) - (if id in claimed then 1 else 0)
    ensures Budget(o', order, max) <= Budget(o, order, max) - |Only(order, claimed)|
  {
    if order != [] {
      var n := |order| - 1;
      BudgetFalls(o, o', order[..n], claimed, max);
      assert order[n] in order;
    }
  }

  /** No row has used more attempts than it has. */
  ghost predicate WithinMax(c: RelayConfig, s: System) {
    forall id | id in s.tables.outbox :: s.tables.outbox[id].attempts <= c.maxAttempts
  }

  /** The claim takes over no lease: every row it takes was waiting. Each holder had
      then written back before its lease ran out. */
  predicate TakesWaiting(s: System, step: Step) {
    step.Claim? ==> forall id | id in step.ids :: id in s.tables.outbox && s.tables.outbox[id].state.Pending?
  }

  ghost predicate NoTakeover(c: RelayConfig, s: System, steps: seq<Step>)
    requires ValidRun(c, s, steps)
    decreases |steps|
  {
    steps == [] || (TakesWaiting(s, steps[0]) && NoTakeover(c, Apply(c, s, steps[0]), steps[1..]))
  }

  lemma {:induction false} StepWithinMax(c: RelayConfig, s: System, step: Step)
    requires ValidConfig(c) && Inv(c, s) && Enabled(c, s, step) && WithinMax(c, s) && TakesWaiting(s, step)
    ensures WithinMax(c, Apply(c, s, step))
  {
    var s' := Apply(c, s, step);
    forall id | id in s.tables.outbox
      ensures s.tables.outbox[id].state.Pending? ==> s.tables.outbox[id].attempts < c.maxAttempts
    {
      assert id in s.tables.outbox.Keys && id in s.tables.records.Keys;
      assert RowOk(s, c.maxAttempts, id);
    }
    hide Inv, Enabled, Apply;
    forall id | id in s'.tables.outbox ensures s'.tables.outbox[id].attempts <= c.maxAttempts {
      if id in s.tables.outbox {
        StepMovesRow(c, s, step, id);
      } else {
        StepAddsFreshRows(c, s, step, id);
      }
    }
  }

  /** Unless some relay lets its lease run out, each row is claimed at most MaxAttempts
      times, whatever else happens in between. */
  lemma {:induction false} ClaimsBounded(c: RelayConfig, steps: seq<Step>, id: Id)
    requires ValidConfig(c) && ValidRun(c, INITIAL, steps) && NoTakeover(c, INITIAL, steps)
    requires id in Run(c, INITIAL, steps).tables.outbox
    ensures var s := Run(c, INITIAL, steps);
      s.tables.outbox[id].attempts == |ClaimsOf(s.claims, id)| <= c.maxAttempts
  {
    InitialInv(c);
    RunWithinMax(c, INITIAL, steps);
    PendingHasAttemptsLeft(c, steps, id);
  }

  lemma {:induction false} RunWithinMax(c: RelayConfig, s: System, steps: seq<Step>)
    requires ValidConfig(c) && Inv(c, s) && WithinMax(c, s) && ValidRun(c, s, steps) && NoTakeover(c, s, steps)
    ensures WithinMax(c, Run(c, s, steps))
    decreases |steps|
  {
    hide Inv, WithinMax;
    if steps != [] {
      StepKeepsInv(c, s, steps[0]);
      StepWithinMax(c, s, steps[0]);
      RunWithinMax(c, Apply(c, s, steps[0]), steps[1..]);
    }
  }

  // ---- passes that all commit --------------------------------------------------------

  /** The relay in this state holds the row's lease. */
  predicate Holds(l: Local, m: Message, id: Id) {
    (l.RelayClaimed? || l.RelayPublished?) && l.token == m.leaseToken && id in l.ids
  }

  /** Every leased row has a relay that is still at work on it. */
  ghost predicate Held(s: System) {
    forall id | id in s.tables.outbox && s.tables.outbox[id].state.Processing? :: HeldRow(s, id)
  }

  ghost predicate HeldRow(s: System, id: Id)
    requires id in s.tables.outbox
  {
    exists a :: a in s.locals && Holds(s.locals[a], s.tables.outbox[id], id)
  }

  /** A relay that writes back commits, and none crashes. */
  predicate RelayCommits(c: RelayConfig, s: System, step: Step) {
    match step
    case WriteBack(a) =>
      a in s.locals && s.locals[a].RelayPublished? ==> WriteBackOf(c, s.tables, s.locals[a]).Some?
    case Crash(a) => a in s.locals ==> TokenOf(s.locals[a]) == None
    case _ => true
  }

  /** Every relay pass of the run ends with a write-back that commits. */
  ghost predicate EveryPassCommits(c: RelayConfig, s: System, steps: seq<Step>)
    requires ValidRun(c, s, steps)
    decreases |steps|
  {
    if steps == [] then forall a | a in s.locals :: TokenOf(s.locals[a]) == None
    else RelayCommits(c, s, steps[0]) && EveryPassCommits(c, Apply(c, s, steps[0]), steps[1..])
  }

  /** The relay remembers an older copy of a row that is stored now. */
  ghost predicate Overtaken(s: System, a: Actor, id: Id) {
    && a in s.locals && (s.locals[a].RelayClaimed? || s.locals[a].RelayPublished?)
    && id in s.locals[a].ids && id in s.locals[a].copies && id in s.tables.outbox
    && s.locals[a].copies[id].attempts < s.tables.outbox[id].attempts
  }

  lemma {:induction false} StepKeepsRelay(c: RelayConfig, s: System, step: Step, a: Actor)
    requires Enabled(c, s, step) && a in s.locals && (s.locals[a].RelayClaimed? || s.locals[a].RelayPublished?)
    requires step != WriteBack(a) && step != Crash(a)
    ensures var s' := Apply(c, s, step);
      && a in s'.locals && (s'.locals[a].RelayClaimed? || s'.locals[a].RelayPublished?)
      && s'.locals[a].token == s.locals[a].token
      && s'.locals[a].ids == s.locals[a].ids && s'.locals[a].copies == s.locals[a].copies
  {
    hide PersistChunk, PersistSingle, Observe, WriteBackOf, ReplayChunk, ClaimSelection, HonestResult, MakePlan;
    hide ClaimRows, Copies, MarkFailed, Complete, IdsOf;
  }

  /** A pass that has been overtaken can no longer commit. */
  lemma {:induction false} OvertakenFails(c: RelayConfig, s: System, steps: seq<Step>, a: Actor, id: Id)
    requires ValidConfig(c) && Inv(c, s) && ValidRun(c, s, steps) && Overtaken(s, a, id)
    ensures !EveryPassCommits(c, s, steps)
    decreases |steps|
  {
    hide Inv, Enabled, Apply;
    if steps != [] {
      if steps[0] == WriteBack(a) && s.locals[a].RelayPublished? {
        LeaseFencing(c, s, a);
        assert !Untouched(s.tables, s.locals[a].ids, s.locals[a].copies);
      } else if steps[0] != Crash(a) {
        if s.locals[a].RelayClaimed? {
          NoEarlyWriteBack(c, s, steps[0], a);
        }
        StepKeepsInv(c, s, steps[0]);
        StepMovesRow(c, s, steps[0], id);
        StepKeepsRelay(c, s, steps[0], a);
        OvertakenFails(c, Apply(c, s, steps[0]), steps[1..], a, id);
      }
    }
  }

  lemma {:induction false} NoEarlyWriteBack(c: RelayConfig, s: System, step: Step, a: Actor)
    requires Enabled(c, s, step) && a in s.locals && s.locals[a].RelayClaimed?
    ensures step != WriteBack(a)
  {
  }

  lemma {:induction false} SingleLeavesRow(t: Tables, x: Id, confirmed: bool, id: Id)
    requires x in t.records && x in t.outbox && t.records[x].executionId == x
    requires SingleWriteBack(t, x, confirmed).Some? && id in t.outbox
    ensures var o' := SingleWriteBack(t, x, confirmed).value.outbox;
      id in o' && (o'[id].state.Processing? ==> o'[id] == t.outbox[id])
  {
    SingleWriteBackEffect(t, x, confirmed);
    hide SingleWriteBack;
  }

  lemma {:induction false} SingleLeaves(c: RelayConfig, s: System, a: Actor, id: Id)
    requires Inv(c, s) && a in s.locals && s.locals[a].SinglePublished? && id in s.tables.outbox
    ensures LeftLeased(s, Apply(c, s, WriteBack(a)), id)
  {
    var x, confirmed := s.locals[a].record.executionId, s.locals[a].confirmed;
    assert LocalOk(s, c.maxAttempts, s.locals[a]);
    assert RecordIndexed(s.tables, x) && x in s.tables.records.Keys && x in s.tables.outbox.Keys;
    hide Inv, SingleWriteBack, LocalOk, RecordIndexed;
    if SingleWriteBack(s.tables, x, confirmed).Some? {
      SingleLeavesRow(s.tables, x, confirmed, id);
    }
  }

  lemma {:induction false} ChunkLeaves(c: RelayConfig, s: System, a: Actor, id: Id)
    requires Inv(c, s) && a in s.locals && s.locals[a].ChunkPublished? && id in s.tables.outbox
    ensures LeftLeased(s, Apply(c, s, WriteBack(a)), id)
  {
    hide Inv, Apply;
    FastPathFencing(c, s, a);
  }

  lemma {:induction false} RelayLeaves(c: RelayConfig, s: System, a: Actor, id: Id)
    requires ValidConfig(c) && Inv(c, s) && a in s.locals && s.locals[a].RelayPublished? && id in s.tables.outbox
    ensures LeftLeased(s, Apply(c, s, WriteBack(a)), id)
    ensures Untouched(s.tables, s.locals[a].ids, s.locals[a].copies) && id in s.locals[a].ids ==>
      id in Apply(c, s, WriteBack(a)).tables.outbox ==> !Apply(c, s, WriteBack(a)).tables.outbox[id].state.Processing?
  {
    hide Inv, Apply, WriteBackOf;
    LeaseFencing(c, s, a);
  }

  /** If the row is leased afterwards, it is the row it was before. */
  ghost predicate LeftLeased(s: System, s': System, id: Id)
    requires id in s.tables.outbox
  {
    id in s'.tables.outbox && s'.tables.outbox[id].state.Processing? ==> s'.tables.outbox[id] == s.tables.outbox[id]
  }

  /** A row that is leased after a write-back was so before, under another holder. */
  lemma {:induction false} WriteBackLeaves(c: RelayConfig, s: System, a: Actor, id: Id)
    requires ValidConfig(c) && Inv(c, s) && Enabled(c, s, WriteBack(a))
    requires RelayCommits(c, s, WriteBack(a)) && id in s.tables.outbox
    ensures var s' := Apply(c, s, WriteBack(a));
      && LeftLeased(s, s', id)
      && (s.locals[a].RelayPublished? && id in s'.tables.outbox && s'.tables.outbox[id].state.Processing? ==>
            id !in s.locals[a].ids)
  {
    hide Inv, Apply, WriteBackOf, LeftLeased, Untouched;
    if s.locals[a].RelayPublished? {
      LeaseFencing(c, s, a);
    }
    match s.locals[a]
    case SinglePublished(_, _) => SingleLeaves(c, s, a, id);
    case ChunkPublished(_, _) => ChunkLeaves(c, s, a, id);
    case RelayPublished(_, _, _, _, _) => RelayLeaves(c, s, a, id);
  }

  /** A row that a step leaves leased, and does not claim, was leased to the same holder. */
  lemma {:induction false} LeasedBefore(c: RelayConfig, s: System, step: Step, id: Id)
    requires ValidConfig(c) && Inv(c, s) && Enabled(c, s, step) && RelayCommits(c, s, step) && !Claims(step, id)
    requires id in Apply(c, s, step).tables.outbox && Apply(c, s, step).tables.outbox[id].state.Processing?
    ensures id in s.tables.outbox && Apply(c, s, step).tables.outbox[id] == s.tables.outbox[id]
    ensures step.WriteBack? && s.locals[step.actor].RelayPublished? ==> id !in s.locals[step.actor].ids
  {
    assert Wf(s.tables);
    hide Inv, Wf;
    if id !in s.tables.outbox {
      hide Apply, Enabled;
      StepAddsFreshRows(c, s, step, id);
    } else {
      match step
      case BeginSingle(actor, requestId, cs, version, at) =>
        SingleIsChunk(s.tables, requestId, cs, version, at);
        hide PersistChunk, PersistSingle;
        BeginKeepsOutbox(c, s, actor, requestId, [cs], version, at, true);
      case BeginChunk(actor, requestId, cases, version, at) =>
        hide PersistChunk;
        BeginKeepsOutbox(c, s, actor, requestId, cases, version, at, false);
      case WriteBack(actor) =>
        hide Apply;
        WriteBackLeaves(c, s, actor, id);
      case Claim(actor, now, token, locked, ids) =>
        hide ClaimSelection;
      case _ =>
    }
  }

  lemma {:induction false} StepKeepsHeld(c: RelayConfig, s: System, step: Step)
    requires ValidConfig(c) && Inv(c, s) && Held(s) && Enabled(c, s, step) && RelayCommits(c, s, step)
    ensures Held(Apply(c, s, step))
  {
    var s' := Apply(c, s, step);
    forall id | id in s'.tables.outbox && s'.tables.outbox[id].state.Processing? ensures HeldRow(s', id) {
      if Claims(step, id) {
        ClaimHolds(c, s, step, id);
      } else {
        hide Inv, Apply, RelayCommits, Enabled;
        LeasedBefore(c, s, step, id);
        assert HeldRow(s, id);
        var a :| a in s.locals && Holds(s.locals[a], s.tables.outbox[id], id);
        HolderKept(c, s, step, a);
      }
    }
  }

  lemma {:induction false} ClaimHolds(c: RelayConfig, s: System, step: Step, id: Id)
    requires Enabled(c, s, step) && Claims(step, id)
    ensures id in Apply(c, s, step).tables.outbox ==> HeldRow(Apply(c, s, step), id)
  {
    hide ClaimSelection;
    var s' := Apply(c, s, step);
    if id in s'.tables.outbox {
      assert Holds(s'.locals[step.actor], s'.tables.outbox[id], id);
    }
  }

  /** Nothing but its own write-back ends a pass, if none crashes. */
  lemma {:induction false} HolderKept(c: RelayConfig, s: System, step: Step, a: Actor)
    requires Enabled(c, s, step) && RelayCommits(c, s, step)
    requires a in s.locals && (s.locals[a].RelayClaimed? || s.locals[a].RelayPublished?)
    requires step == WriteBack(a) ==> !s.locals[a].RelayPublished?
    ensures var s' := Apply(c, s, step);
      && a in s'.locals && (s'.locals[a].RelayClaimed? || s'.locals[a].RelayPublished?)
      && s'.locals[a].token == s.locals[a].token && s'.locals[a].ids == s.locals[a].ids
  {
    assert step != Crash(a);
    if s.locals[a].RelayClaimed? {
      NoEarlyWriteBack(c, s, step, a);
    }
    hide Enabled, Apply;
    StepKeepsRelay(c, s, step, a);
  }

  /** The holder of a leased row remembers it as it is stored. */
  lemma {:induction false} HolderRemembers(c: RelayConfig, s: System, id: Id) returns (a: Actor)
    requires Inv(c, s) && Held(s) && id in s.tables.outbox && s.tables.outbox[id].state.Processing?
    ensures a in s.locals && Holds(s.locals[a], s.tables.outbox[id], id)
    ensures id in s.locals[a].copies && s.locals[a].copies[id] == s.tables.outbox[id]
  {
    assert id in s.tables.outbox.Keys && id in s.tables.records.Keys;
    assert RowOk(s, c.maxAttempts, id) && HeldRow(s, id);
    a :| a in s.locals && Holds(s.locals[a], s.tables.outbox[id], id);
    assert LocalOk(s, c.maxAttempts, s.locals[a]);
    hide Inv, RowOk;
  }

  lemma {:induction false} ClaimOvertakes(c: RelayConfig, s: System, step: Step, id: Id)
    requires ValidConfig(c) && Inv(c, s) && Held(s) && Enabled(c, s, step) && Claims(step, id)
    requires id in s.tables.outbox && s.tables.outbox[id].state.Processing?
    ensures exists a :: Overtaken(Apply(c, s, step), a, id)
  {
    hide Inv, Held, Apply;
    var a := HolderRemembers(c, s, id);
    assert step.Claim?;
    hide Enabled;
    StepMovesRow(c, s, step, id);
    StepKeepsRelay(c, s, step, a);
    assert Overtaken(Apply(c, s, step), a, id);
  }

  /** A run in which every relay pass commits its write-back takes no lease over. */
  lemma {:induction false} CommitsMeanNoTakeover(c: RelayConfig, s: System, steps: seq<Step>)
    requires ValidConfig(c) && Inv(c, s) && Held(s) && ValidRun(c, s, steps) && EveryPassCommits(c, s, steps)
    ensures NoTakeover(c, s, steps)
    decreases |steps|
  {
    hide Inv, Held, Enabled, Apply, RelayCommits;
    if steps != [] {
      StepKeepsInv(c, s, steps[0]);
      StepKeepsHeld(c, s, steps[0]);
      CommitsMeanNoTakeover(c, Apply(c, s, steps[0]), steps[1..]);
      if steps[0].Claim? {
        forall id | id in steps[0].ids ensures id in s.tables.outbox && s.tables.outbox[id].state.Pending? {
          LeaseIsExclusive(c, s, steps[0], id);
          if s.tables.outbox[id].state.Processing? {
            ClaimOvertakes(c, s, steps[0], id);
            var a :| Overtaken(Apply(c, s, steps[0]), a, id);
            OvertakenFails(c, Apply(c, s, steps[0]), steps[1..], a, id);
          }
        }
      }
    }
  }

  /** If every relay pass commits, no row is ever claimed more than MaxAttempts times. */
  lemma {:induction false} CommittedClaimsBounded(c: RelayConfig, steps: seq<Step>, id: Id)
    requires ValidConfig(c) && ValidRun(c, INITIAL, steps) && EveryPassCommits(c, INITIAL, steps)
    requires id in Run(c, INITIAL, steps).tables.outbox
    ensures var s := Run(c, INITIAL, steps);
      s.tables.outbox[id].attempts == |ClaimsOf(s.claims, id)| <= c.maxAttempts
  {
    InitialInv(c);
    hide ValidRun, Run, Inv;
    CommitsMeanNoTakeover(c, INITIAL, steps);
    ClaimsBounded(c, steps, id);
  }

  // ---- spending the budget -----------------------------------------------------------

  /** How many of the listed rows the claims of a run took, counted once per claim. */
  function RowsClaimed(steps: seq<Step>, order: seq<Id>): nat
    decreases |steps|
  {
    if steps == [] then 0
    else (if steps[0].Claim? then |Only(order, SetOf(steps[0].ids))| else 0) + RowsClaimed(steps[1..], order)
  }

  lemma {:induction false} StepSpends(c: RelayConfig, s: System, step: Step, order: seq<Id>)
    requires Inv(c, s) && Enabled(c, s, step) && WithinMax(c, s)
    requires forall id | id in order :: id in s.tables.outbox
    ensures var claimed := if step.Claim? then SetOf(step.ids) else {};
      Budget(Apply(c, s, step).tables.outbox, order, c.maxAttempts)
        <= Budget(s.tables.outbox, order, c.maxAttempts) - |Only(order, claimed)|
    ensures forall id | id in order :: id in Apply(c, s, step).tables.outbox
  {
    var s' := Apply(c, s, step);
    var claimed := if step.Claim? then SetOf(step.ids) else {};
    hide Inv, Enabled, Apply;
    forall id | id in order
      ensures id in s'.tables.outbox
      ensures Left(s'.tables.outbox[id], c.maxAttempts)
           <= Left(s.tables.outbox[id], c.maxAttempts) - (if id in claimed then 1 else 0)
    {
      StepMovesRow(c, s, step, id);
    }
    BudgetFalls(s.tables.outbox, s'.tables.outbox, order, claimed, c.maxAttempts);
  }

  lemma {:induction false} NoneTaken(order: seq<Id>)
    ensures Only(order, {}) == []
  {
    if order != [] {
      NoneTaken(order[..|order| - 1]);
    }
  }

  /** Every claim of the listed rows is paid from one budget, at most MaxAttempts per
      row, that nothing ever refills: fast paths, callbacks, crashes and write-backs
      of any outcome included. */
  lemma {:induction false} RunSpends(c: RelayConfig, s: System, steps: seq<Step>, order: seq<Id>)
    requires ValidConfig(c) && Inv(c, s) && WithinMax(c, s) && ValidRun(c, s, steps) && NoTakeover(c, s, steps)
    requires forall id | id in order :: id in s.tables.outbox
    ensures Budget(Run(c, s, steps).tables.outbox, order, c.maxAttempts) + RowsClaimed(steps, order)
         <= Budget(s.tables.outbox, order, c.maxAttempts)
    decreases |steps|
  {
    hide Inv, WithinMax, Budget;
    if steps != [] {
      StepKeepsInv(c, s, steps[0]);
      StepWithinMax(c, s, steps[0]);
      StepSpends(c, s, steps[0], order);
      NoneTaken(order);
      RunSpends(c, Apply(c, s, steps[0]), steps[1..], order);
    }
  }

  // ---- a lost lease ---------------------------------------------------------------------

  lemma {:induction false} AttemptsNeverFall(c: RelayConfig, s: System, steps: seq<Step>, id: Id)
    requires ValidConfig(c) && Inv(c, s) && ValidRun(c, s, steps) && id in s.tables.outbox
    ensures id in Run(c, s, steps).tables.outbox
    ensures Run(c, s, steps).tables.outbox[id].attempts >= s.tables.outbox[id].attempts
    decreases |steps|
  {
    hide Inv;
    if steps != [] {
      StepKeepsInv(c, s, steps[0]);
      StepMovesRow(c, s, steps[0], id);
      AttemptsNeverFall(c, Apply(c, s, steps[0]), steps[1..], id);
    }
  }

  /** Once another claim has taken over a row, the earlier pass never commits,
      however the run goes on: its write-back leaves both tables alone. */
  lemma {:induction false} TakeoverDefeatsHolder(
    c: RelayConfig, s: System, claim: Step, steps: seq<Step>, holder: Actor, id: Id, copies: map<Id, Message>)
    requires ValidConfig(c) && Inv(c, s) && claim.Claim? && Enabled(c, s, claim)
    requires ValidRun(c, Apply(c, s, claim), steps)
    requires id in claim.ids && id in copies && id in s.tables.outbox && s.tables.outbox[id] == copies[id]
    requires var s' := Run(c, Apply(c, s, claim), steps);
      && holder in s'.locals && s'.locals[holder].RelayPublished?
      && s'.locals[holder].copies == copies && id in s'.locals[holder].ids
    ensures var s' := Run(c, Apply(c, s, claim), steps);
      Apply(c, s', WriteBack(holder)).tables == s'.tables
  {
    var s1 := Apply(c, s, claim);
    hide Inv;
    StepKeepsInv(c, s, claim);
    StepMovesRow(c, s, claim, id);
    RunKeepsInv(c, s1, steps);
    AttemptsNeverFall(c, s1, steps, id);
    var s' := Run(c, s1, steps);
    assert !Untouched(s'.tables, s'.locals[holder].ids, copies);
    LeaseFencing(c, s', holder);
  }
}
