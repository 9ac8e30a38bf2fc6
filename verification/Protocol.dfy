/** The dispatch protocol as a state machine. Actors (fast-path calls and relay
    passes) keep local copies between their transactions; every transaction body is
    one atomic step, and an actor may vanish between any two of its steps. */
module Protocol {
  import opened Domain
  import opened BatchResult
  import opened Store
  import opened Relay

  type Actor = nat

  /** What an actor remembers between two steps. */
  datatype Local =
    | SinglePersisted(record: Record)
    | SinglePublished(record: Record, confirmed: bool)
    | ChunkPersisted(pending: seq<Record>)
    | ChunkPublished(pending: seq<Record>, result: RunResult)
    | RelayClaimed(token: string, now: Time, ids: seq<Id>, copies: map<Id, Message>)
    | RelayPublished(token: string, now: Time, ids: seq<Id>, copies: map<Id, Message>, plan: Plan)

  /** `tables` and `clock` are real; `acked` (ids the broker has acknowledged),
      `claims` (what each lease token was issued for) and `history` (the successive
      stored statuses) only observe the run. */
  datatype System = System(
    tables: Tables, clock: Time, locals: map<Actor, Local>,
    acked: set<Id>, claims: map<string, map<Id, Message>>, history: map<Id, seq<Status>>)

  datatype Step =
    | BeginSingle(actor: Actor, requestId: string, c: Case, version: string, at: Time)
    | BeginChunk(actor: Actor, requestId: string, cases: seq<Case>, version: string, at: Time)
    | Publish(actor: Actor, raw: RunResult, acks: set<Id>)
    | WriteBack(actor: Actor)
    | Claim(actor: Actor, now: Time, token: string, locked: set<Id>, ids: seq<Id>)
    | Callback(id: Id, next: Status)
    | Tick(to: Time)
    | Crash(actor: Actor)

  const INITIAL := System(NO_TABLES, 0, map[], {}, map[], map[])

  // ---- phase two of the fast paths ------------------------------------------

  /** The idempotent replay decision over a read-back chunk. */
  datatype Replay =
    | VersionMismatch
    | Replayed(success: seq<Id>, failed: seq<Id>, pending: seq<Record>)

  function ReplaySplit(p: Persisted): (r: Replay)
    requires |p.records| == |p.messages|
    ensures r.Replayed?
    decreases |p.records|
  {
    if p.records == [] then Replayed([], [], [])
    else
      var n := |p.records| - 1;
      var rest := ReplaySplit(Persisted(p.records[..n], p.messages[..n]));
      var id := p.records[n].executionId;
      match ReplayStatus(p.messages[n])
      case Some(status) =>
        if status == DispatchFailed then rest.(failed := rest.failed + [id]) else rest.(success := rest.success + [id])
      case None => rest.(pending := rest.pending + [p.records[n]])
  }

  predicate VersionsMatch(p: Persisted, version: string) {
    forall i | 0 <= i < |p.records| :: p.records[i].version == version
  }

  function ReplayChunk(p: Persisted, version: string): Replay
    requires |p.records| == |p.messages|
  {
    if VersionsMatch(p, version) then ReplaySplit(p) else VersionMismatch
  }

  function IdsOf(rs: seq<Record>): (ids: seq<Id>)
    ensures |ids| == |rs|
  {
    seq(|rs|, i requires 0 <= i < |rs| => rs[i].executionId)
  }

  /** DispatchBatch: records in the failed list move to DISPATCH_FAILED in memory;
      an illegal move is logged and skipped. */
  function MarkFailed(rs: seq<Record>, failed: seq<Id>): (out: seq<Record>)
    ensures |out| == |rs|
  {
    seq(|rs|, i requires 0 <= i < |rs| => if rs[i].executionId in failed then MarkedFailed(rs[i]) else rs[i])
  }

  /** Execute succeeds only without a batch error and without a failed id. */
  predicate SingleConfirmed(raw: RunResult) {
    !raw.error && raw.failed == []
  }

  // ---- phase three of the fast paths ------------------------------------------

  function SingleWriteBack(t: Tables, id: Id, confirmed: bool): Option<Tables> {
    if confirmed then UpdateByExecutionIds(t, [id], "", ToPublished)
    else if id !in t.records || !CanTransitTo(t.records[id].status, DispatchFailed) then None
    else
      var t1 :- SaveRecord(t, MarkedFailed(t.records[id]));
      UpdateByExecutionIds(t1, [id], "", ToDead)
  }

  function ChunkWriteBack(t: Tables, pending: seq<Record>, result: RunResult): Option<Tables> {
    var t1 :- WriteStatuses(t, pending);
    var t2 :- UpdateByExecutionIds(t1, result.success, "", ToPublished);
    UpdateByExecutionIds(t2, result.failed, "", ToDead)
  }

  // ---- steps --------------------------------------------------------------------

  /** The transaction an actor runs next; None is a rollback. */
  function WriteBackOf(c: RelayConfig, t: Tables, l: Local): Option<Tables>
    requires l.SinglePublished? || l.ChunkPublished? || l.RelayPublished?
  {
    match l
    case SinglePublished(record, confirmed) => SingleWriteBack(t, record.executionId, confirmed)
    case ChunkPublished(pending, result) => ChunkWriteBack(t, pending, result)
    case RelayPublished(token, now, ids, copies, plan) =>
      RelayWriteBack(t, token, copies, plan, RetryAt(c, now, plan.maxAttempt))
  }

  function AfterPublish(c: RelayConfig, l: Local, raw: RunResult): Local
    requires l.SinglePersisted? || l.ChunkPersisted? || l.RelayClaimed?
  {
    match l
    case SinglePersisted(record) => SinglePublished(record, SingleConfirmed(raw))
    case ChunkPersisted(pending) =>
      var result := Complete(IdsOf(pending), raw);
      ChunkPublished(MarkFailed(pending, result.failed), result)
    case RelayClaimed(token, now, ids, copies) =>
      RelayPublished(token, now, ids, copies, MakePlan(ids, copies, raw, c.maxAttempts))
  }

  /** BatchRun's promise to its callers: only acknowledged ids are reported as
      success, and every published id is reported. */
  predicate HonestResult(ids: seq<Id>, raw: RunResult, acks: set<Id>) {
    && (forall id | id in raw.success :: id in acks)
    && (forall id | id in ids :: id in raw.success || id in raw.failed)
  }

  function TaskIds(l: Local): seq<Id>
    requires l.SinglePersisted? || l.ChunkPersisted? || l.RelayClaimed?
  {
    match l
    case SinglePersisted(record) => [record.executionId]
    case ChunkPersisted(pending) => IdsOf(pending)
    case RelayClaimed(_, _, ids, _) => ids
  }

  ghost predicate Enabled(c: RelayConfig, s: System, step: Step) {
    match step
    case BeginSingle(actor, requestId, _, version, at) => actor !in s.locals && requestId != "" && version != ""
    case BeginChunk(actor, requestId, _, version, at) => actor !in s.locals && requestId != "" && version != ""
    case Publish(actor, raw, acks) =>
      && actor in s.locals
      && (s.locals[actor].SinglePersisted? || s.locals[actor].ChunkPersisted? || s.locals[actor].RelayClaimed?)
      && HonestResult(TaskIds(s.locals[actor]), raw, acks)
    case WriteBack(actor) =>
      && actor in s.locals
      && (s.locals[actor].SinglePublished? || s.locals[actor].ChunkPublished? || s.locals[actor].RelayPublished?)
    case Claim(actor, now, token, locked, ids) =>
      && actor !in s.locals
      && now <= s.clock
      && token != "" && token !in s.claims
      && ClaimSelection(s.tables.outbox, now, EffectiveLimit(c.batchSize), locked, ids)
    case Callback(id, next) =>
      && id in s.tables.records
      && next != DispatchFailed
      && CanTransitTo(s.tables.records[id].status, next)
    case Tick(to) => to > s.clock
    case Crash(actor) => actor in s.locals
  }

  /** Appends to a record's history whenever its stored status has changed. */
  function Observe(history: map<Id, seq<Status>>, records: map<Id, Record>): map<Id, seq<Status>> {
    map id | id in records ::
      var status := records[id].status;
      if id !in history || history[id] == [] then [status]
      else if history[id][|history[id]| - 1] == status then history[id]
      else history[id] + [status]
  }

  function Commit(s: System, t: Tables): System {
    s.(tables := t, history := Observe(s.history, t.records))
  }

  function BeginWith(
    s: System, actor: Actor, version: string, outcome: Option<(Tables, Persisted)>, single: bool): System
  {
    match outcome
    case None => s
    case Some((t, p)) =>
      var s' := Commit(s, t);
      if |p.records| != |p.messages| then s'
      else match ReplayChunk(p, version)
        case VersionMismatch => s'
        case Replayed(_, _, pending) =>
          if pending == [] then s'
          else
            s'.(locals := s'.locals[actor := if single then SinglePersisted(pending[0]) else ChunkPersisted(pending)])
  }

  /** The tables and the claim log right after a claim. */
  function Claimed(s: System, ids: seq<Id>, until: Time, token: string): System {
    s.(tables := s.tables.(outbox := ClaimRows(s.tables.outbox, ids, until, token)),
       claims := s.claims[token := Copies(s.tables.outbox, ids, until, token)])
  }

  function WithClaim(s: System, actor: Actor, now: Time, ids: seq<Id>, until: Time, token: string): System {
    var s' := Claimed(s, ids, until, token);
    if ids == [] then s'
    else s'.(locals := s'.locals[actor := RelayClaimed(token, now, ids, Copies(s.tables.outbox, ids, until, token))])
  }

  function Apply(c: RelayConfig, s: System, step: Step): System
    requires Enabled(c, s, step)
  {
    match step
    case BeginSingle(actor, requestId, cs, version, at) =>
      BeginWith(s, actor, version, PersistSingle(s.tables, requestId, cs, version, at), true)
    case BeginChunk(actor, requestId, cases, version, at) =>
      BeginWith(s, actor, version, PersistChunk(s.tables, requestId, cases, version, at), false)
    case Publish(actor, raw, acks) =>
      s.(acked := s.acked + acks, locals := s.locals[actor := AfterPublish(c, s.locals[actor], raw)])
    case WriteBack(actor) =>
      var done := s.(locals := s.locals - {actor});
      (match WriteBackOf(c, s.tables, s.locals[actor])
       case Some(t) => Commit(done, t)
       case None => done)
    case Claim(actor, now, token, locked, ids) =>
      WithClaim(s, actor, now, ids, now + c.leaseDuration, token)
    case Callback(id, next) =>
      Commit(s, s.tables.(records := s.tables.records[id := s.tables.records[id].(status := next)]))
    case Tick(to) => s.(clock := to)
    case Crash(actor) => s.(locals := s.locals - {actor})
  }

  /** Every step of the list is enabled where it is taken. */
  ghost predicate ValidRun(c: RelayConfig, s: System, steps: seq<Step>)
    decreases |steps|
  {
    steps == [] || (Enabled(c, s, steps[0]) && ValidRun(c, Apply(c, s, steps[0]), steps[1..]))
  }

  ghost function Run(c: RelayConfig, s: System, steps: seq<Step>): System
    requires ValidRun(c, s, steps)
    decreases |steps|
  {
    if steps == [] then s else Run(c, Apply(c, s, steps[0]), steps[1..])
  }

  // ---- what happens between an actor's transactions -----------------------------

  predicate ActsFor(step: Step, a: Actor) {
    match step
    case BeginSingle(actor, _, _, _, _) => actor == a
    case BeginChunk(actor, _, _, _, _) => actor == a
    case Publish(actor, _, _) => actor == a
    case WriteBack(actor) => actor == a
    case Claim(actor, _, _, _, _) => actor == a
    case Crash(actor) => actor == a
    case _ => false
  }

  predicate OthersOnly(steps: seq<Step>, a: Actor) {
    forall step | step in steps :: !ActsFor(step, a)
  }

  lemma {:induction false} OtherKeepsLocal(c: RelayConfig, s: System, step: Step, a: Actor)
    requires Enabled(c, s, step) && a in s.locals && !ActsFor(step, a)
    ensures a in Apply(c, s, step).locals && Apply(c, s, step).locals[a] == s.locals[a]
  {
    hide PersistChunk, PersistSingle, Observe, WriteBackOf, ReplayChunk, ClaimSelection, HonestResult, AfterPublish;
    hide ClaimRows, Copies;
  }

  lemma {:induction false} OthersKeepLocal(c: RelayConfig, s: System, steps: seq<Step>, a: Actor)
    requires ValidRun(c, s, steps) && a in s.locals && OthersOnly(steps, a)
    ensures a in Run(c, s, steps).locals && Run(c, s, steps).locals[a] == s.locals[a]
    decreases |steps|
  {
    hide Enabled, Apply, ActsFor;
    if steps != [] {
      OtherKeepsLocal(c, s, steps[0], a);
      OthersKeepLocal(c, Apply(c, s, steps[0]), steps[1..], a);
    }
  }

  /** From an actor's first transaction up to its write-back: its publish, and any steps
      of others before and after that. */
  datatype Phases = Phases(beforePublish: seq<Step>, raw: RunResult, acks: set<Id>, beforeWriteBack: seq<Step>)

  ghost predicate PhasesOk(c: RelayConfig, s: System, a: Actor, ph: Phases) {
    && a in s.locals && OthersOnly(ph.beforePublish, a) && ValidRun(c, s, ph.beforePublish)
    && var s2 := Run(c, s, ph.beforePublish);
    && Enabled(c, s2, Publish(a, ph.raw, ph.acks)) && OthersOnly(ph.beforeWriteBack, a)
    && ValidRun(c, Apply(c, s2, Publish(a, ph.raw, ph.acks)), ph.beforeWriteBack)
  }

  ghost function AtWriteBack(c: RelayConfig, s: System, a: Actor, ph: Phases): System
    requires PhasesOk(c, s, a, ph)
  {
    Run(c, Apply(c, Run(c, s, ph.beforePublish), Publish(a, ph.raw, ph.acks)), ph.beforeWriteBack)
  }

  lemma {:induction false} PublishedHere(c: RelayConfig, s: System, step: Step)
    requires step.Publish? && Enabled(c, s, step)
    ensures var s', a := Apply(c, s, step), step.actor;
      && a in s'.locals && s'.locals[a] == AfterPublish(c, s.locals[a], step.raw)
      && s'.tables == s.tables
  {
    hide AfterPublish, HonestResult;
  }

  lemma {:induction false} WaitsForPublish(c: RelayConfig, s: System, step: Step)
    requires step.Publish? && Enabled(c, s, step)
    ensures var l := s.locals[step.actor]; l.SinglePersisted? || l.ChunkPersisted? || l.RelayClaimed?
  {
  }

  /** Whatever the others do, the actor writes back what it read, with its own answer. */
  lemma {:induction false} RemembersOwn(c: RelayConfig, s: System, a: Actor, ph: Phases)
    requires PhasesOk(c, s, a, ph)
    ensures s.locals[a].SinglePersisted? || s.locals[a].ChunkPersisted? || s.locals[a].RelayClaimed?
    ensures var s4 := AtWriteBack(c, s, a, ph);
      && a in s4.locals && s4.locals[a] == AfterPublish(c, s.locals[a], ph.raw)
      && Enabled(c, s4, WriteBack(a))
  {
    var s2, publish := Run(c, s, ph.beforePublish), Publish(a, ph.raw, ph.acks);
    var s3 := Apply(c, s2, publish);
    WaitsForPublish(c, s2, publish);
    PublishedHere(c, s2, publish);
    CanWriteBack(c, AtWriteBack(c, s, a, ph), a);
    hide Enabled, Apply, AfterPublish;
    OthersKeepLocal(c, s, ph.beforePublish, a);
    OthersKeepLocal(c, s3, ph.beforeWriteBack, a);
    PublishedKinds(c, s.locals[a], ph.raw);
  }

  lemma {:induction false} PublishedKinds(c: RelayConfig, l: Local, raw: RunResult)
    requires l.SinglePersisted? || l.ChunkPersisted? || l.RelayClaimed?
    ensures var l' := AfterPublish(c, l, raw); l'.SinglePublished? || l'.ChunkPublished? || l'.RelayPublished?
  {
  }

  lemma {:induction false} CanWriteBack(c: RelayConfig, s: System, a: Actor)
    ensures a in s.locals && (s.locals[a].SinglePublished? || s.locals[a].ChunkPublished?
      || s.locals[a].RelayPublished?)
      ==> Enabled(c, s, WriteBack(a))
  {
  }

  lemma {:induction false} FourSteps(
    c: RelayConfig, s: System, s1: System, s2: System, s3: System, a: Step, b: Step, d: Step, e: Step)
    requires Enabled(c, s, a) && s1 == Apply(c, s, a)
    requires Enabled(c, s1, b) && s2 == Apply(c, s1, b)
    requires Enabled(c, s2, d) && s3 == Apply(c, s2, d)
    requires Enabled(c, s3, e)
    ensures var steps := [a] + [b] + [d] + [e];
      ValidRun(c, s, steps) && Run(c, s, steps) == Apply(c, s3, e)
  {
    hide Enabled, Apply;
    RunCons(c, s3, e, []);
    RunCons(c, s2, d, [e] + []);
    RunCons(c, s1, b, [d] + ([e] + []));
    RunCons(c, s, a, [b] + ([d] + ([e] + [])));
    assert [a] + [b] + [d] + [e] == [a] + ([b] + ([d] + ([e] + [])));
  }

  lemma {:induction false} RunCons(c: RelayConfig, s: System, step: Step, rest: seq<Step>)
    requires Enabled(c, s, step) && ValidRun(c, Apply(c, s, step), rest)
    ensures ValidRun(c, s, [step] + rest)
    ensures Run(c, s, [step] + rest) == Run(c, Apply(c, s, step), rest)
  {
  }
}
