/** The pool of publishing channels: borrowers, releases that mend broken channels, and
    a reconnect loop, interleaved at every critical section of the client's mutex. */
module ChannelPool {
  import opened Domain
  import opened BatchResult
  import Publisher

  type ChannelId = Id
  type Connection = nat

  /** What the mutex protects, and the buffered pool. `ready` tells one readiness signal
      from the next. */
  datatype Shared = Shared(conn: Option<Connection>, ready: nat, pool: seq<ChannelId>, closed: bool, capacity: nat)

  /** `unresolved` are the sequence numbers published and not confirmed; `leftover` says
      that events about published messages are still queued or to come. */
  datatype ChannelState = ChannelState(conn: Connection, unresolved: set<nat>, broken: bool, leftover: bool)

  /** What a goroutine holds between two critical sections. */
  datatype Work =
    | Using(ch: ChannelId)
    | Mending(snapshot: Option<Connection>)
    | Opened(ch: ChannelId, conn: Connection)
    | Reconnecting(ready: nat)
    | Drained(ready: nat)
    | Dialed(ready: nat, conn: Connection, chs: seq<ChannelId>)

  datatype Pool = Pool(
    shared: Shared, channels: map<ChannelId, ChannelState>, work: map<nat, Work>, nextConn: Connection)

  /** The one goroutine that reconnects; every other actor is a batch. */
  const LOOP: nat := 0

  datatype Step =
    | Take(actor: nat)
    | Publish(actor: nat, left: set<nat>, broke: bool, leftover: bool)
    | Release(actor: nat)
    | Reopen(actor: nat, fresh': Option<ChannelId>)
    | PutBack(actor: nat)
    | Disconnect
    | Drain
    | DrainDone
    | Dial(chs: seq<ChannelId>)
    | CommitReconnect
    | Close
    | DrainClosed

  // ---- critical sections ---------------------------------------------------------------

  /** A send with a default branch: a full pool drops the channel. */
  function Put(sh: Shared, ch: ChannelId): Shared {
    if |sh.pool| < sh.capacity then sh.(pool := sh.pool + [ch]) else sh
  }

  function PutAll(sh: Shared, chs: seq<ChannelId>): Shared {
    if chs == [] then sh else Put(PutAll(sh, chs[..|chs| - 1]), chs[|chs| - 1])
  }

  /** The first section of release: an unbroken channel goes straight back, whatever
      connection it belongs to; None says that the caller has nothing more to do. */
  function ReleaseSection(sh: Shared, ch: ChannelId, broken: bool): (Shared, Option<Option<Connection>>) {
    if sh.closed then (sh, None)
    else if !broken then (Put(sh, ch), None)
    else (sh, Some(sh.conn))
  }

  function PutBackSection(sh: Shared, ch: ChannelId, conn: Connection): Shared {
    if sh.closed || sh.conn != Some(conn) then sh else Put(sh, ch)
  }

  function DisconnectSection(sh: Shared): Shared {
    sh.(conn := None, ready := sh.ready + 1)
  }

  function CommitSection(sh: Shared, ready: nat, conn: Connection, chs: seq<ChannelId>): Shared {
    if sh.closed || sh.ready != ready then sh else PutAll(sh.(conn := Some(conn)), chs)
  }

  function CloseSection(sh: Shared): Shared {
    if sh.closed then sh else sh.(closed := true, conn := None)
  }

  // ---- runs ------------------------------------------------------------------------------

  /** A new channel: nothing published on it yet. */
  function NewChannels(channels: map<ChannelId, ChannelState>, chs: set<ChannelId>, conn: Connection):
    map<ChannelId, ChannelState>
  {
    map ch | ch in channels.Keys + chs :: if ch in chs then ChannelState(conn, {}, false, false) else channels[ch]
  }

  ghost predicate Enabled(p: Pool, step: Step) {
    match step
    case Take(actor) => actor != LOOP && actor !in p.work && p.shared.pool != []
    case Publish(actor, left, broke, _) =>
      // what a batch run leaves unresolved, it leaves on a broken channel: see RunBorrowed
      actor in p.work && p.work[actor].Using? && (left != {} ==> broke)
    case Release(actor) => actor in p.work && p.work[actor].Using?
    case Reopen(actor, fresh') =>
      && actor in p.work && p.work[actor].Mending?
      && (fresh'.Some? ==> p.work[actor].snapshot.Some? && fresh'.value !in p.channels)
    case PutBack(actor) => actor in p.work && p.work[actor].Opened?
    case Disconnect => LOOP !in p.work && p.shared.conn.Some?
    case Drain => LOOP in p.work && p.work[LOOP].Reconnecting? && p.shared.pool != []
    case DrainDone => LOOP in p.work && p.work[LOOP].Reconnecting? && p.shared.pool == []
    case Dial(chs) =>
      && LOOP in p.work && p.work[LOOP].Drained?
      && Distinct(chs) && |chs| == p.shared.capacity && forall ch | ch in chs :: ch !in p.channels
    case CommitReconnect => LOOP in p.work && p.work[LOOP].Dialed?
    case Close => true
    case DrainClosed => p.shared.closed && p.shared.pool != []
  }

  function Apply(p: Pool, step: Step): Pool
    requires Enabled(p, step)
  {
    match step
    case Take(actor) =>
      p.(shared := p.shared.(pool := p.shared.pool[1..]), work := p.work[actor := Using(p.shared.pool[0])])
    case Publish(actor, left, broke, leftover) =>
      var ch := p.work[actor].ch;
      if ch !in p.channels then p
      else
        var before := p.channels[ch];
        p.(channels := p.channels[ch := ChannelState(before.conn, left, before.broken || broke, leftover)])
    case Release(actor) =>
      var ch := p.work[actor].ch;
      var (sh, next) := ReleaseSection(p.shared, ch, ch in p.channels && p.channels[ch].broken);
      if next.None? then p.(shared := sh, work := p.work - {actor})
      else p.(shared := sh, work := p.work[actor := Mending(next.value)])
    case Reopen(actor, fresh') =>
      if fresh'.None? then p.(work := p.work - {actor})
      else
        var conn := p.work[actor].snapshot.value;
        p.(channels := NewChannels(p.channels, {fresh'.value}, conn),
           work := p.work[actor := Opened(fresh'.value, conn)])
    case PutBack(actor) =>
      p.(shared := PutBackSection(p.shared, p.work[actor].ch, p.work[actor].conn), work := p.work - {actor})
    case Disconnect =>
      p.(shared := DisconnectSection(p.shared), work := p.work[LOOP := Reconnecting(p.shared.ready + 1)])
    case Drain => p.(shared := p.shared.(pool := p.shared.pool[1..]))
    case DrainDone => p.(work := p.work[LOOP := Drained(p.work[LOOP].ready)])
    case Dial(chs) =>
      p.(channels := NewChannels(p.channels, SetOf(chs), p.nextConn), nextConn := p.nextConn + 1,
         work := p.work[LOOP := Dialed(p.work[LOOP].ready, p.nextConn, chs)])
    case CommitReconnect =>
      var w := p.work[LOOP];
      p.(shared := CommitSection(p.shared, w.ready, w.conn, w.chs), work := p.work - {LOOP})
    case Close => p.(shared := CloseSection(p.shared))
    case DrainClosed => p.(shared := p.shared.(pool := p.shared.pool[1..]))
  }

  ghost predicate ValidRun(p: Pool, steps: seq<Step>)
    decreases |steps|
  {
    steps == [] || (Enabled(p, steps[0]) && ValidRun(Apply(p, steps[0]), steps[1..]))
  }

  ghost function Run(p: Pool, steps: seq<Step>): Pool
    requires ValidRun(p, steps)
    decreases |steps|
  {
    if steps == [] then p else Run(Apply(p, steps[0]), steps[1..])
  }

  // ---- the invariant -------------------------------------------------------------------

  function Holds(w: Work): set<ChannelId> {
    match w
    case Using(ch) => {ch}
    case Opened(ch, _) => {ch}
    case Dialed(_, _, chs) => SetOf(chs)
    case _ => {}
  }

  /** Nothing published on the channel is still waiting for a confirm. */
  ghost predicate Reusable(p: Pool, ch: ChannelId) {
    ch in p.channels && p.channels[ch].unresolved == {} && !p.channels[ch].broken
  }

  ghost predicate WorkOk(p: Pool, w: Work) {
    && (forall ch | ch in Holds(w) :: ch in p.channels && ch !in p.shared.pool)
    && (w.Using? ==> p.channels[w.ch].unresolved != {} ==> p.channels[w.ch].broken)
    && (w.Opened? || w.Dialed? ==> forall ch | ch in Holds(w) :: Reusable(p, ch))
    && (w.Opened? ==> p.channels[w.ch].conn == w.conn)
    && (w.Dialed? ==> Distinct(w.chs) && forall ch | ch in w.chs :: ch in p.channels && p.channels[ch].conn == w.conn)
  }

  /** While the loop reconnects there is no current connection. */
  ghost predicate LoopOk(p: Pool) {
    && (forall a | a in p.work && OfLoop(p.work[a]) :: a == LOOP)
    && (LOOP in p.work ==> p.shared.conn == None && OfLoop(p.work[LOOP]))
  }

  predicate OfLoop(w: Work) {
    w.Reconnecting? || w.Drained? || w.Dialed?
  }

  ghost predicate Apart(p: Pool) {
    forall a, b | a in p.work && b in p.work && a != b :: Holds(p.work[a]) !! Holds(p.work[b])
  }

  /** A pooled channel is reusable, is in the pool once and is held by no one, and the
      pool stays within its capacity. */
  ghost predicate PoolOk(p: Pool) {
    && |p.shared.pool| <= p.shared.capacity && Distinct(p.shared.pool)
    && (forall ch | ch in p.shared.pool :: Reusable(p, ch))
    && (forall a | a in p.work :: WorkOk(p, p.work[a]))
    && Apart(p) && LoopOk(p)
  }

  lemma {:induction false} PutAllEffect(sh: Shared, chs: seq<ChannelId>)
    requires Distinct(sh.pool) && Distinct(chs) && |sh.pool| <= sh.capacity
    requires forall ch | ch in chs :: ch !in sh.pool
    ensures var sh' := PutAll(sh, chs);
      && sh' == sh.(pool := sh'.pool) && |sh'.pool| <= sh.capacity && Distinct(sh'.pool)
      && (forall ch | ch in sh'.pool :: ch in sh.pool || ch in chs)
      && (forall ch | ch in sh.pool :: ch in sh'.pool)
  {
    if chs != [] {
      var n := |chs| - 1;
      PutAllEffect(sh, chs[..n]);
      assert chs == chs[..n] + [chs[n]];
      assert chs[n] !in chs[..n];
      assert chs[n] !in PutAll(sh, chs[..n]).pool;
    }
  }

  lemma {:induction false} TailDistinct(pool: seq<ChannelId>)
    requires Distinct(pool) && pool != []
    ensures Distinct(pool[1..]) && pool[0] !in pool[1..] && forall ch | ch in pool[1..] :: ch in pool
  {
  }

  lemma {:induction false} OthersStay(p: Pool, p': Pool, actor: nat)
    requires Apart(p) && forall a | a in p'.work && a != actor :: a in p.work && p'.work[a] == p.work[a]
    requires actor in p'.work ==> (forall a | a in p.work && a != actor :: Holds(p'.work[actor]) !! Holds(p.work[a]))
    ensures Apart(p')
  {
  }

  lemma {:induction false} TakeKeeps(p: Pool, actor: nat)
    requires PoolOk(p) && Enabled(p, Take(actor))
    ensures PoolOk(Apply(p, Take(actor)))
  {
    var p' := Apply(p, Take(actor));
    var ch := p.shared.pool[0];
    TailDistinct(p.shared.pool);
    forall a | a in p.work ensures WorkOk(p', p.work[a]) && ch !in Holds(p.work[a]) {
      assert WorkOk(p, p.work[a]);
      assert ch in p.shared.pool;
    }
    assert Reusable(p, ch);
    OthersStay(p, p', actor);
  }

  /** A step that only shrinks the pool. */
  lemma {:induction false} DrainKeeps(p: Pool, step: Step)
    requires PoolOk(p) && Enabled(p, step) && (step.Drain? || step.DrainClosed?)
    ensures PoolOk(Apply(p, step))
  {
    var p' := Apply(p, step);
    TailDistinct(p.shared.pool);
    forall a | a in p.work ensures WorkOk(p', p.work[a]) {
      assert WorkOk(p, p.work[a]);
    }
  }

  lemma {:induction false} PublishKeeps(p: Pool, actor: nat, left: set<nat>, broke: bool, leftover: bool)
    requires PoolOk(p) && Enabled(p, Publish(actor, left, broke, leftover))
    ensures PoolOk(Apply(p, Publish(actor, left, broke, leftover)))
  {
  }

  /** Putting back channels that no one else holds. */
  lemma {:induction false} PutsKeep(p: Pool, p': Pool, actor: nat, chs: seq<ChannelId>)
    requires PoolOk(p) && actor in p.work && SetOf(chs) <= Holds(p.work[actor]) && Distinct(chs)
    requires forall ch | ch in chs :: Reusable(p, ch)
    requires p'.channels == p.channels && p'.work == p.work - {actor}
    requires p'.shared.capacity == p.shared.capacity
    requires p'.shared.pool == p.shared.pool || p'.shared.pool == PutAll(p.shared, chs).pool
    requires actor == LOOP || p'.shared.conn == p.shared.conn
    ensures PoolOk(p')
  {
    assert WorkOk(p, p.work[actor]);
    forall ch | ch in chs ensures ch in Holds(p.work[actor]) && ch !in p.shared.pool {
      assert ch in SetOf(chs);
    }
    PutAllEffect(p.shared, chs);
    forall a | a in p'.work ensures WorkOk(p', p'.work[a]) {
      assert WorkOk(p, p.work[a]);
      forall ch | ch in Holds(p.work[a]) ensures ch !in p'.shared.pool {
        assert ch !in Holds(p.work[actor]);
      }
    }
  }

  /** A step after which the actor holds nothing more than channels just opened. */
  lemma {:induction false} OpensKeep(p: Pool, p': Pool, actor: nat, chs: set<ChannelId>, conn: Connection)
    requires PoolOk(p) && actor in p.work && Holds(p.work[actor]) == {}
    requires forall ch | ch in chs :: ch !in p.channels
    requires p'.channels == NewChannels(p.channels, chs, conn) && p'.shared == p.shared
    requires actor in p'.work && p'.work == p.work[actor := p'.work[actor]]
    requires if actor == LOOP then p'.work[actor].Dialed? else p'.work[actor].Opened?
    requires p'.work[actor].conn == conn
    requires Holds(p'.work[actor]) == chs && (p'.work[actor].Dialed? ==> Distinct(p'.work[actor].chs))
    ensures PoolOk(p')
  {
    forall ch | ch in p.shared.pool ensures Reusable(p', ch) && ch !in chs {
      assert Reusable(p, ch);
    }
    forall a | a in p.work && a != actor ensures WorkOk(p', p'.work[a]) && Holds(p'.work[a]) !! chs {
      assert WorkOk(p, p.work[a]);
      forall ch | ch in Holds(p.work[a]) ensures ch !in chs && ch in p'.channels && p'.channels[ch] == p.channels[ch] {
      }
    }
    NewIsOk(p, p', p'.work[actor], chs, conn);
    hide WorkOk, Reusable, NewChannels;
    OthersStay(p, p', actor);
  }

  lemma {:induction false} NewIsOk(p: Pool, p': Pool, w: Work, chs: set<ChannelId>, conn: Connection)
    requires forall ch | ch in p.shared.pool :: ch in p.channels
    requires p'.channels == NewChannels(p.channels, chs, conn) && p'.shared == p.shared
    requires forall ch | ch in chs :: ch !in p.channels
    requires (w.Dialed? || w.Opened?) && w.conn == conn && Holds(w) == chs && (w.Dialed? ==> Distinct(w.chs))
    ensures WorkOk(p', w)
  {
    assert w.Dialed? ==> forall ch | ch in w.chs :: ch in Holds(w);
  }

  lemma {:induction false} ReleaseKeeps(p: Pool, actor: nat)
    requires PoolOk(p) && Enabled(p, Release(actor))
    ensures PoolOk(Apply(p, Release(actor)))
  {
    var p' := Apply(p, Release(actor));
    var ch := p.work[actor].ch;
    assert WorkOk(p, p.work[actor]) && ch in Holds(p.work[actor]);
    if p.shared.closed || !p.channels[ch].broken {
      assert [ch][..0] == [];
      assert PutAll(p.shared, [ch]) == Put(p.shared, ch);
      if p.channels[ch].broken {
        PutsKeep(p, p', actor, []);
      } else {
        PutsKeep(p, p', actor, [ch]);
      }
    } else {
      forall a | a in p'.work ensures WorkOk(p', p'.work[a]) {
        assert a != actor ==> WorkOk(p, p.work[a]);
      }
      OthersStay(p, p', actor);
    }
  }

  lemma {:induction false} WorkKeeps(p: Pool, p': Pool)
    requires PoolOk(p) && p'.channels == p.channels
    requires p'.shared.pool == p.shared.pool && p'.shared.capacity == p.shared.capacity
    requires forall a | a in p'.work ::
      p'.work[a].Reconnecting? || p'.work[a].Drained? || (a in p.work && p'.work[a] == p.work[a])
    requires LoopOk(p')
    ensures PoolOk(p')
  {
  }

  lemma {:induction false} PutBackKeeps(p: Pool, actor: nat)
    requires PoolOk(p) && Enabled(p, PutBack(actor))
    ensures PoolOk(Apply(p, PutBack(actor)))
  {
    var ch := p.work[actor].ch;
    assert WorkOk(p, p.work[actor]) && ch in Holds(p.work[actor]);
    assert [ch][..0] == [];
    assert PutAll(p.shared, [ch]) == Put(p.shared, ch);
    PutsKeep(p, Apply(p, PutBack(actor)), actor, [ch]);
  }

  lemma {:induction false} ReopenKeeps(p: Pool, actor: nat, fresh': Option<ChannelId>)
    requires PoolOk(p) && Enabled(p, Reopen(actor, fresh'))
    ensures PoolOk(Apply(p, Reopen(actor, fresh')))
  {
    var p' := Apply(p, Reopen(actor, fresh'));
    if fresh'.None? {
      WorkKeeps(p, p');
    } else {
      OpensKeep(p, p', actor, {fresh'.value}, p.work[actor].snapshot.value);
    }
  }

  lemma {:induction false} CommitKeeps(p: Pool)
    requires PoolOk(p) && Enabled(p, CommitReconnect)
    ensures PoolOk(Apply(p, CommitReconnect))
  {
    var w := p.work[LOOP];
    assert WorkOk(p, w) && forall ch | ch in w.chs :: ch in Holds(w);
    PutAllSame(p.shared, w.conn, w.chs);
    PutsKeep(p, Apply(p, CommitReconnect), LOOP, w.chs);
  }

  lemma {:induction false} StepKeepsPool(p: Pool, step: Step)
    requires PoolOk(p) && Enabled(p, step)
    ensures PoolOk(Apply(p, step))
  {
    match step
    case Take(actor) =>
      hide PoolOk, Apply;
      TakeKeeps(p, actor);
    case Publish(actor, left, broke, leftover) =>
      hide PoolOk, Apply;
      PublishKeeps(p, actor, left, broke, leftover);
    case Release(actor) =>
      hide PoolOk, Apply;
      ReleaseKeeps(p, actor);
    case Reopen(actor, fresh') =>
      hide PoolOk, Apply;
      ReopenKeeps(p, actor, fresh');
    case PutBack(actor) =>
      hide PoolOk, Apply;
      PutBackKeeps(p, actor);
    case Dial(chs) =>
      OpensKeep(p, Apply(p, step), LOOP, SetOf(chs), p.nextConn);
      hide PoolOk;
    case CommitReconnect =>
      hide PoolOk, Apply;
      CommitKeeps(p);
    case Drain =>
      hide PoolOk, Apply;
      DrainKeeps(p, step);
    case DrainClosed =>
      hide PoolOk, Apply;
      DrainKeeps(p, step);
    case _ =>
      WorkKeeps(p, Apply(p, step));
      hide PoolOk;
  }

  lemma {:induction false} PutAllSame(sh: Shared, conn: Connection, chs: seq<ChannelId>)
    ensures PutAll(sh.(conn := Some(conn)), chs) == PutAll(sh, chs).(conn := Some(conn))
    ensures PutAll(sh, chs) == sh.(pool := PutAll(sh, chs).pool)
  {
    if chs != [] {
      PutAllSame(sh, conn, chs[..|chs| - 1]);
    }
  }

  lemma {:induction false} RunKeepsPool(p: Pool, steps: seq<Step>)
    requires PoolOk(p) && ValidRun(p, steps)
    ensures PoolOk(Run(p, steps))
    decreases |steps|
  {
    hide PoolOk;
    if steps != [] {
      StepKeepsPool(p, steps[0]);
      RunKeepsPool(Apply(p, steps[0]), steps[1..]);
    }
  }

  /** A new client: one connection, its pool filled with channels of that connection. */
  function Initial(chs: seq<ChannelId>): Pool {
    Pool(Shared(Some(0), 0, chs, false, |chs|), NewChannels(map[], SetOf(chs), 0), map[], 1)
  }

  lemma {:induction false} InitialOk(chs: seq<ChannelId>)
    requires Distinct(chs)
    ensures PoolOk(Initial(chs)) && Ages(Initial(chs)) && LateOk(Initial(chs), {})
  {
    forall ch | ch in chs ensures Reusable(Initial(chs), ch) {
      assert ch in SetOf(chs);
    }
  }

  /** In every run of borrowing, publishing, releasing, mending, losing the connection,
      reconnecting and closing: a pooled channel has nothing unresolved, is in the pool
      once and is held by no one, and the pool never exceeds its capacity. */
  lemma {:induction false} PooledChannelsReusable(chs: seq<ChannelId>, steps: seq<Step>)
    requires Distinct(chs) && ValidRun(Initial(chs), steps)
    ensures var p := Run(Initial(chs), steps);
      && |p.shared.pool| <= p.shared.capacity && Distinct(p.shared.pool)
      && (forall ch | ch in p.shared.pool :: ch in p.channels && p.channels[ch].unresolved == {})
      && (forall ch, a | ch in p.shared.pool && a in p.work :: ch !in Holds(p.work[a]))
      && (forall a, b | a in p.work && b in p.work && p.work[a].Using? && p.work[b].Using?
            && p.work[a].ch == p.work[b].ch :: a == b)
  {
    InitialOk(chs);
    RunKeepsPool(Initial(chs), steps);
    var p := Run(Initial(chs), steps);
    forall ch | ch in p.shared.pool ensures Reusable(p, ch) {
    }
    forall ch, a | ch in p.shared.pool && a in p.work ensures ch !in Holds(p.work[a]) {
      assert WorkOk(p, p.work[a]);
    }
    forall a, b | a in p.work && b in p.work && p.work[a].Using? && p.work[b].Using? && p.work[a].ch == p.work[b].ch
      ensures a == b
    {
      assert p.work[a].ch in Holds(p.work[a]) && p.work[a].ch in Holds(p.work[b]);
    }
  }

  // ---- what a batch leaves on its channel ---------------------------------------------------

  /** The batch leaves nothing behind on a channel that it found so and did not break. */
  ghost predicate KeepsWord(p: Pool, step: Step) {
    step.Publish? && step.actor in p.work && p.work[step.actor].Using? ==>
      var ch := p.work[step.actor].ch;
      ch in p.channels && step.leftover ==> step.broke || p.channels[ch].leftover
  }

  ghost predicate WordKept(p: Pool, steps: seq<Step>)
    requires ValidRun(p, steps)
    decreases |steps|
  {
    steps == [] || (KeepsWord(p, steps[0]) && WordKept(Apply(p, steps[0]), steps[1..]))
  }

  /** Only broken channels have anything left. */
  ghost predicate LeftBroken(p: Pool) {
    forall ch | ch in p.channels && p.channels[ch].leftover :: p.channels[ch].broken
  }

  lemma {:induction false} StepLeavesBroken(p: Pool, step: Step)
    requires LeftBroken(p) && Enabled(p, step) && KeepsWord(p, step)
    ensures LeftBroken(Apply(p, step))
  {
  }

  lemma {:induction false} RunLeavesBroken(p: Pool, steps: seq<Step>)
    requires LeftBroken(p) && ValidRun(p, steps) && WordKept(p, steps)
    ensures LeftBroken(Run(p, steps))
    decreases |steps|
  {
    hide LeftBroken, Enabled, Apply, KeepsWord;
    if steps != [] {
      StepLeavesBroken(p, steps[0]);
      RunLeavesBroken(Apply(p, steps[0]), steps[1..]);
    }
  }

  /** With a broker that keeps its word, in every run the next borrower finds a channel
      with nothing left of earlier batches: queued, or still to come. */
  lemma {:induction false} PooledChannelsClean(chs: seq<ChannelId>, steps: seq<Step>)
    requires Distinct(chs) && ValidRun(Initial(chs), steps) && WordKept(Initial(chs), steps)
    ensures var p := Run(Initial(chs), steps);
      forall ch | ch in p.shared.pool :: ch in p.channels && !p.channels[ch].leftover
  {
    InitialOk(chs);
    assert LeftBroken(Initial(chs));
    hide Initial, ValidRun, Run, WordKept;
    RunKeepsPool(Initial(chs), steps);
    RunLeavesBroken(Initial(chs), steps);
    var p := Run(Initial(chs), steps);
    forall ch | ch in p.shared.pool ensures ch in p.channels && !p.channels[ch].leftover {
      assert Reusable(p, ch);
    }
  }

  /** The channel of the model is this publishing channel. */
  ghost predicate Realizes(p: Pool, ch: ChannelId, pc: Publisher.Channel)
    reads pc
  {
    && ch in p.channels && pc.Valid()
    && p.channels[ch].unresolved == pc.Unresolved() && p.channels[ch].broken == pc.broken
    && p.channels[ch].leftover == !pc.Clean()
  }

  /** What BatchRun leaves on the channel of a borrower, as a step of the pool. */
  ghost function PublishOf(actor: nat, pc: Publisher.Channel): Step
    requires pc.Valid()
    reads pc
  {
    Publish(actor, pc.Unresolved(), pc.broken, !pc.Clean())
  }

  /** BatchRun on a borrowed channel is a publish step of the pool: whatever the broker
      does and whatever earlier batches left, it leaves messages unconfirmed only on a
      broken channel; a broker that keeps its word leaves nothing else behind either. */
  method RunBorrowed(
    ghost p: Pool, ghost actor: nat, pc: Publisher.Channel, tasks: seq<Task>, fates: seq<Publisher.Fate>,
    patience: nat, mayCancel: bool)
    returns (success: seq<Id>, failed: seq<Id>, error: bool, ghost p': Pool)
    requires |fates| == |tasks|
    requires PoolOk(p) && actor in p.work && p.work[actor].Using?
    requires Realizes(p, p.work[actor].ch, pc) && !pc.broken
    modifies pc
    ensures pc.Valid() && Enabled(p, PublishOf(actor, pc)) && p' == Apply(p, PublishOf(actor, pc))
    ensures PoolOk(p') && Realizes(p', p.work[actor].ch, pc)
    ensures Distinct(Publisher.TaskIds(tasks)) && Publisher.Honest(pc.log, pc.published) ==>
      KeepsWord(p, PublishOf(actor, pc))
  {
    assert WorkOk(p, p.work[actor]);
    ghost var tr;
    success, failed, error, tr := Publisher.BatchRun(pc, tasks, fates, patience, mayCancel);
    StepKeepsPool(p, PublishOf(actor, pc));
    p' := Apply(p, PublishOf(actor, pc));
  }

  // ---- stale channels ---------------------------------------------------------------------

  /** Some pooled channel belongs to a connection other than the current one. */
  ghost predicate HasStale(p: Pool) {
    exists ch :: ch in p.shared.pool && ch in p.channels && Some(p.channels[ch].conn) != p.shared.conn
  }

  /** Releasing an unbroken channel of another connection into a pool with room, with no
      drain to come that would take it out again. */
  ghost predicate LateReturn(p: Pool, step: Step) {
    && step.Release? && step.actor in p.work && p.work[step.actor].Using?
    && var ch := p.work[step.actor].ch;
    && ch in p.channels && !p.channels[ch].broken && !p.shared.closed
    && |p.shared.pool| < p.shared.capacity && Some(p.channels[ch].conn) != p.shared.conn
    && !(LOOP in p.work && p.work[LOOP].Reconnecting?)
  }

  predicate Leaves(step: Step) {
    step.Take? || step.Drain? || step.DrainClosed?
  }

  /** Every connection that a channel or a snapshot may name is older than this. */
  function Bound(p: Pool): Connection {
    if LOOP in p.work && p.work[LOOP].Dialed? then p.work[LOOP].conn else p.nextConn
  }

  predicate OfDialed(p: Pool, ch: ChannelId) {
    LOOP in p.work && p.work[LOOP].Dialed? && ch in p.work[LOOP].chs
  }

  /** Only the loop's own new channels belong to the connection it has dialed. */
  ghost predicate Ages(p: Pool) {
    && Bound(p) <= p.nextConn && (LOOP in p.work && p.work[LOOP].Dialed? ==> Bound(p) < p.nextConn)
    && (p.shared.conn.Some? ==> p.shared.conn.value < Bound(p))
    && (forall a | a in p.work && p.work[a].Mending? && p.work[a].snapshot.Some? ::
          p.work[a].snapshot.value < Bound(p))
    && (forall ch | ch in p.channels && !OfDialed(p, ch) :: p.channels[ch].conn < Bound(p))
  }

  lemma {:induction false} CommitKeepsAges(p: Pool)
    requires PoolOk(p) && Ages(p) && Enabled(p, CommitReconnect)
    ensures Ages(Apply(p, CommitReconnect)) && Bound(p) <= Bound(Apply(p, CommitReconnect))
  {
    var w := p.work[LOOP];
    assert WorkOk(p, w) && LoopOk(p);
    PutAllSame(p.shared, w.conn, w.chs);
    hide PoolOk, PutAll;
  }

  lemma {:induction false} DialKeepsAges(p: Pool, chs: seq<ChannelId>)
    requires PoolOk(p) && Ages(p) && Enabled(p, Dial(chs))
    ensures Ages(Apply(p, Dial(chs))) && Bound(p) <= Bound(Apply(p, Dial(chs)))
  {
    assert LoopOk(p);
    hide PoolOk;
    assert forall ch | ch in SetOf(chs) :: ch in chs;
  }

  lemma {:induction false} ReopenKeepsAges(p: Pool, actor: nat, fresh': Option<ChannelId>)
    requires PoolOk(p) && Ages(p) && Enabled(p, Reopen(actor, fresh'))
    ensures var p' := Apply(p, Reopen(actor, fresh')); Ages(p') && Bound(p) <= Bound(p')
  {
    assert LoopOk(p);
    hide PoolOk;
  }

  predicate SameDialed(p: Pool, p': Pool) {
    if LOOP in p.work && p.work[LOOP].Dialed? then LOOP in p'.work && p'.work[LOOP] == p.work[LOOP]
    else LOOP in p'.work ==> !p'.work[LOOP].Dialed?
  }

  /** A step that dials, commits and opens nothing. */
  lemma {:induction false} AgesKept(p: Pool, p': Pool)
    requires Ages(p) && p'.nextConn == p.nextConn && SameDialed(p, p')
    requires p'.shared.conn == None || p'.shared.conn == p.shared.conn
    requires forall a | a in p'.work && p'.work[a].Mending? ::
      p'.work[a].snapshot == p.shared.conn || (a in p.work && p'.work[a] == p.work[a])
    requires forall ch | ch in p'.channels :: ch in p.channels && p'.channels[ch].conn == p.channels[ch].conn
    ensures Ages(p') && Bound(p) == Bound(p')
  {
  }

  lemma {:induction false} StepKeepsAges(p: Pool, step: Step)
    requires PoolOk(p) && Ages(p) && Enabled(p, step)
    ensures Ages(Apply(p, step)) && Bound(p) <= Bound(Apply(p, step))
  {
    match step
    case CommitReconnect =>
      hide PoolOk, Ages, Apply;
      CommitKeepsAges(p);
    case Dial(chs) =>
      hide PoolOk, Ages, Apply;
      DialKeepsAges(p, chs);
    case Reopen(actor, fresh') =>
      hide PoolOk, Ages, Apply;
      ReopenKeepsAges(p, actor, fresh');
    case _ =>
      assert LoopOk(p);
      hide PoolOk, Ages, Bound, Put;
      AgesKept(p, Apply(p, step));
  }

  /** A pooled channel of an earlier connection. */
  ghost predicate StalePooled(p: Pool, ch: ChannelId) {
    && ch in p.shared.pool && ch in p.channels
    && p.channels[ch].conn < Bound(p) && Some(p.channels[ch].conn) != p.shared.conn
  }

  /** No step but taking it out makes a stale channel go away, a reconnect included. */
  lemma {:induction false} StaleStays(p: Pool, step: Step, ch: ChannelId)
    requires PoolOk(p) && Ages(p) && Enabled(p, step) && StalePooled(p, ch)
    requires Leaves(step) ==> p.shared.pool[0] != ch
    ensures StalePooled(Apply(p, step), ch)
  {
    StepKeepsAges(p, step);
    var p' := Apply(p, step);
    match step
    case Publish(actor, _, _, _) =>
      hide PoolOk, Ages;
    case CommitReconnect =>
      var w := p.work[LOOP];
      assert WorkOk(p, w) && forall x | x in w.chs :: x in Holds(w);
      PutAllSame(p.shared, w.conn, w.chs);
      PutAllEffect(p.shared, w.chs);
      hide PoolOk, PutAll;
    case _ =>
      hide PoolOk;
  }

  /** Nothing takes this channel out of the pool. */
  ghost predicate NeverLeaves(p: Pool, steps: seq<Step>, ch: ChannelId)
    requires ValidRun(p, steps)
    decreases |steps|
  {
    steps == []
    || ((Leaves(steps[0]) ==> p.shared.pool[0] != ch) && NeverLeaves(Apply(p, steps[0]), steps[1..], ch))
  }

  lemma {:induction false} StaysStale(p: Pool, steps: seq<Step>, ch: ChannelId)
    requires PoolOk(p) && Ages(p) && ValidRun(p, steps) && StalePooled(p, ch) && NeverLeaves(p, steps, ch)
    ensures StalePooled(Run(p, steps), ch)
    decreases |steps|
  {
    hide PoolOk, Ages, StalePooled, Enabled, Apply;
    if steps != [] {
      StaleStays(p, steps[0], ch);
      StepKeepsPool(p, steps[0]);
      StepKeepsAges(p, steps[0]);
      StaysStale(Apply(p, steps[0]), steps[1..], ch);
    }
  }

  /** A late return leaves a stale channel for the next borrower: it stays in the pool,
      over reconnects too, until it is taken out. */
  lemma {:induction false} LateReturnSurvives(p: Pool, step: Step, steps: seq<Step>)
    requires PoolOk(p) && Ages(p) && Enabled(p, step) && LateReturn(p, step)
    requires ValidRun(Apply(p, step), steps) && NeverLeaves(Apply(p, step), steps, p.work[step.actor].ch)
    ensures var ch, p' := p.work[step.actor].ch, Run(Apply(p, step), steps);
      && ch in p'.shared.pool && ch in p'.channels && Some(p'.channels[ch].conn) != p'.shared.conn
      && HasStale(p')
  {
    var ch := p.work[step.actor].ch;
    ReturnsLate(p, step);
    hide PoolOk, Ages, Apply, Enabled;
    StepKeepsPool(p, step);
    StepKeepsAges(p, step);
    StaysStale(Apply(p, step), steps, ch);
  }

  lemma {:induction false} ReturnsLate(p: Pool, step: Step)
    requires PoolOk(p) && Ages(p) && Enabled(p, step) && LateReturn(p, step)
    ensures StalePooled(Apply(p, step), p.work[step.actor].ch)
  {
    var ch := p.work[step.actor].ch;
    assert WorkOk(p, p.work[step.actor]) && ch in Holds(p.work[step.actor]);
    assert LOOP in p.work && p.work[LOOP].Dialed? ==>
      Holds(p.work[step.actor]) !! Holds(p.work[LOOP]) && Holds(p.work[LOOP]) == SetOf(p.work[LOOP].chs);
    assert ch in Apply(p, step).shared.pool;
  }

  // ---- exactly the late returns -------------------------------------------------------------

  /** The channels that were returned late and have not left the pool since. */
  ghost function LateNow(p: Pool, step: Step, late: set<ChannelId>): set<ChannelId>
    requires Enabled(p, step)
  {
    if LateReturn(p, step) then late + {p.work[step.actor].ch}
    else if Leaves(step) then late - {p.shared.pool[0]}
    else late
  }

  ghost function LateIn(p: Pool, steps: seq<Step>, late: set<ChannelId>): set<ChannelId>
    requires ValidRun(p, steps)
    decreases |steps|
  {
    if steps == [] then late else LateIn(Apply(p, steps[0]), steps[1..], LateNow(p, steps[0], late))
  }

  ghost predicate LateOk(p: Pool, late: set<ChannelId>) {
    (forall ch | ch in late :: StalePooled(p, ch)) && OthersCurrent(p, late)
  }

  /** The other pooled channels are of the current connection; there are none while the
      loop has drained the pool and not reconnected. */
  ghost predicate OthersCurrent(p: Pool, late: set<ChannelId>) {
    && (p.shared.conn.Some? ==> forall ch | ch in p.shared.pool && ch !in late :: Current(p, ch))
    && (LOOP in p.work && !p.work[LOOP].Reconnecting? ==> forall ch | ch in p.shared.pool :: ch in late)
  }

  ghost predicate Current(p: Pool, ch: ChannelId) {
    ch in p.channels && Some(p.channels[ch].conn) == p.shared.conn
  }

  lemma {:induction false} StepKeepsLate(p: Pool, step: Step, late: set<ChannelId>)
    requires PoolOk(p) && Ages(p) && Enabled(p, step) && LateOk(p, late)
    ensures LateOk(Apply(p, step), LateNow(p, step, late))
  {
    var p', late' := Apply(p, step), LateNow(p, step, late);
    forall ch | ch in late' ensures StalePooled(p', ch) {
      if LateReturn(p, step) && ch == p.work[step.actor].ch {
        ReturnsLate(p, step);
      } else {
        StaleStays(p, step, ch);
      }
    }
    hide PoolOk, Ages, StalePooled, Enabled, Apply, LateNow, OthersCurrent;
    OthersStayCurrent(p, step, late);
  }

  lemma {:induction false} OthersStayCurrent(p: Pool, step: Step, late: set<ChannelId>)
    requires PoolOk(p) && Enabled(p, step) && OthersCurrent(p, late)
    ensures OthersCurrent(Apply(p, step), LateNow(p, step, late))
  {
    match step
    case Publish(actor, _, _, _) =>
      assert WorkOk(p, p.work[actor]) && p.work[actor].ch in Holds(p.work[actor]);
      hide PoolOk;
    case Release(actor) =>
      hide PoolOk, Apply, LateNow, OthersCurrent;
      ReleasedIsCurrent(p, actor, late);
    case PutBack(actor) =>
      assert WorkOk(p, p.work[actor]) && p.work[actor].ch in Holds(p.work[actor]);
      hide PoolOk;
    case CommitReconnect =>
      hide PoolOk, Apply, LateNow, OthersCurrent;
      CommittedIsCurrent(p, late);
    case _ =>
  }

  lemma {:induction false} ReleasedIsCurrent(p: Pool, actor: nat, late: set<ChannelId>)
    requires PoolOk(p) && Enabled(p, Release(actor)) && OthersCurrent(p, late)
    ensures OthersCurrent(Apply(p, Release(actor)), LateNow(p, Release(actor), late))
  {
    assert WorkOk(p, p.work[actor]) && p.work[actor].ch in Holds(p.work[actor]);
    hide PoolOk;
  }

  lemma {:induction false} CommittedIsCurrent(p: Pool, late: set<ChannelId>)
    requires PoolOk(p) && Enabled(p, CommitReconnect) && OthersCurrent(p, late)
    ensures OthersCurrent(Apply(p, CommitReconnect), LateNow(p, CommitReconnect, late))
  {
    var w := p.work[LOOP];
    assert WorkOk(p, w) && forall x | x in w.chs :: x in Holds(w);
    PutAllSame(p.shared, w.conn, w.chs);
    PutAllEffect(p.shared, w.chs);
    hide PutAll, PoolOk;
  }

  lemma {:induction false} RunKeepsLate(p: Pool, steps: seq<Step>, late: set<ChannelId>)
    requires PoolOk(p) && Ages(p) && LateOk(p, late) && ValidRun(p, steps)
    ensures LateOk(Run(p, steps), LateIn(p, steps, late))
    decreases |steps|
  {
    hide PoolOk, Ages, LateOk, Enabled, Apply, LateNow;
    if steps != [] {
      StepKeepsPool(p, steps[0]);
      StepKeepsAges(p, steps[0]);
      StepKeepsLate(p, steps[0], late);
      RunKeepsLate(Apply(p, steps[0]), steps[1..], LateNow(p, steps[0], late));
    }
  }

  /** While there is a connection, the pooled channels of other connections are exactly
      those that were returned late and have not been taken out since. */
  lemma {:induction false} StaleExactly(chs: seq<ChannelId>, steps: seq<Step>)
    requires Distinct(chs) && ValidRun(Initial(chs), steps) && Run(Initial(chs), steps).shared.conn.Some?
    ensures var p, late := Run(Initial(chs), steps), LateIn(Initial(chs), steps, {});
      && (forall ch :: (ch in p.shared.pool && !Current(p, ch)) <==> ch in late)
      && (HasStale(p) <==> late != {})
  {
    InitialOk(chs);
    hide Initial, ValidRun, Run, LateIn;
    RunKeepsLate(Initial(chs), steps, {});
    RunKeepsPool(Initial(chs), steps);
    var p, late := Run(Initial(chs), steps), LateIn(Initial(chs), steps, {});
    forall ch | ch in p.shared.pool ensures ch in p.channels {
      assert Reusable(p, ch);
    }
    if late != {} {
      HasMember(late);
      var ch :| ch in late;
      assert StalePooled(p, ch);
    }
  }

  ghost predicate NoLateReturn(p: Pool, steps: seq<Step>)
    requires ValidRun(p, steps)
    decreases |steps|
  {
    steps == [] || (!LateReturn(p, steps[0]) && NoLateReturn(Apply(p, steps[0]), steps[1..]))
  }

  lemma {:induction false} NoneLate(p: Pool, steps: seq<Step>)
    requires ValidRun(p, steps) && NoLateReturn(p, steps)
    ensures LateIn(p, steps, {}) == {}
    decreases |steps|
  {
    hide Enabled, Apply, LateReturn;
    if steps != [] {
      assert LateNow(p, steps[0], {}) == {};
      NoneLate(Apply(p, steps[0]), steps[1..]);
    }
  }

  /** Without a late return, every borrower of a connected client gets a channel of the
      current connection, however often the connection was lost before. */
  lemma {:induction false} FreshUnlessLate(chs: seq<ChannelId>, steps: seq<Step>)
    requires Distinct(chs) && ValidRun(Initial(chs), steps) && NoLateReturn(Initial(chs), steps)
    ensures Run(Initial(chs), steps).shared.conn.Some? ==> !HasStale(Run(Initial(chs), steps))
  {
    hide Initial, ValidRun, Run, HasStale;
    NoneLate(Initial(chs), steps);
    if Run(Initial(chs), steps).shared.conn.Some? {
      StaleExactly(chs, steps);
    }
  }

  lemma {:induction false} RunCons(p: Pool, step: Step, rest: seq<Step>)
    requires Enabled(p, step) && ValidRun(Apply(p, step), rest)
    ensures ValidRun(p, [step] + rest)
    ensures Run(p, [step] + rest) == Run(Apply(p, step), rest)
  {
  }

  /** A batch has borrowed channel 1, the connection is lost and the pool drained. */
  lemma {:induction false} LostWhileBorrowed() returns (p: Pool, s1: Pool, s2: Pool, s3: Pool)
    ensures Enabled(Initial([1] + [2]), Take(1)) && s1 == Apply(Initial([1] + [2]), Take(1))
    ensures Enabled(s1, Disconnect) && s2 == Apply(s1, Disconnect)
    ensures Enabled(s2, Drain) && s3 == Apply(s2, Drain)
    ensures Enabled(s3, DrainDone) && p == Apply(s3, DrainDone)
    ensures p.shared == Shared(None, 1, [], false, 2) && p.work == map[1 := Using(1), LOOP := Drained(1)]
    ensures p.nextConn == 1 && p.channels.Keys == {1, 2} && p.channels[1] == ChannelState(0, {}, false, false)
  {
    var s := Initial([1] + [2]);
    assert s.shared.pool[0] == 1 && s.shared.pool[1..] == [2];
    s1 := Apply(s, Take(1));
    s2 := Apply(s1, Disconnect);
    s3 := Apply(s2, Drain);
    assert s3.shared.pool == [];
    p := Apply(s3, DrainDone);
    assert SetOf([1] + [2]) == {1, 2};
  }

  /** The batch ends normally, the client reconnects, and the channel is lent again. */
  lemma {:induction false} LentAgain(p: Pool) returns (p': Pool, s1: Pool, s2: Pool, s3: Pool)
    requires p.shared == Shared(None, 1, [], false, 2) && p.work == map[1 := Using(1), LOOP := Drained(1)]
    requires p.nextConn == 1 && p.channels.Keys == {1, 2} && p.channels[1] == ChannelState(0, {}, false, false)
    ensures Enabled(p, Release(1)) && LateReturn(p, Release(1)) && s1 == Apply(p, Release(1))
    ensures Enabled(s1, Dial([3] + [4])) && s2 == Apply(s1, Dial([3] + [4]))
    ensures Enabled(s2, CommitReconnect) && s3 == Apply(s2, CommitReconnect)
    ensures Enabled(s3, Take(2)) && p' == Apply(s3, Take(2))
    ensures p'.shared.conn == Some(1) && 2 in p'.work && p'.work[2] == Using(1)
    ensures 1 in p'.channels && p'.channels[1].conn == 0
  {
    s1 := Apply(p, Release(1));
    assert s1.shared.pool == [1];
    s2 := Apply(s1, Dial([3] + [4]));
    assert SetOf([3] + [4]) == {3, 4};
    assert s2.work[LOOP] == Dialed(1, 1, [3] + [4]);
    s3 := Apply(s2, CommitReconnect);
    PutsBehind(s2.shared.(conn := Some(1)), [3] + [4]);
    assert s3.shared.pool[0] == 1;
    p' := Apply(s3, Take(2));
  }

  lemma {:induction false} PutsBehind(sh: Shared, chs: seq<ChannelId>)
    requires sh.pool != []
    ensures PutAll(sh, chs).pool != [] && PutAll(sh, chs).pool[0] == sh.pool[0]
    ensures PutAll(sh, chs).conn == sh.conn
  {
    if chs != [] {
      PutsBehind(sh, chs[..|chs| - 1]);
    }
  }

  /** "A borrower gets a channel of the current connection" fails: the run of a new client
      in which a channel is lent, the connection lost and replaced, and the channel lent
      again although it belongs to the lost connection. */
  lemma {:induction false} StaleChannelLent() returns (p: Pool)
    ensures var steps := [Take(1)] + ([Disconnect] + ([Drain] + ([DrainDone] + ([Release(1)]
        + ([Dial([3] + [4])] + ([CommitReconnect] + ([Take(2)] + [])))))));
      ValidRun(Initial([1] + [2]), steps) && Run(Initial([1] + [2]), steps) == p
    ensures p.shared.conn == Some(1) && 2 in p.work && p.work[2] == Using(1)
    ensures 1 in p.channels && p.channels[1].conn == 0
  {
    var q, s1, s2, s3 := LostWhileBorrowed();
    var p', r1, r2, r3 := LentAgain(q);
    p := p';
    hide Enabled, Apply, Initial, LateReturn;
    RunCons(r3, Take(2), []);
    var steps := [Take(2)] + [];
    RunCons(r2, CommitReconnect, steps);
    steps := [CommitReconnect] + steps;
    RunCons(r1, Dial([3] + [4]), steps);
    steps := [Dial([3] + [4])] + steps;
    RunCons(q, Release(1), steps);
    steps := [Release(1)] + steps;
    RunCons(s3, DrainDone, steps);
    steps := [DrainDone] + steps;
    RunCons(s2, Drain, steps);
    steps := [Drain] + steps;
    RunCons(s1, Disconnect, steps);
    steps := [Disconnect] + steps;
    RunCons(Initial([1] + [2]), Take(1), steps);
  }

  // ---- the client ---------------------------------------------------------------------------

  /** The mutex-protected part of the client; each method is one critical section. The
      ghost `machine` is the state of the whole pool, whose shared part the fields are. */
  class Client {
    var conn: Option<Connection>
    var ready: nat
    var pool: seq<ChannelId>
    var closed: bool
    const capacity: nat
    ghost var machine: Pool

    ghost function Value(): Shared
      reads this
    {
      Shared(conn, ready, pool, closed, capacity)
    }

    ghost predicate Valid()
      reads this
    {
      Value() == machine.shared && PoolOk(machine) && Ages(machine)
    }

    constructor (chs: seq<ChannelId>)
      requires Distinct(chs)
      ensures Valid() && machine == Initial(chs)
    {
      conn, ready, pool, closed, capacity := Some(0), 0, chs, false, |chs|;
      machine := Initial(chs);
      new;
      InitialOk(chs);
    }

    /** The send with a default branch; false means that the channel is dropped. */
    method TryPut(ch: ChannelId) returns (kept: bool)
      modifies this`pool
      ensures Value() == Put(old(Value()), ch)
      ensures kept <==> |old(pool)| < capacity
    {
      kept := |pool| < capacity;
      if kept {
        pool := pool + [ch];
      }
    }

    /** The borrower gets a channel with nothing unresolved that nobody else holds. */
    method TakeChannel(ghost actor: nat) returns (ch: ChannelId)
      requires Valid() && Enabled(machine, Take(actor))
      modifies this`pool, this`machine
      ensures Valid() && machine == Apply(old(machine), Take(actor))
      ensures Reusable(machine, ch) && ch !in pool && [ch] + pool == old(pool)
      ensures actor in machine.work && machine.work[actor] == Using(ch)
      ensures forall a | a in machine.work && a != actor :: ch !in Holds(machine.work[a])
    {
      ch := pool[0];
      pool := pool[1..];
      StepKeepsPool(machine, Take(actor));
      StepKeepsAges(machine, Take(actor));
      assert Reusable(machine, ch);
      machine := Apply(machine, Take(actor));
      assert WorkOk(machine, machine.work[actor]) && ch in Holds(machine.work[actor]);
    }

    /** The channel is in the pool again, for one borrower, exactly if it is not broken
        and the client is open with room in the pool; Some(snapshot) asks the caller to
        mend a broken one outside the mutex. */
    method ReleaseChannel(ghost actor: nat, ch: ChannelId, broken: bool) returns (mend: Option<Option<Connection>>)
      requires Valid() && Enabled(machine, Release(actor)) && ch == machine.work[actor].ch
      requires ch in machine.channels && machine.channels[ch].broken == broken
      modifies this`pool, this`machine
      ensures Valid() && machine == Apply(old(machine), Release(actor))
      ensures ch in pool <==> !closed && !broken && |old(pool)| < capacity
      ensures ch in pool ==> Reusable(machine, ch) && forall a | a in machine.work :: ch !in Holds(machine.work[a])
      ensures forall x | x != ch :: x in pool <==> x in old(pool)
      ensures mend.Some? <==> actor in machine.work
      ensures mend.Some? ==> broken && machine.work[actor] == Mending(mend.value) && mend.value == conn
    {
      assert WorkOk(machine, machine.work[actor]) && ch in Holds(machine.work[actor]);
      StepKeepsPool(machine, Release(actor));
      StepKeepsAges(machine, Release(actor));
      ReleaseApplies(machine, actor);
      hide PoolOk, Ages, Apply;
      machine := Apply(machine, Release(actor));
      mend := None;
      if !closed {
        if broken {
          mend := Some(conn);
        } else {
          var kept := TryPut(ch);
        }
      }
      PooledIsFree(machine);
    }

    /** A replacement goes into the pool only if its connection is still the current one:
        mending never leaves a stale channel behind. */
    method PutMended(ghost actor: nat, ch: ChannelId, snapshot: Connection)
      requires Valid() && Enabled(machine, PutBack(actor)) && machine.work[actor] == Opened(ch, snapshot)
      modifies this`pool, this`machine
      ensures Valid() && machine == Apply(old(machine), PutBack(actor)) && actor !in machine.work
      ensures ch in pool <==> !closed && conn == Some(snapshot) && |old(pool)| < capacity
      ensures ch in pool ==> Reusable(machine, ch) && Current(machine, ch)
      ensures forall x | x != ch :: x in pool <==> x in old(pool)
    {
      assert WorkOk(machine, machine.work[actor]) && ch in Holds(machine.work[actor]);
      StepKeepsPool(machine, PutBack(actor));
      StepKeepsAges(machine, PutBack(actor));
      machine := Apply(machine, PutBack(actor));
      if !closed && conn == Some(snapshot) {
        var kept := TryPut(ch);
      }
      PooledIsFree(machine);
    }

    /** handleDisconnect, step one: borrowers now wait on a new readiness signal. */
    method LoseConnection() returns (signal: nat)
      requires Valid() && Enabled(machine, Disconnect)
      modifies this`conn, this`ready, this`machine
      ensures Valid() && machine == Apply(old(machine), Disconnect)
      ensures conn == None && signal == ready && ready != old(ready)
    {
      StepKeepsPool(machine, Disconnect);
      StepKeepsAges(machine, Disconnect);
      machine := Apply(machine, Disconnect);
      conn := None;
      ready := ready + 1;
      signal := ready;
    }

    /** reconnect, after dialing: commit the connection, then fill the pool. If nothing
        was in the pool, it then holds the dialed channels, all of the new connection. */
    method Reconnect(signal: nat, dialed: Connection, chs: seq<ChannelId>) returns (ok: bool)
      requires Valid() && Enabled(machine, CommitReconnect) && machine.work[LOOP] == Dialed(signal, dialed, chs)
      modifies this`conn, this`pool, this`machine
      ensures Valid() && machine == Apply(old(machine), CommitReconnect)
      ensures ok <==> !closed && ready == signal
      ensures !ok ==> conn == None && pool == old(pool)
      ensures ok ==> conn == Some(dialed)
      ensures ok ==> forall ch | ch in pool && ch !in old(pool) :: ch in chs && Current(machine, ch)
      ensures ok ==> forall ch | ch in old(pool) :: ch in pool
      ensures ok && old(pool) == [] && |chs| <= capacity ==> pool == chs && !HasStale(machine)
    {
      ghost var before := machine;
      StepKeepsPool(machine, CommitReconnect);
      StepKeepsAges(machine, CommitReconnect);
      machine := Apply(machine, CommitReconnect);
      ok := !closed && ready == signal;
      if ok {
        conn := Some(dialed);
        ghost var start := Value();
        for i := 0 to |chs|
          invariant conn == Some(dialed) && machine == Apply(before, CommitReconnect)
          invariant Value() == PutAll(start, chs[..i])
        {
          assert chs[..i + 1][..i] == chs[..i];
          var kept := TryPut(chs[i]);
        }
        assert chs[..|chs|] == chs;
        FilledPool(before, machine, chs);
      }
    }

    /** Close, under the mutex; a second call changes nothing. */
    method Shut()
      requires Valid()
      modifies this`closed, this`conn, this`machine
      ensures Valid() && machine == Apply(old(machine), Close)
      ensures closed && (old(closed) ==> machine == old(machine)) && (!old(closed) ==> conn == None)
    {
      StepKeepsPool(machine, Close);
      StepKeepsAges(machine, Close);
      machine := Apply(machine, Close);
      if closed {
        return;
      }
      closed := true;
      conn := None;
    }
  }

  lemma {:induction false} ReleaseApplies(p: Pool, actor: nat)
    requires Enabled(p, Release(actor)) && p.work[actor].ch in p.channels
    ensures var p' := Apply(p, Release(actor));
      var (sh, next) := ReleaseSection(p.shared, p.work[actor].ch, p.channels[p.work[actor].ch].broken);
      && p'.shared == sh && p'.channels == p.channels
      && p'.work == if next.None? then p.work - {actor} else p.work[actor := Mending(next.value)]
  {
  }

  lemma {:induction false} PooledIsFree(p: Pool)
    requires PoolOk(p)
    ensures forall ch | ch in p.shared.pool :: Reusable(p, ch)
    ensures forall ch, a | ch in p.shared.pool && a in p.work :: ch !in Holds(p.work[a])
  {
    forall ch, a | ch in p.shared.pool && a in p.work ensures ch !in Holds(p.work[a]) {
      assert WorkOk(p, p.work[a]);
    }
  }

  lemma {:induction false} FilledPool(p: Pool, p': Pool, chs: seq<ChannelId>)
    requires PoolOk(p) && Enabled(p, CommitReconnect) && p' == Apply(p, CommitReconnect)
    requires chs == p.work[LOOP].chs && p'.shared.conn == Some(p.work[LOOP].conn)
    ensures forall ch | ch in p'.shared.pool && ch !in p.shared.pool :: ch in chs && Current(p', ch)
    ensures forall ch | ch in p.shared.pool :: ch in p'.shared.pool
    ensures p.shared.pool == [] && |chs| <= p.shared.capacity ==> p'.shared.pool == chs && !HasStale(p')
  {
    var w := p.work[LOOP];
    assert WorkOk(p, w) && forall x | x in w.chs :: x in Holds(w);
    PutAllSame(p.shared, w.conn, w.chs);
    PutAllEffect(p.shared, w.chs);
    if p.shared.pool == [] && |chs| <= p.shared.capacity {
      AllFit(p.shared, chs);
    }
  }

  lemma {:induction false} AllFit(sh: Shared, chs: seq<ChannelId>)
    requires |sh.pool| + |chs| <= sh.capacity
    ensures PutAll(sh, chs).pool == sh.pool + chs && PutAll(sh, chs).capacity == sh.capacity
  {
    if chs != [] {
      var n := |chs| - 1;
      AllFit(sh, chs[..n]);
      assert chs == chs[..n] + [chs[n]];
    }
  }
}
