/** Claims one might make about the protocol that are false, each with a concrete run,
    and the exact condition under which they hold. */
module Witnesses {
  import opened Domain
  import opened BatchResult
  import opened Store
  import opened StoreEffects
  import opened Relay
  import opened Protocol
  import opened Invariant
  import opened FastPath

  const ONE_TRY := RelayConfig(10, 30, 1, 1, 1)
  const A_CASE := Case(7, "login")
  const B_CASE := Case(8, "logout")

  lemma {:induction false} OneCasePersisted(version: string)
    ensures var r := Record(1, "req", 7, version, Wait);
      var m := Message(1, 1, 7, "login", version, Pending, 0, 0, None, "", false);
      PersistChunk(NO_TABLES, "req", [A_CASE], version, 0) ==
        Some((Tables(map[1 := r], map[("req", 7) := 1], map[1 := m], 2, 2), Persisted([r], [m])))
  {
    assert Wf(NO_TABLES);
    SingleIsChunk(NO_TABLES, "req", A_CASE, version, 0);
  }

  /** The state after one chunk of one case has been persisted and its call is gone. */
  function Orphaned(version: string): System {
    var r := Record(1, "req", 7, version, Wait);
    var m := Message(1, 1, 7, "login", version, Pending, 0, 0, None, "", false);
    System(Tables(map[1 := r], map[("req", 7) := 1], map[1 := m], 2, 2), 0, map[], {}, map[], map[1 := [Wait]])
  }

  lemma {:induction false} OneCaseBegun(c: RelayConfig, version: string) returns (s1: System)
    requires version != ""
    ensures var begin := BeginChunk(0, "req", [A_CASE], version, 0);
      Enabled(c, INITIAL, begin) && s1 == Apply(c, INITIAL, begin)
    ensures Enabled(c, s1, Crash(0)) && Apply(c, s1, Crash(0)) == Orphaned(version)
  {
    OneCasePersisted(version);
    hide PersistChunk;
    var r := Record(1, "req", 7, version, Wait);
    var m := Message(1, 1, 7, "login", version, Pending, 0, 0, None, "", false);
    var p := Persisted([r], [m]);
    assert ReplaySplit(Persisted(p.records[..0], p.messages[..0])) == Replayed([], [], []);
    assert ReplaySplit(p) == Replayed([], [], [] + [r]);
    assert VersionsMatch(p, version);
    hide ReplaySplit;
    s1 := Apply(c, INITIAL, BeginChunk(0, "req", [A_CASE], version, 0));
    assert s1.tables == Orphaned(version).tables && s1.history == map[1 := [Wait]];
    assert s1.locals == map[0 := ChunkPersisted([] + [r])];
    assert Apply(c, s1, Crash(0)) == Orphaned(version);
  }

  lemma {:induction false} OrphanedReached(c: RelayConfig, version: string)
    requires version != ""
    ensures var steps := [BeginChunk(0, "req", [A_CASE], version, 0)] + [Crash(0)];
      ValidRun(c, INITIAL, steps) && Run(c, INITIAL, steps) == Orphaned(version)
  {
    var s1 := OneCaseBegun(c, version);
    hide Enabled, Apply, Orphaned;
    assert [Crash(0)] + [] == [Crash(0)];
    RunCons(c, s1, Crash(0), []);
    RunCons(c, INITIAL, BeginChunk(0, "req", [A_CASE], version, 0), [Crash(0)]);
  }

  /** The orphaned row is the only one, so a large enough claim takes just it. */
  lemma {:induction false} OnlyRowClaimed(s: System, actor: Actor, now: Time, token: string)
    requires s.tables.outbox.Keys == {1} && Claimable(s.tables.outbox[1], now) && now <= s.clock
    requires actor !in s.locals && token != "" && token !in s.claims
    ensures var claim := Claim(actor, now, token, {}, [1]);
      && Enabled(ONE_TRY, s, claim)
      && Apply(ONE_TRY, s, claim) == WithClaim(s, actor, now, [1], now + 30, token)
  {
  }

  /** "A row is never claimed more than MaxAttempts times" fails when relays crash:
      with one attempt allowed, a crashed holder's row is claimed again. */
  lemma {:induction false} AttemptsMayExceedMax(token1: string, token2: string)
    requires token1 != "" && token2 != "" && token1 != token2
    ensures var s := Orphaned("v1");
      var steps := [Claim(1, 0, token1, {}, [1])] + [Crash(1)] + [Tick(30)] + [Claim(2, 30, token2, {}, [1])];
      && ValidRun(ONE_TRY, s, steps)
      && 1 in Run(ONE_TRY, s, steps).tables.outbox
      && Run(ONE_TRY, s, steps).tables.outbox[1].attempts == 2 > ONE_TRY.maxAttempts
  {
    var s := Orphaned("v1");
    var c1, c2 := Claim(1, 0, token1, {}, [1]), Claim(2, 30, token2, {}, [1]);
    OnlyRowClaimed(s, 1, 0, token1);
    var s1, s2, s3 := LeaseRunsOut(token1);
    OnlyRowClaimed(s3, 2, 30, token2);
    SecondClaim(s3, token2);
    hide Orphaned, WithClaim;
    FourSteps(ONE_TRY, s, s1, s2, s3, c1, Crash(1), Tick(30), c2);
  }

  lemma {:induction false} LeaseRunsOut(token: string) returns (s1: System, s2: System, s3: System)
    requires token != ""
    ensures s1 == WithClaim(Orphaned("v1"), 1, 0, [1], 30, token)
    ensures Enabled(ONE_TRY, s1, Crash(1)) && s2 == Apply(ONE_TRY, s1, Crash(1))
    ensures Enabled(ONE_TRY, s2, Tick(30)) && s3 == Apply(ONE_TRY, s2, Tick(30))
    ensures s3.tables.outbox.Keys == {1} && s3.tables.outbox[1].attempts == 1 && Claimable(s3.tables.outbox[1], 30)
    ensures s3.clock == 30 && s3.claims.Keys == {token} && s3.locals == map[]
  {
    s1 := WithClaim(Orphaned("v1"), 1, 0, [1], 30, token);
    s2 := Apply(ONE_TRY, s1, Crash(1));
    s3 := Apply(ONE_TRY, s2, Tick(30));
  }

  lemma {:induction false} SecondClaim(s: System, token: string)
    requires s.tables.outbox.Keys == {1} && s.tables.outbox[1].attempts == 1
    ensures var s' := WithClaim(s, 2, 30, [1], 60, token);
      1 in s'.tables.outbox && s'.tables.outbox[1].attempts == 2
  {
  }

  /** A claim takes a row above MaxAttempts if and only if it takes over an expired
      lease on a row that had already used its attempts. */
  lemma {:induction false} ClaimExceedsExactly(c: RelayConfig, s: System, step: Step, id: Id)
    requires ValidConfig(c) && Inv(c, s) && step.Claim? && Enabled(c, s, step) && id in step.ids
    ensures id in s.tables.outbox && id in Apply(c, s, step).tables.outbox
    ensures Apply(c, s, step).tables.outbox[id].attempts > c.maxAttempts <==>
      s.tables.outbox[id].state.Processing? && s.tables.outbox[id].attempts >= c.maxAttempts
  {
  }

  /** "A version mismatch leaves the tables alone" fails when the chunk holds a case
      that the request had not stored yet: its record and message stay. */
  lemma {:induction false} MismatchMayAddRows(c: RelayConfig) returns (s': System)
    requires ValidConfig(c)
    ensures var steps := [BeginChunk(0, "req", [A_CASE], "v1", 0)] + [Crash(0)];
      ValidRun(c, INITIAL, steps) && Run(c, INITIAL, steps) == Orphaned("v1")
    ensures var s := Orphaned("v1");
      var step := BeginChunk(1, "req", [A_CASE, B_CASE], "v2", 0);
      && Inv(c, s) && Enabled(c, s, step) && s' == Apply(c, s, step)
      && s'.locals == map[] && s'.tables != s.tables
      && exists id :: id in s'.tables.outbox && id !in s.tables.outbox && s'.tables.outbox[id].state.Pending?
  {
    var s := Orphaned("v1");
    var begin := BeginChunk(1, "req", [A_CASE, B_CASE], "v2", 0);
    OrphanedReached(c, "v1");
    InitialInv(c);
    RunKeepsInv(c, INITIAL, [BeginChunk(0, "req", [A_CASE], "v1", 0)] + [Crash(0)]);
    s' := Apply(c, s, begin);
    assert Wf(s.tables) && Paired(s.tables);
    var t', p := PersistChunkEffect(s.tables, "req", [A_CASE, B_CASE], "v2", 0);
    MismatchedChunk(s.tables, t', p);
  }

  lemma {:induction false} MismatchedChunk(t: Tables, t': Tables, p: Persisted)
    requires t == Orphaned("v1").tables
    requires PersistedOk(t, t', p, "req", [A_CASE, B_CASE], 0)
    ensures !VersionsMatch(p, "v2")
    ensures t' != t && exists id :: id in t'.outbox && id !in t.outbox && t'.outbox[id].state.Pending?
  {
    var cases := [A_CASE, B_CASE];
    assert ReadBackAt(t', p.records[0], p.messages[0], ("req", cases[0].caseId));
    assert ReadBackAt(t', p.records[1], p.messages[1], ("req", cases[1].caseId));
    assert t.byRequest[("req", 7)] == 1 && t'.byRequest[("req", 7)] == 1;
    assert p.records[0] == t'.records[1] == t.records[1];
    assert p.records[0].version == "v1";
    var id := p.records[1].executionId;
    assert id != 1;
    assert id !in t.records && id !in t.outbox;
    assert FreshRow(t', id, 0);
  }
}
