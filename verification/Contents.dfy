/** What is sent, over whole runs: whatever happens to a message, every relay pass that
    takes it sends the task that phase one has stored. */
module Contents {
  import opened Domain
  import opened BatchResult
  import opened Store
  import opened StoreEffects
  import opened Relay
  import opened Protocol
  import opened Invariant
  import opened Safety
  import opened RelayProgress

  /** Every message is still there, under its outbox id and with its task. */
  ghost predicate SameContent(o: map<Id, Message>, o': map<Id, Message>) {
    forall id | id in o :: id in o' && o'[id].outboxId == o[id].outboxId && TaskOf(o'[id]) == TaskOf(o[id])
  }

  lemma {:induction false} BeginKeepsContent(
    c: RelayConfig, s: System, actor: Actor, requestId: string, cases: seq<Case>, version: string, at: Time,
    single: bool)
    requires Inv(c, s) && requestId != ""
    ensures SameContent(s.tables.outbox,
      BeginWith(s, actor, version, PersistChunk(s.tables, requestId, cases, version, at), single).tables.outbox)
  {
    BeginKeepsOutbox(c, s, actor, requestId, cases, version, at, single);
    hide Inv, PersistChunk, BeginWith;
  }

  lemma {:induction false} FastKeepsContent(c: RelayConfig, s: System, a: Actor)
    requires ValidConfig(c) && Inv(c, s)
    requires a in s.locals && (s.locals[a].SinglePublished? || s.locals[a].ChunkPublished?)
    ensures SameContent(s.tables.outbox, Apply(c, s, WriteBack(a)).tables.outbox)
  {
    hide Inv, Apply, WriteBackOf;
    if s.locals[a].SinglePublished? {
      SingleFencing(c, s, a);
    } else {
      FastPathFencing(c, s, a);
    }
  }

  lemma {:induction false} RelayKeepsContent(c: RelayConfig, s: System, a: Actor)
    requires ValidConfig(c) && Inv(c, s) && a in s.locals && s.locals[a].RelayPublished?
    ensures SameContent(s.tables.outbox, Apply(c, s, WriteBack(a)).tables.outbox)
  {
    hide Inv, Apply, WriteBackOf, RetryAt;
    LeaseFencing(c, s, a);
  }

  lemma {:induction false} StepKeepsContent(c: RelayConfig, s: System, step: Step)
    requires ValidConfig(c) && Inv(c, s) && Enabled(c, s, step)
    ensures SameContent(s.tables.outbox, Apply(c, s, step).tables.outbox)
  {
    assert Wf(s.tables);
    hide Inv, Wf;
    match step
    case BeginSingle(actor, requestId, cs, version, at) =>
      SingleIsChunk(s.tables, requestId, cs, version, at);
      hide SameContent, PersistChunk, PersistSingle;
      BeginKeepsContent(c, s, actor, requestId, [cs], version, at, true);
    case BeginChunk(actor, requestId, cases, version, at) =>
      hide SameContent, PersistChunk;
      BeginKeepsContent(c, s, actor, requestId, cases, version, at, false);
    case WriteBack(actor) =>
      hide SameContent, Apply;
      if s.locals[actor].RelayPublished? {
        RelayKeepsContent(c, s, actor);
      } else {
        FastKeepsContent(c, s, actor);
      }
    case Claim(_, _, _, _, _) =>
      hide ClaimSelection;
    case _ =>
  }

  /** No run changes what a message says. */
  lemma {:induction false} RunKeepsContent(c: RelayConfig, s: System, steps: seq<Step>)
    requires ValidConfig(c) && Inv(c, s) && ValidRun(c, s, steps)
    ensures SameContent(s.tables.outbox, Run(c, s, steps).tables.outbox)
    decreases |steps|
  {
    hide Inv, Enabled, Apply, SameContent;
    if steps != [] {
      StepKeepsInv(c, s, steps[0]);
      StepKeepsContent(c, s, steps[0]);
      RunKeepsContent(c, Apply(c, s, steps[0]), steps[1..]);
      ContentTwice(s.tables.outbox, Apply(c, s, steps[0]).tables.outbox, Run(c, s, steps).tables.outbox);
    } else {
      SameAtOnce(s.tables.outbox);
    }
  }

  lemma ContentTwice(o: map<Id, Message>, o1: map<Id, Message>, o2: map<Id, Message>)
    requires SameContent(o, o1) && SameContent(o1, o2)
    ensures SameContent(o, o2)
  {
  }

  lemma SameAtOnce(o: map<Id, Message>)
    ensures SameContent(o, o)
  {
  }

  /** The task of case i of a request, which is the last of its chunk with its id. */
  ghost predicate TaskOfCase(task: Task, id: Id, cases: seq<Case>, version: string, i: nat) {
    i < |cases| && LastOf(cases, i) && task == Task(id, cases[i].caseId, cases[i].caseName, version)
  }

  /** The rows that a chunk call has added are sent by every later pass that takes them as
      what the call carried: the case, its name at that time, and the version. */
  lemma {:induction false} PassSendsStored(
    c: RelayConfig, s: System, begin: Step, later: seq<Step>, claim: Step, id: Id)
    requires ValidConfig(c) && Inv(c, s) && begin.BeginChunk? && Enabled(c, s, begin)
    requires id in Apply(c, s, begin).tables.outbox && id !in s.tables.outbox
    requires ValidRun(c, Apply(c, s, begin), later)
    requires claim.Claim? && id in claim.ids && Enabled(c, Run(c, Apply(c, s, begin), later), claim)
    ensures var s3 := Apply(c, Run(c, Apply(c, s, begin), later), claim);
      && claim.actor in s3.locals && s3.locals[claim.actor].RelayClaimed? && id in s3.locals[claim.actor].copies
      && var task := TaskOf(s3.locals[claim.actor].copies[id]);
      exists i: nat :: TaskOfCase(task, id, begin.cases, begin.version, i)
  {
    var s1 := Apply(c, s, begin);
    var s2 := Run(c, s1, later);
    NewRowTask(c, s, begin, id);
    StepKeepsInv(c, s, begin);
    RunKeepsContent(c, s1, later);
    assert id in s2.tables.outbox && TaskOf(s2.tables.outbox[id]) == TaskOf(s1.tables.outbox[id]);
    hide Inv, Run, ValidRun, PersistChunk, ClaimSelection, TaskOfCase, SameContent, BeginWith;
    assert TaskOf(Leased(s2.tables.outbox[id], claim.now + c.leaseDuration, claim.token))
      == TaskOf(s2.tables.outbox[id]);
    ClaimCopies(c, s2, claim, id);
  }

  lemma {:induction false} ClaimCopies(c: RelayConfig, s: System, claim: Step, id: Id)
    requires claim.Claim? && Enabled(c, s, claim) && id in claim.ids && id in s.tables.outbox
    ensures var s' := Apply(c, s, claim);
      && claim.actor in s'.locals && s'.locals[claim.actor].RelayClaimed? && id in s'.locals[claim.actor].copies
      && s'.locals[claim.actor].copies[id] == Leased(s.tables.outbox[id], claim.now + c.leaseDuration, claim.token)
  {
    hide ClaimSelection, ClaimRows;
  }

  lemma {:induction false} NewRowTask(c: RelayConfig, s: System, begin: Step, id: Id)
    requires Inv(c, s) && begin.BeginChunk? && Enabled(c, s, begin)
    requires id in Apply(c, s, begin).tables.outbox && id !in s.tables.outbox
    ensures exists i: nat :: TaskOfCase(TaskOf(Apply(c, s, begin).tables.outbox[id]), id, begin.cases, begin.version, i)
  {
    assert Wf(s.tables) && Paired(s.tables);
    hide Inv, PersistChunk, Wf, Paired;
    var t', p := PersistChunkEffect(s.tables, begin.requestId, begin.cases, begin.version, begin.at);
    BegunTables(c, s, begin, t', p);
    NewRowsCarry(s.tables, begin.requestId, begin.cases, begin.version, begin.at, t', p);
    PairedKeys(s.tables);
    PairedKeys(t');
    var i: nat :| NewRowOf(s.tables, t', id, begin.requestId, begin.cases, i, begin.version, begin.at);
    assert TaskOfCase(TaskOf(t'.outbox[id]), id, begin.cases, begin.version, i);
  }

  lemma PairedKeys(t: Tables)
    requires Paired(t)
    ensures forall id :: id in t.outbox <==> id in t.records
  {
    assert t.records.Keys == t.outbox.Keys;
    assert forall id :: id in t.outbox <==> id in t.outbox.Keys;
  }

  lemma {:induction false} BegunTables(c: RelayConfig, s: System, begin: Step, t': Tables, p: Persisted)
    requires begin.BeginChunk? && Enabled(c, s, begin)
    requires PersistChunk(s.tables, begin.requestId, begin.cases, begin.version, begin.at) == Some((t', p))
    ensures Apply(c, s, begin).tables == t'
  {
    hide PersistChunk, Observe, ReplayChunk;
  }
}
