/** Relay passes that commit settle every message, from any reachable state: rows that a
    crashed relay left PROCESSING and rows above MaxAttempts included. */
module RelaySettling {
  import opened Domain
  import opened BatchResult
  import opened Store
  import opened StoreEffects
  import opened Relay
  import opened Protocol
  import opened Invariant
  import opened Safety
  import opened RelayProgress

  // ---- how many committed passes a message still needs -------------------------------------

  /** A leased row that has used up its attempts needs one more pass, to end. */
  function Need(m: Message, max: int): int {
    if Ended(m) then 0
    else if m.state.Processing? && m.attempts >= max then 1
    else max - m.attempts
  }

  lemma {:induction false} NeedIsPositive(c: RelayConfig, s: System, id: Id)
    requires ValidConfig(c) && Inv(c, s) && id in s.tables.outbox
    ensures Need(s.tables.outbox[id], c.maxAttempts) >= if Ended(s.tables.outbox[id]) then 0 else 1
    ensures Need(s.tables.outbox[id], c.maxAttempts) <= c.maxAttempts
  {
    assert id in s.tables.outbox.Keys && id in s.tables.records.Keys;
    assert RowOk(s, c.maxAttempts, id);
  }

  /** No step of anyone ever raises what a stored message needs. */
  lemma {:induction false} StepNeed(c: RelayConfig, s: System, step: Step, id: Id)
    requires ValidConfig(c) && Inv(c, s) && Enabled(c, s, step) && id in s.tables.outbox
    ensures id in Apply(c, s, step).tables.outbox
    ensures Need(Apply(c, s, step).tables.outbox[id], c.maxAttempts) <= Need(s.tables.outbox[id], c.maxAttempts)
  {
    hide Inv, Enabled, Apply;
    StepMovesRow(c, s, step, id);
    StepKeepsInv(c, s, step);
    NeedIsPositive(c, s, id);
    PendingBelowMax(c, s, id);
    PendingBelowMax(c, Apply(c, s, step), id);
  }

  lemma {:induction false} PendingBelowMax(c: RelayConfig, s: System, id: Id)
    requires Inv(c, s) && id in s.tables.outbox
    ensures s.tables.outbox[id].state.Pending? ==> s.tables.outbox[id].attempts < c.maxAttempts
  {
    assert id in s.tables.outbox.Keys && id in s.tables.records.Keys;
    assert RowOk(s, c.maxAttempts, id);
  }

  lemma {:induction false} RunNeed(c: RelayConfig, s: System, steps: seq<Step>, id: Id)
    requires ValidConfig(c) && Inv(c, s) && ValidRun(c, s, steps) && id in s.tables.outbox
    ensures id in Run(c, s, steps).tables.outbox
    ensures Need(Run(c, s, steps).tables.outbox[id], c.maxAttempts) <= Need(s.tables.outbox[id], c.maxAttempts)
    decreases |steps|
  {
    hide Inv, Need, Enabled, Apply;
    if steps != [] {
      StepKeepsInv(c, s, steps[0]);
      StepNeed(c, s, steps[0], id);
      RunNeed(c, Apply(c, s, steps[0]), steps[1..], id);
    }
  }

  // ---- one committed pass, with anything in between ------------------------------------------

  /** A pass that commits: steps of other actors may come before its claim, between its
      claim and its publish, and between its publish and its write-back. */
  datatype Round = Round(before: seq<Step>, claim: Step, during: seq<Step>, holder: Actor)

  /** The holder is about to write back what this claim gave it, and nobody has touched
      its rows since. */
  ghost predicate Commits(s: System, holder: Actor, claim: Step)
    requires claim.Claim?
  {
    && holder in s.locals && s.locals[holder].RelayPublished?
    && s.locals[holder].token == claim.token && s.locals[holder].ids == claim.ids
    && Untouched(s.tables, claim.ids, s.locals[holder].copies)
  }

  ghost predicate RoundOk(c: RelayConfig, s: System, r: Round) {
    && ValidRun(c, s, r.before)
    && var s0 := Run(c, s, r.before);
    && r.claim.Claim? && Enabled(c, s0, r.claim)
    && ValidRun(c, Apply(c, s0, r.claim), r.during)
    && Commits(Run(c, Apply(c, s0, r.claim), r.during), r.holder, r.claim)
  }

  ghost function AfterRound(c: RelayConfig, s: System, r: Round): System
    requires RoundOk(c, s, r)
  {
    Apply(c, Run(c, Apply(c, Run(c, s, r.before), r.claim), r.during), WriteBack(r.holder))
  }

  lemma {:induction false} StepKeepsClaims(c: RelayConfig, s: System, step: Step, token: string)
    requires Enabled(c, s, step) && token in s.claims
    ensures token in Apply(c, s, step).claims && Apply(c, s, step).claims[token] == s.claims[token]
  {
    hide PersistChunk, PersistSingle, Observe, WriteBackOf, ReplayChunk, ClaimSelection, HonestResult, AfterPublish;
    hide ClaimRows, Copies;
  }

  lemma {:induction false} RunKeepsClaims(c: RelayConfig, s: System, steps: seq<Step>, token: string)
    requires ValidRun(c, s, steps) && token in s.claims
    ensures token in Run(c, s, steps).claims && Run(c, s, steps).claims[token] == s.claims[token]
    decreases |steps|
  {
    hide Enabled, Apply;
    if steps != [] {
      StepKeepsClaims(c, s, steps[0], token);
      RunKeepsClaims(c, Apply(c, s, steps[0]), steps[1..], token);
    }
  }

  /** A claim's copies count the claim. */
  lemma {:induction false} ClaimCounts(c: RelayConfig, s: System, claim: Step, id: Id)
    requires claim.Claim? && Enabled(c, s, claim) && id in claim.ids
    ensures id in s.tables.outbox && !Ended(s.tables.outbox[id])
    ensures claim.token in Apply(c, s, claim).claims && id in Apply(c, s, claim).claims[claim.token]
    ensures Apply(c, s, claim).claims[claim.token][id].attempts == s.tables.outbox[id].attempts + 1
  {
    SelectionDistinct(s.tables.outbox, claim.now, EffectiveLimit(c.batchSize), claim.locked, claim.ids);
    hide ClaimSelection, ClaimRows;
  }

  /** A holder whose rows are untouched has copies equal to the stored rows. */
  lemma {:induction false} HolderHasCopies(c: RelayConfig, s: System, claim: Step, holder: Actor, id: Id)
    requires claim.Claim? && Inv(c, s) && Commits(s, holder, claim) && id in claim.ids
    ensures id in s.locals[holder].copies && id in s.tables.outbox
    ensures s.tables.outbox[id] == s.locals[holder].copies[id]
    ensures claim.token in s.claims && s.claims[claim.token] == s.locals[holder].copies
  {
    assert LocalOk(s, c.maxAttempts, s.locals[holder]);
    hide Inv;
  }

  /** The holder's copy of a claimed row counts the claim. */
  lemma {:induction false} CopiesCountClaim(
    c: RelayConfig, s: System, claim: Step, s2: System, holder: Actor, id: Id)
    requires claim.Claim? && Enabled(c, s, claim) && id in claim.ids
    requires Inv(c, s2) && Commits(s2, holder, claim)
    requires claim.token in Apply(c, s, claim).claims
    requires claim.token in s2.claims && s2.claims[claim.token] == Apply(c, s, claim).claims[claim.token]
    ensures id in s.tables.outbox && id in s2.tables.outbox && id in s2.locals[holder].copies
    ensures s2.tables.outbox[id] == s2.locals[holder].copies[id]
    ensures s2.tables.outbox[id].attempts == s.tables.outbox[id].attempts + 1
    ensures !Ended(s.tables.outbox[id])
  {
    hide Inv, Enabled, Apply, Commits, Ended;
    ClaimCounts(c, s, claim, id);
    HolderHasCopies(c, s2, claim, holder, id);
  }

  /** What one committed pass pays: one for each row it claimed, nothing is added. */
  lemma {:induction false} RoundPays(c: RelayConfig, s: System, r: Round, id: Id)
    requires ValidConfig(c) && Inv(c, s) && RoundOk(c, s, r) && id in s.tables.outbox
    ensures Inv(c, AfterRound(c, s, r)) && id in AfterRound(c, s, r).tables.outbox
    ensures Need(AfterRound(c, s, r).tables.outbox[id], c.maxAttempts)
         <= Need(s.tables.outbox[id], c.maxAttempts) - if id in r.claim.ids then 1 else 0
  {
    var s0 := Run(c, s, r.before);
    var s1 := Apply(c, s0, r.claim);
    var s2 := Run(c, s1, r.during);
    assert r.claim.token in s1.claims;
    assert Enabled(c, s2, WriteBack(r.holder));
    hide Inv, Need, Enabled, Apply, Commits;
    RunKeepsInv(c, s, r.before);
    RunNeed(c, s, r.before, id);
    StepKeepsInv(c, s0, r.claim);
    StepNeed(c, s0, r.claim, id);
    RunKeepsInv(c, s1, r.during);
    RunNeed(c, s1, r.during, id);
    StepKeepsInv(c, s2, WriteBack(r.holder));
    StepNeed(c, s2, WriteBack(r.holder), id);
    if id in r.claim.ids {
      RunKeepsClaims(c, s1, r.during, r.claim.token);
      CopiesCountClaim(c, s0, r.claim, s2, r.holder, id);
      CommitPays(c, s0, r.claim, s2, r.holder, id);
    }
  }

  lemma {:induction false} CommitPays(c: RelayConfig, s0: System, claim: Step, s2: System, holder: Actor, id: Id)
    requires ValidConfig(c) && Inv(c, s0) && Inv(c, s2) && claim.Claim? && id in claim.ids
    requires Commits(s2, holder, claim) && Enabled(c, s2, WriteBack(holder))
    requires id in s0.tables.outbox && id in s2.tables.outbox && !Ended(s0.tables.outbox[id])
    requires s2.tables.outbox[id] == s2.locals[holder].copies[id]
    requires s2.tables.outbox[id].attempts == s0.tables.outbox[id].attempts + 1
    ensures id in Apply(c, s2, WriteBack(holder)).tables.outbox
    ensures Need(Apply(c, s2, WriteBack(holder)).tables.outbox[id], c.maxAttempts)
         <= Need(s0.tables.outbox[id], c.maxAttempts) - 1
  {
    hide Inv, Enabled, Apply;
    var s3 := Apply(c, s2, WriteBack(holder));
    StepKeepsInv(c, s2, WriteBack(holder));
    CommitFinishes(c, s2, holder, claim, id);
    NeedIsPositive(c, s0, id);
    PendingBelowMax(c, s3, id);
    hide Commits;
    var l := s2.locals[holder];
    var retryAt := RetryAt(c, l.now, l.plan.maxAttempt);
    FinishedNeed(s0.tables.outbox[id], l.copies[id], s3.tables.outbox[id], retryAt, c.maxAttempts);
  }

  lemma {:induction false} CommitFinishes(c: RelayConfig, s: System, holder: Actor, claim: Step, id: Id)
    requires ValidConfig(c) && Inv(c, s) && claim.Claim? && id in claim.ids
    requires Commits(s, holder, claim) && Enabled(c, s, WriteBack(holder))
    ensures s.locals[holder].RelayPublished? && id in s.locals[holder].copies
    ensures var l, t' := s.locals[holder], Apply(c, s, WriteBack(holder)).tables;
      id in t'.outbox && Finished(l.copies[id], t'.outbox[id], RetryAt(c, l.now, l.plan.maxAttempt))
  {
    hide Inv, Enabled, Apply, Finished;
    LeaseFencing(c, s, holder);
  }

  lemma {:induction false} FinishedNeed(m0: Message, m: Message, m': Message, retryAt: Time, max: int)
    requires Finished(m, m', retryAt) && m.attempts == m0.attempts + 1
    requires Need(m0, max) >= 1 && (m'.state.Pending? ==> m'.attempts < max)
    ensures Need(m', max) <= Need(m0, max) - 1
  {
  }

  // ---- many committed passes -------------------------------------------------------------------

  /** What the listed messages need together. */
  function NeedSum(o: map<Id, Message>, order: seq<Id>, max: int): int {
    if order == [] then 0
    else
      var id := order[|order| - 1];
      NeedSum(o, order[..|order| - 1], max) + if id in o then Need(o[id], max) else 0
  }

  ghost predicate Listed(o: map<Id, Message>, order: seq<Id>) {
    forall id | id in order :: id in o
  }

  lemma {:induction false} SumFalls(o: map<Id, Message>, o': map<Id, Message>, order: seq<Id>, paid: set<Id>, max: int)
    requires forall id | id in order ::
      id in o && id in o' && Need(o'[id], max) <= Need(o[id], max) - (if id in paid then 1 else 0)
    ensures NeedSum(o', order, max) <= NeedSum(o, order, max)
    ensures (exists id :: id in order && id in paid) ==> NeedSum(o', order, max) < NeedSum(o, order, max)
  {
    hide Need;
    if order != [] {
      var n := |order| - 1;
      SumFalls(o, o', order[..n], paid, max);
      assert order[n] in order && order == order[..n] + [order[n]];
    }
  }

  lemma {:induction false} SumIsZero(o: map<Id, Message>, order: seq<Id>, max: int)
    requires forall id | id in order :: id in o && Need(o[id], max) >= if Ended(o[id]) then 0 else 1
    ensures NeedSum(o, order, max) >= 0
    ensures NeedSum(o, order, max) == 0 ==> forall id | id in order :: Ended(o[id])
  {
    hide Need, Ended;
    if order != [] {
      var n := |order| - 1;
      SumIsZero(o, order[..n], max);
      assert order[n] in order && order == order[..n] + [order[n]];
    }
  }

  lemma {:induction false} SumBounded(o: map<Id, Message>, order: seq<Id>, max: int)
    requires max >= 0 && forall id | id in order && id in o :: Need(o[id], max) <= max
    ensures NeedSum(o, order, max) <= max * |order|
  {
    hide Need;
    if order != [] {
      var n := |order| - 1;
      assert order[n] in order;
      SumBounded(o, order[..n], max);
    }
  }

  ghost predicate ListedEnded(o: map<Id, Message>, order: seq<Id>) {
    forall id | id in order :: id in o && Ended(o[id])
  }

  /** What has ended stays as it is, over any run. */
  lemma {:induction false} EndedStays(c: RelayConfig, s: System, steps: seq<Step>, order: seq<Id>)
    requires ValidConfig(c) && Inv(c, s) && ValidRun(c, s, steps) && ListedEnded(s.tables.outbox, order)
    ensures ListedEnded(Run(c, s, steps).tables.outbox, order)
  {
    hide Inv, ValidRun, Run;
    SettledForEver(c, s, steps);
  }

  lemma {:induction false} EndedStaysInStep(c: RelayConfig, s: System, step: Step, order: seq<Id>)
    requires Inv(c, s) && Enabled(c, s, step) && ListedEnded(s.tables.outbox, order)
    ensures ListedEnded(Apply(c, s, step).tables.outbox, order)
  {
    hide Inv, Enabled, Apply;
    StepSettled(c, s, step);
  }

  lemma {:induction false} RoundKeepsEnded(c: RelayConfig, s: System, r: Round, order: seq<Id>)
    requires ValidConfig(c) && Inv(c, s) && RoundOk(c, s, r)
    requires ListedEnded(Run(c, s, r.before).tables.outbox, order)
    ensures ListedEnded(AfterRound(c, s, r).tables.outbox, order)
  {
    var s0 := Run(c, s, r.before);
    var s1 := Apply(c, s0, r.claim);
    var s2 := Run(c, s1, r.during);
    assert Enabled(c, s2, WriteBack(r.holder));
    hide Inv, ListedEnded, Enabled, Apply, Commits;
    RunKeepsInv(c, s, r.before);
    StepKeepsInv(c, s0, r.claim);
    RunKeepsInv(c, s1, r.during);
    EndedStaysInStep(c, s0, r.claim, order);
    EndedStays(c, s1, r.during, order);
    EndedStaysInStep(c, s2, WriteBack(r.holder), order);
  }

  /** The round claims one of the listed rows, unless all of them had ended by then. */
  ghost predicate TakesListed(c: RelayConfig, s: System, r: Round, order: seq<Id>)
    requires RoundOk(c, s, r)
  {
    || ListedEnded(Run(c, s, r.before).tables.outbox, order)
    || exists id :: id in order && id in r.claim.ids
  }

  /** Committed passes one after the other, each of which claims a listed row. Once all
      listed messages have ended, nothing more is asked of the list. */
  ghost predicate RoundsOk(c: RelayConfig, s: System, rs: seq<Round>, order: seq<Id>)
    decreases |rs|
  {
    || rs == []
    || ListedEnded(s.tables.outbox, order)
    || (&& RoundOk(c, s, rs[0]) && TakesListed(c, s, rs[0], order)
        && RoundsOk(c, AfterRound(c, s, rs[0]), rs[1..], order))
  }

  /** The state after the passes, or as soon as all listed messages have ended. */
  ghost function AfterRounds(c: RelayConfig, s: System, rs: seq<Round>, order: seq<Id>): System
    requires RoundsOk(c, s, rs, order)
    decreases |rs|
  {
    if rs == [] || ListedEnded(s.tables.outbox, order) then s
    else AfterRounds(c, AfterRound(c, s, rs[0]), rs[1..], order)
  }

  lemma {:induction false} RoundSum(c: RelayConfig, s: System, r: Round, order: seq<Id>)
    requires ValidConfig(c) && Inv(c, s) && RoundOk(c, s, r) && Listed(s.tables.outbox, order)
    requires exists id :: id in order && id in r.claim.ids
    ensures var s' := AfterRound(c, s, r);
      && Inv(c, s') && Listed(s'.tables.outbox, order)
      && NeedSum(s'.tables.outbox, order, c.maxAttempts) < NeedSum(s.tables.outbox, order, c.maxAttempts)
  {
    var s' := AfterRound(c, s, r);
    var paid := SetOf(r.claim.ids);
    var one :| one in order && one in r.claim.ids;
    RoundPays(c, s, r, one);
    hide Inv, Need, RoundOk, AfterRound;
    forall id | id in order
      ensures id in s'.tables.outbox
      ensures Need(s'.tables.outbox[id], c.maxAttempts)
           <= Need(s.tables.outbox[id], c.maxAttempts) - if id in paid then 1 else 0
    {
      RoundPays(c, s, r, id);
    }
    SumFalls(s.tables.outbox, s'.tables.outbox, order, paid, c.maxAttempts);
  }

  /** From any reachable state, with any steps of fast paths, callbacks, crashed or slow
      relays and other passes in between: while the listed messages have not all ended,
      each committed pass has lowered what they need; so after as many such passes as
      they needed at the start, all of them have ended. */
  lemma {:induction false} CommittedPassesSettle(c: RelayConfig, s: System, rs: seq<Round>, order: seq<Id>)
    requires ValidConfig(c) && Inv(c, s) && Listed(s.tables.outbox, order) && RoundsOk(c, s, rs, order)
    ensures var s', need := AfterRounds(c, s, rs, order), NeedSum(s.tables.outbox, order, c.maxAttempts);
      && Inv(c, s')
      && (ListedEnded(s'.tables.outbox, order)
          || (Listed(s'.tables.outbox, order) && 0 < NeedSum(s'.tables.outbox, order, c.maxAttempts) <= need - |rs|))
      && (|rs| >= need ==> ListedEnded(s'.tables.outbox, order))
    decreases |rs|
  {
    hide Inv, Need, NeedSum, RoundOk, AfterRound, TakesListed, ListedEnded;
    if ListedEnded(s.tables.outbox, order) {
      NothingOwed(c, s, order);
    } else if rs == [] {
      NothingOwed(c, s, order);
    } else {
      RoundServes(c, s, rs[0], order);
      CommittedPassesSettle(c, AfterRound(c, s, rs[0]), rs[1..], order);
    }
  }

  /** Listed messages that have not all ended still need something. */
  lemma {:induction false} NothingOwed(c: RelayConfig, s: System, order: seq<Id>)
    requires ValidConfig(c) && Inv(c, s) && Listed(s.tables.outbox, order)
    ensures NeedSum(s.tables.outbox, order, c.maxAttempts) >= 0
    ensures ListedEnded(s.tables.outbox, order) || NeedSum(s.tables.outbox, order, c.maxAttempts) > 0
  {
    hide Inv, Need, Ended;
    forall id | id in order
      ensures Need(s.tables.outbox[id], c.maxAttempts) >= if Ended(s.tables.outbox[id]) then 0 else 1
    {
      NeedIsPositive(c, s, id);
    }
    SumIsZero(s.tables.outbox, order, c.maxAttempts);
  }

  lemma {:induction false} RoundServes(c: RelayConfig, s: System, r: Round, order: seq<Id>)
    requires ValidConfig(c) && Inv(c, s) && Listed(s.tables.outbox, order)
    requires RoundOk(c, s, r) && TakesListed(c, s, r, order)
    ensures var s' := AfterRound(c, s, r);
      && Inv(c, s') && Listed(s'.tables.outbox, order)
      && (ListedEnded(s'.tables.outbox, order)
          || NeedSum(s'.tables.outbox, order, c.maxAttempts) < NeedSum(s.tables.outbox, order, c.maxAttempts))
  {
    assert ValidRun(c, s, r.before);
    hide Inv, Need, NeedSum, RoundOk, AfterRound;
    if ListedEnded(Run(c, s, r.before).tables.outbox, order) {
      RoundKeepsInv(c, s, r);
      RoundKeepsEnded(c, s, r, order);
    } else {
      RoundSum(c, s, r, order);
    }
  }

  lemma {:induction false} RoundKeepsInv(c: RelayConfig, s: System, r: Round)
    requires ValidConfig(c) && Inv(c, s) && RoundOk(c, s, r)
    ensures Inv(c, AfterRound(c, s, r))
  {
    var s0 := Run(c, s, r.before);
    var s1 := Apply(c, s0, r.claim);
    var s2 := Run(c, s1, r.during);
    assert Enabled(c, s2, WriteBack(r.holder));
    hide Inv, Enabled, Apply, Commits;
    RunKeepsInv(c, s, r.before);
    StepKeepsInv(c, s0, r.claim);
    RunKeepsInv(c, s1, r.during);
    StepKeepsInv(c, s2, WriteBack(r.holder));
  }

  // ---- what a claim takes while new rows keep coming -------------------------------------------

  /** Outbox ids grow: stored rows keep theirs, new rows get larger ones. */
  ghost predicate Numbered(t: Tables, t': Tables) {
    && t.nextOutbox <= t'.nextOutbox
    && (forall id | id in t.outbox :: id in t'.outbox && t'.outbox[id].outboxId == t.outbox[id].outboxId)
    && (forall id | id in t'.outbox && id !in t.outbox :: t'.outbox[id].outboxId >= t.nextOutbox)
  }

  lemma {:induction false} InsertRecordsNumber(t: Tables, rs: seq<Record>)
    ensures InsertRecords(t, rs).outbox == t.outbox && InsertRecords(t, rs).nextOutbox == t.nextOutbox
  {
    if rs != [] {
      InsertRecordsNumber(t, rs[..|rs| - 1]);
    }
  }

  lemma {:induction false} InsertMessagesNumber(t: Tables, ms: seq<Message>)
    ensures Numbered(t, InsertMessages(t, ms))
  {
    if ms != [] {
      InsertMessagesNumber(t, ms[..|ms| - 1]);
    }
  }

  lemma {:induction false} PersistNumbers(t: Tables, requestId: string, cases: seq<Case>, version: string, at: Time)
    ensures var r := PersistChunk(t, requestId, cases, version, at); r.Some? ==> Numbered(t, r.value.0)
  {
    var rs := NewRecords(requestId, cases, version);
    InsertRecordsNumber(t, rs);
    var r1 := AddRecords(t, rs);
    if r1.Some? {
      InsertMessagesNumber(r1.value.0, NewMessages(r1.value.1, NameMap(cases), at));
    }
    hide Numbered, InsertMessages, InsertRecords, FindAllByRequest, FindMessages, NewRecords, NewMessages, NameMap;
  }

  lemma {:induction false} WriteBackNumbers(c: RelayConfig, s: System, actor: Actor)
    requires Inv(c, s) && Enabled(c, s, WriteBack(actor))
    ensures Numbered(s.tables, Apply(c, s, WriteBack(actor)).tables)
  {
    WriteBackKeepsInv(c, s, actor);
    hide Inv, WriteBackOf, Observe;
  }

  lemma {:induction false} BeginNumbers(
    s: System, actor: Actor, requestId: string, cases: seq<Case>, version: string, at: Time, single: bool)
    ensures Numbered(s.tables,
      BeginWith(s, actor, version, PersistChunk(s.tables, requestId, cases, version, at), single).tables)
  {
    PersistNumbers(s.tables, requestId, cases, version, at);
    hide PersistChunk, Observe, ReplayChunk;
  }

  lemma {:induction false} StepNumbers(c: RelayConfig, s: System, step: Step)
    requires Inv(c, s) && Enabled(c, s, step)
    ensures Numbered(s.tables, Apply(c, s, step).tables)
  {
    assert Wf(s.tables);
    hide Inv, Wf;
    match step
    case BeginSingle(actor, requestId, cs, version, at) =>
      SingleIsChunk(s.tables, requestId, cs, version, at);
      hide PersistChunk, PersistSingle, Numbered;
      BeginNumbers(s, actor, requestId, [cs], version, at, true);
    case BeginChunk(actor, requestId, cases, version, at) =>
      hide PersistChunk, Numbered;
      BeginNumbers(s, actor, requestId, cases, version, at, false);
    case WriteBack(actor) =>
      hide Numbered, Apply;
      WriteBackNumbers(c, s, actor);
    case Claim(actor, now, token, locked, ids) =>
      hide ClaimSelection;
    case _ =>
  }

  /** The listed rows are the oldest. */
  ghost predicate Oldest(o: map<Id, Message>, order: seq<Id>) {
    && Listed(o, order)
    && forall x, y | x in order && y in o && y !in order :: o[x].outboxId < o[y].outboxId
  }

  lemma {:induction false} StepKeepsOldest(c: RelayConfig, s: System, step: Step, order: seq<Id>)
    requires Inv(c, s) && Enabled(c, s, step) && Oldest(s.tables.outbox, order)
    ensures Oldest(Apply(c, s, step).tables.outbox, order)
  {
    forall x | x in order ensures s.tables.outbox[x].outboxId < s.tables.nextOutbox {
      assert RowKeyed(s.tables, x);
    }
    hide Inv, Apply, Enabled;
    StepNumbers(c, s, step);
  }

  lemma {:induction false} RunKeepsOldest(c: RelayConfig, s: System, steps: seq<Step>, order: seq<Id>)
    requires ValidConfig(c) && Inv(c, s) && ValidRun(c, s, steps) && Oldest(s.tables.outbox, order)
    ensures Oldest(Run(c, s, steps).tables.outbox, order)
    decreases |steps|
  {
    hide Inv, Oldest, Enabled, Apply;
    if steps != [] {
      StepKeepsOldest(c, s, steps[0], order);
      StepKeepsInv(c, s, steps[0]);
      RunKeepsOldest(c, Apply(c, s, steps[0]), steps[1..], order);
    }
  }

  /** The round's claim finds no row locked and one of the listed rows due, unless all of
      them had ended by then. */
  ghost predicate FindsDue(c: RelayConfig, s: System, r: Round, order: seq<Id>)
    requires RoundOk(c, s, r)
  {
    var o := Run(c, s, r.before).tables.outbox;
    ListedEnded(o, order) || (r.claim.locked == {} && SomeDue(o, r.claim.now, order))
  }

  ghost predicate SomeDue(o: map<Id, Message>, now: Time, order: seq<Id>) {
    exists id :: id in order && id in o && Claimable(o[id], now)
  }

  ghost predicate DueRoundsOk(c: RelayConfig, s: System, rs: seq<Round>, order: seq<Id>)
    decreases |rs|
  {
    || rs == []
    || ListedEnded(s.tables.outbox, order)
    || (&& RoundOk(c, s, rs[0]) && FindsDue(c, s, rs[0], order)
        && DueRoundsOk(c, AfterRound(c, s, rs[0]), rs[1..], order))
  }

  ghost function AfterDueRounds(c: RelayConfig, s: System, rs: seq<Round>, order: seq<Id>): System
    requires DueRoundsOk(c, s, rs, order)
    decreases |rs|
  {
    if rs == [] || ListedEnded(s.tables.outbox, order) then s
    else AfterDueRounds(c, AfterRound(c, s, rs[0]), rs[1..], order)
  }

  /** A claim goes by outbox id, so it takes one of the oldest rows if one of them is due. */
  lemma {:induction false} DueTakesListed(c: RelayConfig, s: System, claim: Step, order: seq<Id>)
    requires ValidConfig(c) && claim.Claim? && Enabled(c, s, claim) && claim.locked == {}
    requires Oldest(s.tables.outbox, order)
    requires SomeDue(s.tables.outbox, claim.now, order)
    ensures exists x :: x in order && x in claim.ids
  {
    var o, ids := s.tables.outbox, claim.ids;
    var id :| id in order && id in o && Claimable(o[id], claim.now);
    assert Due(o, claim.now, {}, id);
    if id !in ids {
      assert |ids| == EffectiveLimit(c.batchSize) > 0 && o[ids[0]].outboxId < o[id].outboxId;
      assert Due(o, claim.now, {}, ids[0]);
      assert ids[0] in order && ids[0] in ids;
    }
  }

  lemma {:induction false} RoundTakesListed(c: RelayConfig, s: System, r: Round, order: seq<Id>)
    requires ValidConfig(c) && Inv(c, s) && RoundOk(c, s, r) && FindsDue(c, s, r, order)
    requires Oldest(s.tables.outbox, order)
    ensures TakesListed(c, s, r, order)
    ensures Inv(c, AfterRound(c, s, r)) && Oldest(AfterRound(c, s, r).tables.outbox, order)
  {
    var s0 := Run(c, s, r.before);
    var s1 := Apply(c, s0, r.claim);
    var s2 := Run(c, s1, r.during);
    assert Enabled(c, s2, WriteBack(r.holder));
    hide Inv, Oldest, Enabled, Apply, Commits, ListedEnded, SomeDue;
    RunKeepsInv(c, s, r.before);
    RunKeepsOldest(c, s, r.before, order);
    if !ListedEnded(s0.tables.outbox, order) {
      DueTakesListed(c, s0, r.claim, order);
    }
    StepKeepsInv(c, s0, r.claim);
    StepKeepsOldest(c, s0, r.claim, order);
    RunKeepsInv(c, s1, r.during);
    RunKeepsOldest(c, s1, r.during, order);
    StepKeepsInv(c, s2, WriteBack(r.holder));
    StepKeepsOldest(c, s2, WriteBack(r.holder), order);
  }

  lemma {:induction false} DueRoundsAreRounds(c: RelayConfig, s: System, rs: seq<Round>, order: seq<Id>)
    requires ValidConfig(c) && Inv(c, s) && DueRoundsOk(c, s, rs, order) && Oldest(s.tables.outbox, order)
    ensures RoundsOk(c, s, rs, order) && AfterRounds(c, s, rs, order) == AfterDueRounds(c, s, rs, order)
    decreases |rs|
  {
    hide Inv, Oldest, RoundOk, FindsDue, TakesListed, AfterRound, ListedEnded;
    if rs != [] && !ListedEnded(s.tables.outbox, order) {
      RoundTakesListed(c, s, rs[0], order);
      DueRoundsAreRounds(c, AfterRound(c, s, rs[0]), rs[1..], order);
    }
  }

  /** Under any traffic: if the listed messages are the oldest, then after MaxAttempts
      committed passes per message, each of which met no lock and found one of them due
      (or all of them ended), all of them are PUBLISHED or DEAD and stay so, whatever new
      messages, crashed or overtaken passes, fast paths and callbacks came in between. */
  lemma {:induction false} SettlesUnderTraffic(
    c: RelayConfig, s: System, rs: seq<Round>, order: seq<Id>, later: seq<Step>)
    requires ValidConfig(c) && Inv(c, s) && DueRoundsOk(c, s, rs, order) && Oldest(s.tables.outbox, order)
    requires |rs| >= c.maxAttempts * |order| || |rs| >= NeedSum(s.tables.outbox, order, c.maxAttempts)
    requires ValidRun(c, AfterDueRounds(c, s, rs, order), later)
    ensures ListedEnded(Run(c, AfterDueRounds(c, s, rs, order), later).tables.outbox, order)
  {
    hide Inv, DueRoundsOk, AfterDueRounds, AfterRounds, RoundsOk, Need, NeedSum, Ended, ValidRun, Run, ListedEnded;
    forall id | id in order ensures Need(s.tables.outbox[id], c.maxAttempts) <= c.maxAttempts {
      NeedIsPositive(c, s, id);
    }
    SumBounded(s.tables.outbox, order, c.maxAttempts);
    DueRoundsAreRounds(c, s, rs, order);
    CommittedPassesSettle(c, s, rs, order);
    EndedStays(c, AfterDueRounds(c, s, rs, order), later, order);
  }

  // ---- passes with nothing in between ----------------------------------------------------------

  /** One relay pass from the claim to the write-back, as DispatchOnce runs it alone. */
  datatype Pass = Pass(actor: Actor, now: Time, token: string, ids: seq<Id>, raw: RunResult, acks: set<Id>)

  function ClaimOf(p: Pass): Step {
    Claim(p.actor, p.now, p.token, {}, p.ids)
  }

  function PublishOf(p: Pass): Step {
    Publish(p.actor, p.raw, p.acks)
  }

  ghost predicate PassOk(c: RelayConfig, s: System, p: Pass) {
    && Enabled(c, s, Tick(p.now))
    && var s1 := Apply(c, s, Tick(p.now));
    && Enabled(c, s1, ClaimOf(p))
    && var s2 := Apply(c, s1, ClaimOf(p));
    && (p.ids == [] || (Enabled(c, s2, PublishOf(p)) && Enabled(c, Apply(c, s2, PublishOf(p)), WriteBack(p.actor))))
  }

  ghost function AfterPass(c: RelayConfig, s: System, p: Pass): System
    requires PassOk(c, s, p)
  {
    var s2 := Apply(c, Apply(c, s, Tick(p.now)), ClaimOf(p));
    if p.ids == [] then s2 else Apply(c, Apply(c, s2, PublishOf(p)), WriteBack(p.actor))
  }

  function RoundOf(p: Pass): Round {
    Round([Tick(p.now)], ClaimOf(p), [PublishOf(p)], p.actor)
  }

  lemma {:induction false} RunOne(c: RelayConfig, s: System, step: Step)
    requires Enabled(c, s, step)
    ensures ValidRun(c, s, [step]) && Run(c, s, [step]) == Apply(c, s, step)
  {
    hide Enabled, Apply;
    RunCons(c, s, step, []);
    assert [step] + [] == [step];
  }

  /** Right after a claim its rows are the copies it handed out. */
  lemma {:induction false} PassClaimed(c: RelayConfig, s: System, p: Pass)
    requires Enabled(c, s, ClaimOf(p)) && p.ids != []
    ensures var s2 := Apply(c, s, ClaimOf(p));
      && p.actor in s2.locals && s2.locals[p.actor].RelayClaimed?
      && s2.locals[p.actor].token == p.token && s2.locals[p.actor].ids == p.ids
      && Untouched(s2.tables, p.ids, s2.locals[p.actor].copies)
      && s2.tables.outbox.Keys == s.tables.outbox.Keys
  {
    SelectionDistinct(s.tables.outbox, p.now, EffectiveLimit(c.batchSize), {}, p.ids);
    hide ClaimSelection;
  }

  lemma {:induction false} PublishHolds(c: RelayConfig, s: System, p: Pass)
    requires Enabled(c, s, PublishOf(p)) && s.locals[p.actor].RelayClaimed?
    requires s.locals[p.actor].token == p.token && s.locals[p.actor].ids == p.ids
    requires Untouched(s.tables, p.ids, s.locals[p.actor].copies)
    ensures Commits(Apply(c, s, PublishOf(p)), p.actor, ClaimOf(p))
    ensures Apply(c, s, PublishOf(p)).tables == s.tables
  {
    hide HonestResult, MakePlan;
  }

  /** With nothing in between, the claimed rows are untouched: the pass commits. */
  lemma {:induction false} PassHolds(c: RelayConfig, s: System, p: Pass)
    requires PassOk(c, s, p) && p.ids != []
    ensures var s3 := Apply(c, Apply(c, Apply(c, s, Tick(p.now)), ClaimOf(p)), PublishOf(p));
      Commits(s3, p.actor, ClaimOf(p)) && s3.tables.outbox.Keys == s.tables.outbox.Keys
  {
    var s1 := Apply(c, s, Tick(p.now));
    var s2 := Apply(c, s1, ClaimOf(p));
    assert s1.tables == s.tables;
    hide Enabled, Apply, Commits, Untouched;
    PassClaimed(c, s1, p);
    PublishHolds(c, s2, p);
  }

  lemma {:induction false} PassIsRound(c: RelayConfig, s: System, p: Pass)
    requires PassOk(c, s, p) && p.ids != []
    ensures RoundOk(c, s, RoundOf(p)) && AfterRound(c, s, RoundOf(p)) == AfterPass(c, s, p)
  {
    var s1 := Apply(c, s, Tick(p.now));
    var s2 := Apply(c, s1, ClaimOf(p));
    PassHolds(c, s, p);
    hide Enabled, Apply, Commits;
    RunOne(c, s, Tick(p.now));
    RunOne(c, s2, PublishOf(p));
  }

  /** Every message that has not ended may be claimed: its grace, backoff or lease is over. */
  ghost predicate AllDue(o: map<Id, Message>, now: Time) {
    forall id | id in o && !Ended(o[id]) :: Claimable(o[id], now)
  }

  ghost predicate AllEnded(o: map<Id, Message>) {
    forall id | id in o :: Ended(o[id])
  }

  ghost predicate Listing(o: map<Id, Message>, order: seq<Id>) {
    Distinct(order) && forall id :: id in order <==> id in o
  }

  lemma {:induction false} PassSelects(c: RelayConfig, s: System, p: Pass)
    requires PassOk(c, s, p)
    ensures ClaimSelection(s.tables.outbox, p.now, EffectiveLimit(c.batchSize), {}, p.ids)
  {
    hide ClaimSelection, HonestResult, AfterPublish, WithClaim;
    assert Apply(c, s, Tick(p.now)).tables == s.tables;
  }

  lemma {:induction false} PassClaims(c: RelayConfig, s: System, p: Pass)
    requires ValidConfig(c) && PassOk(c, s, p) && AllDue(s.tables.outbox, p.now)
    ensures forall id | id in p.ids :: id in s.tables.outbox
    ensures p.ids == [] ==> AllEnded(s.tables.outbox)
  {
    var o := s.tables.outbox;
    hide PassOk, ClaimSelection;
    PassSelects(c, s, p);
    SelectionDistinct(o, p.now, EffectiveLimit(c.batchSize), {}, p.ids);
    if p.ids == [] {
      NothingDue(o, p.now, EffectiveLimit(c.batchSize));
    }
  }

  lemma {:induction false} NothingDue(o: map<Id, Message>, now: Time, limit: nat)
    requires limit > 0 && ClaimSelection(o, now, limit, {}, []) && AllDue(o, now)
    ensures AllEnded(o)
  {
    forall id | id in o ensures Ended(o[id]) {
      assert !Due(o, now, {}, id);
    }
  }

  lemma {:induction false} WriteBackKeepsKeys(c: RelayConfig, s: System, actor: Actor)
    requires Inv(c, s) && Enabled(c, s, WriteBack(actor))
    ensures Apply(c, s, WriteBack(actor)).tables.outbox.Keys == s.tables.outbox.Keys
  {
    WriteBackKeepsAttempts(c, s, actor);
    hide Inv, Apply, Enabled;
    var o, o' := s.tables.outbox, Apply(c, s, WriteBack(actor)).tables.outbox;
    assert forall id :: id in o'.Keys <==> id in o.Keys;
  }

  lemma {:induction false} PassKeys(c: RelayConfig, s: System, p: Pass)
    requires ValidConfig(c) && Inv(c, s) && PassOk(c, s, p) && p.ids != []
    ensures AfterPass(c, s, p).tables.outbox.Keys == s.tables.outbox.Keys
  {
    var s1 := Apply(c, s, Tick(p.now));
    var s2 := Apply(c, s1, ClaimOf(p));
    PassHolds(c, s, p);
    hide Inv, Enabled, Apply, Commits;
    StepKeepsInv(c, s, Tick(p.now));
    StepKeepsInv(c, s1, ClaimOf(p));
    StepKeepsInv(c, s2, PublishOf(p));
    WriteBackKeepsKeys(c, Apply(c, s2, PublishOf(p)), p.actor);
  }

  lemma {:induction false} EmptyPass(c: RelayConfig, s: System, p: Pass)
    requires ValidConfig(c) && Inv(c, s) && PassOk(c, s, p) && p.ids == []
    ensures Inv(c, AfterPass(c, s, p)) && AfterPass(c, s, p).tables == s.tables
  {
    var s1 := Apply(c, s, Tick(p.now));
    hide Inv;
    StepKeepsInv(c, s, Tick(p.now));
    StepKeepsInv(c, s1, ClaimOf(p));
    hide ClaimSelection;
    assert ClaimRows(s.tables.outbox, [], p.now + c.leaseDuration, p.token) == s.tables.outbox;
  }

  /** A pass either finds that everything has ended, or lowers what the messages need. */
  lemma {:induction false} PassStep(c: RelayConfig, s: System, p: Pass, order: seq<Id>)
    requires ValidConfig(c) && Inv(c, s) && Listing(s.tables.outbox, order)
    requires PassOk(c, s, p) && AllDue(s.tables.outbox, p.now)
    ensures var s' := AfterPass(c, s, p);
      && Inv(c, s') && Listing(s'.tables.outbox, order)
      && (p.ids == [] ==> AllEnded(s.tables.outbox) && s'.tables == s.tables)
      && (p.ids != [] ==>
            NeedSum(s'.tables.outbox, order, c.maxAttempts) < NeedSum(s.tables.outbox, order, c.maxAttempts))
  {
    hide Inv, PassOk, AfterPass, AllDue, RoundOk, AfterRound, NeedSum;
    PassClaims(c, s, p);
    if p.ids == [] {
      EmptyPass(c, s, p);
    } else {
      PassIsRound(c, s, p);
      var one := p.ids[0];
      assert one in p.ids && one in s.tables.outbox;
      assert RoundOf(p).claim.ids == p.ids && one in order;
      RoundSum(c, s, RoundOf(p), order);
      PassKeys(c, s, p);
      SameListing(s.tables.outbox, AfterPass(c, s, p).tables.outbox, order);
    }
  }

  lemma {:induction false} SameListing(o: map<Id, Message>, o': map<Id, Message>, order: seq<Id>)
    requires Listing(o, order) && o'.Keys == o.Keys
    ensures Listing(o', order)
  {
    assert forall id :: id in o'.Keys <==> id in o.Keys;
  }

  ghost predicate PassesOk(c: RelayConfig, s: System, ps: seq<Pass>)
    decreases |ps|
  {
    ps == []
    || (PassOk(c, s, ps[0]) && AllDue(s.tables.outbox, ps[0].now) && PassesOk(c, AfterPass(c, s, ps[0]), ps[1..]))
  }

  ghost function AfterPasses(c: RelayConfig, s: System, ps: seq<Pass>): System
    requires PassesOk(c, s, ps)
    decreases |ps|
  {
    if ps == [] then s else AfterPasses(c, AfterPass(c, s, ps[0]), ps[1..])
  }

  /** Repeated passes as time advances leave every message PUBLISHED or DEAD, from any
      reachable state, after at most as many passes as the messages need. */
  lemma {:induction false} PassesSettle(c: RelayConfig, s: System, ps: seq<Pass>, order: seq<Id>)
    requires ValidConfig(c) && Inv(c, s) && Listing(s.tables.outbox, order) && PassesOk(c, s, ps)
    requires |ps| >= NeedSum(s.tables.outbox, order, c.maxAttempts)
    ensures Listing(AfterPasses(c, s, ps).tables.outbox, order)
    ensures AllEnded(AfterPasses(c, s, ps).tables.outbox)
    decreases |ps|
  {
    hide Inv, PassOk, AfterPass, AllDue, NeedSum, Need;
    if ps == [] {
      NothingNeeded(c, s, order);
    } else {
      PassStep(c, s, ps[0], order);
      if ps[0].ids == [] {
        EndedNeeds(s.tables.outbox, order, c.maxAttempts);
      }
      PassesSettle(c, AfterPass(c, s, ps[0]), ps[1..], order);
    }
  }

  lemma {:induction false} NothingNeeded(c: RelayConfig, s: System, order: seq<Id>)
    requires ValidConfig(c) && Inv(c, s) && Listing(s.tables.outbox, order)
    ensures NeedSum(s.tables.outbox, order, c.maxAttempts) >= 0
    ensures NeedSum(s.tables.outbox, order, c.maxAttempts) == 0 ==> AllEnded(s.tables.outbox)
  {
    hide Inv, NeedSum, Ended;
    NothingOwed(c, s, order);
  }

  lemma {:induction false} EndedNeeds(o: map<Id, Message>, order: seq<Id>, max: int)
    requires AllEnded(o)
    ensures NeedSum(o, order, max) == 0
  {
    if order != [] {
      EndedNeeds(o, order[..|order| - 1], max);
    }
  }

  /** The bound in plain numbers: MaxAttempts passes per message are always enough. */
  lemma {:induction false} EnoughPasses(c: RelayConfig, s: System, ps: seq<Pass>)
    requires ValidConfig(c) && Inv(c, s) && PassesOk(c, s, ps)
    requires |ps| >= c.maxAttempts * |s.tables.outbox|
    ensures AllEnded(AfterPasses(c, s, ps).tables.outbox)
  {
    hide Inv, PassesOk, AfterPasses, Need, NeedSum;
    var order := RowsListed(s.tables.outbox);
    forall id | id in order ensures Need(s.tables.outbox[id], c.maxAttempts) <= c.maxAttempts {
      NeedIsPositive(c, s, id);
    }
    SumBounded(s.tables.outbox, order, c.maxAttempts);
    PassesSettle(c, s, ps, order);
  }

  lemma {:induction false} RowsListed(o: map<Id, Message>) returns (order: seq<Id>)
    ensures Listing(o, order) && |order| == |o|
  {
    order := SetListed(o.Keys);
  }

  lemma {:induction false} SetListed(ids: set<Id>) returns (order: seq<Id>)
    ensures Distinct(order) && (forall id :: id in order <==> id in ids) && |order| == |ids|
  {
    if ids == {} {
      return [];
    }
    HasMember(ids);
    var id :| id in ids;
    order := SetListed(ids - {id});
    order := order + [id];
  }

  // ---- there are such passes -----------------------------------------------------------------------

  lemma {:induction false} Lowest(o: map<Id, Message>, ids: set<Id>) returns (first: Id)
    requires ids != {} && OutboxIdsUnique(o) && forall id | id in ids :: id in o
    ensures first in ids && forall id | id in ids && id != first :: o[first].outboxId < o[id].outboxId
  {
    HasMember(ids);
    var id :| id in ids;
    first := id;
    if ids != {id} {
      assert ids - {id} != {};
      var other := Lowest(o, ids - {id});
      first := if o[id].outboxId < o[other].outboxId then id else other;
    }
  }

  /** The rows that a claim of this size takes. */
  lemma {:induction false} SelectionExists(o: map<Id, Message>, now: Time, limit: nat, locked: set<Id>)
    returns (ids: seq<Id>)
    requires OutboxIdsUnique(o)
    ensures ClaimSelection(o, now, limit, locked, ids)
    decreases limit
  {
    if limit == 0 {
      return [];
    }
    ids := SelectionExists(o, now, limit - 1, locked);
    var rest := set id | id in o && Due(o, now, locked, id) && id !in ids;
    if |ids| == limit - 1 && rest != {} {
      var first := Lowest(o, rest);
      SelectionGrows(o, now, limit, locked, ids, rest, first);
      ids := ids + [first];
    } else {
      assert forall id | Due(o, now, locked, id) && id !in ids :: id in rest;
    }
  }

  lemma {:induction false} SelectionGrows(
    o: map<Id, Message>, now: Time, limit: nat, locked: set<Id>, ids: seq<Id>, rest: set<Id>, first: Id)
    requires |ids| == limit - 1 && ClaimSelection(o, now, limit - 1, locked, ids)
    requires forall id :: id in rest <==> Due(o, now, locked, id) && id !in ids
    requires first in rest && forall id | id in rest && id != first :: o[first].outboxId < o[id].outboxId
    ensures ClaimSelection(o, now, limit, locked, ids + [first])
  {
    var all := ids + [first];
    forall i | 0 <= i < |all| ensures Due(o, now, locked, all[i]) {
      assert i < |ids| ==> Due(o, now, locked, ids[i]);
    }
    forall id | Due(o, now, locked, id) && id !in all
      ensures forall i | 0 <= i < |all| :: o[all[i]].outboxId < o[id].outboxId
    {
      assert id in rest && id != first;
      assert forall i | 0 <= i < |ids| :: o[ids[i]].outboxId < o[id].outboxId;
    }
  }

  lemma {:induction false} AboveAll(s: set<nat>) returns (bound: nat)
    ensures forall x | x in s :: x < bound
  {
    if s == {} {
      return 0;
    }
    HasMember(s);
    var x :| x in s;
    bound := AboveAll(s - {x});
    bound := if x < bound then bound else x + 1;
    assert forall y | y in s :: y == x || y in s - {x};
  }

  lemma {:induction false} UnusedToken(tokens: set<string>) returns (token: string)
    ensures token != "" && token !in tokens
  {
    var lengths := set t | t in tokens :: |t|;
    var bound := AboveAll(lengths);
    token := seq(bound + 1, _ => 'x');
    assert token in tokens ==> |token| in lengths;
  }

  /** From this moment on every message that has not ended may be claimed. */
  lemma {:induction false} AllDueFrom(o: map<Id, Message>, ids: set<Id>) returns (from: Time)
    requires forall id | id in ids :: id in o && (o[id].state.Processing? ==> o[id].leaseUntil.Some?)
    ensures forall now, id | now >= from && id in ids && !Ended(o[id]) :: Claimable(o[id], now)
  {
    if ids == {} {
      return 0;
    }
    HasMember(ids);
    var id :| id in ids;
    from := AllDueFrom(o, ids - {id});
    var at := if o[id].state.Processing? then o[id].leaseUntil.value else o[id].availableAt;
    from := if at > from then at else from;
    assert forall x | x in ids :: x == id || x in ids - {id};
  }

  /** Whatever the state, a pass that finds everything due can run next. */
  lemma {:induction false} NextPass(c: RelayConfig, s: System) returns (p: Pass)
    requires ValidConfig(c) && Inv(c, s)
    ensures PassOk(c, s, p) && AllDue(s.tables.outbox, p.now)
  {
    var o := s.tables.outbox;
    forall id | id in o.Keys ensures id in o && (o[id].state.Processing? ==> o[id].leaseUntil.Some?) {
      assert id in s.tables.records.Keys;
      assert RowOk(s, c.maxAttempts, id);
    }
    assert OutboxIdsUnique(o);
    hide Inv;
    var from := AllDueFrom(o, o.Keys);
    var now := if from > s.clock then from else s.clock + 1;
    var ids := SelectionExists(o, now, EffectiveLimit(c.batchSize), {});
    var token := UnusedToken(s.claims.Keys);
    var actor := AboveAll(s.locals.Keys);
    p := Pass(actor, now, token, ids, RunResult([], ids, false), {});
    PassCanRun(c, s, p);
  }

  lemma {:induction false} PassCanRun(c: RelayConfig, s: System, p: Pass)
    requires p.now > s.clock && p.actor !in s.locals && p.token != "" && p.token !in s.claims
    requires ClaimSelection(s.tables.outbox, p.now, EffectiveLimit(c.batchSize), {}, p.ids)
    requires p.raw == RunResult([], p.ids, false) && p.acks == {}
    ensures PassOk(c, s, p)
  {
    var s1 := Apply(c, s, Tick(p.now));
    hide ClaimSelection;
    assert Enabled(c, s1, ClaimOf(p));
    if p.ids != [] {
      var s2 := Apply(c, s1, ClaimOf(p));
      assert s2.locals[p.actor].RelayClaimed? && TaskIds(s2.locals[p.actor]) == p.ids;
      hide MakePlan;
      assert Enabled(c, s2, PublishOf(p));
    }
  }

  /** From every reachable state there are passes that settle everything. */
  lemma {:induction false} CanSettle(c: RelayConfig, s: System, order: seq<Id>) returns (ps: seq<Pass>)
    requires ValidConfig(c) && Inv(c, s) && Listing(s.tables.outbox, order)
    ensures PassesOk(c, s, ps) && AllEnded(AfterPasses(c, s, ps).tables.outbox)
    decreases NeedSum(s.tables.outbox, order, c.maxAttempts)
  {
    hide Inv, PassOk, AfterPass, AllDue, NeedSum, Need;
    NothingNeeded(c, s, order);
    if AllEnded(s.tables.outbox) {
      return [];
    }
    var p := NextPass(c, s);
    PassStep(c, s, p, order);
    var rest := CanSettle(c, AfterPass(c, s, p), order);
    ps := [p] + rest;
    assert ps[1..] == rest;
  }

  /** These rounds meet the hypotheses of SettlesUnderTraffic and end all listed messages. */
  ghost predicate SettledBy(c: RelayConfig, s: System, rs: seq<Round>, order: seq<Id>) {
    DueRoundsOk(c, s, rs, order) && ListedEnded(AfterDueRounds(c, s, rs, order).tables.outbox, order)
  }

  lemma {:induction false} SettledCons(c: RelayConfig, s: System, r: Round, rest: seq<Round>, order: seq<Id>)
    requires !ListedEnded(s.tables.outbox, order) && RoundOk(c, s, r) && FindsDue(c, s, r, order)
    requires SettledBy(c, AfterRound(c, s, r), rest, order)
    ensures SettledBy(c, s, [r] + rest, order)
  {
    hide RoundOk, FindsDue, AfterRound, ListedEnded;
    assert ([r] + rest)[0] == r && ([r] + rest)[1..] == rest;
  }

  lemma {:induction false} SettledStop(c: RelayConfig, s: System, rs: seq<Round>, order: seq<Id>)
    requires ListedEnded(s.tables.outbox, order)
    ensures SettledBy(c, s, rs, order)
  {
  }

  /** What a round that finds something due leaves. */
  lemma {:induction false} DueRoundServes(c: RelayConfig, s: System, r: Round, order: seq<Id>)
    requires ValidConfig(c) && Inv(c, s) && RoundOk(c, s, r) && FindsDue(c, s, r, order)
    requires Oldest(s.tables.outbox, order)
    ensures var s' := AfterRound(c, s, r);
      && Inv(c, s') && Oldest(s'.tables.outbox, order)
      && (ListedEnded(s'.tables.outbox, order)
          || NeedSum(s'.tables.outbox, order, c.maxAttempts) < NeedSum(s.tables.outbox, order, c.maxAttempts))
  {
    assert Listed(s.tables.outbox, order);
    hide Inv, Oldest, RoundOk, FindsDue, TakesListed, AfterRound, ListedEnded, NeedSum;
    RoundTakesListed(c, s, r, order);
    RoundServes(c, s, r, order);
  }

  /** Such passes also exist when only the oldest messages are asked for: from every
      reachable state some list of them, no longer than the listed messages need, leaves
      all of them ended, however it is continued. */
  lemma {:induction false} DueRoundsSettle(c: RelayConfig, s: System, order: seq<Id>, more: seq<Round>)
    returns (rs: seq<Round>)
    requires ValidConfig(c) && Inv(c, s) && Oldest(s.tables.outbox, order)
    ensures |rs| <= NeedSum(s.tables.outbox, order, c.maxAttempts)
    ensures SettledBy(c, s, rs + more, order)
    decreases NeedSum(s.tables.outbox, order, c.maxAttempts)
  {
    hide Inv, Oldest, RoundOk, FindsDue, AfterRound, ListedEnded, NeedSum, SettledBy;
    OldestNeed(c, s, order);
    if ListedEnded(s.tables.outbox, order) {
      SettledStop(c, s, [] + more, order);
      return [];
    }
    var r := NextRound(c, s, order);
    DueRoundServes(c, s, r, order);
    var s' := AfterRound(c, s, r);
    var rest: seq<Round> := [];
    if ListedEnded(s'.tables.outbox, order) {
      SettledStop(c, s', rest + more, order);
    } else {
      rest := DueRoundsSettle(c, s', order, more);
    }
    SettledCons(c, s, r, rest + more, order);
    rs := [r] + rest;
    assert rs + more == [r] + (rest + more);
  }

  lemma {:induction false} OldestNeed(c: RelayConfig, s: System, order: seq<Id>)
    requires ValidConfig(c) && Inv(c, s) && Oldest(s.tables.outbox, order)
    ensures NeedSum(s.tables.outbox, order, c.maxAttempts) >= 0
    ensures ListedEnded(s.tables.outbox, order) || NeedSum(s.tables.outbox, order, c.maxAttempts) > 0
  {
    hide Inv, NeedSum, ListedEnded;
    NothingOwed(c, s, order);
  }

  lemma {:induction false} NextRound(c: RelayConfig, s: System, order: seq<Id>) returns (r: Round)
    requires ValidConfig(c) && Inv(c, s) && Oldest(s.tables.outbox, order)
    requires !ListedEnded(s.tables.outbox, order)
    ensures RoundOk(c, s, r) && FindsDue(c, s, r, order)
  {
    hide Inv, PassOk, RoundOk, AfterRound, AfterPass;
    var p := NextPass(c, s);
    PassClaims(c, s, p);
    var id :| id in order && id in s.tables.outbox && !Ended(s.tables.outbox[id]);
    assert p.ids != [];
    PassIsRound(c, s, p);
    r := RoundOf(p);
    PassTick(c, s, p);
    assert Claimable(s.tables.outbox[id], p.now);
  }

  lemma {:induction false} PassTick(c: RelayConfig, s: System, p: Pass)
    requires PassOk(c, s, p)
    ensures ValidRun(c, s, RoundOf(p).before) && Run(c, s, RoundOf(p).before).tables == s.tables
  {
    RunOne(c, s, Tick(p.now));
  }
}
