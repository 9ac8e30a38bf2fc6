/** One relay pass: what is decided between the publish result and the write-back. */
module Relay {
  import opened Domain
  import opened BatchResult
  import opened Store
  import Backoff

  const SECOND := 1_000_000_000

  datatype RelayConfig = RelayConfig(
    batchSize: int, leaseDuration: int, maxAttempts: int, initialBackoff: int, maxBackoff: int)

  /** Only unusable values are replaced. */
  function WithDefaults(c: RelayConfig): (d: RelayConfig)
    ensures ValidConfig(d)
    ensures ValidConfig(c) ==> d == c
    ensures (c.batchSize > 0 ==> d.batchSize == c.batchSize) && (c.batchSize <= 0 ==> d.batchSize == 200)
    ensures c.leaseDuration > 0 ==> d.leaseDuration == c.leaseDuration
    ensures c.leaseDuration <= 0 ==> d.leaseDuration == 30_000_000_000
    ensures (c.maxAttempts > 0 ==> d.maxAttempts == c.maxAttempts) && (c.maxAttempts <= 0 ==> d.maxAttempts == 8)
    ensures c.initialBackoff > 0 ==> d.initialBackoff == c.initialBackoff
    ensures c.initialBackoff <= 0 ==> d.initialBackoff == 1_000_000_000
    ensures c.maxBackoff > 0 ==> d.maxBackoff == c.maxBackoff
    ensures c.maxBackoff <= 0 ==> d.maxBackoff == 60_000_000_000
  {
    RelayConfig(
      if c.batchSize <= 0 then 200 else c.batchSize,
      if c.leaseDuration <= 0 then 30 * SECOND else c.leaseDuration,
      if c.maxAttempts <= 0 then 8 else c.maxAttempts,
      if c.initialBackoff <= 0 then SECOND else c.initialBackoff,
      if c.maxBackoff <= 0 then 60 * SECOND else c.maxBackoff)
  }

  predicate ValidConfig(c: RelayConfig) {
    c.batchSize > 0 && c.leaseDuration > 0 && c.maxAttempts > 0 && c.initialBackoff > 0 && c.maxBackoff > 0
  }

  /** The three-way split of a publish result, and the attempt that sets the backoff. */
  datatype Plan = Plan(success: seq<Id>, retry: seq<Id>, dead: seq<Id>, maxAttempt: int)

  function Retryable(copies: map<Id, Message>, maxAttempts: int): set<Id> {
    set id | id in copies && copies[id].attempts < maxAttempts
  }

  function Exhausted(copies: map<Id, Message>, maxAttempts: int): set<Id> {
    set id | id in copies && copies[id].attempts >= maxAttempts
  }

  function LargestAttempt(copies: map<Id, Message>, failed: seq<Id>): int {
    if failed == [] then 1
    else
      var rest := LargestAttempt(copies, failed[..|failed| - 1]);
      var id := failed[|failed| - 1];
      if id in copies && copies[id].attempts > rest then copies[id].attempts else rest
  }

  function MakePlan(ids: seq<Id>, copies: map<Id, Message>, raw: RunResult, maxAttempts: int): Plan {
    var r := Complete(ids, raw);
    Plan(r.success, Only(r.failed, Retryable(copies, maxAttempts)),
         Only(r.failed, Exhausted(copies, maxAttempts)), LargestAttempt(copies, r.failed))
  }

  /** In-memory records of exhausted messages, already marked DISPATCH_FAILED. */
  function DeadRecords(copies: map<Id, Message>, dead: seq<Id>): (rs: seq<Record>)
    ensures |rs| == |dead|
  {
    seq(|dead|, i requires 0 <= i < |dead| =>
      var id := dead[i];
      if id in copies then MarkedFailed(Record(id, "", copies[id].caseId, copies[id].version, Wait))
      else Record(id, "", 0, "", Wait))
  }

  /** The write-back transaction of a pass. */
  function RelayWriteBack(t: Tables, token: string, copies: map<Id, Message>, plan: Plan, retryAt: Time):
    Option<Tables>
  {
    var t1 :- WriteStatuses(t, DeadRecords(copies, plan.dead));
    var t2 :- UpdateByExecutionIds(t1, plan.success, token, ToPublished);
    var t3 :- UpdateByExecutionIds(t2, plan.dead, token, ToDead);
    UpdateByExecutionIds(t3, plan.retry, token, ToPending(retryAt))
  }

  function RetryAt(c: RelayConfig, now: Time, maxAttempt: int): Time {
    now + Backoff.Looped(c.initialBackoff, c.maxBackoff, maxAttempt)
  }

  /** The largest attempt is one, or that of some failed row. */
  lemma {:induction false} LargestReached(copies: map<Id, Message>, failed: seq<Id>)
    ensures LargestAttempt(copies, failed) >= 1
    ensures LargestAttempt(copies, failed) == 1
      || exists id :: id in failed && id in copies && copies[id].attempts == LargestAttempt(copies, failed)
  {
    if failed != [] {
      var n := |failed| - 1;
      LargestReached(copies, failed[..n]);
      assert failed == failed[..n] + [failed[n]] && failed[n] in failed;
    }
  }

  lemma {:induction false} LargestBounds(copies: map<Id, Message>, failed: seq<Id>)
    ensures forall id | id in failed && id in copies :: copies[id].attempts <= LargestAttempt(copies, failed)
  {
    if failed != [] {
      LargestBounds(copies, failed[..|failed| - 1]);
      assert failed == failed[..|failed| - 1] + [failed[|failed| - 1]];
    }
  }

  /** Every claimed id goes to exactly one of the three lists: acknowledged ids to
      success, the others by whether their claimed copy has attempts left. */
  lemma PlanPartitions(ids: seq<Id>, copies: map<Id, Message>, raw: RunResult, maxAttempts: int)
    requires forall id | id in ids :: id in copies
    ensures var p := MakePlan(ids, copies, raw, maxAttempts);
      && (forall id :: id in p.success <==> id in ids && id in raw.success && id !in raw.failed)
      && (forall id :: id in p.success <==> id in ids && id in Confirmed(raw))
      && (forall id :: id in p.retry <==> id in ids && id !in Confirmed(raw) && copies[id].attempts < maxAttempts)
      && (forall id :: id in p.dead <==> id in ids && id !in Confirmed(raw) && copies[id].attempts >= maxAttempts)
      && multiset(p.success) + multiset(p.retry) + multiset(p.dead) == multiset(ids)
  {
    var r := Complete(ids, raw);
    var p := MakePlan(ids, copies, raw, maxAttempts);
    OnlyMembers(ids, Confirmed(raw));
    WithoutMembers(ids, Confirmed(raw));
    OnlyMembers(r.failed, Retryable(copies, maxAttempts));
    OnlyMembers(r.failed, Exhausted(copies, maxAttempts));
    SplitConserves(ids, Confirmed(raw));
    SplitConserves(r.failed, Retryable(copies, maxAttempts));
    ComplementSplit(r.failed, Retryable(copies, maxAttempts), Exhausted(copies, maxAttempts));
  }

  lemma {:induction false} ComplementSplit(ids: seq<Id>, a: set<Id>, b: set<Id>)
    requires forall id | id in ids :: id in b <==> id !in a
    ensures Without(ids, a) == Only(ids, b)
  {
    if ids != [] {
      ComplementSplit(ids[..|ids| - 1], a, b);
    }
  }

  /** The broker's answer does not report the id as published. */
  predicate Unpublished(raw: RunResult, id: Id) {
    id !in raw.success || id in raw.failed
  }

  lemma ConfirmedMeans(ids: seq<Id>, raw: RunResult)
    ensures forall id | id in ids :: id in Confirmed(raw) <==> !Unpublished(raw, id)
  {
  }

  /** The attempt that sets the backoff is the largest of the claimed rows that were not
      published: no smaller than any of them, and that of one of them, or one. */
  lemma LargestIsOfFailed(ids: seq<Id>, copies: map<Id, Message>, raw: RunResult, maxAttempts: int)
    ensures var p := MakePlan(ids, copies, raw, maxAttempts);
      && p.maxAttempt >= 1
      && (forall id | id in ids && id in copies && Unpublished(raw, id) :: copies[id].attempts <= p.maxAttempt)
      && (p.maxAttempt == 1
          || exists id :: id in ids && id in copies && Unpublished(raw, id) && copies[id].attempts == p.maxAttempt)
  {
    var r := Complete(ids, raw);
    CompletePartitions(ids, raw);
    LargestBounds(copies, r.failed);
    LargestReached(copies, r.failed);
  }

  /** So it is at least that of every retried row. */
  lemma LargestCoversRetries(ids: seq<Id>, copies: map<Id, Message>, raw: RunResult, maxAttempts: int)
    ensures var p := MakePlan(ids, copies, raw, maxAttempts);
      forall id | id in p.retry :: id in copies && copies[id].attempts <= p.maxAttempt
  {
    var r := Complete(ids, raw);
    OnlyMembers(r.failed, Retryable(copies, maxAttempts));
    LargestBounds(copies, r.failed);
  }

  /** One retry time serves the whole pass; because it is computed from the largest
      failed attempt, no retried row comes back before its own backoff has passed. */
  lemma RetryNotEarly(c: RelayConfig, now: Time, ids: seq<Id>, copies: map<Id, Message>, raw: RunResult, id: Id)
    requires ValidConfig(c) && Backoff.Fits(c.initialBackoff, c.maxBackoff)
    requires forall x | x in ids :: x in copies
    requires id in MakePlan(ids, copies, raw, c.maxAttempts).retry
    ensures id in copies
    ensures RetryAt(c, now, MakePlan(ids, copies, raw, c.maxAttempts).maxAttempt)
         >= now + Backoff.Delay(c.initialBackoff, c.maxBackoff, copies[id].attempts)
  {
    var p := MakePlan(ids, copies, raw, c.maxAttempts);
    LargestCoversRetries(ids, copies, raw, c.maxAttempts);
    Backoff.DelayMonotone(c.initialBackoff, c.maxBackoff, copies[id].attempts, p.maxAttempt);
    Backoff.FitsIsExact(c.initialBackoff, c.maxBackoff, p.maxAttempt);
  }

  /** The token checks at the head of DispatchOnce: None is an error return. */
  method CommonToken(messages: seq<Message>) returns (token: Option<string>)
    requires |messages| > 0
    ensures token.Some? <==>
      messages[0].leaseToken != "" && forall m | m in messages :: m.leaseToken == messages[0].leaseToken
    ensures token.Some? ==> token.value == messages[0].leaseToken
  {
    var first := messages[0].leaseToken;
    if first == "" {
      return None;
    }
    for i := 1 to |messages|
      invariant forall j | 0 <= j < i :: messages[j].leaseToken == first
    {
      if messages[i].leaseToken != first {
        return None;
      }
    }
    token := Some(first);
  }

  /** The split loop of DispatchOnce over the completed result. */
  method SplitFailures(ids: seq<Id>, messages: seq<Message>, raw: RunResult, maxAttempts: int)
    returns (plan: Plan, deadRecords: seq<ExecutionRecord>)
    requires |ids| == |messages| && forall i | 0 <= i < |ids| :: messages[i].executionId == ids[i]
    ensures plan == MakePlan(ids, ById(messages), raw, maxAttempts)
    ensures Values(deadRecords) == DeadRecords(ById(messages), plan.dead)
  {
    var messageById := IndexById(messages);
    var result := Complete(ids, raw);
    var failed := result.failed;
    var retry, dead: seq<Id> := [], [];
    deadRecords := [];
    var maxAttempt := 1;
    assert SortedSoFar(messageById, maxAttempts, failed[..0], retry, dead, maxAttempt, Values(deadRecords));
    for i := 0 to |failed|
      invariant SortedSoFar(messageById, maxAttempts, failed[..i], retry, dead, maxAttempt, Values(deadRecords))
    {
      hide SortedSoFar, Values, MarkedFailed;
      SortNext(messageById, maxAttempts, failed, i, retry, dead, maxAttempt, Values(deadRecords));
      var id := failed[i];
      if id in messageById {
        var message := messageById[id];
        if message.attempts > maxAttempt {
          maxAttempt := message.attempts;
        }
        if message.attempts < maxAttempts {
          retry := retry + [id];
        } else {
          var record := DeadRecord(id, message);
          ValuesNext(deadRecords, record);
          deadRecords := deadRecords + [record];
          dead := dead + [id];
        }
      }
    }
    assert failed[..|failed|] == failed;
    plan := Plan(result.success, retry, dead, maxAttempt);
  }

  /** The split loop's state after a prefix of the failed ids. */
  ghost predicate SortedSoFar(
    copies: map<Id, Message>, maxAttempts: int, prefix: seq<Id>, retry: seq<Id>, dead: seq<Id>, maxAttempt: int,
    deadRecords: seq<Record>)
  {
    && maxAttempt == LargestAttempt(copies, prefix)
    && retry == Only(prefix, Retryable(copies, maxAttempts))
    && dead == Only(prefix, Exhausted(copies, maxAttempts))
    && deadRecords == DeadRecords(copies, dead)
  }

  lemma {:induction false} SortNext(
    copies: map<Id, Message>, maxAttempts: int, failed: seq<Id>, i: nat, retry: seq<Id>, dead: seq<Id>, maxAttempt: int,
    deadRecords: seq<Record>)
    requires i < |failed| && SortedSoFar(copies, maxAttempts, failed[..i], retry, dead, maxAttempt, deadRecords)
    ensures var id := failed[i];
      if id !in copies then SortedSoFar(copies, maxAttempts, failed[..i + 1], retry, dead, maxAttempt, deadRecords)
      else
        var m := copies[id];
        var most := if m.attempts > maxAttempt then m.attempts else maxAttempt;
        if m.attempts < maxAttempts then
          SortedSoFar(copies, maxAttempts, failed[..i + 1], retry + [id], dead, most, deadRecords)
        else
          var record := MarkedFailed(Record(id, "", m.caseId, m.version, Wait));
          SortedSoFar(copies, maxAttempts, failed[..i + 1], retry, dead + [id], most, deadRecords + [record])
  {
    SplitNext(failed, i, Retryable(copies, maxAttempts));
    SplitNext(failed, i, Exhausted(copies, maxAttempts));
    LargestNext(copies, failed, i);
    if failed[i] in copies {
      DeadNext(copies, dead, failed[i]);
    }
    hide Only, LargestAttempt, DeadRecords, MarkedFailed;
  }

  lemma DeadNext(copies: map<Id, Message>, dead: seq<Id>, id: Id)
    requires id in copies
    ensures DeadRecords(copies, dead + [id])
         == DeadRecords(copies, dead) + [MarkedFailed(Record(id, "", copies[id].caseId, copies[id].version, Wait))]
  {
  }

  lemma LargestNext(copies: map<Id, Message>, failed: seq<Id>, i: nat)
    requires i < |failed|
    ensures var rest, id := LargestAttempt(copies, failed[..i]), failed[i];
      LargestAttempt(copies, failed[..i + 1])
        == if id in copies && copies[id].attempts > rest then copies[id].attempts else rest
  {
    assert failed[..i + 1][..i] == failed[..i];
  }

  /** A record made up for an exhausted message; in WAIT, so marking it cannot fail. */
  method DeadRecord(id: Id, message: Message) returns (record: ExecutionRecord)
    ensures fresh(record)
    ensures record.Value() == MarkedFailed(Record(id, "", message.caseId, message.version, Wait))
  {
    record := new ExecutionRecord("", message.caseId, message.version);
    record.executionId := id;
    var ok := record.MarkAsDispatchFailed(0);
    assert ok;
  }

  method IndexById(messages: seq<Message>) returns (messageById: map<Id, Message>)
    ensures messageById == ById(messages)
  {
    messageById := map[];
    for i := 0 to |messages|
      invariant messageById == ById(messages[..i])
    {
      assert messages[..i + 1][..i] == messages[..i];
      messageById := messageById[messages[i].executionId := messages[i]];
    }
    assert messages[..|messages|] == messages;
  }

  function ById(messages: seq<Message>): map<Id, Message> {
    if messages == [] then map[]
    else
      var last := messages[|messages| - 1];
      ById(messages[..|messages| - 1])[last.executionId := last]
  }

  lemma {:induction false} ByIdIsLookup(ids: seq<Id>, copies: map<Id, Message>, messages: seq<Message>)
    requires Distinct(ids) && |messages| == |ids|
    requires forall i | 0 <= i < |ids| ::
      ids[i] in copies && messages[i] == copies[ids[i]] && messages[i].executionId == ids[i]
    ensures ById(messages) == map id | id in ids && id in copies :: copies[id]
  {
    if messages != [] {
      var n := |ids| - 1;
      ByIdIsLookup(ids[..n], copies, messages[..n]);
      assert ids == ids[..n] + [ids[n]];
    }
  }
}
