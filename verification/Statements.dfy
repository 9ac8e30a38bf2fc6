/** What each SQL statement of the two repositories does, row by row. */
module Statements {
  import opened Domain
  import opened Store
  import opened StoreEffects

  // ---- inserts -------------------------------------------------------------

  /** Add never fails: a request and case that are already stored change nothing and give
      back the stored row; otherwise the record is stored under the next id. */
  lemma {:induction false} AddMeans(t: Tables, r: Record)
    requires Wf(t)
    ensures AddRecord(t, r).Some?
    ensures var (t', row) := AddRecord(t, r).value;
      var k, id := (r.requestId, r.caseId), t.nextExecution;
      if r.requestId != "" && k in t.byRequest then
        t' == t && t.byRequest[k] in t.records && row == t.records[t.byRequest[k]]
      else
        && row == r.(executionId := id)
        && t'.records == t.records[id := row] && t'.nextExecution == id + 1
        && t'.byRequest == (if r.requestId == "" then t.byRequest else t.byRequest[k := id])
        && t'.outbox == t.outbox && t'.nextOutbox == t.nextOutbox
  {
    var k := RequestKey(r);
    if r.requestId != "" && k in t.byRequest {
      assert KeyIndexed(t, k);
    }
  }

  /** So does Add of the outbox, by execution id. */
  lemma {:induction false} AddMessageMeans(t: Tables, m: Message)
    ensures AddMessage(t, m).Some?
    ensures var (t', row) := AddMessage(t, m).value;
      if m.executionId in t.outbox then t' == t && row == t.outbox[m.executionId]
      else
        && row == m.(outboxId := t.nextOutbox)
        && t' == t.(outbox := t.outbox[m.executionId := row], nextOutbox := t.nextOutbox + 1)
  {
  }

  /** Message i is the first of the batch for its execution, and the execution has none yet. */
  predicate NewIn(t: Tables, ms: seq<Message>, i: nat)
    requires i < |ms|
  {
    ms[i].executionId !in t.outbox && forall j | 0 <= j < i :: ms[j].executionId != ms[i].executionId
  }

  predicate StoredMessage(t: Tables, m: Message, row: Message) {
    m.executionId in t.outbox && t.outbox[m.executionId] == row
  }

  /** The outbox id under which a message is stored. */
  function NumberOf(t: Tables, m: Message): Id {
    if m.executionId in t.outbox then t.outbox[m.executionId].outboxId else 0
  }

  /** A message that is new in the batch is stored as it is, under a new outbox id. */
  ghost predicate NumberedAt(t: Tables, t': Tables, ms: seq<Message>, i: nat)
    requires i < |ms|
  {
    NewIn(t, ms, i) ==>
      && t.nextOutbox <= NumberOf(t', ms[i]) < t'.nextOutbox
      && StoredMessage(t', ms[i], ms[i].(outboxId := NumberOf(t', ms[i])))
  }

  ghost predicate InOrder(t: Tables, t': Tables, ms: seq<Message>, i: nat, j: nat)
    requires i < |ms| && j < |ms|
  {
    NewIn(t, ms, i) && NewIn(t, ms, j) ==> NumberOf(t', ms[i]) < NumberOf(t', ms[j])
  }

  /** A batch of messages keeps what is stored and inserts the others with growing outbox
      ids: relays will take them in the order of the batch. */
  lemma {:induction false} AddMessagesMean(t: Tables, ms: seq<Message>)
    requires Wf(t)
    ensures AddMessages(t, ms).Some?
    ensures var (t', rows) := AddMessages(t, ms).value;
      && |rows| == |ms| && OutboxKept(t, t')
      && t'.records == t.records && t'.byRequest == t.byRequest && t'.nextExecution == t.nextExecution
      && (forall i | 0 <= i < |ms| :: StoredMessage(t', ms[i], rows[i]) && NumberedAt(t, t', ms, i))
      && (forall i, j | 0 <= i < j < |ms| :: InOrder(t, t', ms, i, j))
  {
    var t' := InsertMessages(t, ms);
    InsertMessagesEffect(t, ms);
    FindMessagesEffect(t', ms);
    Numbered(t, ms);
    hide Wf, InsertMessages, FindMessages, NumberedAt, InOrder;
  }

  lemma {:induction false} NextNumbered(t: Tables, t1: Tables, ms: seq<Message>, n: nat)
    requires n + 1 == |ms| && (forall i | 0 <= i < n :: NumberedAt(t, t1, ms[..n], i))
    requires t1.nextOutbox >= t.nextOutbox && OutboxKept(t, t1)
    requires forall id | id in t1.outbox :: id in t.outbox || exists i :: 0 <= i < n && ms[i].executionId == id
    requires forall i | 0 <= i < n :: ms[i].executionId in t1.outbox
    ensures forall i | 0 <= i < |ms| :: NumberedAt(t, InsertMessage(t1, ms[n]), ms, i)
    ensures forall i | 0 <= i < n :: InOrder(t, InsertMessage(t1, ms[n]), ms, i, n)
    ensures forall i, j | 0 <= i < n && 0 <= j < n ::
      InOrder(t, t1, ms[..n], i, j) ==> InOrder(t, InsertMessage(t1, ms[n]), ms, i, j)
  {
    var t' := InsertMessage(t1, ms[n]);
    forall i | 0 <= i < n
      ensures NewIn(t, ms, i) <==> NewIn(t, ms[..n], i)
      ensures NumberOf(t', ms[i]) == NumberOf(t1, ms[..n][i])
      ensures NumberedAt(t, t', ms, i)
    {
      assert NumberedAt(t, t1, ms[..n], i);
    }
    if NewIn(t, ms, n) {
      assert ms[n].executionId !in t1.outbox;
      assert NumberOf(t', ms[n]) == t1.nextOutbox;
      forall i | 0 <= i < n ensures InOrder(t, t', ms, i, n) {
        assert NumberedAt(t, t1, ms[..n], i);
      }
    }
  }

  lemma {:induction false} Numbered(t: Tables, ms: seq<Message>)
    ensures var t' := InsertMessages(t, ms);
      && t'.nextOutbox >= t.nextOutbox && OutboxKept(t, t')
      && (forall i | 0 <= i < |ms| :: ms[i].executionId in t'.outbox)
      && (forall id | id in t'.outbox :: id in t.outbox || exists i :: 0 <= i < |ms| && ms[i].executionId == id)
      && (forall i | 0 <= i < |ms| :: NumberedAt(t, t', ms, i))
      && (forall i, j | 0 <= i < j < |ms| :: InOrder(t, t', ms, i, j))
  {
    if ms != [] {
      var n := |ms| - 1;
      Numbered(t, ms[..n]);
      var t1 := InsertMessages(t, ms[..n]);
      assert InsertMessages(t, ms) == InsertMessage(t1, ms[n]);
      hide InsertMessages, NumberedAt, InOrder;
      NextNumbered(t, t1, ms, n);
    }
  }

  // ---- updates -------------------------------------------------------------

  /** Save fails exactly on a missing row; it writes the status of a row in WAIT and leaves
      any other row alone. */
  lemma SaveMeans(t: Tables, r: Record)
    ensures SaveRecord(t, r).None? <==> r.executionId !in t.records
    ensures SaveRecord(t, r).Some? ==>
      var t', id := SaveRecord(t, r).value, r.executionId;
      && t' == t.(records := t'.records) && t'.records.Keys == t.records.Keys
      && (forall x | x in t.records && x != id :: t'.records[x] == t.records[x])
      && (t.records[id].status == Wait ==> t'.records[id] == t.records[id].(status := r.status))
      && (t.records[id].status != Wait ==> t'.records[id] == t.records[id])
  {
  }

  ghost predicate Listed(rs: seq<Record>, id: Id, status: Status) {
    status != Wait && exists r :: r in rs && r.executionId == id && r.status == status
  }

  /** The row has kept its status, or has left WAIT for one that is listed for it. */
  ghost predicate TookListed(rs: seq<Record>, id: Id, before: Record, after: Record) {
    if before.status == Wait && exists status :: Listed(rs, id, status) then
      Listed(rs, id, after.status) && after == before.(status := after.status)
    else after == before
  }

  /** BatchUpdateStatus fails exactly if a status other than WAIT is listed for a missing
      row; otherwise exactly the listed rows in WAIT take a status listed for them. */
  lemma {:induction false} StatusesMean(t: Tables, rs: seq<Record>)
    ensures WriteStatuses(t, rs).None? <==> exists r :: r in rs && r.status != Wait && r.executionId !in t.records
    ensures WriteStatuses(t, rs).Some? ==>
      var t' := WriteStatuses(t, rs).value;
      && t' == t.(records := t'.records) && t'.records.Keys == t.records.Keys
      && forall id | id in t.records :: TookListed(rs, id, t.records[id], t'.records[id])
  {
    forall id ensures
      if StatusFor(rs, id).Some? then Listed(rs, id, StatusFor(rs, id).value)
      else forall status :: !Listed(rs, id, status)
    {
      StatusForListed(rs, id);
    }
    hide StatusFor, Listed;
  }

  lemma {:induction false} StatusForListed(rs: seq<Record>, id: Id)
    ensures StatusFor(rs, id).Some? ==> Listed(rs, id, StatusFor(rs, id).value)
    ensures StatusFor(rs, id).None? ==> forall status :: !Listed(rs, id, status)
  {
    if rs != [] {
      StatusForListed(rs[1..], id);
      assert rs == [rs[0]] + rs[1..];
      if rs[0].executionId != id || rs[0].status == Wait {
        forall status | Listed(rs, id, status) ensures Listed(rs[1..], id, status) {
          var r :| r in rs && r.executionId == id && r.status == status;
          assert r in rs[1..];
        }
      }
    }
  }

  /** A row that the holder of the token may write back, or without one, a free row. */
  predicate MayWrite(m: Message, token: string) {
    if token == "" then m.state == Pending else m.state == Processing && m.leaseToken == token
  }

  /** A write-back fails exactly if some listed row is missing, or is not free or is not
      leased under the token; otherwise exactly the listed rows change. */
  lemma UpdateMeans(t: Tables, ids: seq<Id>, token: string, p: Patch)
    ensures var r := UpdateByExecutionIds(t, ids, token, p);
      && (r.Some? <==> forall id | id in ids :: id in t.outbox && MayWrite(t.outbox[id], token))
      && (r.Some? ==>
            && r.value == t.(outbox := r.value.outbox) && r.value.outbox.Keys == t.outbox.Keys
            && (forall id | id in t.outbox && id !in ids :: r.value.outbox[id] == t.outbox[id])
            && (forall id | id in ids :: PatchedTo(t.outbox[id], r.value.outbox[id], p)))
  {
    assert forall m, x | Guard(m, x) :: MayWrite(m, x);
  }
}
