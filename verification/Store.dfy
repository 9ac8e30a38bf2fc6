/** The two tables as values, and what one SQL statement or one transaction body
    does to them. A transaction that errors is None: it is rolled back. */
module Store {
  import opened Domain

  /** `byRequest` is the unique index on (request_id, case_id); the keys of
      `records` and `outbox` are the unique execution ids. */
  datatype Tables = Tables(
    records: map<Id, Record>, byRequest: map<(string, Id), Id>, outbox: map<Id, Message>,
    nextExecution: Id, nextOutbox: Id)

  const NO_TABLES := Tables(map[], map[], map[], 1, 1)

  function RequestKey(r: Record): (string, Id) {
    (r.requestId, r.caseId)
  }

  ghost predicate RecordIndexed(t: Tables, id: Id)
    requires id in t.records
  {
    var r := t.records[id];
    && r.executionId == id < t.nextExecution
    && (r.requestId != "" ==> RequestKey(r) in t.byRequest && t.byRequest[RequestKey(r)] == id)
  }

  ghost predicate KeyIndexed(t: Tables, k: (string, Id))
    requires k in t.byRequest
  {
    t.byRequest[k] in t.records && RequestKey(t.records[t.byRequest[k]]) == k
  }

  ghost predicate RowKeyed(t: Tables, id: Id)
    requires id in t.outbox
  {
    t.outbox[id].executionId == id && t.outbox[id].outboxId < t.nextOutbox
  }

  ghost predicate OutboxIdsUnique(outbox: map<Id, Message>) {
    forall i, j | i in outbox && j in outbox && outbox[i].outboxId == outbox[j].outboxId :: i == j
  }

  /** Primary keys, unique keys and auto-increment counters agree with the rows. */
  ghost predicate Wf(t: Tables) {
    && (forall id | id in t.records :: RecordIndexed(t, id))
    && (forall k | k in t.byRequest :: KeyIndexed(t, k))
    && (forall id | id in t.outbox :: RowKeyed(t, id))
    && OutboxIdsUnique(t.outbox)
  }

  // ---- inserts -------------------------------------------------------------

  /** INSERT ... ON CONFLICT DO NOTHING (a NULL request id never conflicts). */
  function InsertRecord(t: Tables, r: Record): Tables {
    if r.requestId != "" && RequestKey(r) in t.byRequest then t
    else
      var id := t.nextExecution;
      t.(records := t.records[id := r.(executionId := id)],
         byRequest := if r.requestId != "" then t.byRequest[RequestKey(r) := id] else t.byRequest,
         nextExecution := id + 1)
  }

  function InsertRecords(t: Tables, rs: seq<Record>): Tables {
    if rs == [] then t else InsertRecord(InsertRecords(t, rs[..|rs| - 1]), rs[|rs| - 1])
  }

  /** SELECT by (request_id, case_id) after the insert. */
  function FindByRequest(t: Tables, requestId: string, caseId: Id): Option<Record> {
    var k := (requestId, caseId);
    if k in t.byRequest && t.byRequest[k] in t.records then Some(t.records[t.byRequest[k]]) else None
  }

  function FindAllByRequest(t: Tables, rs: seq<Record>): Option<seq<Record>> {
    if rs == [] then Some([])
    else
      var head :- FindAllByRequest(t, rs[..|rs| - 1]);
      var last := rs[|rs| - 1];
      var row :- FindByRequest(t, last.requestId, last.caseId);
      Some(head + [row])
  }

  /** ExecutionRepository.Add: the tables and the row the caller gets back. */
  function AddRecord(t: Tables, r: Record): Option<(Tables, Record)> {
    var t' := InsertRecord(t, r);
    if r.requestId == "" then Some((t', r.(executionId := t.nextExecution)))
    else
      var row :- FindByRequest(t', r.requestId, r.caseId);
      Some((t', row))
  }

  predicate SameRequest(rs: seq<Record>) {
    forall i | 0 <= i < |rs| :: rs[i].requestId == rs[0].requestId
  }

  /** Consecutive auto-increment ids, in order. */
  function WithIds(rs: seq<Record>, first: Id): (out: seq<Record>)
    ensures |out| == |rs|
  {
    seq(|rs|, i requires 0 <= i < |rs| => rs[i].(executionId := first + i))
  }

  /** ExecutionRepository.BatchAdd. */
  function AddRecords(t: Tables, rs: seq<Record>): Option<(Tables, seq<Record>)> {
    if rs == [] then Some((t, []))
    else if !SameRequest(rs) then None
    else
      var t' := InsertRecords(t, rs);
      if rs[0].requestId == "" then
        Some((t', WithIds(rs, t.nextExecution)))
      else
        var rows :- FindAllByRequest(t', rs);
        Some((t', rows))
  }

  function InsertMessage(t: Tables, m: Message): Tables {
    if m.executionId in t.outbox then t
    else t.(outbox := t.outbox[m.executionId := m.(outboxId := t.nextOutbox)], nextOutbox := t.nextOutbox + 1)
  }

  function InsertMessages(t: Tables, ms: seq<Message>): Tables {
    if ms == [] then t else InsertMessage(InsertMessages(t, ms[..|ms| - 1]), ms[|ms| - 1])
  }

  function FindMessages(t: Tables, ms: seq<Message>): Option<seq<Message>> {
    if ms == [] then Some([])
    else
      var head :- FindMessages(t, ms[..|ms| - 1]);
      var id := ms[|ms| - 1].executionId;
      if id in t.outbox then Some(head + [t.outbox[id]]) else None
  }

  /** OutboxRepository.Add. */
  function AddMessage(t: Tables, m: Message): Option<(Tables, Message)> {
    var t' := InsertMessage(t, m);
    if m.executionId in t'.outbox then Some((t', t'.outbox[m.executionId])) else None
  }

  /** OutboxRepository.BatchAdd. */
  function AddMessages(t: Tables, ms: seq<Message>): Option<(Tables, seq<Message>)> {
    var t' := InsertMessages(t, ms);
    var rows :- FindMessages(t', ms);
    Some((t', rows))
  }

  // ---- phase one of both fast paths -----------------------------------------

  /** What phase one hands to phase two: the read-back records and messages. */
  datatype Persisted = Persisted(records: seq<Record>, messages: seq<Message>)

  function NewRecords(requestId: string, cases: seq<Case>, version: string): (rs: seq<Record>)
    ensures |rs| == |cases|
  {
    seq(|cases|, i requires 0 <= i < |cases| => NewRecord(requestId, cases[i].caseId, version))
  }

  /** case_id to case_name; a later case with the same id wins. */
  function NameMap(cases: seq<Case>): (names: map<Id, string>)
    ensures forall i | 0 <= i < |cases| :: cases[i].caseId in names
  {
    if cases == [] then map[]
    else
      var last := cases[|cases| - 1];
      NameMap(cases[..|cases| - 1])[last.caseId := last.caseName]
  }

  /** Case i is the last one of the chunk with its id. */
  predicate LastOf(cases: seq<Case>, i: nat)
    requires i < |cases|
  {
    forall j | i < j < |cases| :: cases[j].caseId != cases[i].caseId
  }

  lemma {:induction false} LastOfPrefix(cases: seq<Case>, i: nat)
    requires i + 1 < |cases|
    ensures var n := |cases| - 1;
      LastOf(cases, i) <==> LastOf(cases[..n], i) && cases[n].caseId != cases[i].caseId
  {
    var n := |cases| - 1;
    if LastOf(cases[..n], i) {
      forall j | i < j < n ensures cases[j].caseId != cases[i].caseId {
        assert cases[..n][j] == cases[j];
      }
    }
  }

  /** The name under a case id is that of the last case with this id. */
  lemma {:induction false} LastNameWins(cases: seq<Case>, i: nat)
    requires i < |cases| && LastOf(cases, i)
    ensures NameMap(cases)[cases[i].caseId] == cases[i].caseName
  {
    var n := |cases| - 1;
    if i < n {
      LastOfPrefix(cases, i);
      LastNameWins(cases[..n], i);
    }
  }

  /** No other id has a name. */
  lemma {:induction false} NamesAreOfCases(cases: seq<Case>, id: Id) returns (i: nat)
    requires id in NameMap(cases)
    ensures i < |cases| && LastOf(cases, i) && cases[i].caseId == id && NameMap(cases)[id] == cases[i].caseName
  {
    var n := |cases| - 1;
    i := n;
    if id != cases[n].caseId {
      i := NamesAreOfCases(cases[..n], id);
      LastOfPrefix(cases, i);
    }
  }

  /** A Go map read: the zero value for a missing key. */
  function NameOf(names: map<Id, string>, caseId: Id): string {
    if caseId in names then names[caseId] else ""
  }

  function NewMessages(rs: seq<Record>, names: map<Id, string>, availableAt: Time): (ms: seq<Message>)
    ensures |ms| == |rs|
  {
    seq(|rs|, i requires 0 <= i < |rs| => NewMessage(rs[i], NameOf(names, rs[i].caseId), availableAt))
  }

  function PersistChunk(t: Tables, requestId: string, cases: seq<Case>, version: string, availableAt: Time):
    Option<(Tables, Persisted)>
  {
    var (t1, records) :- AddRecords(t, NewRecords(requestId, cases, version));
    var (t2, messages) :- AddMessages(t1, NewMessages(records, NameMap(cases), availableAt));
    Some((t2, Persisted(records, messages)))
  }

  function PersistSingle(t: Tables, requestId: string, c: Case, version: string, availableAt: Time):
    Option<(Tables, Persisted)>
  {
    var (t1, record) :- AddRecord(t, NewRecord(requestId, c.caseId, version));
    var (t2, message) :- AddMessage(t1, NewMessage(record, c.caseName, availableAt));
    Some((t2, Persisted([record], [message])))
  }

  // ---- conditional updates ---------------------------------------------------

  /** The WHERE clause of an outbox write-back: the current lease holder, or with
      no token a row that no relay has taken. */
  predicate Guard(m: Message, token: string) {
    if token == "" then m.state.Pending? else m.state.Processing? && m.leaseToken == token
  }

  datatype Patch = ToPublished | ToPending(availableAt: Time) | ToDead

  function Patched(m: Message, p: Patch): Message {
    var freed := m.(leaseUntil := None, leaseToken := "");
    match p
    case ToPublished => freed.(state := Published, published := true)
    case ToPending(at) => freed.(state := Pending, availableAt := at)
    case ToDead => freed.(state := Dead)
  }

  /** What a write-back changes of a row. */
  predicate PatchedTo(m: Message, m': Message, p: Patch) {
    && m'.leaseUntil == None && m'.leaseToken == "" && m'.attempts == m.attempts
    && m'.outboxId == m.outboxId && TaskOf(m') == TaskOf(m)
    && match p
       case ToPublished => m'.state == Published && m'.published && m'.availableAt == m.availableAt
       case ToPending(at) => m'.state == Pending && m'.published == m.published && m'.availableAt == at
       case ToDead => m'.state == Dead && m'.published == m.published && m'.availableAt == m.availableAt
  }

  /** The UPDATE statement: every listed row that meets the guard is patched. */
  function UpdateRows(outbox: map<Id, Message>, ids: seq<Id>, token: string, p: Patch): map<Id, Message> {
    map id | id in outbox ::
      if id in ids && Guard(outbox[id], token) then Patched(outbox[id], p) else outbox[id]
  }

  /** Compare-and-update: it errors when some listed row was missed. */
  function UpdateByExecutionIds(t: Tables, ids: seq<Id>, token: string, p: Patch): Option<Tables> {
    if forall id | id in ids :: id in t.outbox && Guard(t.outbox[id], token)
    then Some(t.(outbox := UpdateRows(t.outbox, ids, token, p)))
    else None
  }

  /** The status BatchUpdateStatus wants to write for an id: WAIT means no write. */
  function StatusFor(rs: seq<Record>, id: Id): Option<Status> {
    if rs == [] then None
    else if rs[0].executionId == id && rs[0].status != Wait then Some(rs[0].status)
    else StatusFor(rs[1..], id)
  }

  /** Copies of one id never carry two different statuses to write. */
  ghost predicate OneStatusPerId(rs: seq<Record>) {
    forall i, j | 0 <= i < |rs| && 0 <= j < |rs| && rs[i].executionId == rs[j].executionId
      && rs[i].status != Wait && rs[j].status != Wait :: rs[i].status == rs[j].status
  }

  /** BatchUpdateStatus when no id carries two different statuses: rows still in
      WAIT take the status; a missing row is an error. */
  function WriteStatuses(t: Tables, rs: seq<Record>): Option<Tables> {
    if forall r | r in rs && r.status != Wait :: r.executionId in t.records
    then Some(t.(records := map id | id in t.records ::
                   var want := StatusFor(rs, id);
                   if t.records[id].status.Wait? && want.Some? then t.records[id].(status := want.value)
                   else t.records[id]))
    else None
  }

  /** Save: conditional on WAIT, an error only when the row is missing. */
  function SaveRecord(t: Tables, r: Record): Option<Tables> {
    if r.executionId !in t.records then None
    else if !t.records[r.executionId].status.Wait? then Some(t)
    else Some(t.(records := t.records[r.executionId := t.records[r.executionId].(status := r.status)]))
  }

  // ---- claims -----------------------------------------------------------------

  predicate Claimable(m: Message, now: Time) {
    || (m.state.Pending? && m.availableAt <= now)
    || (m.state.Processing? && m.leaseUntil.Some? && m.leaseUntil.value <= now)
  }

  predicate Due(outbox: map<Id, Message>, now: Time, locked: set<Id>, id: Id) {
    id in outbox && id !in locked && Claimable(outbox[id], now)
  }

  /** ORDER BY outbox_id LIMIT n over the claimable rows, SKIP LOCKED leaving out
      the rows that another transaction holds at that moment. */
  ghost predicate ClaimSelection(outbox: map<Id, Message>, now: Time, limit: nat, locked: set<Id>, ids: seq<Id>) {
    && |ids| <= limit
    && (forall i | 0 <= i < |ids| :: Due(outbox, now, locked, ids[i]))
    && (forall i, j | 0 <= i < j < |ids| :: outbox[ids[i]].outboxId < outbox[ids[j]].outboxId)
    && (forall id | Due(outbox, now, locked, id) && id !in ids ::
          |ids| == limit && forall i | 0 <= i < |ids| :: outbox[ids[i]].outboxId < outbox[id].outboxId)
  }

  /** What a selection takes, on the fields of the rows: PENDING rows whose time has come and
      PROCESSING rows whose lease has run out, and all of these that are not locked when
      the limit (100 if none is set) is not used up. They come oldest first. */
  lemma {:induction false} SelectionMeans(
    outbox: map<Id, Message>, now: Time, limit: int, locked: set<Id>, ids: seq<Id>)
    requires ClaimSelection(outbox, now, EffectiveLimit(limit), locked, ids)
    ensures |ids| <= if limit > 0 then limit else 100
    ensures forall id | id in ids :: id in outbox && id !in locked
    ensures forall i, j | 0 <= i < j < |ids| :: outbox[ids[i]].outboxId < outbox[ids[j]].outboxId
    ensures forall id | id in ids :: outbox[id].state == Pending || outbox[id].state == Processing
    ensures forall id | id in ids && outbox[id].state == Pending :: outbox[id].availableAt <= now
    ensures forall id | id in ids && outbox[id].state == Processing ::
      outbox[id].leaseUntil.Some? && outbox[id].leaseUntil.value <= now
    ensures |ids| < (if limit > 0 then limit else 100) ==>
      forall id | id in outbox && id !in locked :: id in ids <==>
        || (outbox[id].state == Pending && outbox[id].availableAt <= now)
        || (outbox[id].state == Processing && outbox[id].leaseUntil.Some? && outbox[id].leaseUntil.value <= now)
  {
    forall id | id in outbox && id !in locked
      ensures Claimable(outbox[id], now) <==>
        || (outbox[id].state == Pending && outbox[id].availableAt <= now)
        || (outbox[id].state == Processing && outbox[id].leaseUntil.Some? && outbox[id].leaseUntil.value <= now)
      ensures Claimable(outbox[id], now) ==> Due(outbox, now, locked, id)
    {
    }
  }

  function EffectiveLimit(limit: int): nat {
    if limit <= 0 then 100 else limit
  }

  function Leased(m: Message, leaseUntil: Time, token: string): Message {
    m.(state := Processing, attempts := m.attempts + 1, leaseUntil := Some(leaseUntil), leaseToken := token)
  }

  function ClaimRows(outbox: map<Id, Message>, ids: seq<Id>, leaseUntil: Time, token: string): map<Id, Message> {
    map id | id in outbox :: if id in ids then Leased(outbox[id], leaseUntil, token) else outbox[id]
  }

  /** The claimed copies that the caller of ClaimPending receives, by execution id. */
  function Copies(outbox: map<Id, Message>, ids: seq<Id>, leaseUntil: Time, token: string): map<Id, Message> {
    map id | id in ids && id in outbox :: Leased(outbox[id], leaseUntil, token)
  }

  /** The selection is determined by the table, the clock, the limit and the locks. */
  lemma {:induction false} SelectionsAgreeUpTo(
    outbox: map<Id, Message>, now: Time, limit: nat, locked: set<Id>, a: seq<Id>, b: seq<Id>, n: nat)
    requires OutboxIdsUnique(outbox)
    requires ClaimSelection(outbox, now, limit, locked, a) && ClaimSelection(outbox, now, limit, locked, b)
    requires n <= |a| && n <= |b|
    ensures a[..n] == b[..n]
  {
    if n > 0 {
      SelectionsAgreeUpTo(outbox, now, limit, locked, a, b, n - 1);
      forall i | 0 <= i < n - 1 ensures a[i] == b[i] {
        assert a[i] == a[..n - 1][i] == b[..n - 1][i] == b[i];
      }
      SelectionHeadsAgree(outbox, now, limit, locked, a, b, n - 1);
    }
  }

  lemma SelectionHeadsAgree(
    outbox: map<Id, Message>, now: Time, limit: nat, locked: set<Id>, a: seq<Id>, b: seq<Id>, n: nat)
    requires OutboxIdsUnique(outbox)
    requires ClaimSelection(outbox, now, limit, locked, a) && ClaimSelection(outbox, now, limit, locked, b)
    requires n < |a| && n < |b| && forall i | 0 <= i < n :: a[i] == b[i]
    ensures a[n] == b[n]
  {
  }

  lemma SelectionIsUnique(
    outbox: map<Id, Message>, now: Time, limit: nat, locked: set<Id>, a: seq<Id>, b: seq<Id>)
    requires OutboxIdsUnique(outbox)
    requires ClaimSelection(outbox, now, limit, locked, a) && ClaimSelection(outbox, now, limit, locked, b)
    ensures a == b
  {
    if |a| <= |b| {
      SelectionNotLonger(outbox, now, limit, locked, a, b);
    } else {
      SelectionNotLonger(outbox, now, limit, locked, b, a);
    }
  }

  lemma SelectionNotLonger(
    outbox: map<Id, Message>, now: Time, limit: nat, locked: set<Id>, a: seq<Id>, b: seq<Id>)
    requires OutboxIdsUnique(outbox)
    requires ClaimSelection(outbox, now, limit, locked, a) && ClaimSelection(outbox, now, limit, locked, b)
    requires |a| <= |b|
    ensures a == b
  {
    SelectionsAgreeUpTo(outbox, now, limit, locked, a, b, |a|);
    assert a == b[..|a|];
    assert |a| < |b| ==> Due(outbox, now, locked, b[|a|]);
  }
}
