/** The repositories over one database, as the engine runs them: statements on stored
    rows, loops over slices, and transactions that restore the tables when a step
    errors. Every method is proved against the table functions of Store. */
module Repository {
  import opened Domain
  import opened BatchResult
  import opened Store
  import Relay
  import Protocol
  import FastPath
  import Safety

  /** First occurrences, in order. */
  function FirstOccurrences(values: seq<Id>): seq<Id> {
    if values == [] then []
    else
      var rest := FirstOccurrences(values[..|values| - 1]);
      var last := values[|values| - 1];
      if last in rest then rest else rest + [last]
  }

  lemma {:induction false} SameMembersSameSet(a: seq<Id>, b: seq<Id>)
    requires forall v :: v in a <==> v in b
    ensures SetOf(a) == SetOf(b)
  {
    assert forall v :: v in SetOf(a) <==> v in SetOf(b);
  }

  lemma {:induction false} FirstOccurrencesOnce(values: seq<Id>)
    ensures Distinct(FirstOccurrences(values))
    ensures forall v :: v in FirstOccurrences(values) <==> v in values
    ensures |FirstOccurrences(values)| == |SetOf(values)|
  {
    if values != [] {
      var n := |values| - 1;
      FirstOccurrencesOnce(values[..n]);
      assert values == values[..n] + [values[n]];
    }
    Safety.DistinctCardinality(FirstOccurrences(values));
    SameMembersSameSet(FirstOccurrences(values), values);
  }

  /** uniqueInt64s. */
  method UniqueInt64s(values: seq<Id>) returns (unique: seq<Id>)
    ensures unique == FirstOccurrences(values)
    ensures |unique| == |SetOf(values)|
  {
    var seen: set<Id> := {};
    unique := [];
    for i := 0 to |values|
      invariant unique == FirstOccurrences(values[..i])
      invariant seen == SetOf(unique)
    {
      assert values[..i + 1][..i] == values[..i];
      var value := values[i];
      if value !in seen {
        seen := seen + {value};
        unique := unique + [value];
      }
    }
    assert values[..|values|] == values;
    FirstOccurrencesOnce(values);
  }

  /** Some copy of the id wants to write this status. */
  ghost predicate Wants(rs: seq<Record>, id: Id, status: Status) {
    status != Wait && exists i :: 0 <= i < |rs| && rs[i].executionId == id && rs[i].status == status
  }

  lemma {:induction false} WantedIsStatusFor(rs: seq<Record>, id: Id, status: Status)
    requires OneStatusPerId(rs) && Wants(rs, id, status)
    ensures StatusFor(rs, id) == Some(status)
  {
    if rs[0].executionId != id || rs[0].status == Wait {
      var i :| 0 <= i < |rs| && rs[i].executionId == id && rs[i].status == status;
      assert rs[1..][i - 1] == rs[i];
      forall a, b | 0 <= a < |rs| - 1 && 0 <= b < |rs| - 1 && rs[1..][a].executionId == rs[1..][b].executionId
        && rs[1..][a].status != Wait && rs[1..][b].status != Wait
        ensures rs[1..][a].status == rs[1..][b].status
      {
        assert rs[a + 1].status == rs[b + 1].status;
      }
      WantedIsStatusFor(rs[1..], id, status);
    } else {
      var i :| 0 <= i < |rs| && rs[i].executionId == id && rs[i].status == status;
      assert rs[0].status == rs[i].status;
    }
  }

  predicate InGroup(grouped: map<Status, seq<Id>>, id: Id, status: Status) {
    status in grouped && id in grouped[status]
  }

  lemma {:induction false} WantsNext(rs: seq<Record>, i: nat, id: Id, st: Status)
    requires i < |rs|
    ensures Wants(rs[..i + 1], id, st) <==>
      Wants(rs[..i], id, st) || (st != Wait && rs[i].executionId == id && rs[i].status == st)
  {
  }

  lemma {:induction false} TailWants(rs: seq<Record>, id: Id, status: Status)
    requires rs != [] && Wants(rs[1..], id, status)
    ensures Wants(rs, id, status)
  {
  }

  lemma {:induction false} StatusForIsWanted(rs: seq<Record>, id: Id)
    ensures StatusFor(rs, id).Some? ==> Wants(rs, id, StatusFor(rs, id).value)
  {
    if rs != [] {
      if rs[0].executionId != id || rs[0].status == Wait {
        StatusForIsWanted(rs[1..], id);
        if StatusFor(rs[1..], id).Some? {
          TailWants(rs, id, StatusFor(rs[1..], id).value);
        }
      }
    }
  }

  lemma {:induction false} ProperSubsetGap(a: set<Id>, b: set<Id>)
    requires a <= b && |a| != |b|
    ensures exists id :: id in b && id !in a
  {
    assert b == a + (b - a);
    HasMember(b - a);
    var id :| id in b - a;
  }

  lemma {:induction false} AllListed(ids: seq<Id>, picked: set<Id>)
    requires forall id | id in picked :: id in ids
    ensures (forall id | id in ids :: id in picked) <==> picked == SetOf(ids)
  {
    if forall id | id in ids :: id in picked {
      assert forall id :: id in picked <==> id in SetOf(ids);
    } else {
      var id :| id in ids && id !in picked;
      assert id in SetOf(ids);
    }
  }

  /** Its time has come: available when PENDING, out of lease when PROCESSING. */
  predicate WasDue(m: Message, now: Time) {
    || (m.state == Pending && m.availableAt <= now)
    || (m.state == Processing && m.leaseUntil.Some? && m.leaseUntil.value <= now)
  }

  /** The row as a claim leaves it: only the lease and the attempts have changed. */
  predicate LeasedFrom(m: Message, m': Message, leaseUntil: Time, token: string) {
    m' == m.(state := Processing, attempts := m.attempts + 1, leaseUntil := Some(leaseUntil), leaseToken := token)
  }

  lemma {:induction false} ClaimMeans(
    o: map<Id, Message>, o': map<Id, Message>, now: Time, limit: int, locked: set<Id>, ids: seq<Id>, leaseUntil: Time,
    token: string)
    requires ClaimSelection(o, now, EffectiveLimit(limit), locked, ids) && o' == ClaimRows(o, ids, leaseUntil, token)
    ensures |ids| <= if limit > 0 then limit else 100
    ensures forall id | id in ids :: id in o && id in o' && WasDue(o[id], now)
    ensures forall id | id in ids :: LeasedFrom(o[id], o'[id], leaseUntil, token)
    ensures forall id | id in o && id !in ids :: id in o' && o'[id] == o[id]
  {
    SelectionMeans(o, now, limit, locked, ids);
    hide ClaimSelection;
  }

  class Database {
    var records: map<Id, Record>
    var byRequest: map<(string, Id), Id>
    var outbox: map<Id, Message>
    var nextExecution: Id
    var nextOutbox: Id

    function Value(): (t: Tables)
      reads this
    {
      Tables(records, byRequest, outbox, nextExecution, nextOutbox)
    }

    constructor ()
      ensures Value() == NO_TABLES
    {
      records, byRequest, outbox := map[], map[], map[];
      nextExecution, nextOutbox := 1, 1;
    }

    /** Transactions of other callers commit, whatever they do. */
    method OthersCommit(others: Tables -> Tables)
      modifies this
      ensures Value() == others(old(Value()))
    {
      var t := others(Value());
      records, byRequest, outbox := t.records, t.byRequest, t.outbox;
      nextExecution, nextOutbox := t.nextExecution, t.nextOutbox;
    }

    // ---- execution records ------------------------------------------------------

    method InsertRow(r: Record) returns (id: Id)
      modifies this
      ensures Value() == InsertRecord(old(Value()), r)
      ensures id == if r.requestId != "" && RequestKey(r) in old(byRequest) then old(byRequest)[RequestKey(r)]
        else old(nextExecution)
    {
      if r.requestId != "" && RequestKey(r) in byRequest {
        return byRequest[RequestKey(r)];
      }
      id := nextExecution;
      records := records[id := r.(executionId := id)];
      if r.requestId != "" {
        byRequest := byRequest[RequestKey(r) := id];
      }
      nextExecution := nextExecution + 1;
    }

    /** Add: insert or ignore, then overwrite the aggregate with the stored row. */
    method Add(record: ExecutionRecord) returns (ok: bool)
      modifies this, record
      ensures ok == AddRecord(old(Value()), old(record.Value())).Some?
      ensures ok ==> AddRecord(old(Value()), old(record.Value())).value == (Value(), record.Value())
    {
      var row := Record(record.executionId, record.requestId, record.caseId, record.version, record.executionStatus);
      var id := InsertRow(row);
      if row.requestId == "" {
        record.Load(row.(executionId := id));
        return true;
      }
      var k := (row.requestId, row.caseId);
      if k !in byRequest || byRequest[k] !in records {
        return false;
      }
      record.Load(records[byRequest[k]]);
      ok := true;
    }

    /** The insert loop of BatchAdd; ids are the row ids in order. */
    method InsertAll(rs: seq<ExecutionRecord>) returns (ids: seq<Id>)
      requires rs != [] && this !in (set r: object | r in rs)
      modifies this
      ensures Value() == InsertRecords(old(Value()), Values(rs))
      ensures |ids| == |rs|
      ensures (forall r | r in rs :: r.requestId == "") ==>
        forall k | 0 <= k < |rs| :: ids[k] == old(nextExecution) + k
    {
      ghost var given := Values(rs);
      ids := [];
      for i := 0 to |rs|
        invariant Values(rs) == given
        invariant Value() == InsertRecords(old(Value()), given[..i])
        invariant |ids| == i
        invariant (forall r | r in rs :: r.requestId == "") ==>
          nextExecution == old(nextExecution) + i && forall k | 0 <= k < i :: ids[k] == old(nextExecution) + k
      {
        assert given[..i + 1][..i] == given[..i];
        var r := rs[i];
        assert given[i] == r.Value();
        var id := InsertRow(Record(r.executionId, r.requestId, r.caseId, r.version, r.executionStatus));
        ids := ids + [id];
      }
      assert given[..|rs|] == given;
    }

    /** The read-back loop of BatchAdd. */
    method LoadStored(rs: seq<ExecutionRecord>) returns (ok: bool)
      requires Separate(rs)
      modifies rs
      ensures Value() == old(Value())
      ensures ok == FindAllByRequest(Value(), old(Values(rs))).Some?
      ensures ok ==> FindAllByRequest(Value(), old(Values(rs))).value == Values(rs)
    {
      ghost var given := Values(rs);
      ghost var t := Value();
      ghost var found: seq<Record> := [];
      assert FindAllByRequest(t, given[..0]) == Some([]);
      hide FindAllByRequest;
      for i := 0 to |rs|
        invariant Value() == t
        invariant FindAllByRequest(t, given[..i]) == Some(found) && |found| == i
        invariant forall k | 0 <= k < i :: rs[k].Value() == found[k]
        invariant forall k | i <= k < |rs| :: rs[k].Value() == given[k]
      {
        FindNext(t, given, i);
        var r := rs[i];
        assert r.Value() == given[i];
        var k := (r.requestId, r.caseId);
        if k !in byRequest || byRequest[k] !in records {
          MissingPrefix(t, given, i + 1);
          return false;
        }
        found := found + [records[byRequest[k]]];
        r.Load(records[byRequest[k]]);
      }
      assert given[..|rs|] == given;
      ok := true;
    }

    /** BatchAdd. */
    method BatchAdd(rs: seq<ExecutionRecord>) returns (ok: bool)
      requires Separate(rs)
      modifies this, rs
      ensures ok == AddRecords(old(Value()), old(Values(rs))).Some?
      ensures ok ==> AddRecords(old(Value()), old(Values(rs))).value == (Value(), Values(rs))
    {
      if |rs| == 0 {
        return true;
      }
      ghost var given := Values(rs);
      var requestId := rs[0].requestId;
      assert given[0].requestId == requestId;
      var same := AllOfRequest(rs, requestId);
      if !same {
        return false;
      }
      var ids := InsertAll(rs);
      hide InsertRecords, FindAllByRequest;
      if requestId != "" {
        ok := LoadStored(rs);
        return;
      }
      AssignIds(rs, ids, old(nextExecution));
      ok := true;
    }

    method AllOfRequest(rs: seq<ExecutionRecord>, requestId: string) returns (same: bool)
      requires rs != [] && rs[0].requestId == requestId
      ensures same == SameRequest(Values(rs))
      ensures same ==> forall r | r in rs :: r.requestId == requestId
    {
      ghost var given := Values(rs);
      for i := 0 to |rs|
        invariant forall k | 0 <= k < i :: rs[k].requestId == requestId
      {
        if rs[i].requestId != requestId {
          assert given[i].requestId != given[0].requestId;
          return false;
        }
      }
      forall k | 0 <= k < |rs| ensures given[k].requestId == given[0].requestId {
        assert given[k].requestId == rs[k].requestId;
      }
      same := true;
    }

    method AssignIds(rs: seq<ExecutionRecord>, ids: seq<Id>, ghost first: Id)
      requires Separate(rs) && |ids| == |rs|
      requires forall k | 0 <= k < |ids| :: ids[k] == first + k
      modifies rs
      ensures Value() == old(Value())
      ensures Values(rs) == WithIds(old(Values(rs)), first)
    {
      ghost var given := Values(rs);
      for i := 0 to |rs|
        invariant Value() == old(Value())
        invariant forall k | 0 <= k < i :: rs[k].Value() == WithIds(given, first)[k]
        invariant forall k | i <= k < |rs| :: rs[k].Value() == given[k]
      {
        var r := rs[i];
        r.Load(Record(ids[i], r.requestId, r.caseId, r.version, r.executionStatus));
      }
    }

    static lemma {:induction false} FindNext(t: Tables, rs: seq<Record>, i: nat)
      requires i < |rs|
      ensures var head, row := FindAllByRequest(t, rs[..i]), FindByRequest(t, rs[i].requestId, rs[i].caseId);
        FindAllByRequest(t, rs[..i + 1]) == if head.Some? && row.Some? then Some(head.value + [row.value]) else None
    {
      assert rs[..i + 1][..i] == rs[..i];
    }

    static lemma {:induction false} MissingPrefix(t: Tables, rs: seq<Record>, n: nat)
      requires n <= |rs| && FindAllByRequest(t, rs[..n]) == None
      ensures FindAllByRequest(t, rs) == None
      decreases |rs| - n
    {
      if n < |rs| {
        assert rs[..n + 1][..n] == rs[..n];
        MissingPrefix(t, rs, n + 1);
      } else {
        assert rs[..n] == rs;
      }
    }

    /** Save: conditional on WAIT. */
    method Save(record: ExecutionRecord) returns (ok: bool)
      modifies this`records
      ensures ok == SaveRecord(old(Value()), record.Value()).Some?
      ensures Value() == if ok then SaveRecord(old(Value()), record.Value()).value else old(Value())
    {
      var id := record.executionId;
      if id in records && records[id].status.Wait? {
        records := records[id := records[id].(status := record.executionStatus)];
        return true;
      }
      ok := id in records;
    }

    /** One UPDATE of BatchUpdateStatus, and its check for missing rows. */
    method WriteGroup(ids: seq<Id>, status: Status) returns (ok: bool)
      modifies this`records
      ensures records.Keys == old(records.Keys)
      ensures forall id | id in records ::
        records[id] == (if id in ids && old(records)[id].status.Wait? then old(records)[id].(status := status)
          else old(records)[id])
      ensures ok <==> forall id | id in ids :: id in records
    {
      var matched := set id | id in records && id in ids && records[id].status.Wait?;
      var present := set id | id in records && id in ids;
      records := map id | id in records :: if id in matched then records[id].(status := status) else records[id];
      var unique := UniqueInt64s(ids);
      assert forall id | id in present :: id in SetOf(ids);
      assert forall id | id in matched :: id in present;
      Safety.SubsetCardinality(present, SetOf(ids));
      Safety.SubsetCardinality(matched, present);
      if |matched| < |unique| {
        if |present| != |unique| {
          ProperSubsetGap(present, SetOf(ids));
          ghost var missing :| missing in SetOf(ids) && missing !in present;
          return false;
        }
      }
      assert present == SetOf(ids);
      assert forall id | id in ids :: id in SetOf(ids);
      ok := true;
    }

    /** The grouping loop of BatchUpdateStatus: records in WAIT need no write. */
    method GroupByStatus(rs: seq<ExecutionRecord>) returns (grouped: map<Status, seq<Id>>)
      ensures forall id, st :: InGroup(grouped, id, st) <==> Wants(Values(rs), id, st)
    {
      ghost var given := Values(rs);
      grouped := map[];
      for i := 0 to |rs|
        invariant forall id, st :: InGroup(grouped, id, st) <==> Wants(given[..i], id, st)
      {
        var r := rs[i];
        assert given[i] == r.Value();
        ghost var before := grouped;
        if r.executionStatus != Wait {
          var ids := if r.executionStatus in grouped then grouped[r.executionStatus] else [];
          grouped := grouped[r.executionStatus := ids + [r.executionId]];
        }
        forall id, st ensures InGroup(grouped, id, st) <==> Wants(given[..i + 1], id, st) {
          WantsNext(given, i, id, st);
          assert InGroup(before, id, st) <==> Wants(given[..i], id, st);
        }
      }
      assert given[..|rs|] == given;
    }

    /** The groups, written in an arbitrary order until one misses a row. */
    method WriteGroups(grouped: map<Status, seq<Id>>, ghost given: seq<Record>) returns (ok: bool)
      requires forall id, st :: InGroup(grouped, id, st) <==> Wants(given, id, st)
      modifies this`records
      ensures records.Keys == old(records.Keys)
      ensures forall id | id in records :: Written(id, old(records)[id], records[id], given)
      ensures ok ==> forall id, st | Wants(given, id, st) ::
        id in records && (old(records)[id].status == Wait ==> records[id].status != Wait)
      ensures !ok ==> exists id, st :: Wants(given, id, st) && id !in records
    {
      var todo := grouped.Keys;
      while todo != {}
        invariant todo <= grouped.Keys
        invariant records.Keys == old(records.Keys)
        invariant forall id | id in records :: Written(id, old(records)[id], records[id], given)
        invariant forall id, st | InGroup(grouped, id, st) && st !in todo ::
          id in records && (old(records)[id].status == Wait ==> records[id].status != Wait)
        decreases |todo|
      {
        var st :| st in todo;
        assert forall id | id in grouped[st] :: InGroup(grouped, id, st) && Wants(given, id, st);
        var done := WriteGroup(grouped[st], st);
        todo := todo - {st};
        if !done {
          return false;
        }
      }
      ok := true;
    }

    /** BatchUpdateStatus. With one status per id the outcome does not depend on the
        order of the groups; otherwise each row still takes one of the listed ones. */
    method BatchUpdateStatus(rs: seq<ExecutionRecord>) returns (ok: bool)
      modifies this`records
      ensures ok == WriteStatuses(old(Value()), Values(rs)).Some?
      ensures ok && OneStatusPerId(Values(rs)) ==>
        Value() == WriteStatuses(old(Value()), Values(rs)).value
      ensures records.Keys == old(records.Keys)
      ensures forall id | id in records :: Written(id, old(records)[id], records[id], Values(rs))
    {
      ghost var given := Values(rs);
      var grouped := GroupByStatus(rs);
      ok := WriteGroups(grouped, given);
      if ok {
        forall r | r in given && r.status != Wait ensures r.executionId in records {
          assert Wants(given, r.executionId, r.status);
        }
        if OneStatusPerId(given) {
          AllWritten(old(Value()), Value(), given);
        }
      } else {
        ghost var id, st :| Wants(given, id, st) && id !in records;
        ghost var k :| 0 <= k < |given| && given[k].executionId == id && given[k].status == st;
        assert given[k] in given;
      }
    }

    // ---- outbox ---------------------------------------------------------------------

    method InsertMessageRow(m: Message)
      modifies this`outbox, this`nextOutbox
      ensures Value() == InsertMessage(old(Value()), m)
    {
      if m.executionId !in outbox {
        outbox := outbox[m.executionId := m.(outboxId := nextOutbox)];
        nextOutbox := nextOutbox + 1;
      }
    }

    /** BatchAdd of the outbox: the messages are overwritten with the stored rows. */
    method BatchAddMessages(messages: array<Message>) returns (ok: bool)
      modifies this`outbox, this`nextOutbox, messages
      ensures ok == AddMessages(old(Value()), old(messages[..])).Some?
      ensures ok ==> AddMessages(old(Value()), old(messages[..])).value == (Value(), messages[..])
    {
      ghost var given := messages[..];
      for i := 0 to messages.Length
        invariant messages[..] == given
        invariant Value() == InsertMessages(old(Value()), given[..i])
      {
        assert given[..i + 1][..i] == given[..i];
        InsertMessageRow(messages[i]);
      }
      assert given[..messages.Length] == given;
      ghost var t' := Value();
      for i := 0 to messages.Length
        invariant Value() == t'
        invariant FindMessages(t', given[..i]) == Some(messages[..i])
        invariant forall k | i <= k < messages.Length :: messages[k] == given[k]
      {
        assert given[..i + 1][..i] == given[..i];
        var id := messages[i].executionId;
        if id !in outbox {
          assert FindMessages(t', given[..i + 1]) == None;
          MissingMessages(t', given, i + 1);
          return false;
        }
        messages[i] := outbox[id];
        assert messages[..i + 1] == messages[..i] + [messages[i]];
      }
      assert messages[..messages.Length] == messages[..];
      ok := true;
    }

    static lemma {:induction false} MissingMessages(t: Tables, ms: seq<Message>, n: nat)
      requires n <= |ms| && FindMessages(t, ms[..n]) == None
      ensures FindMessages(t, ms) == None
      decreases |ms| - n
    {
      if n < |ms| {
        assert ms[..n + 1][..n] == ms[..n];
        MissingMessages(t, ms, n + 1);
      } else {
        assert ms[..n] == ms;
      }
    }

    /** The SELECT of ClaimPending: the due rows with the smallest outbox ids. */
    method SelectClaimable(now: Time, limit: nat, locked: set<Id>) returns (ids: seq<Id>)
      requires OutboxIdsUnique(outbox)
      ensures ClaimSelection(outbox, now, limit, locked, ids)
    {
      ids := [];
      var due := set id | id in outbox && Due(outbox, now, locked, id);
      while |ids| < limit && due != {}
        invariant |ids| <= limit
        invariant forall i | 0 <= i < |ids| :: Due(outbox, now, locked, ids[i])
        invariant forall i, j | 0 <= i < j < |ids| :: outbox[ids[i]].outboxId < outbox[ids[j]].outboxId
        invariant forall id :: id in due <==> Due(outbox, now, locked, id) && id !in ids
        invariant forall id, i | id in due && 0 <= i < |ids| :: outbox[ids[i]].outboxId < outbox[id].outboxId
        decreases |due|
      {
        var first := LowestOf(due);
        ids := ids + [first];
        due := due - {first};
      }
    }

    method LowestOf(candidates: set<Id>) returns (first: Id)
      requires candidates != {} && OutboxIdsUnique(outbox)
      requires forall id | id in candidates :: id in outbox
      ensures first in candidates
      ensures forall id | id in candidates && id != first :: outbox[first].outboxId < outbox[id].outboxId
    {
      HasMember(candidates);
      first :| first in candidates;
      var rest := candidates - {first};
      while rest != {}
        invariant rest <= candidates && first in candidates && first !in rest
        invariant forall id | id in candidates && id !in rest && id != first ::
          outbox[first].outboxId < outbox[id].outboxId
        decreases |rest|
      {
        HasMember(rest);
        var id :| id in rest;
        rest := rest - {id};
        if outbox[id].outboxId < outbox[first].outboxId {
          first := id;
        }
      }
    }

    /** ClaimPending: select, lease the selected rows, and hand out copies that agree
        with what is now stored. */
    method ClaimPending(limit: int, now: Time, leaseUntil: Time, token: string, locked: set<Id>)
      returns (ids: seq<Id>, claimed: seq<Message>)
      requires OutboxIdsUnique(outbox)
      modifies this`outbox
      ensures ClaimSelection(old(outbox), now, EffectiveLimit(limit), locked, ids)
      ensures outbox == ClaimRows(old(outbox), ids, leaseUntil, token)
      ensures |claimed| == |ids|
      ensures forall i | 0 <= i < |ids| :: ids[i] in outbox && claimed[i] == outbox[ids[i]]
      ensures |ids| <= if limit > 0 then limit else 100
      ensures forall id | id in ids :: id in old(outbox) && WasDue(old(outbox)[id], now)
      ensures forall id | id in ids :: id in outbox && LeasedFrom(old(outbox)[id], outbox[id], leaseUntil, token)
    {
      ids, claimed := LeaseDue(limit, now, leaseUntil, token, locked);
      ClaimMeans(old(outbox), outbox, now, limit, locked, ids, leaseUntil, token);
    }

    /** The statements of the claim. */
    method LeaseDue(limit: int, now: Time, leaseUntil: Time, token: string, locked: set<Id>)
      returns (ids: seq<Id>, claimed: seq<Message>)
      requires OutboxIdsUnique(outbox)
      modifies this`outbox
      ensures ClaimSelection(old(outbox), now, EffectiveLimit(limit), locked, ids)
      ensures outbox == ClaimRows(old(outbox), ids, leaseUntil, token)
      ensures |claimed| == |ids|
      ensures forall i | 0 <= i < |ids| :: ids[i] in outbox && claimed[i] == outbox[ids[i]]
    {
      var effective := if limit <= 0 then 100 else limit;
      ids := SelectClaimable(now, effective, locked);
      assert forall i | 0 <= i < |ids| :: Due(outbox, now, locked, ids[i]);
      hide ClaimSelection;
      var rows := seq(|ids|, i requires 0 <= i < |ids| && ids[i] in outbox reads this => outbox[ids[i]]);
      if |ids| == 0 {
        assert outbox == ClaimRows(outbox, ids, leaseUntil, token);
        return ids, [];
      }
      outbox := map id | id in outbox ::
        if id in ids
        then outbox[id].(state := Processing, leaseUntil := Some(leaseUntil), leaseToken := token,
          attempts := outbox[id].attempts + 1)
        else outbox[id];
      claimed := [];
      for i := 0 to |rows|
        invariant |claimed| == i
        invariant forall k | 0 <= k < i :: claimed[k] == outbox[ids[k]]
      {
        var row := rows[i];
        row := row.(state := Processing);
        row := row.(attempts := row.attempts + 1);
        row := row.(leaseUntil := Some(leaseUntil));
        row := row.(leaseToken := token);
        claimed := claimed + [row];
      }
    }

    /** updateByExecutionIDs: the affected-row count reveals a lost lease. */
    method UpdateByIds(ids: seq<Id>, token: string, p: Patch) returns (ok: bool)
      modifies this`outbox
      ensures ok == UpdateByExecutionIds(old(Value()), ids, token, p).Some?
      ensures ok ==> UpdateByExecutionIds(old(Value()), ids, token, p).value == Value()
    {
      if |ids| == 0 {
        assert UpdateRows(outbox, ids, token, p) == outbox;
        return true;
      }
      var affected := set id | id in outbox && id in ids && Guard(outbox[id], token);
      AllListed(ids, affected);
      outbox := UpdateRows(outbox, ids, token, p);
      var unique := UniqueInt64s(ids);
      assert affected <= SetOf(ids);
      Safety.SubsetCardinality(affected, SetOf(ids));
      ok := |affected| == |unique|;
    }

    method MarkPublished(ids: seq<Id>, token: string) returns (ok: bool)
      modifies this`outbox
      ensures ok == UpdateByExecutionIds(old(Value()), ids, token, ToPublished).Some?
      ensures ok ==> UpdateByExecutionIds(old(Value()), ids, token, ToPublished).value == Value()
    {
      ok := UpdateByIds(ids, token, ToPublished);
    }

    method MarkRetry(ids: seq<Id>, token: string, availableAt: Time) returns (ok: bool)
      modifies this`outbox
      ensures ok == UpdateByExecutionIds(old(Value()), ids, token, ToPending(availableAt)).Some?
      ensures ok ==> UpdateByExecutionIds(old(Value()), ids, token, ToPending(availableAt)).value == Value()
    {
      ok := UpdateByIds(ids, token, ToPending(availableAt));
    }

    method MarkDead(ids: seq<Id>, token: string) returns (ok: bool)
      modifies this`outbox
      ensures ok == UpdateByExecutionIds(old(Value()), ids, token, ToDead).Some?
      ensures ok ==> UpdateByExecutionIds(old(Value()), ids, token, ToDead).value == Value()
    {
      ok := UpdateByIds(ids, token, ToDead);
    }

    // ---- transactions ---------------------------------------------------------------

    method Rollback(ghost before: Tables, records: map<Id, Record>, byRequest: map<(string, Id), Id>,
                    outbox: map<Id, Message>, nextExecution: Id, nextOutbox: Id)
      requires before == Tables(records, byRequest, outbox, nextExecution, nextOutbox)
      modifies this
      ensures Value() == before
    {
      this.records, this.byRequest, this.outbox := records, byRequest, outbox;
      this.nextExecution, this.nextOutbox := nextExecution, nextOutbox;
    }

    /** The loop that drafts a message for every read-back record. */
    method DraftMessages(rs: seq<ExecutionRecord>, names: map<Id, string>, availableAt: Time)
      returns (drafts: array<Message>)
      ensures fresh(drafts) && drafts[..] == NewMessages(Values(rs), names, availableAt)
    {
      drafts := new Message[|rs|];
      ghost var wanted := NewMessages(Values(rs), names, availableAt);
      for i := 0 to |rs|
        invariant Values(rs) == old(Values(rs))
        invariant forall k | 0 <= k < i :: drafts[k] == wanted[k]
      {
        var r := rs[i];
        drafts[i] := NewMessage(
          Record(r.executionId, r.requestId, r.caseId, r.version, r.executionStatus),
          NameOf(names, r.caseId), availableAt);
      }
    }

    /** Phase one of a chunk as one transaction. */
    method PersistChunkTx(requestId: string, cases: seq<Case>, version: string, availableAt: Time)
      returns (ok: bool, rs: seq<ExecutionRecord>, messages: seq<Message>)
      modifies this
      ensures Separate(rs) && fresh(rs)
      ensures var r := PersistChunk(old(Value()), requestId, cases, version, availableAt);
        && ok == r.Some?
        && (ok ==> r.value == (Value(), Persisted(Values(rs), messages)))
        && (!ok ==> Value() == old(Value()))
    {
      var r0, b0, o0, ne, no := records, byRequest, outbox, nextExecution, nextOutbox;
      ghost var before := Value();
      var names;
      rs, names := FastPath.CreateBatchRecords(requestId, cases, version);
      messages := [];
      ok := BatchAdd(rs);
      if !ok {
        Rollback(before, r0, b0, o0, ne, no);
        return;
      }
      var drafts := DraftMessages(rs, names, availableAt);
      ok := BatchAddMessages(drafts);
      if !ok {
        Rollback(before, r0, b0, o0, ne, no);
        return;
      }
      messages := drafts[..];
    }

    /** OutboxRepository.Add: insert or ignore, then read the stored row back. */
    method AddOutbox(m: Message) returns (ok: bool, row: Message)
      modifies this`outbox, this`nextOutbox
      ensures ok == AddMessage(old(Value()), m).Some?
      ensures ok ==> AddMessage(old(Value()), m).value == (Value(), row)
    {
      InsertMessageRow(m);
      if m.executionId !in outbox {
        return false, m;
      }
      ok, row := true, outbox[m.executionId];
    }

    /** Phase one of a single case as one transaction. */
    method PersistSingleTx(requestId: string, c: Case, version: string, availableAt: Time)
      returns (ok: bool, record: ExecutionRecord, message: Message)
      modifies this
      ensures fresh(record)
      ensures var r := PersistSingle(old(Value()), requestId, c, version, availableAt);
        && ok == r.Some?
        && (ok ==> r.value == (Value(), Persisted([record.Value()], [message])))
        && (!ok ==> Value() == old(Value()))
    {
      var r0, b0, o0, ne, no := records, byRequest, outbox, nextExecution, nextOutbox;
      ghost var before := Value();
      record := new ExecutionRecord(requestId, c.caseId, version);
      message := NewMessage(NewRecord(requestId, c.caseId, version), c.caseName, availableAt);
      ok := Add(record);
      if ok {
        var row := Record(record.executionId, record.requestId, record.caseId, record.version, record.executionStatus);
        ok, message := AddOutbox(NewMessage(row, c.caseName, availableAt));
      }
      if !ok {
        Rollback(before, r0, b0, o0, ne, no);
      }
    }

    /** Phase three of a chunk as one transaction. */
    method ChunkWriteBackTx(pending: seq<ExecutionRecord>, result: RunResult) returns (ok: bool)
      requires OneStatusPerId(Values(pending))
      modifies this
      ensures var r := Protocol.ChunkWriteBack(old(Value()), Values(pending), result);
        ok == r.Some? && Value() == if ok then r.value else old(Value())
    {
      var r0, b0, o0, ne, no := records, byRequest, outbox, nextExecution, nextOutbox;
      ghost var before := Value();
      ok := BatchUpdateStatus(pending);
      if ok {
        ok := MarkPublished(result.success, "");
      }
      if ok {
        ok := MarkDead(result.failed, "");
      }
      if !ok {
        Rollback(before, r0, b0, o0, ne, no);
      }
    }

    /** Phase three of a single case as one transaction: the stored record is read
        again, so a failure over a record that has left WAIT rolls back. */
    method SingleWriteBackTx(id: Id, confirmed: bool, now: Time) returns (ok: bool)
      requires id in records ==> records[id].executionId == id
      modifies this
      ensures var r := Protocol.SingleWriteBack(old(Value()), id, confirmed);
        ok == r.Some? && Value() == if ok then r.value else old(Value())
    {
      var r0, b0, o0, ne, no := records, byRequest, outbox, nextExecution, nextOutbox;
      ghost var before := Value();
      if confirmed {
        ok := MarkPublished([id], "");
      } else {
        if id !in records {
          return false;
        }
        var current := new ExecutionRecord("", 0, "");
        current.Load(records[id]);
        ok := current.MarkAsDispatchFailed(now);
        if ok {
          ok := Save(current);
        }
        if ok {
          ok := MarkDead([id], "");
        }
      }
      if !ok {
        Rollback(before, r0, b0, o0, ne, no);
      }
    }

    /** The write-back of a relay pass as one transaction. */
    method RelayWriteBackTx(
      token: string, ghost copies: map<Id, Message>, plan: Relay.Plan, deadRecords: seq<ExecutionRecord>, retryAt: Time)
      returns (ok: bool)
      requires Values(deadRecords) == Relay.DeadRecords(copies, plan.dead)
      requires forall id | id in plan.dead :: id in copies
      modifies this
      ensures var r := Relay.RelayWriteBack(old(Value()), token, copies, plan, retryAt);
        ok == r.Some? && Value() == if ok then r.value else old(Value())
    {
      var r0, b0, o0, ne, no := records, byRequest, outbox, nextExecution, nextOutbox;
      ghost var before := Value();
      assert OneStatusPerId(Values(deadRecords));
      ok := BatchUpdateStatus(deadRecords);
      if ok {
        ok := MarkPublished(plan.success, token);
      }
      if ok {
        ok := MarkDead(plan.dead, token);
      }
      if ok {
        ok := MarkRetry(plan.retry, token, retryAt);
      }
      if !ok {
        Rollback(before, r0, b0, o0, ne, no);
      }
    }
  }

  /** A row is as before, or has left WAIT for a status that some copy wanted. */
  ghost predicate Written(id: Id, before: Record, after: Record, rs: seq<Record>) {
    || after == before
    || (before.status == Wait && Wants(rs, id, after.status) && after == before.(status := after.status))
  }

  lemma {:induction false} AllWritten(t: Tables, t': Tables, rs: seq<Record>)
    requires OneStatusPerId(rs)
    requires t' == t.(records := t'.records) && t'.records.Keys == t.records.Keys
    requires forall id | id in t.records :: Written(id, t.records[id], t'.records[id], rs)
    requires forall id, st | id in t.records && Wants(rs, id, st) && t.records[id].status == Wait ::
      t'.records[id].status != Wait
    requires forall r | r in rs && r.status != Wait :: r.executionId in t.records
    ensures WriteStatuses(t, rs) == Some(t')
  {
    forall id | id in t.records
      ensures t'.records[id] ==
        if t.records[id].status.Wait? && StatusFor(rs, id).Some? then t.records[id].(status := StatusFor(rs, id).value)
        else t.records[id]
    {
      if exists st :: Wants(rs, id, st) {
        var st :| Wants(rs, id, st);
        WantedIsStatusFor(rs, id, st);
        if t.records[id].status == Wait {
          WantedIsStatusFor(rs, id, t'.records[id].status);
        }
      } else {
        StatusForIsWanted(rs, id);
      }
    }
    assert WriteStatuses(t, rs).value.records == t'.records;
  }
}
