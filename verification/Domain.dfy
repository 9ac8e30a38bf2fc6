/** Entities and value objects of the dispatch engine: the execution status
    machine, the execution record aggregate and the outbox message. */
module Domain {
  type Id = int
  type Time = int

  datatype Option<+T> = None | Some(value: T) {
    predicate IsFailure() {
      None?
    }

    function PropagateFailure<U>(): Option<U>
      requires None?
    {
      None
    }

    function Extract(): T
      requires Some?
    {
      value
    }
  }

  /** A set that is not empty has a member to pick. */
  lemma HasMember(s: set<int>)
    ensures s == {} || exists x :: x in s
  {
    if forall x :: x !in s {
      assert s == {};
    }
  }

  datatype Status = Wait | Running | Success | Failed | DispatchFailed

  predicate IsTerminal(s: Status) {
    s.Success? || s.Failed? || s.DispatchFailed?
  }

  predicate CanTransitTo(s: Status, next: Status) {
    match s
    case Wait => next.Running? || next.Failed? || next.Success? || next.DispatchFailed?
    case Running => next.Success? || next.Failed?
    case _ => false
  }

  /** The edges of the status machine, one by one. */
  lemma StatusEdges(s: Status, next: Status)
    ensures CanTransitTo(s, next) <==>
      (s, next) in {
        (Wait, Running), (Wait, Success), (Wait, Failed), (Wait, DispatchFailed), (Running, Success), (Running, Failed)
      }
    ensures IsTerminal(s) <==> forall later :: !CanTransitTo(s, later)
  {
    assert CanTransitTo(Wait, Running) && CanTransitTo(Running, Failed);
  }

  /** A stored status history: it opens with WAIT and follows status-machine edges. */
  ghost predicate StatusPath(h: seq<Status>) {
    && |h| > 0
    && h[0] == Wait
    && forall i | 0 <= i < |h| - 1 :: CanTransitTo(h[i], h[i + 1])
  }

  function Rank(s: Status): nat {
    match s
    case Wait => 0
    case Running => 1
    case _ => 2
  }

  lemma {:induction false} PathRanks(h: seq<Status>, i: nat)
    requires StatusPath(h) && i < |h|
    ensures Rank(h[i]) >= i
  {
    if i > 0 {
      PathRanks(h, i - 1);
      assert CanTransitTo(h[i - 1], h[i - 1 + 1]);
    }
  }

  /** The machine has no cycle: a history has at most three entries, and a
      terminal status can only be its last one. */
  lemma HistoriesAreShort(h: seq<Status>)
    requires StatusPath(h)
    ensures |h| <= 3
    ensures forall i | 0 <= i < |h| - 1 :: !IsTerminal(h[i])
  {
    PathRanks(h, |h| - 1);
    forall i | 0 <= i < |h| - 1 ensures !IsTerminal(h[i]) {
      assert CanTransitTo(h[i], h[i + 1]);
    }
  }

  /** A row of execution_record (timestamps are not stored in the model). */
  datatype Record = Record(executionId: Id, requestId: string, caseId: Id, version: string, status: Status)

  function NewRecord(requestId: string, caseId: Id, version: string): Record {
    Record(0, requestId, caseId, version, Wait)
  }

  datatype OutboxState = Pending | Processing | Published | Dead

  /** A row of dispatch_outbox; `published` says that published_at is set. */
  datatype Message = Message(
    outboxId: Id, executionId: Id, caseId: Id, caseName: string, version: string,
    state: OutboxState, attempts: int, availableAt: Time,
    leaseUntil: Option<Time>, leaseToken: string, published: bool)

  function NewMessage(r: Record, caseName: string, availableAt: Time): Message {
    Message(0, r.executionId, r.caseId, caseName, r.version, Pending, 0, availableAt, None, "", false)
  }

  datatype Task = Task(executionId: Id, caseId: Id, caseName: string, version: string)

  function TaskOf(m: Message): Task {
    Task(m.executionId, m.caseId, m.caseName, m.version)
  }

  /** What an idempotent retry answers from the message table: the status to
      report, or None when the message still has to be published. */
  function ReplayStatus(m: Message): Option<Status> {
    match m.state
    case Dead => Some(DispatchFailed)
    case Published => Some(Wait)
    case Processing => Some(Wait)
    case Pending => None
  }

  datatype Case = Case(caseId: Id, caseName: string)

  /** The aggregate as callers hold it in memory: its mark methods change the
      status in place, and repositories overwrite it with the stored row. */
  class ExecutionRecord {
    var executionId: Id
    var requestId: string
    var caseId: Id
    var version: string
    var executionStatus: Status
    var executeAt: Option<Time>
    var finishAt: Option<Time>

    ghost function Value(): (r: Record)
      reads this
    {
      Record(executionId, requestId, caseId, version, executionStatus)
    }

    constructor (requestId: string, caseId: Id, version: string)
      ensures Value() == NewRecord(requestId, caseId, version)
      ensures executeAt == finishAt == None
    {
      this.executionId := 0;
      this.requestId := requestId;
      this.caseId := caseId;
      this.version := version;
      executionStatus := Wait;
      executeAt := None;
      finishAt := None;
    }

    /** Overwrites the aggregate with a stored row. */
    method Load(r: Record)
      modifies this
      ensures Value() == r
    {
      executionId := r.executionId;
      requestId := r.requestId;
      caseId := r.caseId;
      version := r.version;
      executionStatus := r.status;
    }

    method Transit(next: Status, now: Time) returns (ok: bool)
      modifies this`executionStatus, this`finishAt
      ensures ok == CanTransitTo(old(executionStatus), next)
      ensures executionStatus == if ok then next else old(executionStatus)
      ensures finishAt == if ok && IsTerminal(next) then Some(now) else old(finishAt)
    {
      if !CanTransitTo(executionStatus, next) {
        return false;
      }
      executionStatus := next;
      if IsTerminal(next) {
        finishAt := Some(now);
      }
      ok := true;
    }

    method MarkAsDispatchFailed(now: Time) returns (ok: bool)
      modifies this`executionStatus, this`finishAt
      ensures ok == old(executionStatus).Wait?
      ensures Value() == MarkedFailed(old(Value()))
      ensures finishAt == if ok then Some(now) else old(finishAt)
    {
      ok := Transit(DispatchFailed, now);
    }

    method MarkAsFailed(now: Time) returns (ok: bool)
      modifies this`executionStatus, this`finishAt
      ensures ok == (old(executionStatus).Wait? || old(executionStatus).Running?)
      ensures executionStatus == if ok then Failed else old(executionStatus)
      ensures finishAt == if ok then Some(now) else old(finishAt)
    {
      ok := Transit(Failed, now);
    }

    method MarkAsRunning(now: Time) returns (ok: bool)
      modifies this`executionStatus, this`finishAt, this`executeAt
      ensures ok == old(executionStatus).Wait?
      ensures executionStatus == if ok then Running else old(executionStatus)
      ensures finishAt == old(finishAt)
      ensures executeAt == if ok then Some(now) else old(executeAt)
    {
      ok := Transit(Running, now);
      if ok {
        executeAt := Some(now);
      }
    }
  }

  ghost function Values(rs: seq<ExecutionRecord>): (values: seq<Record>)
    reads rs
    ensures |values| == |rs|
  {
    seq(|rs|, i requires 0 <= i < |rs| reads rs => rs[i].Value())
  }

  ghost predicate Separate(rs: seq<ExecutionRecord>) {
    forall i, j | 0 <= i < j < |rs| :: rs[i] != rs[j]
  }

  lemma ValuesNext(rs: seq<ExecutionRecord>, r: ExecutionRecord)
    ensures Values(rs + [r]) == Values(rs) + [r.Value()]
  {
  }

  /** The effect of MarkAsDispatchFailed on a value; an illegal move changes nothing. */
  function MarkedFailed(r: Record): Record {
    if CanTransitTo(r.status, DispatchFailed) then r.(status := DispatchFailed) else r
  }
}
