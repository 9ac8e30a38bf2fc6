/** Publishing one batch on one channel and collecting its confirms, as loops over the
    channel's two queues. */
module Publisher {
  import opened Domain
  import opened BatchResult
  import opened Slices
  import opened Confirms
  import Protocol

  predicate Tagged(e: Event) {
    e.Return? || e.Confirm?
  }

  /** Nothing follows the end of a stream. */
  ghost predicate StreamsEnd(log: seq<Event>) {
    forall i, j | 0 <= i < j < |log| ::
      && (log[i].EndReturns? ==> !log[j].Return?)
      && (log[i].EndConfirms? ==> !log[j].Confirm?)
  }

  /** A broker that keeps its word: one confirm per message, a return before the
      message's confirm, and the message id that was published. */
  ghost predicate Honest(log: seq<Event>, published: seq<Id>) {
    && (forall i, j | 0 <= i < j < |log| && log[i].Confirm? && Tagged(log[j]) :: log[j].tag != log[i].tag)
    && (forall j | 0 <= j < |log| && log[j].Return? && 1 <= log[j].tag <= |published| ::
          log[j].id == Some(published[log[j].tag - 1]))
  }

  lemma {:induction false} EventsNext(log: seq<Event>, d: nat, e: nat)
    requires d <= e < |log|
    ensures ReturnsOf(log[d..e + 1]) == ReturnsOf(log[d..e]) + if log[e].Return? then [log[e].id] else []
    ensures ConfirmsOf(log[d..e + 1])
         == ConfirmsOf(log[d..e]) + if log[e].Confirm? then [Confirmation(log[e].tag, log[e].ack)] else []
  {
    assert log[d..e + 1][..e - d] == log[d..e];
  }

  /** One of the events d0..d1 confirms this sequence number. */
  ghost predicate ConfirmedIn(log: seq<Event>, d0: nat, d1: nat, tag: nat)
    requires d0 <= d1 <= |log|
  {
    exists i :: d0 <= i < d1 && log[i].Confirm? && log[i].tag == tag
  }

  /** A pooled channel. `log` is everything the broker will ever send on it, in order;
      the first `delivered` events have reached the queues. `published` holds the id
      sent under each sequence number, starting at one. */
  class Channel {
    const log: seq<Event>
    var delivered: nat
    var published: seq<Id>
    var returnQueue: seq<Option<Id>>
    var confirmQueue: seq<Confirmation>
    var returnsClosed: bool
    var confirmsClosed: bool
    var closed: bool
    var broken: bool

    ghost predicate Valid()
      reads this
    {
      && delivered <= |log| && StreamsEnd(log)
      && (forall i | 0 <= i < delivered && Tagged(log[i]) :: log[i].tag <= |published|)
      && (forall c | c in confirmQueue :: c.tag <= |published|)
      && (returnsClosed <==> EndReturns in log[..delivered])
      && (confirmsClosed <==> EndConfirms in log[..delivered])
    }

    /** Nothing that was published so far is still to be read or still to come. */
    ghost predicate Clean()
      reads this
    {
      && Valid() && returnQueue == [] && confirmQueue == []
      && forall j | delivered <= j < |log| && Tagged(log[j]) :: log[j].tag > |published|
    }

    /** The sequence numbers that are published and not yet confirmed. */
    ghost function Unresolved(): set<nat>
      requires delivered <= |log|
      reads this
    {
      set tag: nat | 1 <= tag <= |published| && !ConfirmedIn(log, 0, delivered, tag)
    }

    constructor (log: seq<Event>)
      requires StreamsEnd(log) && forall j | 0 <= j < |log| && Tagged(log[j]) :: log[j].tag >= 1
      ensures Clean() && this.log == log && published == [] && !broken && Unresolved() == {}
    {
      this.log := log;
      delivered := 0;
      published, returnQueue, confirmQueue := [], [], [];
      returnsClosed, confirmsClosed, closed, broken := false, false, false, false;
    }

    /** Lets up to n further events arrive. A message that has not been published yet
        cannot be answered. */
    method Deliver(n: nat)
      requires Valid()
      modifies this`delivered, this`returnQueue, this`confirmQueue, this`returnsClosed, this`confirmsClosed, this`closed
      ensures Valid() && old(delivered) <= delivered
      ensures returnQueue == old(returnQueue) + ReturnsOf(log[old(delivered)..delivered])
      ensures confirmQueue == old(confirmQueue) + ConfirmsOf(log[old(delivered)..delivered])
      ensures old(returnsClosed) ==> returnsClosed && returnQueue == old(returnQueue)
      ensures |returnQueue| - |old(returnQueue)| <= delivered - old(delivered)
    {
      assert log[delivered..delivered] == [];
      for i := 0 to n
        invariant Valid() && old(delivered) <= delivered
        invariant returnQueue == old(returnQueue) + ReturnsOf(log[old(delivered)..delivered])
        invariant confirmQueue == old(confirmQueue) + ConfirmsOf(log[old(delivered)..delivered])
        invariant old(returnsClosed) ==> returnsClosed && returnQueue == old(returnQueue)
        invariant |returnQueue| - |old(returnQueue)| <= delivered - old(delivered)
      {
        if delivered == |log| || (Tagged(log[delivered]) && log[delivered].tag > |published|) {
          return;
        }
        EventsNext(log, old(delivered), delivered);
        DeliverNext();
      }
    }

    method DeliverNext()
      requires Valid() && delivered < |log| && (Tagged(log[delivered]) ==> log[delivered].tag <= |published|)
      modifies this`delivered, this`returnQueue, this`confirmQueue, this`returnsClosed, this`confirmsClosed, this`closed
      ensures Valid() && delivered == old(delivered) + 1
      ensures returnQueue == old(returnQueue) + (if log[old(delivered)].Return? then [log[old(delivered)].id] else [])
      ensures confirmQueue == old(confirmQueue)
        + (var e := log[old(delivered)]; if e.Confirm? then [Confirmation(e.tag, e.ack)] else [])
      ensures old(returnsClosed) ==> returnsClosed && returnQueue == old(returnQueue)
    {
      var e := log[delivered];
      assert log[..delivered + 1] == log[..delivered] + [e];
      assert e.Return? ==> !returnsClosed;
      match e {
        case Return(_, id) => returnQueue := returnQueue + [id];
        case Confirm(tag, ack) => confirmQueue := confirmQueue + [Confirmation(tag, ack)];
        case EndReturns => returnsClosed := true;
        case EndConfirms => confirmsClosed := true;
        case EndChannel => closed := true;
      }
      delivered := delivered + 1;
    }
  }

  /** Appends the value of every remaining key, in whatever order the map gives. */
  method AppendWaiting(waiting: map<nat, Id>, failed: seq<Id>) returns (out: seq<Id>, ghost rest: seq<Id>)
    ensures out == failed + rest && ListsValues(rest, waiting)
  {
    var todo := waiting.Keys;
    ghost var order: seq<nat> := [];
    out, rest := failed, [];
    while todo != {}
      invariant todo <= waiting.Keys
      invariant out == failed + rest && |order| == |rest|
      invariant forall i, j | 0 <= i < j < |order| :: order[i] != order[j]
      invariant forall tag :: tag in order <==> tag in waiting && tag !in todo
      invariant forall i | 0 <= i < |order| :: order[i] in waiting && rest[i] == waiting[order[i]]
      decreases |todo|
    {
      HasMember(todo);
      var tag :| tag in todo;
      todo := todo - {tag};
      out := out + [waiting[tag]];
      rest := rest + [waiting[tag]];
      order := order + [tag];
    }
    assert ListedAs(rest, waiting, order);
  }

  /** The last pass over the success slice, compacting it into its own backing array. */
  method MoveReturned(success: Slice, failed: seq<Id>, returned: set<Id>) returns (kept: Slice, out: seq<Id>)
    requires success.Valid()
    modifies success.data
    ensures fresh(kept) && kept.Valid() && kept.data == success.data == old(success.data)
    ensures kept.Items() == Without(old(success.Items()), returned)
    ensures out == failed + Moved(old(success.Items()), returned, failed)
  {
    PassStart(success, returned, failed);
    hide Without, Moved, SetOf, Slice.Items;
    ghost var items := success.Items();
    var data, n, failedSet := success.data, success.len, SetOf(failed);
    kept := new Slice.Reusing(data);
    out := failed;
    for i := 0 to n
      invariant kept.Valid() && kept.data == data && kept.len <= i
      invariant forall k | i <= k < n :: data[k] == items[k]
      invariant kept.Items() == Without(items[..i], returned)
      invariant out == failed + Moved(items[..i], returned, failed) && failedSet == SetOf(out)
    {
      PassNext(items, i, returned, failed);
      out, failedSet := MoveOne(kept, data[i], returned, out, failedSet);
    }
    assert items[..n] == items;
  }

  lemma {:induction false} PassStart(success: Slice, returned: set<Id>, failed: seq<Id>)
    requires success.Valid()
    ensures |success.Items()| == success.len && forall k | 0 <= k < success.len :: success.data[k] == success.Items()[k]
    ensures Without(success.Items()[..0], returned) == [] && Moved(success.Items()[..0], returned, failed) == []
  {
  }

  /** One round of that pass: the id stays in success, or moves to failed if it is not
      there already. */
  method MoveOne(kept: Slice, id: Id, returned: set<Id>, failed: seq<Id>, failedSet: set<Id>)
    returns (out: seq<Id>, outSet: set<Id>)
    requires kept.Valid() && kept.len < kept.data.Length && failedSet == SetOf(failed)
    modifies kept, kept.data
    ensures kept.Valid() && kept.data == old(kept.data)
    ensures forall k | old(kept.len) < k < kept.data.Length :: kept.data[k] == old(kept.data[k])
    ensures kept.len == old(kept.len) + if id in returned then 0 else 1
    ensures kept.Items() == if id in returned then old(kept.Items()) else old(kept.Items()) + [id]
    ensures out == (if id in returned && id !in failed then failed + [id] else failed) && outSet == SetOf(out)
  {
    out, outSet := failed, failedSet;
    if id in returned {
      if id !in failedSet {
        out := out + [id];
        outSet := outSet + {id};
      }
    } else {
      kept.Append(id);
      assert forall k | old(kept.len) < k < kept.data.Length :: kept.data[..][k] == old(kept.data[..])[k];
    }
  }

  lemma {:induction false} PassNext(items: seq<Id>, i: nat, returned: set<Id>, failed: seq<Id>)
    requires i < |items|
    ensures Without(items[..i + 1], returned)
         == if items[i] in returned then Without(items[..i], returned) else Without(items[..i], returned) + [items[i]]
    ensures var out := failed + Moved(items[..i], returned, failed);
      failed + Moved(items[..i + 1], returned, failed)
        == if items[i] in returned && items[i] !in out then out + [items[i]] else out
    ensures var out := failed + Moved(items[..i], returned, failed); SetOf(out + [items[i]]) == SetOf(out) + {items[i]}
  {
    assert items[..i + 1][..i] == items[..i];
  }

  lemma {:induction false} GotNext(sent: map<nat, Id>, got: seq<Read>, r: Read)
    ensures AbsorbAll(Start(sent), got + [r]) == Absorb(AbsorbAll(Start(sent), got), r)
    ensures ReturnReads(got + [r]) == ReturnReads(got) + if r.GotReturn? then [r.id] else []
    ensures ConfirmReads(got + [r]) == ConfirmReads(got) + if r.GotConfirm? then [Confirmation(r.tag, r.ack)] else []
  {
  }

  lemma Associative<T>(a: seq<T>, b: seq<T>, c: seq<T>)
    ensures (a + b) + c == a + (b + c)
  {
  }

  lemma {:induction false} NoEvents()
    ensures ReturnsOf([]) == [] && ConfirmsOf([]) == [] && ReturnReads([]) == [] && ConfirmReads([]) == []
  {
  }

  lemma {:induction false} EventAppended(es: seq<Event>, e: Event)
    ensures ReturnsOf(es + [e]) == ReturnsOf(es) + if e.Return? then [e.id] else []
    ensures ConfirmsOf(es + [e]) == ConfirmsOf(es) + if e.Confirm? then [Confirmation(e.tag, e.ack)] else []
  {
    assert (es + [e])[..|es|] == es;
  }

  lemma {:induction false} EventsJoin(a: seq<Event>, b: seq<Event>)
    ensures ReturnsOf(a + b) == ReturnsOf(a) + ReturnsOf(b)
    ensures ConfirmsOf(a + b) == ConfirmsOf(a) + ConfirmsOf(b)
  {
    hide ReturnsOf, ConfirmsOf;
    NoEvents();
    if b == [] {
      assert a + b == a;
    } else {
      var n := |b| - 1;
      var e := b[n];
      EventsJoin(a, b[..n]);
      EventAppended(a + b[..n], e);
      EventAppended(b[..n], e);
      assert a + b == (a + b[..n]) + [e] && b == b[..n] + [e];
      Associative(ReturnsOf(a), ReturnsOf(b[..n]), if e.Return? then [e.id] else []);
      Associative(ConfirmsOf(a), ConfirmsOf(b[..n]), if e.Confirm? then [Confirmation(e.tag, e.ack)] else []);
    }
  }

  /** What a batch sees on its channel: what was left in the queues when it started, and
      the events delivered since position `from`. */
  datatype View = View(left: seq<Event>, from: nat)

  function Seen(log: seq<Event>, v: View, d1: nat): seq<Event>
    requires v.from <= d1 <= |log|
  {
    v.left + log[v.from..d1]
  }

  /** Events that leave these two queues behind. */
  function Leftover(returnQueue: seq<Option<Id>>, confirmQueue: seq<Confirmation>): seq<Event> {
    if confirmQueue != [] then
      var n := |confirmQueue| - 1;
      Leftover(returnQueue, confirmQueue[..n]) + [Confirm(confirmQueue[n].tag, confirmQueue[n].ack)]
    else if returnQueue != [] then
      var n := |returnQueue| - 1;
      Leftover(returnQueue[..n], []) + [Return(0, returnQueue[n])]
    else []
  }

  lemma {:induction false} LeftoverIs(returnQueue: seq<Option<Id>>, confirmQueue: seq<Confirmation>)
    ensures var es := Leftover(returnQueue, confirmQueue);
      && ReturnsOf(es) == returnQueue && ConfirmsOf(es) == confirmQueue
      && forall e | e in es && e.Confirm? :: Confirmation(e.tag, e.ack) in confirmQueue
    decreases |confirmQueue|, |returnQueue|
  {
    hide ReturnsOf, ConfirmsOf;
    NoEvents();
    if confirmQueue != [] {
      var n := |confirmQueue| - 1;
      var rest, last := Leftover(returnQueue, confirmQueue[..n]), confirmQueue[n];
      LeftoverIs(returnQueue, confirmQueue[..n]);
      assert Leftover(returnQueue, confirmQueue) == rest + [Confirm(last.tag, last.ack)];
      hide Leftover;
      EventAppended(rest, Confirm(last.tag, last.ack));
      assert confirmQueue == confirmQueue[..n] + [last];
    } else if returnQueue != [] {
      var n := |returnQueue| - 1;
      var rest, last := Leftover(returnQueue[..n], []), returnQueue[n];
      LeftoverIs(returnQueue[..n], []);
      assert Leftover(returnQueue, confirmQueue) == rest + [Return(0, last)];
      hide Leftover;
      EventAppended(rest, Return(0, last));
      assert returnQueue == returnQueue[..n] + [last];
    }
  }

  lemma {:induction false} QueuedAtStart(
    log: seq<Event>, d: nat, returnQueue: seq<Option<Id>>, confirmQueue: seq<Confirmation>)
    requires d <= |log|
    ensures Queued(log, View(Leftover(returnQueue, confirmQueue), d), d, [], returnQueue, confirmQueue)
  {
    hide Leftover, ReturnsOf, ConfirmsOf, ReturnReads, ConfirmReads;
    LeftoverIs(returnQueue, confirmQueue);
    NoEvents();
    var left := Leftover(returnQueue, confirmQueue);
    assert left + log[d..d] == left;
  }

  lemma {:induction false} EmptyStart(log: seq<Event>, v: View, d1: nat, sent: map<nat, Id>)
    requires v.from <= d1 <= |log|
    ensures AbsorbAll(Start(sent), []) == Collector(sent, {}, [], [])
    ensures sent == map[] ==> Answer(log, v, d1, sent, [], [], [], false)
  {
  }

  lemma {:induction false} ReturnedMeans(sent: map<nat, Id>, got: seq<Read>)
    ensures forall id :: id in AbsorbAll(Start(sent), got).returned <==> Some(id) in ReturnReads(got)
  {
    if got != [] {
      ReturnedMeans(sent, got[..|got| - 1]);
    }
  }

  /** The queues of a channel while a batch is collected: what the batch has seen and
      not read. */
  ghost predicate Queued(
    log: seq<Event>, v: View, d1: nat, got: seq<Read>, returnQueue: seq<Option<Id>>, confirmQueue: seq<Confirmation>)
  {
    && v.from <= d1 <= |log|
    && ReturnsOf(Seen(log, v, d1)) == ReturnReads(got) + returnQueue
    && ConfirmsOf(Seen(log, v, d1)) == ConfirmReads(got) + confirmQueue
  }

  /** The answer of the collector for what it read of the events up to d1. */
  ghost predicate Answer(
    log: seq<Event>, v: View, d1: nat, sent: map<nat, Id>, got: seq<Read>, success: seq<Id>, failed: seq<Id>,
    early: bool)
    requires v.from <= d1 <= |log|
  {
    var c := AbsorbAll(Start(sent), got);
    if early then
      && c.waiting != map[] && success == c.success
      && exists rest :: ListsValues(rest, c.waiting) && failed == c.failed + rest
    else
      var r := Finish(c, ReturnedIds(Seen(log, v, d1)));
      c.waiting == map[] && success == r.success && failed == r.failed
  }

  lemma {:induction false} ReturnedAfterDrain(
    log: seq<Event>, v: View, d1: nat, got: seq<Read>, confirmQueue: seq<Confirmation>, returned: set<Id>)
    requires Queued(log, v, d1, got, [], confirmQueue)
    requires forall id :: id in returned <==> Some(id) in ReturnReads(got)
    ensures returned == ReturnedIds(Seen(log, v, d1))
  {
    ReturnOrigins(Seen(log, v, d1));
    assert ReturnReads(got) == ReturnsOf(Seen(log, v, d1));
    assert forall id :: id in returned <==> id in ReturnedIds(Seen(log, v, d1));
  }

  lemma {:induction false} NothingMoved(success: seq<Id>, failed: seq<Id>)
    ensures Without(success, {}) == success && Moved(success, {}, failed) == []
  {
    if success != [] {
      NothingMoved(success[..|success| - 1], failed);
    }
  }

  lemma {:induction false} DeliveredMore(
    log: seq<Event>, v: View, d1: nat, d2: nat, got: seq<Read>,
    returnQueue: seq<Option<Id>>, confirmQueue: seq<Confirmation>, returnQueue': seq<Option<Id>>,
    confirmQueue': seq<Confirmation>)
    requires Queued(log, v, d1, got, returnQueue, confirmQueue) && d1 <= d2 <= |log|
    requires returnQueue' == returnQueue + ReturnsOf(log[d1..d2])
    requires confirmQueue' == confirmQueue + ConfirmsOf(log[d1..d2])
    ensures Queued(log, v, d2, got, returnQueue', confirmQueue')
  {
    var more := log[d1..d2];
    assert Seen(log, v, d2) == Seen(log, v, d1) + more;
    EventsJoin(Seen(log, v, d1), more);
    hide ReturnsOf, ConfirmsOf, ReturnReads, ConfirmReads, Seen;
    Associative(ReturnReads(got), returnQueue, ReturnsOf(more));
    Associative(ConfirmReads(got), confirmQueue, ConfirmsOf(more));
  }

  lemma {:induction false} TookReturn(
    log: seq<Event>, v: View, d1: nat, got: seq<Read>, returnQueue: seq<Option<Id>>, confirmQueue: seq<Confirmation>)
    requires Queued(log, v, d1, got, returnQueue, confirmQueue) && returnQueue != []
    ensures Queued(log, v, d1, got + [GotReturn(returnQueue[0])], returnQueue[1..], confirmQueue)
  {
  }

  lemma {:induction false} TookConfirm(
    log: seq<Event>, v: View, d1: nat, got: seq<Read>, returnQueue: seq<Option<Id>>, confirmQueue: seq<Confirmation>)
    requires Queued(log, v, d1, got, returnQueue, confirmQueue) && confirmQueue != []
    ensures var c := confirmQueue[0];
      Queued(log, v, d1, got + [GotConfirm(c.tag, c.ack)], returnQueue, confirmQueue[1..])
  {
  }

  /** The state of the collector loop: the locals are what the collector makes of the
      events it has read, and the queues hold the events it has not read. */
  ghost predicate Collecting(
    pc: Channel, v: View, sent: map<nat, Id>, got: seq<Read>, waiting: map<nat, Id>, returned: set<Id>,
    success: seq<Id>, failed: seq<Id>)
    reads pc
  {
    && pc.Valid()
    && Queued(pc.log, v, pc.delivered, got, pc.returnQueue, pc.confirmQueue)
    && AbsorbAll(Start(sent), got) == Collector(waiting, returned, success, failed)
  }

  /** Events may arrive at any time. */
  method Arrivals(
    pc: Channel, ghost v: View, ghost sent: map<nat, Id>, ghost got: seq<Read>, ghost waiting: map<nat, Id>,
    ghost returned: set<Id>, ghost success: seq<Id>, ghost failed: seq<Id>)
    requires Collecting(pc, v, sent, got, waiting, returned, success, failed)
    modifies pc`delivered, pc`returnQueue, pc`confirmQueue, pc`returnsClosed, pc`confirmsClosed, pc`closed
    ensures Collecting(pc, v, sent, got, waiting, returned, success, failed)
    ensures old(pc.delivered) <= pc.delivered
    ensures old(pc.returnsClosed) ==> pc.returnsClosed && pc.returnQueue == old(pc.returnQueue)
    ensures |pc.returnQueue| - |old(pc.returnQueue)| <= pc.delivered - old(pc.delivered)
  {
    var n: nat := *;
    pc.Deliver(n);
    hide AbsorbAll, Queued;
    DeliveredMore(pc.log, v, old(pc.delivered), pc.delivered, got, old(pc.returnQueue), old(pc.confirmQueue),
      pc.returnQueue, pc.confirmQueue);
  }

  /** One receive from the return queue. */
  method TakeReturn(
    pc: Channel, ghost v: View, ghost sent: map<nat, Id>, ghost got: seq<Read>, ghost waiting: map<nat, Id>,
    returned: set<Id>, ghost success: seq<Id>, ghost failed: seq<Id>)
    returns (returned': set<Id>, ghost got': seq<Read>)
    requires Collecting(pc, v, sent, got, waiting, returned, success, failed) && pc.returnQueue != []
    modifies pc`returnQueue
    ensures Collecting(pc, v, sent, got', waiting, returned', success, failed)
    ensures pc.returnQueue == old(pc.returnQueue)[1..]
  {
    var message := pc.returnQueue[0];
    TookReturn(pc.log, v, pc.delivered, got, pc.returnQueue, pc.confirmQueue);
    GotNext(sent, got, GotReturn(message));
    hide AbsorbAll, Queued;
    got' := got + [GotReturn(message)];
    returned' := returned;
    if message.Some? {
      returned' := returned + {message.value};
    }
    pc.returnQueue := pc.returnQueue[1..];
  }

  /** One receive from the confirm queue. */
  method TakeConfirm(
    pc: Channel, ghost v: View, ghost sent: map<nat, Id>, ghost got: seq<Read>, waiting: map<nat, Id>,
    returned: set<Id>, success: Slice, failed: seq<Id>)
    returns (waiting': map<nat, Id>, failed': seq<Id>, ghost got': seq<Read>)
    requires success.Valid() && Collecting(pc, v, sent, got, waiting, returned, success.Items(), failed)
    requires pc.confirmQueue != []
    modifies pc`confirmQueue, success, success.data
    ensures success.Valid() && (success.data == old(success.data) || fresh(success.data))
    ensures Collecting(pc, v, sent, got', waiting', returned, success.Items(), failed')
    ensures pc.confirmQueue == old(pc.confirmQueue)[1..]
  {
    var c := pc.confirmQueue[0];
    TookConfirm(pc.log, v, pc.delivered, got, pc.returnQueue, pc.confirmQueue);
    GotNext(sent, got, GotConfirm(c.tag, c.ack));
    hide AbsorbAll, Queued;
    got' := got + [GotConfirm(c.tag, c.ack)];
    pc.confirmQueue := pc.confirmQueue[1..];
    waiting', failed' := waiting, failed;
    if c.tag in waiting {
      var id := waiting[c.tag];
      waiting' := waiting - {c.tag};
      if id in returned {
        failed' := failed + [id];
      } else if c.ack {
        success.Append(id);
      } else {
        failed' := failed + [id];
      }
    }
  }

  /** The receives of the collector's select: any that is ready, or none yet. */
  method ReadOne(
    pc: Channel, ghost v: View, ghost sent: map<nat, Id>, ghost got: seq<Read>, waiting: map<nat, Id>,
    returned: set<Id>, success: Slice, failed: seq<Id>, listening: bool)
    returns (waiting': map<nat, Id>, returned': set<Id>, failed': seq<Id>, listening': bool, ghost got': seq<Read>)
    requires success.Valid() && Collecting(pc, v, sent, got, waiting, returned, success.Items(), failed)
    requires !listening ==> pc.returnsClosed && pc.returnQueue == []
    modifies pc`returnQueue, pc`confirmQueue, success, success.data
    ensures success.Valid() && (success.data == old(success.data) || fresh(success.data))
    ensures Collecting(pc, v, sent, got', waiting', returned', success.Items(), failed')
    ensures !listening' ==> pc.returnsClosed && pc.returnQueue == []
  {
    hide Collecting, Slice.Items;
    waiting', returned', failed', listening', got' := waiting, returned, failed, listening, got;
    if {
      case listening && pc.returnQueue != [] =>
        returned', got' := TakeReturn(pc, v, sent, got, waiting, returned, success.Items(), failed);
      case listening && pc.returnQueue == [] && pc.returnsClosed =>
        listening' := false;
      case pc.confirmQueue != [] =>
        waiting', failed', got' := TakeConfirm(pc, v, sent, got, waiting, returned, success, failed);
      case pc.confirmQueue == [] && !(listening && (pc.returnQueue != [] || pc.returnsClosed)) =>
        // nothing is ready yet
    }
  }

  /** Why the collector may give up after this many rounds: the caller's context is
      cancelled, the deadline has come, the channel or the confirm stream is closed. */
  predicate MayGiveUp(pc: Channel, mayCancel: bool, rounds: nat, patience: nat)
    reads pc
  {
    mayCancel || rounds == patience || pc.closed || (pc.confirmQueue == [] && pc.confirmsClosed)
  }

  /** The collector loop. `patience` is how many rounds pass before the deadline; if the
      caller may cancel, that may strike in any round, events may arrive in any round, and
      the select takes any alternative that is ready. */
  method Collect(pc: Channel, sent: map<nat, Id>, patience: nat, mayCancel: bool, success: Slice, ghost v: View)
    returns (returned: set<Id>, failed: seq<Id>, listening: bool, early: bool, ghost got: seq<Read>, ghost rounds: nat)
    requires success.Valid() && Collecting(pc, v, sent, [], sent, {}, success.Items(), [])
    modifies pc, success, success.data
    ensures pc.Valid() && pc.published == old(pc.published) && pc.delivered >= old(pc.delivered)
    ensures success.Valid() && (success.data == old(success.data) || fresh(success.data))
    ensures pc.broken == (old(pc.broken) || early)
    ensures early ==> Queued(pc.log, v, pc.delivered, got, pc.returnQueue, pc.confirmQueue)
    ensures early ==> Answer(pc.log, v, pc.delivered, sent, got, success.Items(), failed, true)
    ensures early ==> rounds <= patience && MayGiveUp(pc, mayCancel, rounds, patience)
    ensures !early ==> Collecting(pc, v, sent, got, map[], returned, success.Items(), failed)
    ensures !early && !listening ==> pc.returnsClosed && pc.returnQueue == []
  {
    var waiting: map<nat, Id>, left: nat := sent, patience;
    returned, failed, listening, early, got, rounds := {}, [], true, false, [], 0;
    hide Collecting, Queued, AbsorbAll, Answer, Slice.Items, MayGiveUp;
    while waiting != map[]
      invariant pc.published == old(pc.published) && pc.broken == old(pc.broken) && pc.delivered >= old(pc.delivered)
      invariant success.Valid() && (success.data == old(success.data) || fresh(success.data))
      invariant Collecting(pc, v, sent, got, waiting, returned, success.Items(), failed)
      invariant !listening ==> pc.returnsClosed && pc.returnQueue == []
      invariant left <= patience
      decreases left
    {
      waiting, returned, failed, listening, early, got :=
        Round(pc, v, sent, got, waiting, returned, success, failed, listening, mayCancel, patience, left);
      if early {
        rounds := patience - left;
        return;
      }
      left := left - 1;
    }
    CollectingIsValid(pc, v, sent, got, map[], returned, success.Items(), failed);
  }

  /** One round of that loop. */
  method Round(
    pc: Channel, ghost v: View, ghost sent: map<nat, Id>, ghost got: seq<Read>, waiting: map<nat, Id>,
    returned: set<Id>, success: Slice, failed: seq<Id>, listening: bool, mayCancel: bool, patience: nat, left: nat)
    returns (
      waiting': map<nat, Id>, returned': set<Id>, failed': seq<Id>, listening': bool, early: bool,
      ghost got': seq<Read>)
    requires success.Valid() && Collecting(pc, v, sent, got, waiting, returned, success.Items(), failed)
    requires !listening ==> pc.returnsClosed && pc.returnQueue == []
    requires waiting != map[] && left <= patience
    modifies pc, success, success.data
    ensures pc.Valid() && pc.published == old(pc.published) && pc.delivered >= old(pc.delivered)
    ensures success.Valid() && (success.data == old(success.data) || fresh(success.data))
    ensures pc.broken == (old(pc.broken) || early)
    ensures early ==> Queued(pc.log, v, pc.delivered, got', pc.returnQueue, pc.confirmQueue)
    ensures early ==> Answer(pc.log, v, pc.delivered, sent, got', success.Items(), failed', true)
    ensures early ==> MayGiveUp(pc, mayCancel, patience - left, patience)
    ensures !early ==> left > 0 && Collecting(pc, v, sent, got', waiting', returned', success.Items(), failed')
    ensures !early && !listening' ==> pc.returnsClosed && pc.returnQueue == []
  {
    hide Collecting, Queued, AbsorbAll, Answer, Slice.Items;
    waiting', returned', failed', listening', early, got' := waiting, returned, failed, listening, false, got;
    var strikes: bool := *;
    var cancelled := mayCancel && strikes;
    Arrivals(pc, v, sent, got, waiting, returned, success.Items(), failed);
    if {
      case cancelled || left == 0 || pc.closed || (pc.confirmQueue == [] && pc.confirmsClosed) =>
        failed' := GiveUp(pc, v, sent, got, waiting, returned, success.Items(), failed);
        early := true;
      case left > 0 =>
        waiting', returned', failed', listening', got' :=
          ReadOne(pc, v, sent, got, waiting, returned, success, failed, listening);
        CollectingIsValid(pc, v, sent, got', waiting', returned', success.Items(), failed');
    }
  }

  lemma CollectingIsValid(
    pc: Channel, v: View, sent: map<nat, Id>, got: seq<Read>, waiting: map<nat, Id>, returned: set<Id>,
    success: seq<Id>, failed: seq<Id>)
    requires Collecting(pc, v, sent, got, waiting, returned, success, failed)
    ensures pc.Valid() && Queued(pc.log, v, pc.delivered, got, pc.returnQueue, pc.confirmQueue)
  {
  }

  lemma {:induction false} StartsCollecting(pc: Channel, v: View, sent: map<nat, Id>)
    requires pc.Valid() && Queued(pc.log, v, pc.delivered, [], pc.returnQueue, pc.confirmQueue)
    ensures Collecting(pc, v, sent, [], sent, {}, [], [])
    ensures sent == map[] ==> Answer(pc.log, v, pc.delivered, sent, [], [], [], false)
  {
    EmptyStart(pc.log, v, pc.delivered, sent);
  }

  /** waitConfirms. Nothing of what the batch sees has been read yet. */
  method WaitConfirms(pc: Channel, sent: map<nat, Id>, patience: nat, mayCancel: bool, ghost v: View)
    returns (success: Slice, failed: seq<Id>, early: bool, ghost got: seq<Read>, ghost rounds: nat)
    requires pc.Valid() && Queued(pc.log, v, pc.delivered, [], pc.returnQueue, pc.confirmQueue)
    modifies pc
    ensures pc.Valid() && pc.published == old(pc.published) && pc.delivered >= old(pc.delivered)
    ensures fresh(success) && success.Valid()
    ensures Queued(pc.log, v, pc.delivered, got, pc.returnQueue, pc.confirmQueue)
    ensures Answer(pc.log, v, pc.delivered, sent, got, success.Items(), failed, early)
    ensures pc.broken == (old(pc.broken) || early)
    ensures early ==> rounds <= patience && MayGiveUp(pc, mayCancel, rounds, patience)
    ensures !early ==> (if sent == map[] then got == [] else pc.returnQueue == [])
  {
    hide Collecting, Queued, AbsorbAll, Answer, Slice.Items;
    success := new Slice(0);
    failed, got, early, rounds := [], [], false, 0;
    StartsCollecting(pc, v, sent);
    if sent == map[] {
      return;
    }
    var returned: set<Id>, listening;
    returned, failed, listening, early, got, rounds := Collect(pc, sent, patience, mayCancel, success, v);
    if !early {
      success, failed, got := DrainReturns(pc, v, sent, got, success, failed, returned, listening);
    }
  }

  /** An early exit: everything that still waits is failed, and the channel is broken. */
  method GiveUp(
    pc: Channel, ghost v: View, ghost sent: map<nat, Id>, ghost got: seq<Read>, waiting: map<nat, Id>,
    ghost returned: set<Id>, ghost success: seq<Id>, failed: seq<Id>)
    returns (out: seq<Id>)
    requires Collecting(pc, v, sent, got, waiting, returned, success, failed) && waiting != map[]
    modifies pc`broken
    ensures pc.Valid() && pc.broken
    ensures Queued(pc.log, v, pc.delivered, got, pc.returnQueue, pc.confirmQueue)
    ensures Answer(pc.log, v, pc.delivered, sent, got, success, out, true)
  {
    ghost var rest;
    hide AbsorbAll, Queued, ListsValues;
    out, rest := AppendWaiting(waiting, failed);
    pc.broken := true;
  }

  /** The part of waitConfirms after the last confirm: empty the return queue, then move
      returned ids out of success. */
  method DrainReturns(
    pc: Channel, ghost v: View, ghost sent: map<nat, Id>, ghost got0: seq<Read>, success0: Slice, failed0: seq<Id>,
    returned0: set<Id>, listening0: bool)
    returns (success: Slice, failed: seq<Id>, ghost got: seq<Read>)
    requires success0.Valid() && Collecting(pc, v, sent, got0, map[], returned0, success0.Items(), failed0)
    requires !listening0 ==> pc.returnsClosed && pc.returnQueue == []
    modifies pc`delivered, pc`returnQueue, pc`confirmQueue, pc`returnsClosed, pc`confirmsClosed, pc`closed,
      success0.data
    ensures pc.Valid() && pc.delivered >= old(pc.delivered) && pc.returnQueue == []
    ensures success.Valid() && (success == success0 || fresh(success))
    ensures Queued(pc.log, v, pc.delivered, got, pc.returnQueue, pc.confirmQueue)
    ensures Answer(pc.log, v, pc.delivered, sent, got, success.Items(), failed, false)
  {
    var returned, listening := returned0, listening0;
    got := got0;
    ghost var items := success0.Items();
    while listening
      invariant pc.delivered >= old(pc.delivered) && success0.Valid() && success0.Items() == items
      invariant Collecting(pc, v, sent, got, map[], returned, items, failed0)
      invariant !listening ==> pc.returnQueue == []
      decreases |pc.log| - pc.delivered + |pc.returnQueue|, listening
    {
      hide Queued, AbsorbAll;
      Arrivals(pc, v, sent, got, map[], returned, items, failed0);
      if pc.returnQueue != [] {
        returned, got := TakeReturn(pc, v, sent, got, map[], returned, items, failed0);
      } else {
        listening := false;
      }
    }
    ReturnedMeans(sent, got);
    ReturnedAfterDrain(pc.log, v, pc.delivered, got, pc.confirmQueue, returned);
    hide Queued, AbsorbAll, ReturnReads;
    success, failed := success0, failed0;
    NothingMoved(items, failed0);
    if returned != {} {
      success, failed := MoveReturned(success0, failed0, returned);
    }
  }

  // ---- a clean channel stays clean ------------------------------------------------------

  ghost predicate TagsDiffer(q: seq<Confirmation>) {
    forall i, j | 0 <= i < j < |q| :: q[i].tag != q[j].tag
  }

  lemma {:induction false} ConfirmsDiffer(es: seq<Event>)
    requires forall i, j | 0 <= i < j < |es| && es[i].Confirm? && Tagged(es[j]) :: es[j].tag != es[i].tag
    ensures TagsDiffer(ConfirmsOf(es))
  {
    if es != [] {
      var n := |es| - 1;
      assert forall i, j | 0 <= i < j < n && es[..n][i].Confirm? && Tagged(es[..n][j]) :: es[j].tag != es[i].tag;
      ConfirmsDiffer(es[..n]);
      ConfirmOrigins(es[..n]);
      var q := ConfirmsOf(es[..n]);
      forall k | 0 <= k < |q| && es[n].Confirm? ensures q[k].tag != es[n].tag {
        assert SentConfirm(es[..n], q[k]);
        var i :| 0 <= i < n && es[..n][i] == Confirm(q[k].tag, q[k].ack);
        assert es[i] == Confirm(q[k].tag, q[k].ack);
      }
    }
  }

  /** The messages of one batch: the sequence numbers after p0, with what was published
      under them. */
  ghost predicate Batch(sent: map<nat, Id>, published: seq<Id>, p0: nat) {
    && p0 <= |published|
    && (forall tag :: tag in sent <==> p0 < tag <= |published|)
    && (forall tag | tag in sent :: sent[tag] == published[tag - 1])
  }

  /** What was published under each sequence number that the collector waits for. */
  ghost predicate SentUnder(sent: map<nat, Id>, published: seq<Id>, p0: nat) {
    forall tag | tag in sent :: p0 < tag <= |published| && sent[tag] == published[tag - 1]
  }

  /** The events from d0 on are about this batch or a later one, and those delivered are
      about this batch. */
  ghost predicate BatchEvents(log: seq<Event>, d0: nat, d1: nat, published: seq<Id>, p0: nat) {
    && d0 <= d1 <= |log|
    && (forall j | d0 <= j < |log| && Tagged(log[j]) :: log[j].tag > p0)
    && (forall j | d0 <= j < d1 && Tagged(log[j]) :: log[j].tag <= |published|)
  }

  lemma {:induction false} BatchReturnFirst(
    log: seq<Event>, d0: nat, d1: nat, sent: map<nat, Id>, published: seq<Id>, p0: nat)
    requires Honest(log, published) && Batch(sent, published, p0) && OneTagPerId(sent)
    requires BatchEvents(log, d0, d1, published, p0)
    ensures ReturnFirst(sent, log[d0..d1])
  {
    var es := log[d0..d1];
    forall i, j | 0 <= i < j < |es| && es[i].Confirm? && es[i].tag in sent && es[j].Return?
      ensures es[j].id != Some(sent[es[i].tag])
    {
      assert es[i] == log[d0 + i] && es[j] == log[d0 + j];
      var tag := es[j].tag;
      assert tag in sent && es[j].id == Some(sent[tag]) && tag != es[i].tag;
    }
  }

  lemma {:induction false} FutureTags(log: seq<Event>, d0: nat, d1: nat, published: seq<Id>, j: nat)
    requires Honest(log, published) && d0 <= d1 <= j < |log| && Tagged(log[j])
    ensures !ConfirmedIn(log, d0, d1, log[j].tag)
  {
  }

  /** What was left when the batch started is about earlier sequence numbers. */
  ghost predicate LeftEarlier(v: View, p0: nat) {
    forall e | e in v.left && e.Confirm? :: e.tag <= p0
  }

  lemma {:induction false} SeenLater(log: seq<Event>, v: View, d1: nat, p0: nat, tag: nat, ack: bool)
    requires v.from <= d1 <= |log| && LeftEarlier(v, p0) && tag > p0 && Confirm(tag, ack) in Seen(log, v, d1)
    ensures Confirm(tag, ack) in log[v.from..d1] && ConfirmedIn(log, v.from, d1, tag)
  {
    var es := log[v.from..d1];
    assert Confirm(tag, ack) in es;
    var i :| 0 <= i < |es| && es[i] == Confirm(tag, ack);
    assert log[v.from + i] == es[i];
  }

  lemma {:induction false} ReadIsDelivered(
    log: seq<Event>, v: View, d1: nat, p0: nat, q: seq<Confirmation>, queue: seq<Confirmation>, tag: nat)
    requires v.from <= d1 <= |log| && LeftEarlier(v, p0) && tag > p0
    requires ConfirmsOf(Seen(log, v, d1)) == q + queue && HasConfirm(q, tag)
    ensures ConfirmedIn(log, v.from, d1, tag)
  {
    var es := Seen(log, v, d1);
    ConfirmOrigins(es);
    var k :| 0 <= k < |q| && q[k].tag == tag;
    assert ConfirmsOf(es)[k] == q[k] && SentConfirm(es, q[k]);
    var i :| 0 <= i < |es| && es[i] == Confirm(tag, q[k].ack);
    assert es[i] in es;
    SeenLater(log, v, d1, p0, tag, q[k].ack);
  }

  lemma {:induction false} QueuedTagsDiffer(q: seq<Confirmation>, queue: seq<Confirmation>)
    requires TagsDiffer(q + queue)
    ensures forall c | c in queue :: !HasConfirm(q, c.tag)
  {
    forall l, k | 0 <= l < |queue| && 0 <= k < |q| ensures queue[l].tag != q[k].tag {
      assert (q + queue)[k].tag != (q + queue)[|q| + l].tag;
    }
  }

  lemma {:induction false} QueuedTagsSent(
    log: seq<Event>, d0: nat, d1: nat, sent: map<nat, Id>, published: seq<Id>, p0: nat, q: seq<Confirmation>,
    queue: seq<Confirmation>)
    requires Honest(log, published) && Batch(sent, published, p0) && BatchEvents(log, d0, d1, published, p0)
    requires ConfirmsOf(log[d0..d1]) == q + queue
    ensures TagsDiffer(q + queue) && forall c | c in queue :: c.tag in sent
  {
    var es := log[d0..d1];
    ConfirmOrigins(es);
    forall i, j | 0 <= i < j < |es| && es[i].Confirm? && Tagged(es[j]) ensures es[j].tag != es[i].tag {
      assert es[i] == log[d0 + i] && es[j] == log[d0 + j];
    }
    ConfirmsDiffer(es);
    forall c | c in queue ensures c.tag in sent {
      assert c in ConfirmsOf(es) && SentConfirm(es, c);
      var j :| 0 <= j < |es| && es[j] == Confirm(c.tag, c.ack);
      assert es[j] == log[d0 + j];
    }
  }

  lemma SomeMember(queue: seq<Confirmation>)
    ensures queue == [] || exists c :: c in queue
  {
    if queue != [] {
      assert queue[0] in queue;
    }
  }

  /** After the normal exit the confirm of every message of the batch has been read. */
  lemma {:induction false} AllConfirmed(
    log: seq<Event>, v: View, d1: nat, sent: map<nat, Id>, published: seq<Id>, p0: nat, got: seq<Read>,
    queue: seq<Confirmation>)
    requires Batch(sent, published, p0) && v.from <= d1 <= |log| && LeftEarlier(v, p0)
    requires ConfirmsOf(Seen(log, v, d1)) == ConfirmReads(got) + queue
    requires AbsorbAll(Start(sent), got).waiting == map[]
    ensures forall tag: nat | p0 < tag <= |published| ::
      HasConfirm(ConfirmReads(got), tag) && ConfirmedIn(log, v.from, d1, tag)
  {
    var q := ConfirmReads(got);
    WaitingMeans(sent, got);
    forall tag: nat | p0 < tag <= |published| ensures HasConfirm(q, tag) && ConfirmedIn(log, v.from, d1, tag) {
      assert tag in sent && tag !in AbsorbAll(Start(sent), got).waiting;
      ReadIsDelivered(log, v, d1, p0, q, queue, tag);
    }
  }

  /** After the normal exit every message of the batch is resolved: its confirm has been
      read, no event about it is queued, and none will come. */
  lemma {:induction false} NothingLeft(
    log: seq<Event>, d0: nat, d1: nat, sent: map<nat, Id>, published: seq<Id>, p0: nat, got: seq<Read>,
    queue: seq<Confirmation>)
    requires Honest(log, published) && Batch(sent, published, p0) && BatchEvents(log, d0, d1, published, p0)
    requires ConfirmsOf(log[d0..d1]) == ConfirmReads(got) + queue
    requires AbsorbAll(Start(sent), got).waiting == map[]
    ensures forall tag | tag in sent :: ConfirmedIn(log, d0, d1, tag)
    ensures queue == []
    ensures forall j | d1 <= j < |log| && Tagged(log[j]) :: log[j].tag > |published|
  {
    var q := ConfirmReads(got);
    assert Seen(log, View([], d0), d1) == log[d0..d1];
    AllConfirmed(log, View([], d0), d1, sent, published, p0, got, queue);
    hide AbsorbAll, ConfirmReads, ConfirmsOf;
    QueuedTagsSent(log, d0, d1, sent, published, p0, q, queue);
    QueuedTagsDiffer(q, queue);
    hide HasConfirm;
    SomeMember(queue);
    forall j | d1 <= j < |log| && Tagged(log[j]) ensures log[j].tag !in sent {
      FutureTags(log, d0, d1, published, j);
    }
  }

  /** Without a published message there is nothing to hear of. */
  lemma {:induction false} NothingSent(log: seq<Event>, d0: nat, d1: nat, published: seq<Id>, p0: nat)
    requires Batch(map[], published, p0) && BatchEvents(log, d0, d1, published, p0)
    ensures ReturnsOf(log[d0..d1]) == [] && ConfirmsOf(log[d0..d1]) == []
    decreases d1
  {
    if d0 < d1 {
      var none: map<nat, Id> := map[];
      assert p0 < |published| ==> p0 + 1 in none;
      NothingSent(log, d0, d1 - 1, published, p0);
      EventsNext(log, d0, d1 - 1);
      assert !Tagged(log[d1 - 1]);
    }
  }

  lemma {:induction false} NormalExit(
    log: seq<Event>, d0: nat, d1: nat, sent: map<nat, Id>, published: seq<Id>, p0: nat, got: seq<Read>,
    queue: seq<Confirmation>, success: seq<Id>, failed: seq<Id>)
    requires Honest(log, published) && Batch(sent, published, p0) && OneTagPerId(sent)
    requires BatchEvents(log, d0, d1, published, p0)
    requires Queued(log, View([], d0), d1, got, [], queue)
    requires Answer(log, View([], d0), d1, sent, got, success, failed, false)
    ensures queue == []
    ensures forall j | d1 <= j < |log| && Tagged(log[j]) :: log[j].tag > |published|
    ensures success == Routable(sent, log[d0..d1])
  {
    assert Seen(log, View([], d0), d1) == log[d0..d1];
    NothingLeft(log, d0, d1, sent, published, p0, got, queue);
    BatchReturnFirst(log, d0, d1, sent, published, p0);
    var es := log[d0..d1];
    assert es[..|es|] == es;
    var c := AbsorbAll(Start(sent), got);
    ReturnedMeans(sent, got);
    ReturnOrigins(es);
    assert ReturnsOf(es) == ReturnReads(got);
    assert forall id | id in c.returned :: id in ReturnedIds(es);
    SelectOrderIrrelevant(sent, es, |es|, got, ReturnedIds(es));
  }

  lemma {:induction false} AnswerPartitions(
    log: seq<Event>, v: View, d1: nat, sent: map<nat, Id>, got: seq<Read>, success: seq<Id>, failed: seq<Id>,
    early: bool)
    requires OneTagPerId(sent) && v.from <= d1 <= |log|
    requires Answer(log, v, d1, sent, got, success, failed, early)
    ensures Partition(sent, success, failed)
  {
    if early {
      var rest :| ListsValues(rest, AbsorbAll(Start(sent), got).waiting)
        && failed == AbsorbAll(Start(sent), got).failed + rest;
      GiveUpPartitions(sent, got, rest);
    } else {
      FinishPartitions(sent, got, ReturnedIds(Seen(log, v, d1)));
    }
  }

  lemma {:induction false} AnswerCovers(
    log: seq<Event>, v: View, d1: nat, sent: map<nat, Id>, got: seq<Read>, success: seq<Id>, failed: seq<Id>,
    early: bool)
    requires v.from <= d1 <= |log| && Answer(log, v, d1, sent, got, success, failed, early)
    ensures forall id :: id in success || id in failed <==> Sent(sent, id)
  {
    if early {
      var rest :| ListsValues(rest, AbsorbAll(Start(sent), got).waiting)
        && failed == AbsorbAll(Start(sent), got).failed + rest;
      GiveUpCovers(sent, got, rest);
    } else {
      FinishCovers(sent, got, ReturnedIds(Seen(log, v, d1)));
    }
  }

  /** With the tasks that were never published, both lists cover the tasks, each once. */
  lemma {:induction false} WithUnsent(
    sent: map<nat, Id>, ids: seq<Id>, publishedIds: set<Id>, success: seq<Id>, failed: seq<Id>)
    requires forall id :: id in publishedIds <==> Sent(sent, id)
    requires forall tag | tag in sent :: sent[tag] in ids
    requires forall id :: id in success || id in failed <==> Sent(sent, id)
    ensures var all := failed + Without(ids, publishedIds);
      && (forall id :: id in success || id in all <==> id in ids)
      && (Distinct(ids) && Distinct(success + failed) ==> Distinct(success + all))
  {
    WithoutMembers(ids, publishedIds);
    if Distinct(ids) && Distinct(success + failed) {
      SplitConserves(ids, publishedIds);
      CountsOfDistinct(ids);
      forall id ensures multiset(Without(ids, publishedIds))[id] <= 1 {
        assert multiset(Only(ids, publishedIds))[id] + multiset(Without(ids, publishedIds))[id] == multiset(ids)[id];
      }
      DistinctCounts(Without(ids, publishedIds));
      DistinctJoin(success, failed, Without(ids, publishedIds));
    }
  }

  /** The broker acknowledged a message of the batch with this id. */
  ghost predicate Acked(log: seq<Event>, sent: map<nat, Id>, id: Id) {
    exists tag :: tag in sent && sent[tag] == id && Confirm(tag, true) in log
  }

  lemma {:induction false} SuccessIsAcked(sent: map<nat, Id>, got: seq<Read>, log: seq<Event>)
    requires forall c | c in ConfirmReads(got) :: SentConfirm(log, c)
    ensures forall id | id in AbsorbAll(Start(sent), got).success :: Acked(log, sent, id)
  {
    if got != [] {
      var n := |got| - 1;
      assert forall c | c in ConfirmReads(got[..n]) :: c in ConfirmReads(got);
      SuccessIsAcked(sent, got[..n], log);
      WaitingMeans(sent, got[..n]);
      var c := AbsorbAll(Start(sent), got[..n]);
      if got[n].GotConfirm? && got[n].tag in c.waiting && got[n].ack {
        assert Confirmation(got[n].tag, true) in ConfirmReads(got);
        assert SentConfirm(log, Confirmation(got[n].tag, true));
        assert Acked(log, sent, sent[got[n].tag]);
      }
    }
  }

  lemma {:induction false} AnswerIsAcked(
    log: seq<Event>, v: View, d1: nat, sent: map<nat, Id>, got: seq<Read>, success: seq<Id>, failed: seq<Id>,
    early: bool, returnQueue: seq<Option<Id>>, confirmQueue: seq<Confirmation>)
    requires Queued(log, v, d1, got, returnQueue, confirmQueue)
    requires Answer(log, v, d1, sent, got, success, failed, early)
    ensures forall id | id in success :: Acked(Seen(log, v, d1), sent, id)
  {
    ConfirmOrigins(Seen(log, v, d1));
    SuccessIsAcked(sent, got, Seen(log, v, d1));
    WithoutMembers(AbsorbAll(Start(sent), got).success, ReturnedIds(Seen(log, v, d1)));
  }

  function AckedIds(log: seq<Event>, sent: map<nat, Id>): set<Id> {
    set tag | tag in sent && Confirm(tag, true) in log :: sent[tag]
  }

  // ---- one batch ------------------------------------------------------------------------

  function TaskIds(tasks: seq<Task>): (ids: seq<Id>)
    ensures |ids| == |tasks|
  {
    seq(|tasks|, i requires 0 <= i < |tasks| => tasks[i].executionId)
  }

  /** What happens when the publish loop comes to a task: it is sent, or cannot be encoded,
      or the caller's context is cancelled, or the publish fails, whether or not the
      message has reached the broker. */
  datatype Fate = Goes | Unencodable | Cancelled | Refused(reached: bool)

  predicate Stops(fate: Fate) {
    fate.Cancelled? || fate.Refused?
  }

  /** The loop ends at this task, or has gone through all of them. */
  ghost predicate StopsAt(fates: seq<Fate>, stop: nat) {
    stop <= |fates| && (forall i | 0 <= i < stop :: !Stops(fates[i])) && (stop < |fates| ==> Stops(fates[stop]))
  }

  /** The ids of the first n tasks that were sent. */
  function SentIds(ids: seq<Id>, fates: seq<Fate>, n: nat): seq<Id>
    requires n <= |ids| == |fates|
  {
    if n == 0 then [] else SentIds(ids, fates, n - 1) + if fates[n - 1] == Goes then [ids[n - 1]] else []
  }

  lemma {:induction false} SentIdsMean(ids: seq<Id>, fates: seq<Fate>, n: nat)
    requires n <= |ids| == |fates|
    ensures forall i | 0 <= i < n && fates[i] == Goes :: ids[i] in SentIds(ids, fates, n)
    ensures forall id | id in SentIds(ids, fates, n) :: exists i :: 0 <= i < n && fates[i] == Goes && ids[i] == id
    ensures (forall i | 0 <= i < n :: fates[i] == Goes) ==> SentIds(ids, fates, n) == ids[..n]
    ensures Distinct(ids) ==> Distinct(SentIds(ids, fates, n))
  {
    if n > 0 {
      SentIdsMean(ids, fates, n - 1);
      var before := SentIds(ids, fates, n - 1);
      assert SentIds(ids, fates, n) == before + if fates[n - 1] == Goes then [ids[n - 1]] else [];
      hide SentIds;
      assert ids[..n - 1] + [ids[n - 1]] == ids[..n];
      forall i | 0 <= i < n && fates[i] == Goes ensures ids[i] in SentIds(ids, fates, n) {
      }
      assert Distinct(ids) ==> forall i | 0 <= i < n - 1 :: ids[i] != ids[n - 1];
      assert Distinct(ids) ==> ids[n - 1] !in before;
    }
  }

  /** What is waited for are the sequence numbers after p0, with these ids in order. */
  ghost predicate SentAs(sent: map<nat, Id>, ids: seq<Id>, p0: nat) {
    && (forall tag :: tag in sent <==> p0 < tag <= p0 + |ids|)
    && (forall tag | tag in sent :: sent[tag] == ids[tag - p0 - 1])
  }

  lemma {:induction false} SentAsNext(sent: map<nat, Id>, ids: seq<Id>, p0: nat, id: Id)
    requires SentAs(sent, ids, p0)
    ensures SentAs(sent[p0 + |ids| + 1 := id], ids + [id], p0)
  {
  }

  lemma {:induction false} SentAsMeans(sent: map<nat, Id>, old': seq<Id>, ids: seq<Id>, more: seq<Id>)
    requires SentAs(sent, ids, |old'|)
    ensures SentUnder(sent, old' + ids + more, |old'|)
    ensures Batch(sent, old' + ids, |old'|)
    ensures Distinct(ids) ==> OneTagPerId(sent)
    ensures forall id :: id in ids <==> Sent(sent, id)
  {
    forall id | id in ids ensures Sent(sent, id) {
      var k :| 0 <= k < |ids| && ids[k] == id;
      assert |old'| + k + 1 in sent;
    }
  }

  /** The publish loop, with answers arriving all along; `fates` says what happens at each
      task. Each task that is sent takes the next sequence number; a cancellation or a
      failed publish ends the loop, and a failed publish breaks the channel. */
  method PublishAll(pc: Channel, tasks: seq<Task>, fates: seq<Fate>, ghost v: View)
    returns (sent: map<nat, Id>, error: bool, ghost stop: nat)
    requires pc.Valid() && Queued(pc.log, v, pc.delivered, [], pc.returnQueue, pc.confirmQueue)
    requires |fates| == |tasks|
    modifies pc
    ensures pc.Valid() && Queued(pc.log, v, pc.delivered, [], pc.returnQueue, pc.confirmQueue)
    ensures pc.delivered >= old(pc.delivered)
    ensures StopsAt(fates, stop) && (error <==> stop < |tasks|)
    ensures SentAs(sent, SentIds(TaskIds(tasks), fates, stop), |old(pc.published)|)
    ensures pc.published == old(pc.published) + SentIds(TaskIds(tasks), fates, stop)
      + if stop < |tasks| && fates[stop] == Refused(true) then [tasks[stop].executionId] else []
    ensures pc.broken <==> old(pc.broken) || (stop < |tasks| && fates[stop].Refused?)
  {
    var ids := TaskIds(tasks);
    ghost var before := pc.published;
    sent, error := map[], false;
    StartsCollecting(pc, v, map[]);
    hide Collecting, Queued, SentAs, TaskIds, AbsorbAll;
    SentAsNothing(|before|);
    var i := 0;
    while i < |tasks|
      invariant 0 <= i <= |tasks| && Collecting(pc, v, map[], [], map[], {}, [], [])
        && pc.delivered >= old(pc.delivered)
      invariant pc.broken == old(pc.broken) && !error
      invariant forall k | 0 <= k < i :: !Stops(fates[k])
      invariant SentAs(sent, SentIds(ids, fates, i), |before|)
      invariant pc.published == before + SentIds(ids, fates, i)
    {
      sent := PublishOne(pc, ids[i], fates[i], v, sent, before, SentIds(ids, fates, i));
      if Stops(fates[i]) {
        error := true;
        break;
      }
      i := i + 1;
    }
    stop := i;
    CollectingIsValid(pc, v, map[], [], map[], {}, [], []);
  }

  lemma SentAsNothing(p0: nat)
    ensures SentAs(map[], [], p0)
  {
  }

  /** What the loop does at one task, after events have arrived. */
  method PublishOne(
    pc: Channel, id: Id, fate: Fate, ghost v: View, sent: map<nat, Id>, ghost before: seq<Id>, ghost done: seq<Id>)
    returns (sent': map<nat, Id>)
    requires Collecting(pc, v, map[], [], map[], {}, [], [])
    requires SentAs(sent, done, |before|) && pc.published == before + done
    modifies pc
    ensures Collecting(pc, v, map[], [], map[], {}, [], []) && pc.delivered >= old(pc.delivered)
    ensures pc.broken <==> old(pc.broken) || fate.Refused?
    ensures SentAs(sent', done + if fate == Goes then [id] else [], |before|)
    ensures pc.published == before + (done + if fate == Goes then [id] else [])
      + if fate == Refused(true) then [id] else []
  {
    hide Collecting, SentAs;
    Arrivals(pc, v, map[], [], map[], {}, [], []);
    sent' := sent;
    match fate {
      case Cancelled =>
        assert done + [] == done;
      case Refused(reached) =>
        Refuse(pc, id, reached, v);
        assert done + [] == done;
      case Unencodable =>
        assert done + [] == done;
      case Goes =>
        SentAsNext(sent, done, |before|, id);
        var next := |pc.published| + 1;
        Send(pc, id, v);
        sent' := sent[next := id];
    }
  }

  /** A publish that takes the next sequence number. */
  method Send(pc: Channel, id: Id, ghost v: View)
    requires Collecting(pc, v, map[], [], map[], {}, [], [])
    modifies pc`published
    ensures Collecting(pc, v, map[], [], map[], {}, [], []) && pc.published == old(pc.published) + [id]
  {
    pc.published := pc.published + [id];
  }

  /** A publish that failed: the message may have reached the broker all the same. */
  method Refuse(pc: Channel, id: Id, reached: bool, ghost v: View)
    requires Collecting(pc, v, map[], [], map[], {}, [], [])
    modifies pc`published, pc`broken
    ensures Collecting(pc, v, map[], [], map[], {}, [], []) && pc.broken
    ensures pc.published == old(pc.published) + if reached then [id] else []
  {
    if reached {
      pc.published := pc.published + [id];
    }
    pc.broken := true;
  }

  /** What a batch makes of the answer of its collector. */
  lemma {:induction false} BatchAnswer(
    log: seq<Event>, v: View, d1: nat, p0: nat, ids: seq<Id>, sent: map<nat, Id>, got: seq<Read>, success: seq<Id>,
    unconfirmed: seq<Id>, early: bool, returnQueue: seq<Option<Id>>, confirmQueue: seq<Confirmation>)
    requires Queued(log, v, d1, got, returnQueue, confirmQueue) && LeftEarlier(v, p0)
    requires Answer(log, v, d1, sent, got, success, unconfirmed, early)
    requires forall tag | tag in sent :: tag > p0 && sent[tag] in ids
    requires Distinct(ids) ==> OneTagPerId(sent)
    ensures var failed := unconfirmed + Without(ids, set tag | tag in sent :: sent[tag]);
      && (Distinct(ids) ==> Distinct(success + failed))
      && (forall id :: id in success || id in failed <==> id in ids)
      && (forall id | id in success :: id in AckedIds(log[v.from..d1], sent))
  {
    assert v.from <= d1 <= |log|;
    hide Answer, Queued, OneTagPerId, Acked, LeftEarlier, Seen;
    AnswerIsAcked(log, v, d1, sent, got, success, unconfirmed, early, returnQueue, confirmQueue);
    AnswerCovers(log, v, d1, sent, got, success, unconfirmed, early);
    if Distinct(ids) {
      AnswerPartitions(log, v, d1, sent, got, success, unconfirmed, early);
    }
    WithUnsent(sent, ids, set tag | tag in sent :: sent[tag], success, unconfirmed);
    forall id | id in success ensures id in AckedIds(log[v.from..d1], sent) {
      AckedListed(log, v, d1, p0, sent, id);
    }
  }

  lemma {:induction false} AckedListed(log: seq<Event>, v: View, d1: nat, p0: nat, sent: map<nat, Id>, id: Id)
    requires v.from <= d1 <= |log| && LeftEarlier(v, p0) && Acked(Seen(log, v, d1), sent, id)
    requires forall tag | tag in sent :: tag > p0
    ensures id in AckedIds(log[v.from..d1], sent)
  {
    var tag :| tag in sent && sent[tag] == id && Confirm(tag, true) in Seen(log, v, d1);
    SeenLater(log, v, d1, p0, tag, true);
  }

  /** With a broker that keeps its word, on a channel that was clean and is not broken. */
  lemma {:induction false} BatchExit(
    log: seq<Event>, d0: nat, d1: nat, sent: map<nat, Id>, published: seq<Id>, p0: nat, got: seq<Read>,
    returnQueue: seq<Option<Id>>, confirmQueue: seq<Confirmation>, success: seq<Id>, failed: seq<Id>)
    requires Honest(log, published) && Batch(sent, published, p0) && OneTagPerId(sent)
    requires BatchEvents(log, d0, d1, published, p0)
    requires Queued(log, View([], d0), d1, got, returnQueue, confirmQueue)
    requires Answer(log, View([], d0), d1, sent, got, success, failed, false)
    requires if sent == map[] then got == [] else returnQueue == []
    ensures returnQueue == [] && confirmQueue == []
    ensures forall j | d1 <= j < |log| && Tagged(log[j]) :: log[j].tag > |published|
    ensures success == Routable(sent, log[d0..d1])
  {
    hide Honest, Answer;
    if sent == map[] {
      NothingSent(log, d0, d1, published, p0);
    }
    assert Seen(log, View([], d0), d1) == log[d0..d1];
    assert returnQueue == [];
    NormalExit(log, d0, d1, sent, published, p0, got, confirmQueue, success, failed);
  }

  /** Whatever the broker does, a channel that is not broken has its batch confirmed. */
  lemma {:induction false} BatchConfirmed(
    log: seq<Event>, v: View, d1: nat, sent: map<nat, Id>, published: seq<Id>, p0: nat, got: seq<Read>,
    returnQueue: seq<Option<Id>>, confirmQueue: seq<Confirmation>, success: seq<Id>, failed: seq<Id>)
    requires Batch(sent, published, p0) && Queued(log, v, d1, got, returnQueue, confirmQueue) && LeftEarlier(v, p0)
    requires Answer(log, v, d1, sent, got, success, failed, false)
    ensures forall tag: nat | p0 < tag <= |published| :: ConfirmedIn(log, v.from, d1, tag)
  {
    AllConfirmed(log, v, d1, sent, published, p0, got, confirmQueue);
  }

  lemma {:induction false} StillConfirmed(log: seq<Event>, d0: nat, d1: nat, p0: nat, p1: nat)
    requires d0 <= d1 <= |log|
    requires forall tag: nat | 1 <= tag <= p0 :: ConfirmedIn(log, 0, d0, tag)
    requires forall tag: nat | p0 < tag <= p1 :: ConfirmedIn(log, d0, d1, tag)
    ensures forall tag: nat | 1 <= tag <= p1 :: ConfirmedIn(log, 0, d1, tag)
  {
    forall tag: nat | 1 <= tag <= p1 ensures ConfirmedIn(log, 0, d1, tag) {
      assert if tag <= p0 then ConfirmedIn(log, 0, d0, tag) else ConfirmedIn(log, d0, d1, tag);
      var i: nat :| 0 <= i < d1 && log[i].Confirm? && log[i].tag == tag;
    }
  }

  lemma {:induction false} AckIsConfirm(got: seq<Read>, tag: nat, id: Id)
    requires AckBeforeReturn(got, tag, id)
    ensures ConfirmRead(got, tag)
  {
  }

  /** What a batch that starts now sees: the queues as they are, and what is delivered from
      now on. */
  ghost function ViewOf(pc: Channel): View
    reads pc
  {
    View(Leftover(pc.returnQueue, pc.confirmQueue), pc.delivered)
  }

  /** Which ids of a batch end in success, by what was read (`got`) and seen: on an early exit
      those with an ack that was read before any return of the id; on the normal exit
      those whose first confirm was an ack and that were not returned at all. */
  ghost predicate Reported(
    log: seq<Event>, v: View, d1: nat, sent: map<nat, Id>, got: seq<Read>, early: bool, success: seq<Id>)
    requires v.from <= d1 <= |log|
  {
    && (early <==> exists tag :: tag in sent && !ConfirmRead(got, tag))
    && (early ==> forall id :: id in success <==> SomeAckBeforeReturn(sent, got, id))
    && (!early ==> forall id :: id in success <==> SomeFirstAck(sent, got, id) && !ReturnSeen(Seen(log, v, d1), id))
  }

  lemma {:induction false} AnswerReports(
    log: seq<Event>, v: View, d1: nat, sent: map<nat, Id>, got: seq<Read>, success: seq<Id>, failed: seq<Id>,
    early: bool, returnQueue: seq<Option<Id>>, confirmQueue: seq<Confirmation>)
    requires Queued(log, v, d1, got, returnQueue, confirmQueue)
    requires Answer(log, v, d1, sent, got, success, failed, early)
    ensures Reported(log, v, d1, sent, got, early, success)
  {
    var es := Seen(log, v, d1);
    WaitingMeans(sent, got);
    SuccessMeans(sent, got);
    ReadReturns(log, v, d1, got, returnQueue, confirmQueue);
    ReturnSeenMeans(es);
    WithoutMembers(AbsorbAll(Start(sent), got).success, ReturnedIds(es));
    hide Queued, Seen, ReturnedIds, ReturnSeen, ConfirmRead, AckReadAt, HasConfirm;
    forall tag | tag in sent ensures HasConfirm(ConfirmReads(got), tag) <==> ConfirmRead(got, tag) {
      ConfirmReadMeans(got, tag);
    }
    if early {
      var tag :| tag in AbsorbAll(Start(sent), got).waiting;
      assert tag in sent && !ConfirmRead(got, tag);
    }
    forall id ensures SomeAckBeforeReturn(sent, got, id) ==> SomeFirstAck(sent, got, id)
      ensures SomeFirstAck(sent, got, id) && !ReturnSeen(es, id) ==> SomeAckBeforeReturn(sent, got, id)
    {
      AckNotReturned(sent, got, id);
    }
  }

  /** Every id that was read as returned was seen as returned. */
  lemma {:induction false} ReadReturns(
    log: seq<Event>, v: View, d1: nat, got: seq<Read>, returnQueue: seq<Option<Id>>, confirmQueue: seq<Confirmation>)
    requires Queued(log, v, d1, got, returnQueue, confirmQueue)
    ensures forall id, k: nat | k <= |got| && GotReturn(Some(id)) in got[..k] :: ReturnSeen(Seen(log, v, d1), id)
  {
    var es := Seen(log, v, d1);
    ReturnOrigins(es);
    ReturnSeenMeans(es);
    ReturnsRead(got);
    forall id, k: nat | k <= |got| && GotReturn(Some(id)) in got[..k] ensures ReturnSeen(es, id) {
      assert GotReturn(Some(id)) in got && Some(id) in ReturnReads(got);
    }
  }

  lemma {:induction false} ReturnsRead(got: seq<Read>)
    ensures forall id | GotReturn(id) in got :: id in ReturnReads(got)
  {
    if got != [] {
      ReturnsRead(got[..|got| - 1]);
      assert got == got[..|got| - 1] + [got[|got| - 1]];
    }
  }

  /** The course of a batch, which its callers do not see: the sequence numbers it waited
      for, the task at which the publish loop ended, what it read, and whether and after
      how many rounds it gave up. */
  datatype Trace = Trace(sent: map<nat, Id>, stop: nat, got: seq<Read>, early: bool, rounds: nat)

  /** The trace of a batch that saw v on a channel on which p0 was published before. */
  ghost predicate Traced(
    pc: Channel, v: View, p0: seq<Id>, tasks: seq<Task>, fates: seq<Fate>, patience: nat, mayCancel: bool, tr: Trace)
    reads pc
  {
    && pc.Valid() && |fates| == |tasks| && StopsAt(fates, tr.stop)
    && var ids := SentIds(TaskIds(tasks), fates, tr.stop);
    && var refused := tr.stop < |tasks| && fates[tr.stop].Refused?;
    && SentAs(tr.sent, ids, |p0|)
    && pc.published == p0 + ids + (if refused && fates[tr.stop].reached then [tasks[tr.stop].executionId] else [])
    && Queued(pc.log, v, pc.delivered, tr.got, pc.returnQueue, pc.confirmQueue)
    && (pc.broken <==> tr.early || refused)
    && (tr.early ==> tr.rounds <= patience && MayGiveUp(pc, mayCancel, tr.rounds, patience))
  }

  /** BatchRun on the channel that borrow returned (null: no channel). On every exit the
      two lists hold each task id exactly once, and success holds exactly the ids whose
      acknowledgement the trace of the batch tells (Reported), whatever an earlier batch
      left on the channel; there is an error exactly if the publish loop was cut short or
      some id failed. If the channel is not broken afterwards, every message of the batch
      is confirmed; if moreover it was clean and the broker keeps its word, success holds
      exactly the acknowledged ids that were not returned, and the channel is clean again. */
  method BatchRun(pc: Channel?, tasks: seq<Task>, fates: seq<Fate>, patience: nat, mayCancel: bool)
    returns (success: seq<Id>, failed: seq<Id>, error: bool, ghost tr: Trace)
    requires pc != null ==> pc.Valid() && !pc.broken
    requires |fates| == |tasks|
    modifies pc
    ensures Distinct(TaskIds(tasks)) ==> Distinct(success + failed)
    ensures forall id :: (id in success || id in failed) <==> id in TaskIds(tasks)
    ensures pc == null ==> success == [] && error == (tasks != [])
    ensures pc != null ==> pc.Valid() && pc.delivered >= old(pc.delivered)
    ensures tasks == [] ==> !error
    ensures pc != null && tasks != [] ==>
      && Traced(pc, old(ViewOf(pc)), old(pc.published), tasks, fates, patience, mayCancel, tr)
      && (error <==> tr.stop < |tasks| || failed != [])
    ensures pc != null && tasks != [] ==>
      Reported(pc.log, old(ViewOf(pc)), pc.delivered, tr.sent, tr.got, tr.early, success)
    ensures Protocol.HonestResult(TaskIds(tasks), RunResult(success, failed, error),
      if pc == null then {} else AckedIds(pc.log[old(pc.delivered)..pc.delivered], tr.sent))
    ensures pc != null && !pc.broken ==> forall tag: nat | |old(pc.published)| < tag <= |pc.published| ::
      ConfirmedIn(pc.log, old(pc.delivered), pc.delivered, tag)
    ensures pc != null && !pc.broken && old(pc.Unresolved()) == {} ==> pc.Unresolved() == {}
    ensures pc != null && old(pc.Clean()) && !pc.broken && Honest(pc.log, pc.published) && Distinct(TaskIds(tasks)) ==>
      pc.Clean() && success == Routable(tr.sent, pc.log[old(pc.delivered)..pc.delivered])
  {
    var ids := TaskIds(tasks);
    tr := Trace(map[], 0, [], false, 0);
    if |tasks| == 0 {
      return [], [], false, tr;
    }
    if pc == null {
      return [], ids, true, tr;
    }
    ghost var d0, p0 := pc.delivered, |pc.published|;
    success, failed, error, tr := RunOn(pc, ids, tasks, fates, patience, mayCancel);
    if !pc.broken && old(pc.Unresolved()) == {} {
      forall tag: nat | 1 <= tag <= p0 ensures ConfirmedIn(pc.log, 0, d0, tag) {
        assert tag !in old(pc.Unresolved());
      }
      hide ConfirmedIn;
      StillConfirmed(pc.log, d0, pc.delivered, p0, |pc.published|);
    }
  }

  /** The view of a batch that starts now. */
  lemma {:induction false} StartView(pc: Channel)
    requires pc.Valid()
    ensures var v := ViewOf(pc);
      && LeftEarlier(v, |pc.published|) && (pc.Clean() ==> v.left == [])
      && Queued(pc.log, v, pc.delivered, [], pc.returnQueue, pc.confirmQueue)
  {
    LeftoverIs(pc.returnQueue, pc.confirmQueue);
    QueuedAtStart(pc.log, pc.delivered, pc.returnQueue, pc.confirmQueue);
    hide Queued, ReturnsOf, ConfirmsOf;
  }

  /** What the publish loop has sent, as the rest of the batch uses it. */
  lemma {:induction false} SentMeans(
    sent: map<nat, Id>, before: seq<Id>, ids: seq<Id>, fates: seq<Fate>, stop: nat, more: seq<Id>)
    requires stop <= |ids| == |fates| && SentAs(sent, SentIds(ids, fates, stop), |before|)
    ensures var published := before + SentIds(ids, fates, stop) + more;
      && SentUnder(sent, published, |before|) && |published| >= |before|
      && (more == [] ==> Batch(sent, published, |before|))
    ensures forall tag | tag in sent :: tag > |before| && sent[tag] in ids
    ensures Distinct(ids) ==> OneTagPerId(sent)
  {
    SentAsMeans(sent, before, SentIds(ids, fates, stop), more);
    SentIdsMean(ids, fates, stop);
    hide SentAs, SentIds;
    assert before + SentIds(ids, fates, stop) + [] == before + SentIds(ids, fates, stop);
    forall tag | tag in sent ensures sent[tag] in ids {
      assert Sent(sent, sent[tag]);
    }
  }

  /** The batch once it has its channel. */
  method RunOn(pc: Channel, ids: seq<Id>, tasks: seq<Task>, fates: seq<Fate>, patience: nat, mayCancel: bool)
    returns (success: seq<Id>, failed: seq<Id>, error: bool, ghost tr: Trace)
    requires pc.Valid() && !pc.broken && ids == TaskIds(tasks) && |fates| == |tasks|
    modifies pc
    ensures Distinct(ids) ==> Distinct(success + failed)
    ensures forall id :: (id in success || id in failed) <==> id in ids
    ensures pc.Valid() && pc.delivered >= old(pc.delivered) && |pc.published| >= |old(pc.published)|
    ensures Traced(pc, old(ViewOf(pc)), old(pc.published), tasks, fates, patience, mayCancel, tr)
    ensures error <==> tr.stop < |tasks| || failed != []
    ensures Reported(pc.log, old(ViewOf(pc)), pc.delivered, tr.sent, tr.got, tr.early, success)
    ensures forall id | id in success :: id in AckedIds(pc.log[old(pc.delivered)..pc.delivered], tr.sent)
    ensures !pc.broken ==> forall tag: nat | |old(pc.published)| < tag <= |pc.published| ::
      ConfirmedIn(pc.log, old(pc.delivered), pc.delivered, tag)
    ensures old(pc.Clean()) && !pc.broken && Honest(pc.log, pc.published) && Distinct(ids) ==>
      pc.Clean() && success == Routable(tr.sent, pc.log[old(pc.delivered)..pc.delivered])
  {
    hide LeftEarlier, Queued, Answer, ConfirmedIn, Honest, OneTagPerId, AckedIds, Routable, Batch, SentUnder;
    hide Reported, SentAs, SentIds, StopsAt;
    ghost var v, before := ViewOf(pc), pc.published;
    StartView(pc);
    var tags: map<nat, Id>;
    ghost var stop;
    tags, error, stop := PublishAll(pc, tasks, fates, v);
    assert stop <= |fates| by {
      StopsWithin(fates, stop);
    }
    SentMeans(tags, before, ids, fates, stop,
      if stop < |tasks| && fates[stop] == Refused(true) then [tasks[stop].executionId] else []);
    var publishedIds := set tag | tag in tags :: tags[tag];
    var kept, unconfirmed, early, got, rounds := WaitConfirms(pc, tags, patience, mayCancel, v);
    tr := Trace(tags, stop, got, early, rounds);
    success := kept.data[..kept.len];
    failed := AppendUnsent(ids, publishedIds, unconfirmed);
    error := error || |failed| > 0;
    IsTraced(pc, v, before, tasks, fates, patience, mayCancel, tr);
    BatchEnds(pc, v, |before|, ids, tr, success, unconfirmed);
  }

  lemma IsTraced(
    pc: Channel, v: View, p0: seq<Id>, tasks: seq<Task>, fates: seq<Fate>, patience: nat, mayCancel: bool, tr: Trace)
    requires pc.Valid() && |fates| == |tasks| && StopsAt(fates, tr.stop)
    requires SentAs(tr.sent, SentIds(TaskIds(tasks), fates, tr.stop), |p0|)
    requires pc.published == p0 + SentIds(TaskIds(tasks), fates, tr.stop)
      + if tr.stop < |tasks| && fates[tr.stop] == Refused(true) then [tasks[tr.stop].executionId] else []
    requires Queued(pc.log, v, pc.delivered, tr.got, pc.returnQueue, pc.confirmQueue)
    requires pc.broken <==> tr.early || (tr.stop < |tasks| && fates[tr.stop].Refused?)
    requires tr.early ==> tr.rounds <= patience && MayGiveUp(pc, mayCancel, tr.rounds, patience)
    ensures Traced(pc, v, p0, tasks, fates, patience, mayCancel, tr)
  {
    hide SentAs, SentIds, Queued;
  }

  /** What the lists of a batch say when its confirms have been collected. */
  lemma {:induction false} BatchEnds(
    pc: Channel, v: View, p0: nat, ids: seq<Id>, tr: Trace, success: seq<Id>, unconfirmed: seq<Id>)
    requires pc.Valid() && Queued(pc.log, v, pc.delivered, tr.got, pc.returnQueue, pc.confirmQueue)
    requires Answer(pc.log, v, pc.delivered, tr.sent, tr.got, success, unconfirmed, tr.early)
    requires LeftEarlier(v, p0) && p0 <= |pc.published| && (tr.early ==> pc.broken)
    requires !pc.broken ==> Batch(tr.sent, pc.published, p0)
    requires !tr.early ==> (if tr.sent == map[] then tr.got == [] else pc.returnQueue == [])
    requires forall tag | tag in tr.sent :: tag > p0 && tr.sent[tag] in ids
    requires Distinct(ids) ==> OneTagPerId(tr.sent)
    ensures var failed := unconfirmed + Without(ids, set tag | tag in tr.sent :: tr.sent[tag]);
      && (Distinct(ids) ==> Distinct(success + failed))
      && (forall id :: (id in success || id in failed) <==> id in ids)
    ensures forall id | id in success :: id in AckedIds(pc.log[v.from..pc.delivered], tr.sent)
    ensures Reported(pc.log, v, pc.delivered, tr.sent, tr.got, tr.early, success)
    ensures !pc.broken ==> forall tag: nat | p0 < tag <= |pc.published| ::
      ConfirmedIn(pc.log, v.from, pc.delivered, tag)
    ensures (!pc.broken && v.left == [] && BatchEvents(pc.log, v.from, pc.delivered, pc.published, p0)
      && Honest(pc.log, pc.published) && Distinct(ids)) ==>
      pc.Clean() && success == Routable(tr.sent, pc.log[v.from..pc.delivered])
  {
    hide LeftEarlier, Queued, Answer, ConfirmedIn, Honest, OneTagPerId, AckedIds, Routable, Batch, Reported;
    hide BatchEvents;
    var log, d1, sent, got := pc.log, pc.delivered, tr.sent, tr.got;
    BatchAnswer(log, v, d1, p0, ids, sent, got, success, unconfirmed, tr.early, pc.returnQueue, pc.confirmQueue);
    AnswerReports(log, v, d1, sent, got, success, unconfirmed, tr.early, pc.returnQueue, pc.confirmQueue);
    if !pc.broken {
      BatchConfirmed(log, v, d1, sent, pc.published, p0, got, pc.returnQueue, pc.confirmQueue, success, unconfirmed);
      if v.left == [] && BatchEvents(log, v.from, d1, pc.published, p0) && Honest(log, pc.published) && Distinct(ids) {
        assert v == View([], v.from);
        BatchExit(log, v.from, d1, sent, pc.published, p0, got, pc.returnQueue, pc.confirmQueue, success, unconfirmed);
      }
    }
  }

  lemma StopsWithin(fates: seq<Fate>, stop: nat)
    requires StopsAt(fates, stop)
    ensures stop <= |fates|
  {
  }

  /** Tasks that were never published are failed. */
  method AppendUnsent(ids: seq<Id>, publishedIds: set<Id>, failed: seq<Id>) returns (out: seq<Id>)
    ensures out == failed + Without(ids, publishedIds)
  {
    out := failed;
    for i := 0 to |ids|
      invariant out == failed + Without(ids[..i], publishedIds)
    {
      assert ids[..i + 1][..i] == ids[..i];
      if ids[i] !in publishedIds {
        out := out + [ids[i]];
      }
    }
    assert ids[..|ids|] == ids;
  }

  /** Execute: a batch of one. It succeeds exactly if the message was sent, its first confirm
      was an ack, and no return of it was seen before the batch ended; the broker has then
      acknowledged it, and on a clean channel that stays usable it was routable too. */
  method Execute(pc: Channel?, task: Task, fate: Fate, patience: nat, mayCancel: bool)
    returns (ok: bool, ghost tr: Trace)
    requires pc != null ==> pc.Valid() && !pc.broken
    modifies pc
    ensures ok ==> pc != null
    ensures pc != null ==> pc.Valid() && pc.delivered >= old(pc.delivered)
    ensures pc != null ==> Traced(pc, old(ViewOf(pc)), old(pc.published), [task], [fate], patience, mayCancel, tr)
    ensures pc != null ==> (ok <==>
      && fate == Goes && !tr.early && FirstReadAck(tr.got, |old(pc.published)| + 1)
      && !ReturnSeen(Seen(pc.log, old(ViewOf(pc)), pc.delivered), task.executionId))
    ensures ok ==> task.executionId in AckedIds(pc.log[old(pc.delivered)..pc.delivered], tr.sent)
    ensures ok && old(pc != null && pc.Clean()) && !pc.broken && Honest(pc.log, pc.published) ==>
      pc.Clean() && !ReturnSeen(pc.log[old(pc.delivered)..pc.delivered], task.executionId)
  {
    hide Traced, Reported, FirstReadAck, AckedIds, ReturnSeen, Seen, Honest, Channel.Clean, ConfirmedIn, Routable;
    hide Channel.Valid, TaskIds;
    var success, failed, error;
    success, failed, error, tr := BatchRun(pc, [task], [fate], patience, mayCancel);
    ok := !error && failed == [];
    OneId(task);
    if pc != null {
      OneTask(task.executionId, success, failed, TaskIds([task]));
      TracedWithin(pc, old(ViewOf(pc)), old(pc.published), [task], [fate], patience, mayCancel, tr);
      OneSent(pc, old(ViewOf(pc)), old(pc.published), task, fate, patience, mayCancel, tr, success);
    }
    if ok && old(pc.Clean()) && !pc.broken && Honest(pc.log, pc.published) {
      RoutableUnreturned(tr.sent, pc.log[old(pc.delivered)..pc.delivered], task.executionId);
    }
  }

  lemma OneId(task: Task)
    ensures TaskIds([task]) == [task.executionId] && Distinct(TaskIds([task]))
  {
  }

  lemma RoutableUnreturned(sent: map<nat, Id>, es: seq<Event>, id: Id)
    requires id in Routable(sent, es)
    ensures !ReturnSeen(es, id)
  {
    WithoutMembers(AckOrder(sent, ConfirmsOf(es)), ReturnedIds(es));
    ReturnSeenMeans(es);
  }

  lemma OneTask(id: Id, success: seq<Id>, failed: seq<Id>, ids: seq<Id>)
    requires ids == [id] && Distinct(success + failed)
    requires forall x :: (x in success || x in failed) <==> x in ids
    ensures (id in success) != (id in failed)
    ensures failed == [] <==> id in success
  {
    assert ids[0] == id;
    forall i, j | 0 <= i < |success| && 0 <= j < |failed| ensures success[i] != failed[j] {
      assert (success + failed)[i] != (success + failed)[|success| + j];
    }
    if failed != [] {
      var x := failed[0];
      assert x in success || x in failed;
      assert x == id;
    }
  }

  lemma {:induction false} OneSent(
    pc: Channel, v: View, p0: seq<Id>, task: Task, fate: Fate, patience: nat, mayCancel: bool, tr: Trace,
    success: seq<Id>)
    requires Traced(pc, v, p0, [task], [fate], patience, mayCancel, tr) && v.from <= pc.delivered <= |pc.log|
    requires Reported(pc.log, v, pc.delivered, tr.sent, tr.got, tr.early, success)
    requires forall id | id in success :: id == task.executionId
    ensures tr.stop < 1 ==> task.executionId !in success
    ensures task.executionId in success <==>
      && fate == Goes && !tr.early && FirstReadAck(tr.got, |p0| + 1)
      && !ReturnSeen(Seen(pc.log, v, pc.delivered), task.executionId)
  {
    hide FirstReadAck, AckBeforeReturn, ReturnSeen, Seen, Queued, Channel.Valid, MayGiveUp, ConfirmRead;
    hide SentAs, StopsAt, SentIds, TaskIds;
    var id := task.executionId;
    OneId(task);
    OneSentAs(|p0|, id, fate, tr);
    if fate == Goes && AckBeforeReturn(tr.got, |p0| + 1, id) {
      AckIsConfirm(tr.got, |p0| + 1, id);
    }
  }

  lemma {:induction false} OneSentAs(p0: nat, id: Id, fate: Fate, tr: Trace)
    requires StopsAt([fate], tr.stop) && SentAs(tr.sent, SentIds([id], [fate], tr.stop), p0)
    ensures tr.stop == if Stops(fate) then 0 else 1
    ensures tr.sent == if fate == Goes then map[p0 + 1 := id] else map[]
  {
    assert [fate][0] == fate;
    assert SentIds([id], [fate], 0) == [];
    assert SentIds([id], [fate], tr.stop) == if fate == Goes then [id] else [];
  }

  lemma TracedWithin(
    pc: Channel, v: View, p0: seq<Id>, tasks: seq<Task>, fates: seq<Fate>, patience: nat, mayCancel: bool, tr: Trace)
    requires Traced(pc, v, p0, tasks, fates, patience, mayCancel, tr)
    ensures v.from <= pc.delivered <= |pc.log|
  {
  }
}
