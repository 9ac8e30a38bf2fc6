/** Publisher confirms of one batch: what the collector makes of the events it reads,
    and why the order in which it reads its two queues does not matter. */
module Confirms {
  import opened Domain
  import opened BatchResult

  /** What the broker sends on a channel: the return of an unroutable message, the
      confirm of a sequence number, or the end of a stream. A return names the message
      by its id only; `tag` is the sequence number it belongs to. */
  datatype Event =
    | Return(tag: nat, id: Option<Id>)
    | Confirm(tag: nat, ack: bool)
    | EndReturns
    | EndConfirms
    | EndChannel

  /** What the collector takes from one of its queues. */
  datatype Read = GotReturn(id: Option<Id>) | GotConfirm(tag: nat, ack: bool)

  /** The collector: sequence numbers still waiting, ids seen returned, both lists. */
  datatype Collector = Collector(waiting: map<nat, Id>, returned: set<Id>, success: seq<Id>, failed: seq<Id>)

  function Start(sent: map<nat, Id>): Collector {
    Collector(sent, {}, [], [])
  }

  function Absorb(c: Collector, r: Read): Collector {
    match r
    case GotReturn(None) => c
    case GotReturn(Some(id)) => c.(returned := c.returned + {id})
    case GotConfirm(tag, ack) =>
      if tag !in c.waiting then c
      else
        var id := c.waiting[tag];
        var rest := c.(waiting := c.waiting - {tag});
        if ack && id !in c.returned then rest.(success := rest.success + [id])
        else rest.(failed := rest.failed + [id])
  }

  function AbsorbAll(c: Collector, got: seq<Read>): Collector {
    if got == [] then c else Absorb(AbsorbAll(c, got[..|got| - 1]), got[|got| - 1])
  }

  /** Ids that move from success to failed in the last pass, each at most once. */
  function Moved(success: seq<Id>, returned: set<Id>, failed: seq<Id>): seq<Id> {
    if success == [] then []
    else
      var rest := Moved(success[..|success| - 1], returned, failed);
      var id := success[|success| - 1];
      if id in returned && id !in failed && id !in rest then rest + [id] else rest
  }

  /** The normal exit: `returned` also holds the ids found by the final drain. */
  function Finish(c: Collector, returned: set<Id>): RunResult {
    RunResult(Without(c.success, returned), c.failed + Moved(c.success, returned, c.failed), false)
  }

  /** An early exit appends whatever is still waiting, in some order. */
  ghost predicate ListsValues(rest: seq<Id>, m: map<nat, Id>) {
    exists order: seq<nat> :: ListedAs(rest, m, order)
  }

  ghost predicate ListedAs(rest: seq<Id>, m: map<nat, Id>, order: seq<nat>) {
    && |order| == |rest|
    && (forall i, j | 0 <= i < j < |order| :: order[i] != order[j])
    && (forall tag :: tag in order <==> tag in m)
    && (forall i | 0 <= i < |order| :: order[i] in m && rest[i] == m[order[i]])
  }

  // ---- where each id is placed ------------------------------------------------------

  ghost predicate OneTagPerId(sent: map<nat, Id>) {
    forall a, b | a in sent && b in sent && sent[a] == sent[b] :: a == b
  }

  /** Where a message goes, said without the collector: nowhere until its first
      confirm is read, and then to success exactly if that confirm is an ack and no
      return of the id was read before it. */
  function Place(got: seq<Read>, tag: nat, id: Id): Option<bool> {
    if got == [] then None
    else
      var n := |got| - 1;
      var before := Place(got[..n], tag, id);
      if before.Some? then before
      else if got[n].GotConfirm? && got[n].tag == tag then Some(got[n].ack && GotReturn(Some(id)) !in got[..n])
      else None
  }

  ghost predicate PlacedAt(c: Collector, sent: map<nat, Id>, got: seq<Read>, tag: nat)
    requires tag in sent
  {
    var place := Place(got, tag, sent[tag]);
    && (place == None <==> tag in c.waiting)
    && (place == Some(true) <==> sent[tag] in c.success)
    && (place == Some(false) <==> sent[tag] in c.failed)
  }

  ghost predicate Placed(c: Collector, sent: map<nat, Id>, got: seq<Read>) {
    && (forall tag | tag in sent :: PlacedAt(c, sent, got, tag))
    && (forall tag | tag in c.waiting :: tag in sent && c.waiting[tag] == sent[tag])
    && (forall id | id in c.success || id in c.failed :: exists tag :: tag in sent && sent[tag] == id)
    && (forall id :: id in c.returned <==> GotReturn(Some(id)) in got)
    && Distinct(c.success + c.failed)
  }

  lemma {:induction false} CollectorPlaces(sent: map<nat, Id>, got: seq<Read>)
    requires OneTagPerId(sent)
    ensures Placed(AbsorbAll(Start(sent), got), sent, got)
  {
    if got != [] {
      var n := |got| - 1;
      CollectorPlaces(sent, got[..n]);
      assert got == got[..n] + [got[n]];
      var c := AbsorbAll(Start(sent), got[..n]);
      match got[n]
      case GotReturn(id) => ReturnPlaces(sent, got[..n], c, id);
      case GotConfirm(tag, ack) => ConfirmPlaces(sent, got[..n], c, tag, ack);
    } else {
      forall tag | tag in sent ensures PlacedAt(Start(sent), sent, got, tag) {
      }
    }
  }

  lemma {:induction false} ReturnPlaces(sent: map<nat, Id>, got: seq<Read>, c: Collector, id: Option<Id>)
    requires Placed(c, sent, got)
    ensures Placed(Absorb(c, GotReturn(id)), sent, got + [GotReturn(id)])
  {
  }

  lemma {:induction false} ConfirmPlaces(sent: map<nat, Id>, got: seq<Read>, c: Collector, tag: nat, ack: bool)
    requires OneTagPerId(sent) && Placed(c, sent, got)
    ensures Placed(Absorb(c, GotConfirm(tag, ack)), sent, got + [GotConfirm(tag, ack)])
  {
    var r := GotConfirm(tag, ack);
    var c', got' := Absorb(c, r), got + [r];
    assert got'[..|got|] == got;
    if tag in c.waiting {
      assert PlacedAt(c, sent, got, tag);
      assert forall i | 0 <= i < |c'.success + c'.failed| ::
        (c'.success + c'.failed)[i] in c'.success || (c'.success + c'.failed)[i] in c'.failed;
      OneMore(c.success, c.failed, sent[tag]);
    }
    forall t | t in sent ensures PlacedAt(c', sent, got', t) {
      assert PlacedAt(c, sent, got, t);
      assert t != tag && tag in sent ==> sent[t] != sent[tag];
      assert Place(got', t, sent[t]) ==
        if Place(got, t, sent[t]).Some? then Place(got, t, sent[t])
        else if t == tag then Some(ack && sent[t] !in c.returned) else None;
    }
  }

  lemma {:induction false} OneMore(a: seq<Id>, b: seq<Id>, id: Id)
    requires Distinct(a + b) && id !in a && id !in b
    ensures Distinct(a + [id] + b) && Distinct(a + (b + [id]))
  {
    CountsOfDistinct(a + b);
    assert multiset(a + [id] + b) == multiset(a + b) + multiset{id};
    assert multiset(a + (b + [id])) == multiset(a + b) + multiset{id};
    assert multiset(a + b)[id] == 0;
    DistinctCounts(a + [id] + b);
    DistinctCounts(a + (b + [id]));
  }

  // ---- no id is lost or listed twice -------------------------------------------------

  ghost predicate Sent(sent: map<nat, Id>, id: Id) {
    exists tag :: tag in sent && sent[tag] == id
  }

  /** Both lists together hold every sent id exactly once. */
  ghost predicate Partition(sent: map<nat, Id>, success: seq<Id>, failed: seq<Id>) {
    && Distinct(success + failed)
    && forall id :: (id in success || id in failed) <==> Sent(sent, id)
  }

  lemma {:induction false} MovedIsOnly(success: seq<Id>, returned: set<Id>, failed: seq<Id>)
    requires Distinct(success + failed)
    ensures Moved(success, returned, failed) == Only(success, returned)
    ensures forall id | id in Moved(success, returned, failed) :: id in success
  {
    if success != [] {
      var n := |success| - 1;
      assert forall i | 0 <= i < n :: (success + failed)[i] == success[..n][i];
      CountsOfDistinct(success + failed);
      assert success == success[..n] + [success[n]];
      assert multiset(success[..n] + failed) + multiset{success[n]} == multiset(success + failed);
      forall id ensures multiset(success[..n] + failed)[id] <= 1 {
        assert multiset(success + failed)[id] <= 1;
      }
      DistinctCounts(success[..n] + failed);
      MovedIsOnly(success[..n], returned, failed);
      assert multiset(success + failed)[success[n]] <= 1;
      assert success[n] !in failed && success[n] !in success[..n];
    }
  }

  /** The last pass only moves ids: nothing is lost, nothing listed twice. */
  lemma {:induction false} FinishPartitions(sent: map<nat, Id>, got: seq<Read>, returned: set<Id>)
    requires OneTagPerId(sent)
    ensures var c := AbsorbAll(Start(sent), got);
      var r := Finish(c, returned);
      && (c.waiting == map[] ==> Partition(sent, r.success, r.failed))
      && (forall id :: id in r.success <==> id in c.success && id !in returned)
  {
    var c := AbsorbAll(Start(sent), got);
    var r := Finish(c, returned);
    CollectorPlaces(sent, got);
    MovedIsOnly(c.success, returned, c.failed);
    SplitConserves(c.success, returned);
    CountsOfDistinct(c.success + c.failed);
    assert multiset(r.success + r.failed) == multiset(c.success + c.failed);
    DistinctCounts(r.success + r.failed);
    OnlyMembers(c.success, returned);
    WithoutMembers(c.success, returned);
    if c.waiting == map[] {
      AllPlaced(sent, got, c);
    }
  }

  lemma {:induction false} AllPlaced(sent: map<nat, Id>, got: seq<Read>, c: Collector)
    requires Placed(c, sent, got)
    ensures forall id :: id in c.success || id in c.failed ==> Sent(sent, id)
    ensures forall tag | tag in sent && tag !in c.waiting :: sent[tag] in c.success || sent[tag] in c.failed
  {
    forall tag | tag in sent && tag !in c.waiting ensures sent[tag] in c.success || sent[tag] in c.failed {
      assert PlacedAt(c, sent, got, tag);
      var place := Place(got, tag, sent[tag]);
      assert place.Some?;
      if place.value {
        assert place == Some(true);
      } else {
        assert place == Some(false);
      }
    }
  }

  /** An early exit fails everything that still waits. */
  lemma {:induction false} GiveUpPartitions(sent: map<nat, Id>, got: seq<Read>, rest: seq<Id>)
    requires OneTagPerId(sent) && ListsValues(rest, AbsorbAll(Start(sent), got).waiting)
    ensures var c := AbsorbAll(Start(sent), got); Partition(sent, c.success, c.failed + rest)
  {
    var c := AbsorbAll(Start(sent), got);
    CollectorPlaces(sent, got);
    AllPlaced(sent, got, c);
    var order: seq<nat> :| ListedAs(rest, c.waiting, order);
    forall id | id in rest ensures Sent(sent, id) && id !in c.success && id !in c.failed {
      var i :| 0 <= i < |rest| && rest[i] == id;
      assert PlacedAt(c, sent, got, order[i]);
    }
    forall i, j | 0 <= i < j < |rest| ensures rest[i] != rest[j] {
      assert order[i] != order[j] && order[i] in sent && order[j] in sent;
      assert rest[i] == sent[order[i]] && rest[j] == sent[order[j]];
    }
    forall tag | tag in c.waiting ensures sent[tag] in rest {
      var i :| 0 <= i < |order| && order[i] == tag;
      assert rest[i] == sent[tag];
    }
    DistinctJoin(c.success, c.failed, rest);
    assert forall id :: Sent(sent, id) ==> id in c.success || id in c.failed + rest;
  }

  lemma {:induction false} DistinctJoin(a: seq<Id>, b: seq<Id>, d: seq<Id>)
    requires Distinct(a + b) && Distinct(d) && forall id | id in d :: id !in a && id !in b
    ensures Distinct(a + (b + d))
  {
    var all := a + (b + d);
    forall i, j | 0 <= i < j < |all| ensures all[i] != all[j] {
      assert all[i] == if i < |a + b| then (a + b)[i] else d[i - |a + b|];
      assert all[j] == if j < |a + b| then (a + b)[j] else d[j - |a + b|];
      assert i < |a + b| ==> (a + b)[i] in a || (a + b)[i] in b;
    }
  }

  /** The same without assuming distinct ids: nothing sent is forgotten and nothing else
      is reported. */
  ghost predicate Covers(sent: map<nat, Id>, c: Collector) {
    && (forall tag | tag in sent && tag !in c.waiting :: sent[tag] in c.success || sent[tag] in c.failed)
    && (forall tag | tag in c.waiting :: tag in sent && c.waiting[tag] == sent[tag])
    && (forall id | id in c.success || id in c.failed :: Sent(sent, id))
  }

  lemma {:induction false} CollectorCovers(sent: map<nat, Id>, got: seq<Read>)
    ensures Covers(sent, AbsorbAll(Start(sent), got))
  {
    if got != [] {
      CollectorCovers(sent, got[..|got| - 1]);
    }
  }

  lemma {:induction false} MovedMembers(success: seq<Id>, returned: set<Id>, failed: seq<Id>)
    ensures forall id :: id in Moved(success, returned, failed) <==> id in success && id in returned && id !in failed
  {
    if success != [] {
      var n := |success| - 1;
      MovedMembers(success[..n], returned, failed);
      assert success == success[..n] + [success[n]];
    }
  }

  lemma {:induction false} FinishCovers(sent: map<nat, Id>, got: seq<Read>, returned: set<Id>)
    requires AbsorbAll(Start(sent), got).waiting == map[]
    ensures var r := Finish(AbsorbAll(Start(sent), got), returned);
      forall id :: id in r.success || id in r.failed <==> Sent(sent, id)
  {
    var c := AbsorbAll(Start(sent), got);
    CollectorCovers(sent, got);
    MovedMembers(c.success, returned, c.failed);
    WithoutMembers(c.success, returned);
  }

  lemma {:induction false} GiveUpCovers(sent: map<nat, Id>, got: seq<Read>, rest: seq<Id>)
    requires ListsValues(rest, AbsorbAll(Start(sent), got).waiting)
    ensures var c := AbsorbAll(Start(sent), got);
      forall id :: id in c.success || id in c.failed + rest <==> Sent(sent, id)
  {
    var c := AbsorbAll(Start(sent), got);
    CollectorCovers(sent, got);
    var order: seq<nat> :| ListedAs(rest, c.waiting, order);
    forall id | id in rest ensures Sent(sent, id) {
      var i :| 0 <= i < |rest| && rest[i] == id;
      assert sent[order[i]] == id;
    }
    forall tag | tag in c.waiting ensures sent[tag] in rest {
      var i :| 0 <= i < |order| && order[i] == tag;
      assert rest[i] == sent[tag];
    }
  }

  // ---- independence of the select order ----------------------------------------------

  datatype Confirmation = Confirmation(tag: nat, ack: bool)

  /** The contents of the two queues after these events were delivered. */
  function ReturnsOf(es: seq<Event>): seq<Option<Id>> {
    if es == [] then []
    else
      var e := es[|es| - 1];
      ReturnsOf(es[..|es| - 1]) + if e.Return? then [e.id] else []
  }

  function ConfirmsOf(es: seq<Event>): seq<Confirmation> {
    if es == [] then []
    else
      var e := es[|es| - 1];
      ConfirmsOf(es[..|es| - 1]) + if e.Confirm? then [Confirmation(e.tag, e.ack)] else []
  }

  /** What was read from either queue. */
  function ReturnReads(got: seq<Read>): seq<Option<Id>> {
    if got == [] then []
    else
      var r := got[|got| - 1];
      ReturnReads(got[..|got| - 1]) + if r.GotReturn? then [r.id] else []
  }

  function ConfirmReads(got: seq<Read>): seq<Confirmation> {
    if got == [] then []
    else
      var r := got[|got| - 1];
      ConfirmReads(got[..|got| - 1]) + if r.GotConfirm? then [Confirmation(r.tag, r.ack)] else []
  }

  /** The broker returns an unroutable message before it confirms it. */
  ghost predicate ReturnFirst(sent: map<nat, Id>, log: seq<Event>) {
    forall i, j | 0 <= i < j < |log| && log[i].Confirm? && log[i].tag in sent && log[j].Return? ::
      log[j].id != Some(sent[log[i].tag])
  }

  predicate HasConfirm(confirms: seq<Confirmation>, tag: nat) {
    exists i :: 0 <= i < |confirms| && confirms[i].tag == tag
  }

  /** Ids whose first confirm is an ack, in the order of the confirms. */
  function AckOrder(sent: map<nat, Id>, confirms: seq<Confirmation>): seq<Id> {
    if confirms == [] then []
    else
      var n := |confirms| - 1;
      var c := confirms[n];
      AckOrder(sent, confirms[..n]) +
        if c.tag in sent && c.ack && !HasConfirm(confirms[..n], c.tag) then [sent[c.tag]] else []
  }

  function ReturnedIds(log: seq<Event>): set<Id> {
    set e | e in log && e.Return? && e.id.Some? :: e.id.value
  }

  /** What the broker said about the batch: acknowledged and never returned. */
  function Routable(sent: map<nat, Id>, log: seq<Event>): seq<Id> {
    Without(AckOrder(sent, ConfirmsOf(log)), ReturnedIds(log))
  }

  lemma {:induction false} WaitingMeans(sent: map<nat, Id>, got: seq<Read>)
    ensures var c := AbsorbAll(Start(sent), got);
      && (forall tag :: tag in c.waiting <==> tag in sent && !HasConfirm(ConfirmReads(got), tag))
      && (forall tag | tag in c.waiting :: c.waiting[tag] == sent[tag])
  {
    if got != [] {
      var n := |got| - 1;
      WaitingMeans(sent, got[..n]);
      var q := ConfirmReads(got[..n]);
      if got[n].GotConfirm? {
        var x := Confirmation(got[n].tag, got[n].ack);
        forall tag ensures HasConfirm(q + [x], tag) <==> HasConfirm(q, tag) || tag == x.tag {
          ConfirmedNext(q, x, tag);
        }
      } else {
        assert ConfirmReads(got) == q;
      }
    }
  }

  lemma {:induction false} ConfirmedNext(q: seq<Confirmation>, x: Confirmation, tag: nat)
    ensures HasConfirm(q + [x], tag) <==> HasConfirm(q, tag) || tag == x.tag
  {
    if HasConfirm(q, tag) {
      var i :| 0 <= i < |q| && q[i].tag == tag;
      assert (q + [x])[i].tag == tag;
    }
    assert (q + [x])[|q|] == x;
  }

  /** Apart from returned ids, success lists the acknowledged ids in confirm order. */
  lemma {:induction false} SuccessIsAckOrder(sent: map<nat, Id>, got: seq<Read>, returned: set<Id>)
    requires AbsorbAll(Start(sent), got).returned <= returned
    ensures Without(AbsorbAll(Start(sent), got).success, returned)
         == Without(AckOrder(sent, ConfirmReads(got)), returned)
  {
    if got != [] {
      var n := |got| - 1;
      var c := AbsorbAll(Start(sent), got[..n]);
      assert c.returned <= AbsorbAll(Start(sent), got).returned;
      SuccessIsAckOrder(sent, got[..n], returned);
      WaitingMeans(sent, got[..n]);
      var q := ConfirmReads(got[..n]);
      match got[n]
      case GotReturn(id) =>
        assert ConfirmReads(got) == q + [] == q;
        assert AbsorbAll(Start(sent), got).success == c.success;
      case GotConfirm(tag, ack) =>
        var x := Confirmation(tag, ack);
        assert ConfirmReads(got) == q + [x];
        AckOrderNext(sent, q, x);
        var c' := AbsorbAll(Start(sent), got);
        assert c' == Absorb(c, got[n]);
        if tag in c.waiting && ack {
          var id := sent[tag];
          assert c'.success == if id in c.returned then c.success else c.success + [id];
          WithoutNext(c.success, id, returned);
          WithoutNext(AckOrder(sent, q), id, returned);
        } else {
          assert c'.success == c.success;
        }
    }
  }

  lemma {:induction false} AckOrderNext(sent: map<nat, Id>, q: seq<Confirmation>, x: Confirmation)
    ensures AckOrder(sent, q + [x])
         == if x.tag in sent && x.ack && !HasConfirm(q, x.tag) then AckOrder(sent, q) + [sent[x.tag]]
           else AckOrder(sent, q)
  {
  }

  lemma {:induction false} WithoutNext(ids: seq<Id>, id: Id, drop: set<Id>)
    ensures Without(ids + [id], drop) == if id in drop then Without(ids, drop) else Without(ids, drop) + [id]
  {
  }

  lemma {:induction false} WithoutSame(ids: seq<Id>, a: set<Id>, b: set<Id>)
    requires forall id | id in ids :: id in a <==> id in b
    ensures Without(ids, a) == Without(ids, b)
  {
    if ids != [] {
      var n := |ids| - 1;
      assert ids[n] in ids;
      WithoutSame(ids[..n], a, b);
    }
  }

  /** Once every sequence number is confirmed, further confirms are ignored. */
  lemma {:induction false} AckOrderSettled(sent: map<nat, Id>, q: seq<Confirmation>, more: seq<Confirmation>)
    requires forall tag | tag in sent :: HasConfirm(q, tag)
    ensures AckOrder(sent, q + more) == AckOrder(sent, q)
  {
    if more == [] {
      assert q + more == q;
    } else {
      var n := |more| - 1;
      AckOrderSettled(sent, q, more[..n]);
      assert (q + more)[..|q| + n] == q + more[..n];
      var tag := more[n].tag;
      if tag in sent {
        var i :| 0 <= i < |q| && q[i].tag == tag;
        assert (q + more[..n])[i].tag == tag;
      }
    }
  }

  lemma {:induction false} AckOrderMembers(sent: map<nat, Id>, q: seq<Confirmation>)
    ensures forall id | id in AckOrder(sent, q) :: exists i :: 0 <= i < |q| && q[i].tag in sent && sent[q[i].tag] == id
  {
    if q != [] {
      var n := |q| - 1;
      AckOrderMembers(sent, q[..n]);
      forall id | id in AckOrder(sent, q)
        ensures exists i :: 0 <= i < |q| && q[i].tag in sent && sent[q[i].tag] == id
      {
        if id in AckOrder(sent, q[..n]) {
          var i :| 0 <= i < n && q[..n][i].tag in sent && sent[q[..n][i].tag] == id;
          assert q[i].tag in sent && sent[q[i].tag] == id;
        } else {
          assert q[n].tag in sent && sent[q[n].tag] == id;
        }
      }
    }
  }

  predicate SentConfirm(es: seq<Event>, c: Confirmation) {
    Confirm(c.tag, c.ack) in es
  }

  lemma {:induction false} ConfirmOrigins(es: seq<Event>)
    ensures forall c | c in ConfirmsOf(es) :: SentConfirm(es, c)
  {
    if es != [] {
      var n := |es| - 1;
      ConfirmOrigins(es[..n]);
      assert es == es[..n] + [es[n]];
      forall c | c in ConfirmsOf(es) ensures SentConfirm(es, c) {
        if c in ConfirmsOf(es[..n]) {
          assert SentConfirm(es[..n], c);
        }
      }
    }
  }

  lemma {:induction false} ReturnOrigins(es: seq<Event>)
    ensures forall id :: Some(id) in ReturnsOf(es) <==> id in ReturnedIds(es)
  {
    if es != [] {
      var n := |es| - 1;
      ReturnOrigins(es[..n]);
      assert es == es[..n] + [es[n]];
      assert ReturnedIds(es) == ReturnedIds(es[..n]) + ReturnedIds([es[n]]);
      assert es[n] in [es[n]];
      forall id ensures Some(id) in ReturnsOf(es) <==> id in ReturnedIds(es) {
        assert Some(id) in ReturnsOf(es[..n]) <==> id in ReturnedIds(es[..n]);
        assert id in ReturnedIds([es[n]]) <==> es[n].Return? && es[n].id == Some(id);
      }
    }
  }

  lemma {:induction false} ConfirmsOfPrefix(log: seq<Event>, d: nat)
    requires d <= |log|
    ensures ConfirmsOf(log[..d]) <= ConfirmsOf(log)
    decreases |log| - d
  {
    if d < |log| {
      assert log[..d + 1][..d] == log[..d];
      ConfirmsOfPrefix(log, d + 1);
    } else {
      assert log[..d] == log;
    }
  }

  /** A return of an acknowledged id was delivered before its confirm was. */
  lemma {:induction false} ReturnsArrivedInTime(
    sent: map<nat, Id>, log: seq<Event>, d: nat, q: seq<Confirmation>, id: Id)
    requires ReturnFirst(sent, log) && d <= |log| && q <= ConfirmsOf(log[..d])
    requires id in AckOrder(sent, q)
    ensures id in ReturnedIds(log) <==> id in ReturnedIds(log[..d])
  {
    AckOrderMembers(sent, q);
    ConfirmOrigins(log[..d]);
    var k :| 0 <= k < |q| && q[k].tag in sent && sent[q[k].tag] == id;
    assert q[k] == ConfirmsOf(log[..d])[k];
    assert SentConfirm(log[..d], q[k]);
    var i :| 0 <= i < d && log[..d][i] == Confirm(q[k].tag, q[k].ack);
    assert log[i] == Confirm(q[k].tag, q[k].ack);
    if id in ReturnedIds(log) {
      var e :| e in log && e.Return? && e.id == Some(id);
      var j :| 0 <= j < |log| && log[j] == e;
      assert j < d;
      assert log[..d][j] == e;
    }
    if id in ReturnedIds(log[..d]) {
      var e :| e in log[..d] && e.Return? && e.id == Some(id);
      assert e in log;
    }
  }

  /** On the normal exit the answer does not depend on the order in which the select
      statement happened to read the two queues, nor on how far the broker had got:
      success is what the broker said about the batch. */
  lemma {:induction false} SelectOrderIrrelevant(
    sent: map<nat, Id>, log: seq<Event>, d: nat, got: seq<Read>, returned: set<Id>)
    requires OneTagPerId(sent) && ReturnFirst(sent, log) && d <= |log|
    requires ConfirmReads(got) <= ConfirmsOf(log[..d])
    requires AbsorbAll(Start(sent), got).waiting == map[]
    requires AbsorbAll(Start(sent), got).returned <= returned == ReturnedIds(log[..d])
    ensures var r := Finish(AbsorbAll(Start(sent), got), returned);
      && r.success == Routable(sent, log)
      && Partition(sent, r.success, r.failed)
  {
    var c := AbsorbAll(Start(sent), got);
    var q := ConfirmReads(got);
    FinishPartitions(sent, got, returned);
    SuccessIsAckOrder(sent, got, returned);
    WaitingMeans(sent, got);
    forall tag | tag in sent ensures HasConfirm(q, tag) {
      assert tag !in c.waiting;
    }
    ConfirmsOfPrefix(log, d);
    assert q <= ConfirmsOf(log);
    var more := ConfirmsOf(log)[|q|..];
    assert ConfirmsOf(log) == q + more;
    AckOrderSettled(sent, q, more);
    forall id | id in AckOrder(sent, q) ensures id in returned <==> id in ReturnedIds(log) {
      ReturnsArrivedInTime(sent, log, d, q, id);
    }
    WithoutSame(AckOrder(sent, q), returned, ReturnedIds(log));
  }

  /** The first confirm of a sequence number decides. */
  function FirstAck(q: seq<Confirmation>, tag: nat): Option<bool> {
    if q == [] then None
    else
      var before := FirstAck(q[..|q| - 1], tag);
      if before.Some? then before
      else if q[|q| - 1].tag == tag then Some(q[|q| - 1].ack) else None
  }

  lemma {:induction false} FirstAckExists(q: seq<Confirmation>, tag: nat)
    ensures FirstAck(q, tag).Some? <==> HasConfirm(q, tag)
  {
    if q != [] {
      var n := |q| - 1;
      FirstAckExists(q[..n], tag);
      assert q == q[..n] + [q[n]];
      ConfirmedNext(q[..n], q[n], tag);
    }
  }

  lemma {:induction false} AckOrderMeans(sent: map<nat, Id>, q: seq<Confirmation>, tag: nat)
    requires OneTagPerId(sent) && tag in sent
    ensures sent[tag] in AckOrder(sent, q) <==> FirstAck(q, tag) == Some(true)
  {
    if q != [] {
      var n := |q| - 1;
      AckOrderMeans(sent, q[..n], tag);
      FirstAckExists(q[..n], tag);
      assert q[n].tag in sent && q[n].tag != tag ==> sent[q[n].tag] != sent[tag];
      if FirstAck(q, tag).Some? && FirstAck(q, tag).value {
        assert FirstAck(q, tag) == Some(true);
      }
    }
  }

  /** Event i is the first confirm of the sequence number, and an ack. */
  ghost predicate AckedAt(log: seq<Event>, tag: nat, i: nat) {
    i < |log| && log[i] == Confirm(tag, true) && forall ack :: Confirm(tag, ack) !in log[..i]
  }

  /** The broker has returned the id. */
  ghost predicate ReturnSeen(log: seq<Event>, id: Id) {
    exists e :: e in log && e.Return? && e.id == Some(id)
  }

  lemma ReturnSeenMeans(log: seq<Event>)
    ensures forall id :: id in ReturnedIds(log) <==> ReturnSeen(log, id)
  {
  }

  lemma {:induction false} FirstAckMeans(log: seq<Event>, tag: nat)
    ensures HasConfirm(ConfirmsOf(log), tag) <==> exists ack :: Confirm(tag, ack) in log
    ensures FirstAck(ConfirmsOf(log), tag) == Some(true) <==> exists i: nat :: AckedAt(log, tag, i)
  {
    if log != [] {
      var n := |log| - 1;
      var q := ConfirmsOf(log[..n]);
      FirstAckMeans(log[..n], tag);
      FirstAckExists(q, tag);
      assert log == log[..n] + [log[n]];
      if log[n].Confirm? {
        var x := Confirmation(log[n].tag, log[n].ack);
        ConfirmedNext(q, x, tag);
        assert (q + [x])[..|q|] == q;
      } else {
        assert ConfirmsOf(log) == q;
      }
      forall i: nat | AckedAt(log[..n], tag, i) ensures AckedAt(log, tag, i) {
        assert log[..i] == log[..n][..i];
      }
      forall i: nat | AckedAt(log, tag, i) && i < n ensures AckedAt(log[..n], tag, i) {
        assert log[..i] == log[..n][..i];
      }
      if log[n] == Confirm(tag, true) && !HasConfirm(q, tag) {
        assert AckedAt(log, tag, n);
      }
    }
  }

  /** So on the normal exit "success" means acknowledged and routable: the broker's first
      confirm was an ack, and it has returned no message with this id. */
  lemma {:induction false} RoutableMeans(sent: map<nat, Id>, log: seq<Event>, tag: nat)
    requires OneTagPerId(sent) && tag in sent
    ensures sent[tag] in Routable(sent, log) <==>
      (exists i: nat :: AckedAt(log, tag, i)) && !ReturnSeen(log, sent[tag])
  {
    AckOrderMeans(sent, ConfirmsOf(log), tag);
    WithoutMembers(AckOrder(sent, ConfirmsOf(log)), ReturnedIds(log));
    FirstAckMeans(log, tag);
    ReturnSeenMeans(log);
  }

  // ---- early exits ---------------------------------------------------------------------

  /** A confirm of the sequence number was read. */
  predicate ConfirmRead(got: seq<Read>, tag: nat) {
    GotConfirm(tag, true) in got || GotConfirm(tag, false) in got
  }

  lemma {:induction false} ConfirmReadMeans(got: seq<Read>, tag: nat)
    ensures HasConfirm(ConfirmReads(got), tag) <==> ConfirmRead(got, tag)
  {
    if got != [] {
      var n := |got| - 1;
      ConfirmReadMeans(got[..n], tag);
      assert got == got[..n] + [got[n]];
      if got[n].GotConfirm? {
        ConfirmedNext(ConfirmReads(got[..n]), Confirmation(got[n].tag, got[n].ack), tag);
      } else {
        assert ConfirmReads(got) == ConfirmReads(got[..n]);
      }
    }
  }

  ghost predicate AckReadAt(got: seq<Read>, tag: nat, k: nat) {
    k < |got| && got[k] == GotConfirm(tag, true) && forall ack :: GotConfirm(tag, ack) !in got[..k]
  }

  /** The first confirm read for this sequence number was an ack. */
  ghost predicate FirstReadAck(got: seq<Read>, tag: nat) {
    exists k: nat :: AckReadAt(got, tag, k)
  }

  /** It was, and no return of the id had been read before it. */
  ghost predicate AckBeforeReturn(got: seq<Read>, tag: nat, id: Id) {
    exists k: nat :: AckReadAt(got, tag, k) && GotReturn(Some(id)) !in got[..k]
  }

  ghost predicate SomeFirstAck(sent: map<nat, Id>, got: seq<Read>, id: Id) {
    exists tag :: tag in sent && sent[tag] == id && FirstReadAck(got, tag)
  }

  ghost predicate SomeAckBeforeReturn(sent: map<nat, Id>, got: seq<Read>, id: Id) {
    exists tag :: tag in sent && sent[tag] == id && AckBeforeReturn(got, tag, id)
  }

  /** An id is acknowledged before any return of it, or it is returned. */
  lemma {:induction false} AckNotReturned(sent: map<nat, Id>, got: seq<Read>, id: Id)
    ensures SomeAckBeforeReturn(sent, got, id) ==> SomeFirstAck(sent, got, id)
    ensures SomeFirstAck(sent, got, id) && GotReturn(Some(id)) !in got ==> SomeAckBeforeReturn(sent, got, id)
  {
    if SomeFirstAck(sent, got, id) && GotReturn(Some(id)) !in got {
      var tag :| tag in sent && sent[tag] == id && FirstReadAck(got, tag);
      var k: nat :| AckReadAt(got, tag, k);
      assert GotReturn(Some(id)) !in got[..k];
      assert AckBeforeReturn(got, tag, id);
    }
  }

  lemma {:induction false} AcksNext(sent: map<nat, Id>, got: seq<Read>, r: Read, tag: nat, id: Id)
    ensures AckBeforeReturn(got + [r], tag, id) <==>
      || AckBeforeReturn(got, tag, id)
      || (r == GotConfirm(tag, true) && !ConfirmRead(got, tag) && GotReturn(Some(id)) !in got)
  {
    var n, all := |got|, got + [r];
    assert all[..n] == got;
    forall k: nat | k < n ensures AckReadAt(all, tag, k) <==> AckReadAt(got, tag, k) {
      assert all[..k] == got[..k];
    }
    forall k: nat | k < n ensures all[..k] == got[..k] {
    }
    if r == GotConfirm(tag, true) && !ConfirmRead(got, tag) && GotReturn(Some(id)) !in got {
      assert forall ack :: ack || !ack ==> GotConfirm(tag, ack) !in got;
      assert AckReadAt(all, tag, n);
    }
  }

  lemma {:induction false} ReturnedSoFar(sent: map<nat, Id>, got: seq<Read>)
    ensures forall id :: id in AbsorbAll(Start(sent), got).returned <==> GotReturn(Some(id)) in got
  {
    if got != [] {
      var n := |got| - 1;
      ReturnedSoFar(sent, got[..n]);
      assert got == got[..n] + [got[n]];
    }
  }

  /** Without the final drain an id sits in success exactly when an ack of it was read, as a
      first confirm, before any return of it: a returned id is then taken for routable.
      That holds even when several messages carry one id. */
  lemma {:induction false} SuccessMeans(sent: map<nat, Id>, got: seq<Read>)
    ensures forall id :: id in AbsorbAll(Start(sent), got).success <==> SomeAckBeforeReturn(sent, got, id)
  {
    if got != [] {
      var n := |got| - 1;
      var before, r := got[..n], got[n];
      assert got == before + [r];
      var c := AbsorbAll(Start(sent), before);
      SuccessMeans(sent, before);
      ReturnedSoFar(sent, before);
      WaitingMeans(sent, before);
      hide AckBeforeReturn, HasConfirm, ConfirmRead;
      forall tag ensures HasConfirm(ConfirmReads(before), tag) <==> ConfirmRead(before, tag) {
        ConfirmReadMeans(before, tag);
      }
      forall tag, id ensures AckBeforeReturn(got, tag, id) <==>
        || AckBeforeReturn(before, tag, id)
        || (r == GotConfirm(tag, true) && !ConfirmRead(before, tag) && GotReturn(Some(id)) !in before)
      {
        AcksNext(sent, before, r, tag, id);
      }
      assert AbsorbAll(Start(sent), got) == Absorb(c, r);
    }
  }

  /** The place of a message, on what was read. */
  lemma {:induction false} PlaceMeans(got: seq<Read>, tag: nat, id: Id)
    ensures Place(got, tag, id) == None <==> forall ack :: GotConfirm(tag, ack) !in got
    ensures Place(got, tag, id) == Some(true) <==>
      exists k: nat :: AckReadAt(got, tag, k) && GotReturn(Some(id)) !in got[..k]
  {
    if got != [] {
      var n := |got| - 1;
      PlaceMeans(got[..n], tag, id);
      assert got == got[..n] + [got[n]];
      assert got[n].GotConfirm? && got[n].tag == tag ==> got[n] == GotConfirm(tag, got[n].ack);
      if exists k: nat :: AckReadAt(got[..n], tag, k) && GotReturn(Some(id)) !in got[..n][..k] {
        var k: nat :| AckReadAt(got[..n], tag, k) && GotReturn(Some(id)) !in got[..n][..k];
        assert got[..n][..k] == got[..k];
        assert AckReadAt(got, tag, k);
      }
      if exists k: nat :: AckReadAt(got, tag, k) && GotReturn(Some(id)) !in got[..k] {
        var k: nat :| AckReadAt(got, tag, k) && GotReturn(Some(id)) !in got[..k];
        if k < n {
          assert got[..n][..k] == got[..k];
          assert AckReadAt(got[..n], tag, k);
        }
      }
      if Place(got[..n], tag, id) == None && got[n] == GotConfirm(tag, true) {
        assert AckReadAt(got, tag, n);
      }
    }
  }

  /** "Success means routable" fails when the collector gives up early: the first of
      two messages is returned and then acknowledged, the ack is read first, and the
      second message is never confirmed. */
  lemma {:induction false} EarlyExitKeepsReturned()
    ensures var sent := map[1 := 7, 2 := 8];
      var log := [Return(1, Some(7))] + [Confirm(1, true)];
      var got := [GotConfirm(1, true)];
      && ReturnFirst(sent, log) && ConfirmReads(got) == ConfirmsOf(log) && ReturnReads(got) == []
      && var c := AbsorbAll(Start(sent), got);
      && c.success == [7] && c.waiting == map[2 := 8] && 7 in ReturnedIds(log)
  {
    var sent := map[1 := 7, 2 := 8];
    var log := [Return(1, Some(7))] + [Confirm(1, true)];
    var got := [GotConfirm(1, true)];
    assert got[..0] == [];
    assert AbsorbAll(Start(sent), got) == Absorb(Start(sent), GotConfirm(1, true));
    assert log[..1] == [Return(1, Some(7))] && log[..1][..0] == [];
    assert ConfirmsOf(log[..1]) == [] + [] && ConfirmsOf(log) == ConfirmsOf(log[..1]) + [Confirmation(1, true)];
    assert Return(1, Some(7)) in log;
  }
}
