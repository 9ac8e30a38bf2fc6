/** The result of one batch publish and its normalisation into a partition. */
module BatchResult {
  import opened Domain
  import opened Slices

  /** What the executor client returns for a batch; `error` is a batch-level error. */
  datatype RunResult = RunResult(success: seq<Id>, failed: seq<Id>, error: bool)

  function SetOf(ids: seq<Id>): set<Id> {
    set id | id in ids
  }

  ghost predicate Distinct(ids: seq<Id>) {
    forall i, j | 0 <= i < j < |ids| :: ids[i] != ids[j]
  }

  /** The members of ids that lie in keep, in the order of ids. */
  function Only(ids: seq<Id>, keep: set<Id>): seq<Id> {
    if ids == [] then []
    else
      var last := ids[|ids| - 1];
      Only(ids[..|ids| - 1], keep) + if last in keep then [last] else []
  }

  /** The members of ids that do not lie in drop, in the order of ids. */
  function Without(ids: seq<Id>, drop: set<Id>): seq<Id> {
    if ids == [] then []
    else
      var last := ids[|ids| - 1];
      Without(ids[..|ids| - 1], drop) + if last in drop then [] else [last]
  }

  /** Confirmed for good: reported as success and not reported as failed. */
  function Confirmed(raw: RunResult): set<Id> {
    SetOf(raw.success) - SetOf(raw.failed)
  }

  function Complete(ids: seq<Id>, raw: RunResult): RunResult {
    RunResult(Only(ids, Confirmed(raw)), Without(ids, Confirmed(raw)), raw.error)
  }

  lemma {:induction false} OnlyMembers(ids: seq<Id>, keep: set<Id>)
    ensures forall id :: id in Only(ids, keep) <==> id in ids && id in keep
  {
    if ids != [] {
      OnlyMembers(ids[..|ids| - 1], keep);
      assert ids == ids[..|ids| - 1] + [ids[|ids| - 1]];
    }
  }

  lemma {:induction false} WithoutMembers(ids: seq<Id>, drop: set<Id>)
    ensures forall id :: id in Without(ids, drop) <==> id in ids && id !in drop
  {
    if ids != [] {
      WithoutMembers(ids[..|ids| - 1], drop);
      assert ids == ids[..|ids| - 1] + [ids[|ids| - 1]];
    }
  }

  lemma {:induction false} SplitConserves(ids: seq<Id>, s: set<Id>)
    ensures multiset(Only(ids, s)) + multiset(Without(ids, s)) == multiset(ids)
  {
    if ids != [] {
      SplitConserves(ids[..|ids| - 1], s);
      assert ids == ids[..|ids| - 1] + [ids[|ids| - 1]];
    }
  }

  /** `at` places every element of sub in ids, moving strictly forward. */
  ghost predicate Embeds(sub: seq<Id>, ids: seq<Id>, at: seq<int>) {
    && |at| == |sub|
    && (forall k | 0 <= k < |at| :: 0 <= at[k] < |ids| && ids[at[k]] == sub[k])
    && (forall k, l | 0 <= k < l < |at| :: at[k] < at[l])
  }

  ghost predicate InOrderOf(sub: seq<Id>, ids: seq<Id>) {
    exists at :: Embeds(sub, ids, at)
  }

  lemma {:induction false} OnlyInOrder(ids: seq<Id>, s: set<Id>) returns (keep: seq<int>, drop: seq<int>)
    ensures Embeds(Only(ids, s), ids, keep)
    ensures Embeds(Without(ids, s), ids, drop)
  {
    if ids == [] {
      return [], [];
    }
    var n := |ids| - 1;
    keep, drop := OnlyInOrder(ids[..n], s);
    if ids[n] in s {
      keep := keep + [n];
    } else {
      drop := drop + [n];
    }
  }

  lemma DistinctCounts(ids: seq<Id>)
    requires forall id :: multiset(ids)[id] <= 1
    ensures Distinct(ids)
  {
    forall i, j | 0 <= i < j < |ids| ensures ids[i] != ids[j] {
      assert ids == ids[..i] + [ids[i]] + ids[i + 1..j] + [ids[j]] + ids[j + 1..];
      assert multiset(ids)[ids[i]] >= multiset{ids[i], ids[j]}[ids[i]];
    }
  }

  lemma {:induction false} CountsOfDistinct(ids: seq<Id>)
    requires Distinct(ids)
    ensures forall id :: multiset(ids)[id] <= 1
  {
    if ids != [] {
      CountsOfDistinct(ids[..|ids| - 1]);
      assert ids == ids[..|ids| - 1] + [ids[|ids| - 1]];
    }
  }

  /** Whatever the executor answered (overlapping, repeated, foreign or missing
      ids), distinct records end in exactly one of two duplicate-free lists, each in
      record order; an explicit failure wins and an unmentioned record is failed. */
  lemma CompletePartitions(ids: seq<Id>, raw: RunResult)
    ensures var r := Complete(ids, raw);
      && multiset(r.success) + multiset(r.failed) == multiset(ids)
      && InOrderOf(r.success, ids) && InOrderOf(r.failed, ids)
      && (forall id :: id in r.success <==> id in ids && id in raw.success && id !in raw.failed)
      && (forall id :: id in r.failed <==> id in ids && (id in raw.failed || id !in raw.success))
      && (Distinct(ids) ==> Distinct(r.success + r.failed))
      && r.error == raw.error
  {
    var s := Confirmed(raw);
    OnlyMembers(ids, s);
    WithoutMembers(ids, s);
    SplitConserves(ids, s);
    var keep, drop := OnlyInOrder(ids, s);
    var r := Complete(ids, raw);
    if Distinct(ids) {
      CountsOfDistinct(ids);
      assert multiset(r.success + r.failed) == multiset(ids);
      DistinctCounts(r.success + r.failed);
    }
  }

  /** The ids of a slice that are not in drop, as a set. */
  method IdsExcept(ids: Slice, drop: set<Id>) returns (kept: set<Id>)
    requires ids.Valid()
    ensures kept == SetOf(ids.Items()) - drop
  {
    kept := {};
    for i := 0 to ids.len
      invariant kept == SetOf(ids.Items()[..i]) - drop
    {
      if ids.data[i] !in drop {
        kept := kept + {ids.data[i]};
      }
    }
    assert ids.Items()[..ids.len] == ids.Items();
  }

  lemma SplitStarts(ids: seq<Id>, s: set<Id>)
    ensures Only(ids[..0], s) == [] && Without(ids[..0], s) == []
  {
  }

  lemma SplitNext(ids: seq<Id>, i: nat, s: set<Id>)
    requires i < |ids|
    ensures Only(ids[..i + 1], s) == if ids[i] in s then Only(ids[..i], s) + [ids[i]] else Only(ids[..i], s)
    ensures Without(ids[..i + 1], s) == if ids[i] in s then Without(ids[..i], s) else Without(ids[..i], s) + [ids[i]]
  {
    assert ids[..i + 1][..i] == ids[..i];
  }

  /** completeBatchResult: both maps are built before the two input slices are cut
      to length zero and refilled, so reusing their backing arrays is safe as long as
      the two do not share one. */
  method CompleteBatchResult(ids: seq<Id>, success: Slice, failed: Slice)
    requires success != failed && success.Valid() && failed.Valid()
    requires success.data != failed.data
    modifies success, failed, success.data, failed.data
    ensures success.Valid() && failed.Valid()
    ensures var raw := RunResult(old(success.Items()), old(failed.Items()), false);
      success.Items() == Complete(ids, raw).success && failed.Items() == Complete(ids, raw).failed
    ensures success.data == old(success.data) || fresh(success.data)
    ensures failed.data == old(failed.data) || fresh(failed.data)
  {
    hide SetOf, Only, Without, Slice.Items;
    var failedIds := IdsExcept(failed, {});
    var successIds := IdsExcept(success, failedIds);
    ghost var raw := RunResult(success.Items(), failed.Items(), false);
    assert successIds == Confirmed(raw);

    success.Truncate(0);
    failed.Truncate(0);
    SplitStarts(ids, successIds);
    for i := 0 to |ids|
      invariant success.Valid() && failed.Valid() && success.data != failed.data
      invariant success.data == old(success.data) || fresh(success.data)
      invariant failed.data == old(failed.data) || fresh(failed.data)
      invariant success.Items() == Only(ids[..i], successIds)
      invariant failed.Items() == Without(ids[..i], successIds)
    {
      SplitNext(ids, i, successIds);
      var id := ids[i];
      if id in failedIds {
        failed.Append(id);
      } else if id in successIds {
        success.Append(id);
      } else {
        failed.Append(id);
      }
    }
    assert ids[..|ids|] == ids;
  }
}
