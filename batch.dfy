/** The batched enrichment loop shared by both adapters' `enrichMultiplePeople`
    (lib/forager.ts:222-232, lib/aviato.ts:293-303): ids are taken five at a time, each batch
    is settled as a whole before the next starts, and only fulfilled, non-null profiles are kept. */
module Batch {
  import opened Wrappers
  import opened Seqs

  /** `batchSize` in both adapters. */
  const BatchSize: nat := 5

  /** The profiles one settled enrichment contributes: its value when fulfilled and not null. */
  function Kept<T>(o: Settled<Option<T>>): (r: seq<T>)
    ensures |r| <= 1
    ensures |r| == 1 <==> o.Fulfilled? && o.value.Some?
  {
    match o
    case Fulfilled(Some(v)) => [v]
    case _ => []
  }

  /** The profiles kept from enriching `ids` one by one, in order. */
  function Collected<T>(ids: seq<string>, enrich: string -> Settled<Option<T>>): (r: seq<T>)
    ensures |r| <= |ids|
    decreases |ids|
  {
    if ids == [] then [] else Kept(enrich(ids[0])) + Collected(ids[1..], enrich)
  }

  /** Collecting is compositional, so cutting the ids into batches does not change what is kept. */
  lemma {:induction false} CollectedConcat<T>(a: seq<string>, b: seq<string>, enrich: string -> Settled<Option<T>>)
    ensures Collected(a + b, enrich) == Collected(a, enrich) + Collected(b, enrich)
    decreases |a|
  {
    if a == [] {
      assert a + b == b;
    } else {
      assert (a + b)[1..] == a[1..] + b;
      CollectedConcat(a[1..], b, enrich);
    }
  }

  /** Collecting from position `i` is collecting up to `end`, then from `end`. */
  lemma {:induction false} CollectedSplit<T>(ids: seq<string>, i: nat, end: nat, enrich: string -> Settled<Option<T>>)
    requires i <= end <= |ids|
    ensures Collected(ids[i..], enrich) == Collected(ids[i..end], enrich) + Collected(ids[end..], enrich)
  {
    assert ids[i..] == ids[i..end] + ids[end..];
    CollectedConcat(ids[i..end], ids[end..], enrich);
  }

  /** Every id that enriches to a profile contributes exactly that profile. */
  lemma {:induction false} CollectedAllFound<T>(ids: seq<string>, enrich: string -> Settled<Option<T>>)
    requires forall i :: 0 <= i < |ids| ==> enrich(ids[i]).Fulfilled? && enrich(ids[i]).value.Some?
    ensures |Collected(ids, enrich)| == |ids|
    ensures forall i :: 0 <= i < |ids| ==> Collected(ids, enrich)[i] == enrich(ids[i]).value.value
    decreases |ids|
  {
    if ids != [] {
      CollectedAllFound(ids[1..], enrich);
    }
  }

  /** One batch: `Promise.allSettled(batch.map(enrichPerson))`, then the fulfilled,
      non-null values pushed in order. */
  method SettleBatch<T>(batch: seq<string>, enrich: string -> Settled<Option<T>>) returns (kept: seq<T>)
    ensures kept == Collected(batch, enrich)
  {
    var results := seq(|batch|, k requires 0 <= k < |batch| => enrich(batch[k]));
    kept := [];
    var j := 0;
    while j < |results|
      invariant 0 <= j <= |results|
      invariant kept == Collected(batch[..j], enrich)
    {
      assert results[j] == enrich(batch[j]);
      assert batch[..j + 1] == batch[..j] + [batch[j]];
      CollectedConcat(batch[..j], [batch[j]], enrich);
      assert Collected([batch[j]], enrich) == Kept(enrich(batch[j])) by {
        assert [batch[j]][1..] == [];
      }
      if results[j].Fulfilled? && results[j].value.Some? {
        kept := kept + [results[j].value.value];
      }
      j := j + 1;
    }
    assert batch[..j] == batch;
  }

  /** The loop of `enrichMultiplePeople`: `batches` are the slices the loop settles, in order,
      and `people` the profiles kept from all of them. */
  method EnrichInBatches<T>(ids: seq<string>, enrich: string -> Settled<Option<T>>)
    returns (batches: seq<seq<string>>, people: seq<T>)
    ensures batches == Chunks(ids, BatchSize)
    ensures people == Collected(ids, enrich)
  {
    batches, people := [], [];
    var i := 0;
    while i < |ids|
      invariant 0 <= i <= |ids|
      invariant batches + Chunks(ids[i..], BatchSize) == Chunks(ids, BatchSize)
      invariant people + Collected(ids[i..], enrich) == Collected(ids, enrich)
    {
      // `validIds.slice(i, i + batchSize)`: the last batch may be short.
      var end := if i + BatchSize <= |ids| then i + BatchSize else |ids|;
      var batch := ids[i..end];
      var kept := SettleBatch(batch, enrich);
      CollectedSplit(ids, i, end, enrich);
      ChunksStep(ids, i, end, BatchSize);
      Regroup(people, kept, Collected(ids[end..], enrich), Collected(ids[i..], enrich));
      Regroup(batches, [batch], Chunks(ids[end..], BatchSize), Chunks(ids[i..], BatchSize));
      people := people + kept;
      batches := batches + [batch];
      i := end;
    }
  }
}
