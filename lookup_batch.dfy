/** The `POST` handler shared by both bulk-lookup routes (app/api/lookup/forager/route.ts:111-145,
    app/api/lookup/aviato/route.ts:64-98): validation, then the names in batches of three,
    each batch settled as a whole, one result pushed per name. */
module LookupBatch {
  import opened Wrappers
  import opened Seqs
  import opened Types

  /** `concurrency` in both routes. */
  const Concurrency: nat := 3

  /** `batch[index] || 'Unknown'`: an index outside the batch reads `undefined`. */
  function FallbackName(batch: seq<string>, index: int): (r: string)
    ensures 0 <= index < |batch| && batch[index] != "" ==> r == batch[index]
    ensures !(0 <= index < |batch| && batch[index] != "") ==> r == "Unknown"
  {
    if 0 <= index < |batch| && batch[index] != "" then batch[index] else "Unknown"
  }

  /** The entry a name gets: its lookup's value, or an error entry naming it (`'Unknown'`
      for the empty name) when the lookup was rejected. */
  function EntryFor(name: string, outcome: Settled<LookupEntry>): (r: LookupEntry)
    ensures outcome.Fulfilled? ==> r == outcome.value
    ensures outcome.Rejected? ==> r == Bare(if name != "" then name else "Unknown", Error)
  {
    match outcome
    case Fulfilled(e) => e
    case Rejected(_) => Bare(if name != "" then name else "Unknown", Error)
  }

  /** The batching loop. The fallback index `results.length - (i > 0 ? i : 0)` is computed as
      written; the invariant `|results| == i + j` shows that it is the position `j` of the
      rejected name in its batch, so every entry lines up with its own name. */
  method LookupInBatches(names: seq<string>, lookup: string -> Settled<LookupEntry>)
    returns (results: seq<LookupEntry>)
    ensures |results| == |names|
    ensures forall k :: 0 <= k < |names| ==> results[k] == EntryFor(names[k], lookup(names[k]))
  {
    results := [];
    var i := 0;
    while i < |names|
      invariant 0 <= i <= |names|
      invariant |results| == i
      invariant forall k :: 0 <= k < i ==> results[k] == EntryFor(names[k], lookup(names[k]))
    {
      var end := if i + Concurrency <= |names| then i + Concurrency else |names|;
      var batch := names[i..end];
      // `Promise.allSettled(batch.map(searchByName))`
      var batchResults := seq(|batch|, k requires 0 <= k < |batch| => lookup(batch[k]));
      var j := 0;
      while j < |batchResults|
        invariant 0 <= j <= |batchResults|
        invariant |results| == i + j
        invariant forall k :: 0 <= k < i + j ==> results[k] == EntryFor(names[k], lookup(names[k]))
      {
        var outcome := batchResults[j];
        assert batch[j] == names[i + j];
        if outcome.Fulfilled? {
          results := results + [outcome.value];
        } else {
          var index := |results| - (if i > 0 then i else 0);
          assert index == j;
          results := results + [Bare(FallbackName(batch, index), Error)];
        }
        j := j + 1;
      }
      i := end;
    }
  }

  /** The route's reply: HTTP 400 for a missing, non-array or empty `names`, 500 for a body
      that is not JSON or is `null`, otherwise the results. */
  datatype Reply = BadRequest(error: string) | ServerError(error: string) | Results(results: seq<LookupEntry>)

  /** `POST`. The request body's `names` is `Ok(None)` when it is missing or not an array,
      and `Failure` when the body cannot be read as JSON or is `null` (destructuring `null`
      throws). */
  method Post(names: Result<Option<seq<string>>>, lookup: string -> Settled<LookupEntry>) returns (reply: Reply)
    ensures names.Failure? <==> reply.ServerError?
    ensures reply.BadRequest? <==> names.Ok? && (names.value.None? || names.value.value == [])
    ensures reply.BadRequest? ==> reply.error == "names array is required"
    ensures reply.Results? ==>
      && |reply.results| == |names.value.value|
      && forall k :: 0 <= k < |reply.results| ==>
           reply.results[k] == EntryFor(names.value.value[k], lookup(names.value.value[k]))
  {
    if names.Failure? {
      return ServerError("Internal server error");
    }
    if names.value.None? || names.value.value == [] {
      return BadRequest("names array is required");
    }
    var results := LookupInBatches(names.value.value, lookup);
    reply := Results(results);
  }
}
