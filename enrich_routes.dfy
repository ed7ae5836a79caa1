/** The two enrich routes (app/api/forager/enrich/route.ts, app/api/aviato/enrich/route.ts):
    validate `personIds`, enrich them through the vendor's adapter, keep the people with a
    phone number and report the counts. */
module EnrichRoutes {
  import opened Wrappers
  import opened Seqs
  import opened Types
  import Batch
  import Forager
  import Aviato

  /** The route's reply: HTTP 400 for a missing, non-array or empty `personIds`, 500 for a
      body that is not JSON or is `null`, otherwise the people with phones and the two counts. */
  datatype EnrichReply =
    | BadRequest(error: string)
    | ServerError(error: string)
    | Enriched(enrichedPeople: seq<EnrichedPerson>, totalRequested: nat, totalWithPhones: nat)

  /** The reply after enrichment: only people with a phone are returned, in the order
      enrichment produced them; `totalRequested` counts every id asked for, valid or not. */
  function Respond(personIds: seq<string>, enriched: seq<EnrichedPerson>): (r: EnrichReply)
    ensures r.Enriched?
    ensures r.enrichedPeople == Filter(enriched, HasPhones)
    ensures forall k :: 0 <= k < |r.enrichedPeople| ==> HasPhones(r.enrichedPeople[k])
    ensures r.totalRequested == |personIds| && r.totalWithPhones == |r.enrichedPeople|
    ensures |enriched| <= |personIds| ==> r.totalWithPhones <= r.totalRequested
  {
    var withPhones := Filter(enriched, HasPhones);
    Enriched(withPhones, |personIds|, |withPhones|)
  }

  /** Re-filtering the returned people changes nothing: the reply holds exactly the
      enriched people with phones. */
  lemma {:induction false} RespondKeepsAllCallable(personIds: seq<string>, enriched: seq<EnrichedPerson>)
    ensures Filter(Respond(personIds, enriched).enrichedPeople, HasPhones) == Respond(personIds, enriched).enrichedPeople
  {
    FilterIdempotent(enriched, HasPhones);
  }

  /** `request.json()` then `personIds`: `Failure` when the body is not JSON or is `null`
      (destructuring `null` throws), `Ok(None)`
      when `personIds` is missing or not an array. */
  type Body = Result<Option<seq<string>>>

  predicate Rejected(body: Body) {
    body.Ok? && (body.value.None? || body.value.value == [])
  }

  /** `POST /api/forager/enrich`. */
  method ForagerPost(body: Body, v: Forager.Vendor) returns (reply: EnrichReply)
    ensures body.Failure? <==> reply.ServerError?
    ensures Rejected(body) <==> reply.BadRequest?
    ensures reply.BadRequest? ==> reply.error == "personIds array is required"
    ensures reply.Enriched? ==>
      var ids := body.value.value;
      reply == Respond(ids, Batch.Collected(Filter(ids, Forager.IsValidId), id => Settle(Forager.EnrichPerson(id, v))))
    ensures reply.Enriched? ==> reply.totalWithPhones <= reply.totalRequested
  {
    if body.Failure? {
      return ServerError(body.error);
    }
    if body.value.None? || body.value.value == [] {
      return BadRequest("personIds array is required");
    }
    var ids := body.value.value;
    var _, enrichedPeople := Forager.EnrichMultiplePeople(ids, v);
    reply := Respond(ids, enrichedPeople);
  }

  /** `POST /api/aviato/enrich`. */
  method AviatoPost(body: Body, v: Aviato.Vendor) returns (reply: EnrichReply)
    ensures body.Failure? <==> reply.ServerError?
    ensures Rejected(body) <==> reply.BadRequest?
    ensures reply.BadRequest? ==> reply.error == "personIds array is required"
    ensures reply.Enriched? ==>
      var ids := body.value.value;
      reply == Respond(ids, Batch.Collected(Filter(ids, Aviato.IsValidId), id => Settle(Aviato.EnrichPerson(id, v))))
    ensures reply.Enriched? ==> reply.totalWithPhones <= reply.totalRequested
  {
    if body.Failure? {
      return ServerError(body.error);
    }
    if body.value.None? || body.value.value == [] {
      return BadRequest("personIds array is required");
    }
    var ids := body.value.value;
    var _, enrichedPeople := Aviato.EnrichMultiplePeople(ids, v);
    reply := Respond(ids, enrichedPeople);
  }
}
