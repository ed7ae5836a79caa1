/** The Aviato bulk-lookup route (app/api/lookup/aviato/route.ts): the per-name decision
    chain, which trusts the vendor's top hit, and the route's `POST`. */
module AviatoLookup {
  import opened Wrappers
  import opened Seqs
  import opened Types
  import Aviato
  import LookupBatch

  /** The search the route sends itself (`fullName`, page 1, one per page), answering the
      reply's `items` or `Failure` for a non-OK status; plus the adapter's endpoints, which
      its `enrichPerson` uses. */
  datatype Vendor = Vendor(
    search: string -> Result<Option<seq<Aviato.SearchItem>>>,
    adapter: Aviato.Vendor)

  function PhoneText(p: PhoneNumber): string {
    p.phoneNumber
  }

  predicate NonEmptyText(s: string) {
    s != ""
  }

  /** `(enriched.phone_numbers || []).map(p => p.phone_number).filter(Boolean)`. */
  function PhoneStrings(phones: seq<PhoneNumber>): (r: seq<string>)
    ensures forall i :: 0 <= i < |r| ==> r[i] != ""
    ensures |r| <= |phones|
    ensures forall i :: 0 <= i < |r| ==> exists j :: 0 <= j < |phones| && phones[j].phoneNumber == r[i]
    ensures forall j :: 0 <= j < |phones| && phones[j].phoneNumber != "" ==> phones[j].phoneNumber in r
  {
    var texts := Map(phones, PhoneText);
    var r := Filter(texts, NonEmptyText);
    assert forall i :: 0 <= i < |r| ==> r[i] in texts;
    assert forall j :: 0 <= j < |phones| ==> texts[j] == phones[j].phoneNumber;
    r
  }

  /** The texts keep the phones' order: one more phone adds its text at the end, when it
      has one. */
  lemma {:induction false} PhoneStringsSnoc(phones: seq<PhoneNumber>, p: PhoneNumber)
    ensures PhoneStrings(phones + [p]) ==
            PhoneStrings(phones) + (if p.phoneNumber != "" then [p.phoneNumber] else [])
  {
    MapSnoc(phones, p, PhoneText);
    FilterSnoc(Map(phones, PhoneText), PhoneText(p), NonEmptyText);
  }

  /** The filter drops nothing from an enriched profile: the adapter's phone lookup already
      dropped the empty numbers. */
  lemma {:induction false} PhoneStringsOfEnriched(personId: string, v: Aviato.Vendor)
    requires Aviato.EnrichPerson(personId, v).Ok? && Aviato.EnrichPerson(personId, v).value.Some?
    ensures var e := Aviato.EnrichPerson(personId, v).value.value;
      PhoneStrings(e.phoneNumbers) == Map(e.phoneNumbers, PhoneText)
  {
    var e := Aviato.EnrichPerson(personId, v).value.value;
    FilterAllPass(Map(e.phoneNumbers, PhoneText), NonEmptyText);
  }

  /** `searchByName` (app/api/lookup/aviato/route.ts:8-62). The top hit `items[0]` is taken
      without any name check; a failed search or enrichment gives an error entry naming
      the query, no hit gives `not_found`, and a `null` enrichment gives `not_found` with the
      hit's name and id. */
  function SearchByName(fullName: string, v: Vendor): (r: LookupEntry)
    ensures r.fullName == fullName
    ensures r.status == Error ==> r.phoneNumbers == [] && r.personId.None?
    ensures r.status != Error ==> (r.status == Found <==> |r.phoneNumbers| > 0)
    ensures forall i :: 0 <= i < |r.phoneNumbers| ==> r.phoneNumbers[i] != ""
    ensures v.search(fullName).Failure? ==> r == Bare(fullName, Error)
    ensures var reply := v.search(fullName);
      reply.Ok? && (reply.value.None? || reply.value.value == []) ==> r == Bare(fullName, NotFound)
    ensures var reply := v.search(fullName);
      reply.Ok? && reply.value.Some? && reply.value.value != [] ==>
        var top := reply.value.value[0];
        match Aviato.EnrichPerson(top.id, v.adapter)
        case Failure(_) => r == Bare(fullName, Error)
        case Ok(None) => r == LookupEntry(fullName, top.fullName, Some(top.id), [], None, NotFound)
        case Ok(Some(e)) =>
          && r.personId == Some(top.id)
          && r.phoneNumbers == PhoneStrings(e.phoneNumbers)
          && r.email == NonEmpty(PreferredEmail(e.workEmails, e.personalEmails))
          && r.matchedName == (if e.fullName != "" then Some(e.fullName) else top.fullName)
  {
    match v.search(fullName)
    case Failure(_) => Bare(fullName, Error)
    case Ok(data) =>
      var items := if data.Some? then data.value else [];
      if |items| == 0 then Bare(fullName, NotFound)
      else
        var person := items[0];
        var personId := person.id;
        match Aviato.EnrichPerson(personId, v.adapter)
        case Failure(_) => Bare(fullName, Error)
        case Ok(None) => LookupEntry(fullName, person.fullName, Some(personId), [], None, NotFound)
        case Ok(Some(enriched)) =>
          var phones := PhoneStrings(enriched.phoneNumbers);
          var email := PreferredEmail(enriched.workEmails, enriched.personalEmails);
          LookupEntry(
            fullName,
            if enriched.fullName != "" then Some(enriched.fullName) else person.fullName,
            Some(personId),
            phones,
            NonEmpty(email),
            StatusFor(phones))
  }

  /** `POST` (app/api/lookup/aviato/route.ts:64-98): 400 before any lookup for a missing or
      empty `names`; otherwise one entry per name, in input order, each naming its query. */
  method Post(names: Result<Option<seq<string>>>, v: Vendor) returns (reply: LookupBatch.Reply)
    ensures names.Failure? <==> reply.ServerError?
    ensures reply.BadRequest? <==> names.Ok? && (names.value.None? || names.value.value == [])
    ensures reply.Results? ==>
      && |reply.results| == |names.value.value|
      && forall k :: 0 <= k < |reply.results| ==>
           reply.results[k] == SearchByName(names.value.value[k], v) &&
           reply.results[k].fullName == names.value.value[k]
  {
    reply := LookupBatch.Post(names, name => Fulfilled(SearchByName(name, v)));
  }
}
