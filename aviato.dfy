/** The Aviato adapter (lib/aviato.ts): URL normalisation, current-role extraction,
    query building, the search-then-enrich mapping, phone and e-mail normalisation and
    enrichment. Every HTTP call is a field of `Vendor`, a function from the request to its reply. */
module Aviato {
  import opened Wrappers
  import opened Strings
  import opened Seqs
  import opened Types
  import Batch

  // ---------------------------------------------------------------- URLs

  /** `normalizeUrl`: empty stays empty, an `http://` or `https://` URL is kept, anything
      else gets the `https://` prefix. */
  function NormalizeUrl(url: string): (r: string)
    ensures url == "" ==> r == ""
    ensures url != "" ==> StartsWith(r, "http://") || StartsWith(r, "https://")
    ensures StartsWith(url, "http://") || StartsWith(url, "https://") ==> r == url
    ensures url != "" && !StartsWith(url, "http://") && !StartsWith(url, "https://") ==> r == "https://" + url
  {
    if url == "" then ""
    else if StartsWith(url, "http://") || StartsWith(url, "https://") then url
    else "https://" + url
  }

  /** Normalising a normalised URL changes nothing. */
  lemma {:induction false} NormalizeUrlIdempotent(url: string)
    ensures NormalizeUrl(NormalizeUrl(url)) == NormalizeUrl(url)
  {
    if url != "" && !StartsWith(url, "http://") && !StartsWith(url, "https://") {
      assert ("https://" + url)[..8] == "https://";
    }
  }

  // ---------------------------------------------------------------- current role

  datatype Position = Position(title: Option<string>, endDate: Option<string>)

  datatype Experience = Experience(
    companyName: Option<string>,
    companyId: Option<string>,
    positionList: Option<seq<Position>>,
    endDate: Option<string>)

  datatype CurrentRole = CurrentRole(title: string, companyName: string, companyId: string)

  /** `!e.endDate`: an experience with no (or an empty) end date is ongoing. */
  predicate IsOngoing(e: Experience) {
    !Truthy(e.endDate)
  }

  predicate IsOngoingPosition(p: Position) {
    !Truthy(p.endDate)
  }

  /** `positionList?.find(p => !p.endDate) || positionList?.[0]`. */
  function CurrentPosition(e: Experience): (r: Option<Position>)
    ensures r.None? <==> e.positionList.None? || e.positionList.value == []
    ensures r.Some? ==> r.value in e.positionList.value
  {
    match e.positionList
    case None => None
    case Some(ps) => FindOr(ps, IsOngoingPosition, Head(ps))
  }

  /** `getCurrentRole` (lib/aviato.ts:61-73): `null` for a missing or empty list; otherwise
      the first ongoing experience (else the first one) and, inside it, the first ongoing
      position (else the first one), missing fields read as `''`. */
  function GetCurrentRole(list: Option<seq<Experience>>): (r: Option<CurrentRole>)
    ensures r.None? <==> list.None? || list.value == []
    ensures r.Some? ==> exists i :: (0 <= i < |list.value| &&
      r.value.companyName == OrEmpty(list.value[i].companyName) &&
      r.value.companyId == OrEmpty(list.value[i].companyId))
  {
    if list.None? || list.value == [] then None
    else
      var current := FindOr(list.value, IsOngoing, Some(list.value[0])).value;
      var position := CurrentPosition(current);
      Some(CurrentRole(
        if position.Some? then OrEmpty(position.value.title) else "",
        OrEmpty(current.companyName),
        OrEmpty(current.companyId)))
  }

  /** With an ongoing experience, the role is taken from the first ongoing one. */
  lemma {:induction false} CurrentRoleFirstOngoing(list: seq<Experience>, i: nat)
    requires i < |list| && IsOngoing(list[i])
    requires forall j :: 0 <= j < i ==> !IsOngoing(list[j])
    ensures GetCurrentRole(Some(list)) == Some(CurrentRole(
      RoleTitle(list[i]), OrEmpty(list[i].companyName), OrEmpty(list[i].companyId)))
  {
    FindOrFirst(list, IsOngoing, Some(list[0]), i);
  }

  /** With every experience ended, the role is taken from the first one. */
  lemma {:induction false} CurrentRoleAllEnded(list: seq<Experience>)
    requires list != []
    requires forall j :: 0 <= j < |list| ==> !IsOngoing(list[j])
    ensures GetCurrentRole(Some(list)) == Some(CurrentRole(
      RoleTitle(list[0]), OrEmpty(list[0].companyName), OrEmpty(list[0].companyId)))
  {
  }

  /** The title an experience contributes: that of its first ongoing position, else of its
      first position, else `''`. */
  function RoleTitle(e: Experience): (r: string)
    ensures e.positionList.None? || e.positionList.value == [] ==> r == ""
  {
    var position := CurrentPosition(e);
    if position.Some? then OrEmpty(position.value.title) else ""
  }

  /** The title comes from the first ongoing position when there is one. */
  lemma {:induction false} RoleTitleFirstOngoing(e: Experience, k: nat)
    requires e.positionList.Some? && k < |e.positionList.value|
    requires IsOngoingPosition(e.positionList.value[k])
    requires forall j :: 0 <= j < k ==> !IsOngoingPosition(e.positionList.value[j])
    ensures RoleTitle(e) == OrEmpty(e.positionList.value[k].title)
  {
    var ps := e.positionList.value;
    FindOrFirst(ps, IsOngoingPosition, Head(ps), k);
  }

  /** With every position ended, the title comes from the first position. */
  lemma {:induction false} RoleTitleAllEnded(e: Experience)
    requires e.positionList.Some? && e.positionList.value != []
    requires forall j :: 0 <= j < |e.positionList.value| ==> !IsOngoingPosition(e.positionList.value[j])
    ensures RoleTitle(e) == OrEmpty(e.positionList.value[0].title)
  {
  }

  // ---------------------------------------------------------------- search request

  /** The Aviato search form; an absent, empty or zero field is unconstrained. */
  datatype SearchFilters = SearchFilters(
    headline: Option<string>,
    country: Option<string>,
    companyName: Option<string>,
    skills: Option<string>,
    linkedinConnections: Option<int>)

  /** The query string of `/person/simple/search`; a `None` field is a parameter left out. */
  datatype SearchQuery = SearchQuery(
    page: string,
    perPage: string,
    headline: Option<string>,
    country: Option<string>,
    currentCompanyNames: Option<string>,
    skills: Option<string>,
    minLinkedinConnections: Option<string>)

  /** The query for `filters`, `page` and `pageSize`: `page` and `perPage` always, every
      other parameter only for a truthy filter, so a connection count of 0 is not sent. */
  predicate QueryFor(filters: SearchFilters, page: int, pageSize: int, params: SearchQuery) {
    && params.page == IntToString(page) && params.perPage == IntToString(pageSize)
    && params.headline.Some? == Truthy(filters.headline)
    && (params.headline.Some? ==> params.headline == filters.headline)
    && params.country.Some? == Truthy(filters.country)
    && (params.country.Some? ==> params.country == filters.country)
    && params.currentCompanyNames.Some? == Truthy(filters.companyName)
    && (params.currentCompanyNames.Some? ==> params.currentCompanyNames == filters.companyName)
    && params.skills.Some? == Truthy(filters.skills)
    && (params.skills.Some? ==> params.skills == filters.skills)
    && (params.minLinkedinConnections.Some? <==>
          filters.linkedinConnections.Some? && filters.linkedinConnections.value != 0)
    && (params.minLinkedinConnections.Some? ==>
          params.minLinkedinConnections.value == IntToString(filters.linkedinConnections.value))
  }

  /** The query built field by field as `searchPeople` does (lib/aviato.ts:81-100). */
  method BuildSearchParams(filters: SearchFilters, page: int, pageSize: int) returns (params: SearchQuery)
    ensures QueryFor(filters, page, pageSize, params)
  {
    params := SearchQuery(IntToString(page), IntToString(pageSize), None, None, None, None, None);
    if Truthy(filters.headline) {
      params := params.(headline := filters.headline);
    }
    if Truthy(filters.country) {
      params := params.(country := filters.country);
    }
    if Truthy(filters.companyName) {
      params := params.(currentCompanyNames := filters.companyName);
    }
    if Truthy(filters.skills) {
      params := params.(skills := filters.skills);
    }
    if filters.linkedinConnections.Some? && filters.linkedinConnections.value != 0 {
      params := params.(minLinkedinConnections := Some(IntToString(filters.linkedinConnections.value)));
    }
  }

  // ---------------------------------------------------------------- search response

  /** One element of the search reply's `items`. */
  datatype SearchItem = SearchItem(id: string, fullName: Option<string>, linkedin: Option<string>)

  /** The reply of `/person/simple/search`: `items`, `totalResults` and `count.value`. */
  datatype SearchData = SearchData(items: Option<seq<SearchItem>>, totalResults: Option<int>, countValue: Option<string>)

  /** The person record of `/person/enrich`. */
  datatype PersonRecord = PersonRecord(
    id: Option<string>,
    fullName: Option<string>,
    firstName: Option<string>,
    lastName: Option<string>,
    headline: Option<string>,
    linkedin: Option<string>,
    experienceList: Option<seq<Experience>>,
    skills: Option<seq<string>>,
    location: Option<string>,
    about: Option<string>)

  /** The enrichment of a search item when its call was fulfilled with a record. */
  function EnrichedOf(o: Settled<Option<PersonRecord>>): (r: Option<PersonRecord>)
    ensures r.Some? <==> o.Fulfilled? && o.value.Some?
  {
    if o.Fulfilled? then o.value else None
  }

  function Field(e: Option<PersonRecord>, f: PersonRecord -> Option<string>): Option<string> {
    if e.Some? then f(e.value) else None
  }

  /** The composite display key `aviato-${item.id}-${page}-${index}`. */
  function DisplayId(item: SearchItem, page: int, index: nat): string {
    "aviato-" + item.id + "-" + IntToString(page) + "-" + NatToString(index)
  }

  /** The mapping of item `index` and the outcome of its enrichment to a
      `PersonSearchResult` (lib/aviato.ts:144-174): enriched fields first, the search
      item's name and LinkedIn URL as fallbacks, the role title falling back to the headline. */
  function ToSearchResult(item: SearchItem, outcome: Settled<Option<PersonRecord>>, page: int, index: nat)
    : (r: PersonSearchResult)
    ensures r.person.id == DisplayId(item, page, index)
    ensures r.person.foragerPersonId == item.id
    ensures var e := EnrichedOf(outcome);
      && r.person.fullName == OrEmpty(if e.Some? && Truthy(e.value.fullName) then e.value.fullName else item.fullName)
      && r.person.linkedinUrl ==
           NormalizeUrl(OrEmpty(if e.Some? && Truthy(e.value.linkedin) then e.value.linkedin else item.linkedin))
    ensures var e := EnrichedOf(outcome);
      var role := GetCurrentRole(if e.Some? then e.value.experienceList else None);
      && r.role.title == (if role.Some? && role.value.title != "" then role.value.title
                          else if e.Some? then OrEmpty(e.value.headline) else "")
      && r.role.companyName == (if role.Some? then role.value.companyName else "")
    ensures r.role.isCurrent && r.person.source == AviatoSource && r.person.photo == ""
  {
    var e := EnrichedOf(outcome);
    var role := GetCurrentRole(if e.Some? then e.value.experienceList else None);
    var headline := OrEmpty(Field(e, (p: PersonRecord) => p.headline));
    PersonSearchResult(
      PersonBasic(
        DisplayId(item, page, index),
        item.id,
        OrEmpty(OrElse(Field(e, (p: PersonRecord) => p.fullName), item.fullName)),
        OrEmpty(Field(e, (p: PersonRecord) => p.firstName)),
        OrEmpty(Field(e, (p: PersonRecord) => p.lastName)),
        "",
        headline,
        NormalizeUrl(OrEmpty(OrElse(Field(e, (p: PersonRecord) => p.linkedin), item.linkedin))),
        AviatoSource),
      RoleInfo(
        if role.Some? && role.value.title != "" then role.value.title else headline,
        if role.Some? then role.value.companyName else "",
        if role.Some? then role.value.companyId else "",
        true))
  }

  /** `items.map((item, index) => ...)` over the index-aligned enrichment outcomes. */
  function MapItems(items: seq<SearchItem>, outcomes: seq<Settled<Option<PersonRecord>>>, page: int)
    : (r: seq<PersonSearchResult>)
    requires |outcomes| == |items|
    ensures |r| == |items|
    ensures forall i :: 0 <= i < |items| ==> r[i] == ToSearchResult(items[i], outcomes[i], page, i)
  {
    seq(|items|, i requires 0 <= i < |items| => ToSearchResult(items[i], outcomes[i], page, i))
  }

  /** The display keys of one page are pairwise distinct, whatever the vendor's ids. */
  lemma {:induction false} DisplayIdsDistinct(items: seq<SearchItem>, outcomes: seq<Settled<Option<PersonRecord>>>, page: int, i: nat, j: nat)
    requires |outcomes| == |items|
    requires i < |items| && j < |items| && i != j
    ensures MapItems(items, outcomes, page)[i].person.id != MapItems(items, outcomes, page)[j].person.id
  {
    var a := "aviato-" + items[i].id + "-" + IntToString(page);
    var b := "aviato-" + items[j].id + "-" + IntToString(page);
    assert DisplayId(items[i], page, i) == a + ['-'] + NatToString(i);
    assert DisplayId(items[j], page, j) == b + ['-'] + NatToString(j);
    if DisplayId(items[i], page, i) == DisplayId(items[j], page, j) {
      DigitsHaveNoDash(i);
      DigitsHaveNoDash(j);
      SameTailAfterSeparator(a, NatToString(i), b, NatToString(j), '-');
      NatToStringInjective(i, j);
    }
  }

  /** `data.totalResults ?? (parseInt(data.count?.value, 10) || results.length)`. */
  function TotalCount(data: SearchData, resultCount: nat): (r: int)
    ensures data.totalResults.Some? ==> r == data.totalResults.value
    ensures var parsed := ParseInt(OrEmpty(data.countValue));
      data.totalResults.None? && parsed.Some? && parsed.value != 0 ==> r == parsed.value
    ensures var parsed := ParseInt(OrEmpty(data.countValue));
      data.totalResults.None? && (parsed.None? || parsed.value == 0) ==> r == resultCount
  {
    if data.totalResults.Some? then data.totalResults.value
    else
      var parsed := ParseInt(OrEmpty(data.countValue));
      if parsed.Some? && parsed.value != 0 then parsed.value else resultCount
  }

  // ---------------------------------------------------------------- vendor

  datatype RawPhone = RawPhone(phoneNumber: Option<string>, score: Option<int>)

  datatype RawEmail = RawEmail(email: Option<string>, kind: Option<string>)

  datatype Email = Email(address: string, kind: Option<string>)

  /** The Aviato endpoints; `phones` and `emails` answer `Ok(None)` when the list in their
      reply is not an array. */
  datatype Vendor = Vendor(
    search: SearchQuery -> Result<SearchData>,
    enrich: string -> Result<Option<PersonRecord>>,
    phones: string -> Result<Option<seq<RawPhone>>>,
    emails: string -> Result<Option<seq<RawEmail>>>)

  /** `searchPeople` (lib/aviato.ts:75-189): search, then enrich every item at once and map
      each item with its own outcome; no item means no enrichment and an empty page. */
  method SearchPeople(filters: SearchFilters, page: int, pageSize: int, v: Vendor)
    returns (sent: SearchQuery, enrichedIds: seq<string>, r: Result<SearchResponse>)
    ensures QueryFor(filters, page, pageSize, sent)
    ensures r.Failure? <==> v.search(sent).Failure?
    ensures r.Ok? ==>
      var items := if v.search(sent).value.items.Some? then v.search(sent).value.items.value else [];
      && |r.value.results| == |items| == |enrichedIds|
      && (forall i :: 0 <= i < |items| ==> enrichedIds[i] == items[i].id)
      && (forall i :: 0 <= i < |items| ==>
            r.value.results[i] == ToSearchResult(items[i], Settle(v.enrich(items[i].id)), page, i))
      && r.value.page == page && r.value.pageSize == pageSize
    ensures r.Ok? && |r.value.results| == 0 ==> r.value.totalCount == 0 && !r.value.hasMore
    ensures r.Ok? && |r.value.results| > 0 ==>
      && (r.value.hasMore <==> |r.value.results| == pageSize)
      && r.value.totalCount == TotalCount(v.search(sent).value, |r.value.results|)
  {
    sent := BuildSearchParams(filters, page, pageSize);
    enrichedIds := [];
    var reply := v.search(sent);
    if reply.Failure? {
      return sent, enrichedIds, Failure(reply.error);
    }
    var data := reply.value;
    var items := if data.items.Some? then data.items.value else [];
    if |items| == 0 {
      return sent, enrichedIds, Ok(SearchResponse([], 0, page, pageSize, false));
    }
    enrichedIds := Map(items, (item: SearchItem) => item.id);
    // `Promise.allSettled(items.map(item => enrich(item.id)))`
    var outcomes := seq(|items|, i requires 0 <= i < |items| => Settle(v.enrich(items[i].id)));
    var results := MapItems(items, outcomes, page);
    r := Ok(SearchResponse(results, TotalCount(data, |results|), page, pageSize, |results| == pageSize));
  }

  // ---------------------------------------------------------------- phones and e-mails

  predicate HasNumber(p: PhoneNumber) {
    p.phoneNumber != ""
  }

  function ToPhoneNumber(p: RawPhone): PhoneNumber {
    PhoneNumber(OrEmpty(p.phoneNumber), None)
  }

  /** `lookupPhoneNumbers` (lib/aviato.ts:191-212): failure or a non-array gives `[]`;
      otherwise the non-empty `phoneNumber`s, in order. */
  function LookupPhoneNumbers(reply: Result<Option<seq<RawPhone>>>): (r: seq<PhoneNumber>)
    ensures reply.Failure? || reply.value.None? ==> r == []
    ensures reply.Ok? && reply.value.Some? ==> r == Filter(Map(reply.value.value, ToPhoneNumber), HasNumber)
    ensures forall i :: 0 <= i < |r| ==> r[i].phoneNumber != "" && r[i].kind.None?
  {
    match reply
    case Failure(_) => []
    case Ok(None) => []
    case Ok(Some(entries)) => Filter(Map(entries, ToPhoneNumber), HasNumber)
  }

  predicate HasAddress(e: Email) {
    e.address != ""
  }

  function ToEmail(e: RawEmail): Email {
    Email(OrEmpty(e.email), e.kind)
  }

  /** `lookupEmails` (lib/aviato.ts:214-235): failure or a non-array gives `[]`; otherwise the
      entries with a non-empty address, in order, with their type. */
  function LookupEmails(reply: Result<Option<seq<RawEmail>>>): (r: seq<Email>)
    ensures reply.Failure? || reply.value.None? ==> r == []
    ensures reply.Ok? && reply.value.Some? ==> r == Filter(Map(reply.value.value, ToEmail), HasAddress)
    ensures forall i :: 0 <= i < |r| ==> r[i].address != ""
  {
    match reply
    case Failure(_) => []
    case Ok(None) => []
    case Ok(Some(entries)) => Filter(Map(entries, ToEmail), HasAddress)
  }

  function Address(e: Email): string {
    e.address
  }

  /** The addresses of the e-mails of type `kind`, in order. */
  function AddressesOfKind(emails: seq<Email>, kind: string): (r: seq<string>)
    ensures |r| <= |emails|
    ensures forall i :: 0 <= i < |r| ==> exists j :: 0 <= j < |emails| && emails[j].kind == Some(kind) && emails[j].address == r[i]
    ensures forall j :: 0 <= j < |emails| && emails[j].kind == Some(kind) ==> emails[j].address in r
    ensures (forall j :: 0 <= j < |emails| ==> emails[j].kind != Some(kind)) ==> r == []
  {
    var kept := Filter(emails, (e: Email) => e.kind == Some(kind));
    var r := Map(kept, Address);
    assert forall i :: 0 <= i < |r| ==> r[i] == kept[i].address && kept[i] in emails;
    forall j | 0 <= j < |emails| && emails[j].kind == Some(kind) ensures emails[j].address in r {
      var k :| 0 <= k < |kept| && kept[k] == emails[j];
      assert r[k] == emails[j].address;
    }
    r
  }

  /** The e-mail partition of `enrichPerson`: the `'work'` addresses, or every address when
      none is typed `'work'`; and the `'personal'` addresses. */
  function PartitionEmails(emails: seq<Email>): (r: (seq<string>, seq<string>))
    ensures r.1 == AddressesOfKind(emails, "personal")
    ensures (exists j :: 0 <= j < |emails| && emails[j].kind == Some("work")) ==> r.0 == AddressesOfKind(emails, "work")
    ensures (forall j :: 0 <= j < |emails| ==> emails[j].kind != Some("work")) ==> r.0 == Map(emails, Address)
  {
    var work := AddressesOfKind(emails, "work");
    (if |work| > 0 then work else Map(emails, Address), AddressesOfKind(emails, "personal"))
  }

  /** Neither list holds an empty address when no e-mail has one, as after `LookupEmails`. */
  lemma {:induction false} PartitionEmailsNonEmpty(emails: seq<Email>)
    requires forall i :: 0 <= i < |emails| ==> emails[i].address != ""
    ensures forall i :: 0 <= i < |PartitionEmails(emails).0| ==> PartitionEmails(emails).0[i] != ""
    ensures forall i :: 0 <= i < |PartitionEmails(emails).1| ==> PartitionEmails(emails).1[i] != ""
  {
    var work := AddressesOfKind(emails, "work");
    var personal := AddressesOfKind(emails, "personal");
    forall i | 0 <= i < |work| ensures work[i] != "" {
      var j :| 0 <= j < |emails| && emails[j].kind == Some("work") && emails[j].address == work[i];
    }
    forall i | 0 <= i < |personal| ensures personal[i] != "" {
      var j :| 0 <= j < |emails| && emails[j].kind == Some("personal") && emails[j].address == personal[i];
    }
  }

  // ---------------------------------------------------------------- enrichment

  /** The enriched record built from a person record and the phone and e-mail lookups. */
  function ToEnrichedPerson(personId: string, p: PersonRecord, phones: seq<PhoneNumber>, emails: seq<Email>)
    : (r: EnrichedPerson)
    ensures r.id == (if Truthy(p.id) then p.id.value else personId)
    ensures Truthy(p.fullName) ==> r.fullName == p.fullName.value
    ensures !Truthy(p.fullName) ==> r.fullName == Trim(OrEmpty(p.firstName) + " " + OrEmpty(p.lastName))
    ensures (r.workEmails, r.personalEmails) == PartitionEmails(emails)
    ensures r.phoneNumbers == phones && r.source == AviatoSource
    ensures r.summary == OrEmpty(if Truthy(p.about) then p.about else p.headline)
    ensures r.currentRole.None? <==> GetCurrentRole(p.experienceList).None?
    ensures var role := GetCurrentRole(p.experienceList);
            role.Some? ==> r.currentRole == Some(RoleInfo(role.value.title, role.value.companyName, role.value.companyId, true))
    ensures r.linkedinUrl == NormalizeUrl(OrEmpty(p.linkedin))
  {
    var role := GetCurrentRole(p.experienceList);
    var (work, personal) := PartitionEmails(emails);
    EnrichedPerson(
      OrEmpty(OrElse(p.id, Some(personId))),
      if Truthy(p.fullName) then p.fullName.value else Trim(OrEmpty(p.firstName) + " " + OrEmpty(p.lastName)),
      OrEmpty(p.firstName),
      OrEmpty(p.lastName),
      OrEmpty(p.headline),
      NormalizeUrl(OrEmpty(p.linkedin)),
      work,
      personal,
      phones,
      if p.skills.Some? then p.skills.value else [],
      OrEmpty(p.location),
      OrEmpty(OrElse(p.about, p.headline)),
      if role.Some? then Some(RoleInfo(role.value.title, role.value.companyName, role.value.companyId, true)) else None,
      AviatoSource)
  }

  /** `enrichPerson` (lib/aviato.ts:237-281): the record, phone and e-mail lookups run
      together; only the record lookup can fail the enrichment (the other two degrade to
      `[]`), and a `null` record gives `null`. */
  function EnrichPerson(personId: string, v: Vendor): (r: Result<Option<EnrichedPerson>>)
    ensures r.Failure? <==> v.enrich(personId).Failure?
    ensures r.Ok? ==> (r.value.None? <==> v.enrich(personId).value.None?)
    ensures r.Ok? && r.value.Some? ==>
      && r.value.value == ToEnrichedPerson(personId, v.enrich(personId).value.value,
                                           LookupPhoneNumbers(v.phones(personId)), LookupEmails(v.emails(personId)))
      && r.value.value.phoneNumbers == LookupPhoneNumbers(v.phones(personId))
      && (r.value.value.workEmails, r.value.value.personalEmails) == PartitionEmails(LookupEmails(v.emails(personId)))
  {
    match v.enrich(personId)
    case Failure(e) => Failure(e)
    case Ok(None) => Ok(None)
    case Ok(Some(p)) =>
      Ok(Some(ToEnrichedPerson(personId, p, LookupPhoneNumbers(v.phones(personId)), LookupEmails(v.emails(personId)))))
  }

  /** The id filter of `enrichMultiplePeople`: not empty and not `'undefined'` (no numeric test). */
  predicate IsValidId(id: string) {
    id != "" && id != "undefined"
  }

  /** `enrichMultiplePeople` (lib/aviato.ts:283-305): the valid ids, in batches of five run
      one after another, each settled as a whole; the fulfilled non-null profiles in order. */
  method EnrichMultiplePeople(personIds: seq<string>, v: Vendor)
    returns (batches: seq<seq<string>>, people: seq<EnrichedPerson>)
    ensures Flatten(batches) == Filter(personIds, IsValidId)
    ensures batches == Chunks(Filter(personIds, IsValidId), Batch.BatchSize)
    ensures forall k, i :: 0 <= k < |batches| && 0 <= i < |batches[k]| ==> IsValidId(batches[k][i])
    ensures people == Batch.Collected(Filter(personIds, IsValidId), id => Settle(EnrichPerson(id, v)))
    ensures |people| <= |Filter(personIds, IsValidId)| <= |personIds|
  {
    var validIds := Filter(personIds, IsValidId);
    if |validIds| == 0 {
      return [], [];
    }
    batches, people := Batch.EnrichInBatches(validIds, id => Settle(EnrichPerson(id, v)));
    ChunksFlatten(validIds, Batch.BatchSize);
    forall k, i | 0 <= k < |batches| && 0 <= i < |batches[k]| ensures IsValidId(batches[k][i]) {
      FlattenMember(batches, k, i);
    }
  }

  /** Unlike Forager's filter, a non-numeric id such as `'abc'` is enriched. */
  lemma {:induction false} NonNumericIdKept()
    ensures Filter(["", "undefined", "abc"], IsValidId) == ["abc"]
  {
    var s: seq<string> := ["", "undefined", "abc"];
    assert s[1..] == ["undefined", "abc"];
    assert s[2..] == ["abc"];
    assert s[3..] == [];
  }
}
