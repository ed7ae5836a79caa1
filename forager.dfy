/** The Forager adapter (lib/forager.ts): query sanitising, request building, mapping of
    search hits to `PersonSearchResult`, phone-number normalisation and enrichment.
    Every HTTP call is a field of `Vendor`, a function from the request to its reply. */
module Forager {
  import opened Wrappers
  import opened Strings
  import opened Seqs
  import opened Types
  import Batch

  // ---------------------------------------------------------------- sanitising

  /** The characters with a meaning in Forager's query grammar: `& | ! ( ) { } [ ] ^ " ~ * ? : \`. */
  predicate IsQuerySyntax(c: char) {
    c in "&|!(){}[]^\"~*?:\\"
  }

  predicate NoQuerySyntax(s: string) {
    forall i :: 0 <= i < |s| ==> !IsQuerySyntax(s[i])
  }

  predicate NotQuerySyntax(c: char) {
    !IsQuerySyntax(c)
  }

  /** `replace(/[&|!(){}[\]^"~*?:\\]/g, '')`: exactly the query-syntax characters are
      removed, every other character kept in order. */
  function StripQuerySyntax(s: string): (r: string)
    ensures NoQuerySyntax(r)
    ensures forall i :: 0 <= i < |r| ==> r[i] in s
    ensures NoQuerySyntax(s) ==> r == s
    decreases |s|
  {
    if s == [] then []
    else (if IsQuerySyntax(s[0]) then [] else [s[0]]) + StripQuerySyntax(s[1..])
  }

  /** Stripping keeps every other character, in order. */
  lemma {:induction false} StripQuerySyntaxKeepsOthers(s: string)
    ensures StripQuerySyntax(s) == Filter(s, NotQuerySyntax)
    decreases |s|
  {
    if s != [] {
      StripQuerySyntaxKeepsOthers(s[1..]);
    }
  }

  /** `replace(/\s+/g, '_')`: every maximal whitespace run becomes one underscore. */
  function CollapseSpaces(s: string): (r: string)
    ensures NoSpace(r)
    ensures forall i :: 0 <= i < |r| ==> r[i] == '_' || r[i] in s
    ensures NoSpace(s) ==> r == s
    decreases |s|
  {
    if s == [] then []
    else if IsSpace(s[0]) then
      var rest := TrimStart(s);
      assert forall i :: 0 <= i < |rest| ==> rest[i] == s[|s| - |rest| + i];
      "_" + CollapseSpaces(rest)
    else [s[0]] + CollapseSpaces(s[1..])
  }

  /** A non-empty whitespace run followed by a non-space character (or the end) is
      replaced by exactly one underscore. */
  lemma {:induction false} CollapseRun(w: string, t: string)
    requires |w| > 0 && forall i :: 0 <= i < |w| ==> IsSpace(w[i])
    requires t == [] || !IsSpace(t[0])
    ensures CollapseSpaces(w + t) == "_" + CollapseSpaces(t)
  {
    TrimStartRun(w, t);
  }

  /** A character that is not whitespace stays where it is. */
  lemma {:induction false} CollapseKeeps(c: char, t: string)
    requires !IsSpace(c)
    ensures CollapseSpaces([c] + t) == [c] + CollapseSpaces(t)
  {
    assert ([c] + t)[1..] == t;
  }

  lemma {:induction false} TrimStartRun(w: string, t: string)
    requires forall i :: 0 <= i < |w| ==> IsSpace(w[i])
    requires t == [] || !IsSpace(t[0])
    ensures TrimStart(w + t) == t
    decreases |w|
  {
    if w != [] {
      assert (w + t)[1..] == w[1..] + t;
      TrimStartRun(w[1..], t);
    } else {
      assert w + t == t;
    }
  }

  /** `sanitizeSearchString` (lib/forager.ts:34-39; the lookup route at
      app/api/lookup/forager/route.ts:8-13 has an identical copy): the query-syntax
      characters are removed, whitespace runs become `_`, then the result is trimmed. */
  function SanitizeSearchString(s: string): (r: string)
    ensures NoSpace(r) && NoQuerySyntax(r)
    ensures NoSpace(s) && NoQuerySyntax(s) ==> r == s
    ensures r == CollapseSpaces(StripQuerySyntax(s))
  {
    var stripped := StripQuerySyntax(s);
    var collapsed := CollapseSpaces(stripped);
    assert NoQuerySyntax(collapsed) by {
      forall i | 0 <= i < |collapsed| ensures !IsQuerySyntax(collapsed[i]) {
        if collapsed[i] != '_' {
          var j :| 0 <= j < |stripped| && stripped[j] == collapsed[i];
        }
      }
    }
    Trim(collapsed)
  }

  /** Sanitising is idempotent: a sanitised string is its own sanitisation. */
  lemma {:induction false} SanitizeIdempotent(s: string)
    ensures SanitizeSearchString(SanitizeSearchString(s)) == SanitizeSearchString(s)
  {
  }

  // ---------------------------------------------------------------- search request

  /** The sparse filter set of the Forager search form; an absent or empty field is unconstrained. */
  datatype SearchFilters = SearchFilters(
    personIndustry: Option<string>,
    personLocation: Option<string>,
    companyIndustry: Option<string>,
    companyLocation: Option<string>,
    companyKeywords: Option<string>)

  /** The request body of `/person_role_search/`; a `None` field is a key the body leaves out. */
  datatype SearchRequest = SearchRequest(
    roleIsCurrent: bool,
    page: int,
    personHeadline: Option<string>,
    personLocations: Option<seq<string>>,
    organizationDescription: Option<string>,
    orgLocations: Option<seq<string>>,
    roleTitle: Option<string>)

  /** The request body for `filters` and `page`: `role_is_current` and `page` always;
      every other key only for a non-empty filter field, free-text values sanitised and
      locations wrapped in a one-element list. */
  predicate ParamsFor(filters: SearchFilters, page: int, params: SearchRequest) {
    && params.roleIsCurrent && params.page == page
    && params.personHeadline.Some? == Truthy(filters.personIndustry)
    && (params.personHeadline.Some? ==>
          params.personHeadline.value == SanitizeSearchString(filters.personIndustry.value))
    && params.personLocations.Some? == Truthy(filters.personLocation)
    && (params.personLocations.Some? ==> params.personLocations.value == [filters.personLocation.value])
    && params.organizationDescription.Some? == Truthy(filters.companyIndustry)
    && (params.organizationDescription.Some? ==>
          params.organizationDescription.value == SanitizeSearchString(filters.companyIndustry.value))
    && params.orgLocations.Some? == Truthy(filters.companyLocation)
    && (params.orgLocations.Some? ==> params.orgLocations.value == [filters.companyLocation.value])
    && params.roleTitle.Some? == Truthy(filters.companyKeywords)
    && (params.roleTitle.Some? ==>
          params.roleTitle.value == SanitizeSearchString(filters.companyKeywords.value))
  }

  /** The request body built field by field as `searchPeople` does. */
  method BuildSearchParams(filters: SearchFilters, page: int) returns (params: SearchRequest)
    ensures ParamsFor(filters, page, params)
  {
    params := SearchRequest(true, page, None, None, None, None, None);
    if Truthy(filters.personIndustry) {
      params := params.(personHeadline := Some(SanitizeSearchString(filters.personIndustry.value)));
    }
    if Truthy(filters.personLocation) {
      params := params.(personLocations := Some([filters.personLocation.value]));
    }
    if Truthy(filters.companyIndustry) {
      params := params.(organizationDescription := Some(SanitizeSearchString(filters.companyIndustry.value)));
    }
    if Truthy(filters.companyLocation) {
      params := params.(orgLocations := Some([filters.companyLocation.value]));
    }
    if Truthy(filters.companyKeywords) {
      params := params.(roleTitle := Some(SanitizeSearchString(filters.companyKeywords.value)));
    }
  }

  // ---------------------------------------------------------------- search response

  datatype ApiPerson = ApiPerson(
    id: int,
    fullName: Option<string>,
    firstName: Option<string>,
    lastName: Option<string>,
    photo: Option<string>,
    headline: Option<string>,
    publicProfileUrl: Option<string>)

  datatype ApiOrganization = ApiOrganization(id: int, name: Option<string>)

  /** One element of `search_results`: a role held by a person at an organisation. */
  datatype ApiResult = ApiResult(
    id: int,
    title: Option<string>,
    person: Option<ApiPerson>,
    organization: Option<ApiOrganization>)

  datatype SearchData = SearchData(searchResults: Option<seq<ApiResult>>, totalSearchResults: Option<int>)

  /** `${item.person?.id}`: a missing person prints as `undefined`. */
  function PersonIdText(item: ApiResult): string {
    match item.person
    case None => "undefined"
    case Some(p) => IntToString(p.id)
  }

  /** The composite display key `${item.id}-${item.person?.id}-${page}-${index}`. */
  function DisplayId(item: ApiResult, page: int, index: nat): string {
    IntToString(item.id) + "-" + PersonIdText(item) + "-" + IntToString(page) + "-" + NatToString(index)
  }

  /** `String(x || '')` for a numeric id: `0` and a missing value both give `''`. */
  function IdText(id: Option<int>): (r: string)
    ensures r == "" <==> id.None? || id.value == 0
  {
    if id.Some? && id.value != 0 then
      var t := IntToString(id.value);
      assert t != "" by { assert |NatToString(if id.value < 0 then -id.value else id.value)| >= 1; }
      t
    else ""
  }

  function PersonField(item: ApiResult, f: ApiPerson -> Option<string>): string {
    if item.person.Some? then OrEmpty(f(item.person.value)) else ""
  }

  /** The mapping of hit `index` of page `page` to a `PersonSearchResult`. */
  function ToSearchResult(item: ApiResult, page: int, index: nat): (r: PersonSearchResult)
    ensures r.person.id == DisplayId(item, page, index)
    ensures r.person.foragerPersonId == IdText(if item.person.Some? then Some(item.person.value.id) else None)
    ensures r.role.title ==
      (if Truthy(item.title) then item.title.value
       else if item.person.Some? && Truthy(item.person.value.headline) then item.person.value.headline.value
       else "")
    ensures r.role.companyName ==
      (if item.organization.Some? && Truthy(item.organization.value.name) then item.organization.value.name.value else "")
    ensures r.role.isCurrent && r.person.source == ForagerSource
  {
    var headline := if item.person.Some? then item.person.value.headline else None;
    PersonSearchResult(
      PersonBasic(
        DisplayId(item, page, index),
        IdText(if item.person.Some? then Some(item.person.value.id) else None),
        PersonField(item, (p: ApiPerson) => p.fullName),
        PersonField(item, (p: ApiPerson) => p.firstName),
        PersonField(item, (p: ApiPerson) => p.lastName),
        PersonField(item, (p: ApiPerson) => p.photo),
        OrEmpty(headline),
        PersonField(item, (p: ApiPerson) => p.publicProfileUrl),
        ForagerSource),
      RoleInfo(
        OrEmpty(OrElse(item.title, headline)),
        if item.organization.Some? then OrEmpty(item.organization.value.name) else "",
        IdText(if item.organization.Some? then Some(item.organization.value.id) else None),
        true))
  }

  /** `(data.search_results || []).map(...)`: one result per hit, same order. */
  function MapResults(items: seq<ApiResult>, page: int): (r: seq<PersonSearchResult>)
    ensures |r| == |items|
    ensures forall i :: 0 <= i < |items| ==> r[i] == ToSearchResult(items[i], page, i)
  {
    seq(|items|, i requires 0 <= i < |items| => ToSearchResult(items[i], page, i))
  }

  /** The display keys of one page are pairwise distinct, even when the vendor repeats a
      role or a person: the key ends in the position on the page. */
  lemma {:induction false} DisplayIdsDistinct(items: seq<ApiResult>, page: int, i: nat, j: nat)
    requires i < |items| && j < |items| && i != j
    ensures MapResults(items, page)[i].person.id != MapResults(items, page)[j].person.id
  {
    var a := IntToString(items[i].id) + "-" + PersonIdText(items[i]) + "-" + IntToString(page);
    var b := IntToString(items[j].id) + "-" + PersonIdText(items[j]) + "-" + IntToString(page);
    assert DisplayId(items[i], page, i) == a + ['-'] + NatToString(i);
    assert DisplayId(items[j], page, j) == b + ['-'] + NatToString(j);
    if DisplayId(items[i], page, i) == DisplayId(items[j], page, j) {
      DigitsHaveNoDash(i);
      DigitsHaveNoDash(j);
      SameTailAfterSeparator(a, NatToString(i), b, NatToString(j), '-');
      NatToStringInjective(i, j);
    }
  }

  /** The `SearchResponse` built from the vendor's reply to a request for `page`. */
  function ToSearchResponse(data: SearchData, page: int, pageSize: int): (r: SearchResponse)
    ensures var items := if data.searchResults.Some? then data.searchResults.value else [];
      r.results == MapResults(items, page)
    ensures r.hasMore <==> |r.results| == pageSize
    ensures r.totalCount ==
      (if data.totalSearchResults.Some? && data.totalSearchResults.value != 0
       then data.totalSearchResults.value else |r.results|)
    ensures r.page == page && r.pageSize == pageSize
  {
    var items := if data.searchResults.Some? then data.searchResults.value else [];
    var results := MapResults(items, page);
    var total := if data.totalSearchResults.Some? && data.totalSearchResults.value != 0
                 then data.totalSearchResults.value else |results|;
    SearchResponse(results, total, page, pageSize, |results| == pageSize)
  }

  // ---------------------------------------------------------------- phone numbers

  /** One entry of the phone-number lookup's reply. */
  datatype RawPhone = RawPhone(phoneNumber: Option<string>, number: Option<string>, kind: Option<string>)

  /** `p.phone_number || p.number || ''`. */
  function PhoneText(p: RawPhone): (r: string)
    ensures Truthy(p.phoneNumber) ==> r == p.phoneNumber.value
    ensures !Truthy(p.phoneNumber) ==> r == OrEmpty(p.number)
  {
    OrEmpty(OrElse(p.phoneNumber, p.number))
  }

  function ToPhoneNumber(p: RawPhone): PhoneNumber {
    PhoneNumber(PhoneText(p), p.kind)
  }

  predicate HasText(p: PhoneNumber) {
    p.phoneNumber != ""
  }

  /** `lookupPhoneNumbers` (lib/forager.ts:143-165). The reply is `Ok(Some(entries))` for a
      JSON array, `Ok(None)` for any other JSON value and `Failure` when the call threw. */
  function LookupPhoneNumbers(reply: Result<Option<seq<RawPhone>>>): (r: seq<PhoneNumber>)
    ensures reply.Failure? || reply.value.None? ==> r == []
    ensures reply.Ok? && reply.value.Some? ==> r == Filter(Map(reply.value.value, ToPhoneNumber), HasText)
    ensures forall i :: 0 <= i < |r| ==> r[i].phoneNumber != ""
    ensures reply.Ok? && reply.value.Some? ==> |r| <= |reply.value.value|
  {
    match reply
    case Failure(_) => []
    case Ok(None) => []
    case Ok(Some(entries)) => Filter(Map(entries, ToPhoneNumber), HasText)
  }

  // ---------------------------------------------------------------- enrichment

  /** The person record of `/person_detail_lookup/`. */
  datatype PersonData = PersonData(
    id: Option<int>,
    fullName: Option<string>,
    firstName: Option<string>,
    lastName: Option<string>,
    headline: Option<string>,
    linkedinUrl: Option<string>,
    publicProfileUrl: Option<string>,
    workEmails: Option<seq<string>>,
    personalEmails: Option<seq<string>>,
    skills: Option<seq<string>>,
    locationName: Option<string>,
    summary: Option<string>,
    description: Option<string>,
    currentRole: Option<RoleInfo>)

  /** The Forager endpoints. Person ids are sent as `parseInt(id, 10)`, `None` standing for
      `NaN`; `phones` answers `Ok(None)` when its JSON reply is not an array. */
  datatype Vendor = Vendor(
    search: SearchRequest -> Result<SearchData>,
    detail: Option<int> -> Result<Option<PersonData>>,
    phones: Option<int> -> Result<Option<seq<RawPhone>>>)

  /** `searchPeople` (lib/forager.ts:41-140): build the request, send it, map the reply;
      a failed call is passed on. */
  method SearchPeople(filters: SearchFilters, page: int, pageSize: int, v: Vendor)
    returns (sent: SearchRequest, r: Result<SearchResponse>)
    ensures ParamsFor(filters, page, sent)
    ensures r.Failure? <==> v.search(sent).Failure?
    ensures r.Ok? ==> r.value == ToSearchResponse(v.search(sent).value, page, pageSize)
  {
    sent := BuildSearchParams(filters, page);
    var reply := v.search(sent);
    match reply
    case Failure(e) => r := Failure(e);
    case Ok(data) => r := Ok(ToSearchResponse(data, page, pageSize));
  }

  function ListOrEmpty(o: Option<seq<string>>): seq<string> {
    if o.Some? then o.value else []
  }

  /** The enriched record built from a person record and the phone numbers found. */
  function ToEnrichedPerson(personId: string, d: PersonData, phones: seq<PhoneNumber>): (r: EnrichedPerson)
    ensures r.id == (if d.id.Some? && d.id.value != 0 then IntToString(d.id.value) else personId)
    ensures r.phoneNumbers == phones && r.source == ForagerSource
    ensures r.workEmails == ListOrEmpty(d.workEmails) && r.personalEmails == ListOrEmpty(d.personalEmails)
    ensures r.currentRole == d.currentRole
  {
    EnrichedPerson(
      if d.id.Some? && d.id.value != 0 then IntToString(d.id.value) else personId,
      OrEmpty(d.fullName),
      OrEmpty(d.firstName),
      OrEmpty(d.lastName),
      OrEmpty(d.headline),
      OrEmpty(OrElse(d.linkedinUrl, d.publicProfileUrl)),
      ListOrEmpty(d.workEmails),
      ListOrEmpty(d.personalEmails),
      phones,
      ListOrEmpty(d.skills),
      OrEmpty(d.locationName),
      OrEmpty(OrElse(d.summary, d.description)),
      d.currentRole,
      ForagerSource)
  }

  /** `enrichPerson` (lib/forager.ts:167-207): the detail and phone lookups for
      `parseInt(personId)` run together; a failed detail lookup fails the enrichment, a
      missing person gives `null`, a failed phone lookup only empties the phone list. */
  function EnrichPerson(personId: string, v: Vendor): (r: Result<Option<EnrichedPerson>>)
    ensures var detail := v.detail(ParseInt(personId));
      && (r.Failure? <==> detail.Failure?)
      && (r.Ok? ==> (r.value.None? <==> detail.value.None?))
    ensures r.Ok? && r.value.Some? ==>
      && r.value.value == ToEnrichedPerson(personId, v.detail(ParseInt(personId)).value.value,
                                           LookupPhoneNumbers(v.phones(ParseInt(personId))))
      && r.value.value.phoneNumbers == LookupPhoneNumbers(v.phones(ParseInt(personId)))
      && r.value.value.source == ForagerSource
  {
    var numericId := ParseInt(personId);
    match v.detail(numericId)
    case Failure(e) => Failure(e)
    case Ok(None) => Ok(None)
    case Ok(Some(d)) => Ok(Some(ToEnrichedPerson(personId, d, LookupPhoneNumbers(v.phones(numericId)))))
  }

  /** The id filter of `enrichMultiplePeople`: not empty, not `'undefined'`, and
      `parseInt(id, 10)` is a number. */
  predicate IsValidId(id: string) {
    id != "" && id != "undefined" && ParseInt(id).Some?
  }

  /** The first two tests are implied by the third: `''` and `'undefined'` do not parse. */
  lemma {:induction false} ValidIdIsParseable(id: string)
    ensures IsValidId(id) <==> ParseInt(id).Some?
  {
    if id == "undefined" {
      assert TrimStart(id) == id;
      assert DigitPrefixLength(id) == 0;
    }
  }

  /** Every id printed from a non-negative number passes the filter. */
  lemma {:induction false} ValidIdNatToString(n: nat)
    ensures IsValidId(NatToString(n))
  {
    ParseIntNatToString(n);
    ValidIdIsParseable(NatToString(n));
  }

  lemma {:induction false} NatToString42()
    ensures NatToString(42) == "42"
  {
    assert NatToString(4) == "4";
  }

  /** A scenario: of `''`, `'undefined'` and `'42'` only `'42'` is enriched. */
  lemma {:induction false} ValidIdsScenario()
    ensures Filter(["", "undefined", "42"], IsValidId) == ["42"]
  {
    var s: seq<string> := ["", "undefined", "42"];
    NatToString42();
    ValidIdNatToString(42);
    ValidIdIsParseable("undefined");
    assert s[1..] == ["undefined", "42"];
    assert s[2..] == ["42"];
    assert s[3..] == [];
  }

  /** `enrichMultiplePeople` (lib/forager.ts:209-235): the valid ids, in batches of five run
      one after another, each settled as a whole; the fulfilled non-null profiles in order. */
  method EnrichMultiplePeople(personIds: seq<string>, v: Vendor)
    returns (batches: seq<seq<string>>, people: seq<EnrichedPerson>)
    ensures Flatten(batches) == Filter(personIds, IsValidId)
    ensures batches == Chunks(Filter(personIds, IsValidId), Batch.BatchSize)
    ensures forall k, i :: 0 <= k < |batches| && 0 <= i < |batches[k]| ==> IsValidId(batches[k][i])
    ensures people == Batch.Collected(Filter(personIds, IsValidId), id => Settle(EnrichPerson(id, v)))
    ensures |people| <= |Filter(personIds, IsValidId)| <= |personIds|
  {
    var validIds := Filter(personIds, IsValidId);
    if |validIds| == 0 {
      return [], [];
    }
    batches, people := Batch.EnrichInBatches(validIds, id => Settle(EnrichPerson(id, v)));
    ChunksFlatten(validIds, Batch.BatchSize);
    forall k, i | 0 <= k < |batches| && 0 <= i < |batches[k]| ensures IsValidId(batches[k][i]) {
      FlattenMember(batches, k, i);
    }
  }
}
