/** The records shared by the adapters, the routes and the two pages
    (lib/types.ts and lib/lookup-types.ts, plus the `source` tag the code adds). */
module Types {
  import opened Wrappers

  /** Which people-search vendor a record came from. */
  datatype Source = ForagerSource | AviatoSource

  /** The `source` string written into records and cache keys. */
  function SourceTag(s: Source): (r: string)
    ensures r == "forager" || r == "aviato"
  {
    match s
    case ForagerSource => "forager"
    case AviatoSource => "aviato"
  }

  /** A search hit's person. `id` is the composite display key (unique within a page);
      `foragerPersonId` is the vendor's own person id, the one enrichment is called with
      (for both vendors, despite its name). */
  datatype PersonBasic = PersonBasic(
    id: string,
    foragerPersonId: string,
    fullName: string,
    firstName: string,
    lastName: string,
    photo: string,
    headline: string,
    linkedinUrl: string,
    source: Source)

  datatype RoleInfo = RoleInfo(title: string, companyName: string, companyId: string, isCurrent: bool)

  datatype PersonSearchResult = PersonSearchResult(person: PersonBasic, role: RoleInfo)

  datatype SearchResponse = SearchResponse(
    results: seq<PersonSearchResult>,
    totalCount: int,
    page: int,
    pageSize: int,
    hasMore: bool)

  datatype PhoneNumber = PhoneNumber(phoneNumber: string, kind: Option<string>)

  /** A full profile returned by enrichment. */
  datatype EnrichedPerson = EnrichedPerson(
    id: string,
    fullName: string,
    firstName: string,
    lastName: string,
    headline: string,
    linkedinUrl: string,
    workEmails: seq<string>,
    personalEmails: seq<string>,
    phoneNumbers: seq<PhoneNumber>,
    skills: seq<string>,
    location: string,
    summary: string,
    currentRole: Option<RoleInfo>,
    source: Source)

  /** `p.phone_numbers && p.phone_numbers.length > 0`: the person can be called. */
  predicate HasPhones(p: EnrichedPerson) {
    |p.phoneNumbers| > 0
  }

  /** A contactable person kept in the lead list: exactly one phone number. */
  datatype Lead = Lead(
    id: string,
    fullName: string,
    roleTitle: string,
    companyName: string,
    phoneNumber: string,
    email: string,
    linkedinUrl: string,
    location: string,
    headline: string,
    addedAt: string,
    source: Source)

  /** `work?.[0] || personal?.[0] || ''`: the first work e-mail, else the first personal
      e-mail, else the empty string (an empty first entry counts as missing). */
  function PreferredEmail(work: seq<string>, personal: seq<string>): (r: string)
    ensures |work| > 0 && work[0] != "" ==> r == work[0]
    ensures (|work| == 0 || work[0] == "") && |personal| > 0 ==> r == personal[0]
    ensures (|work| == 0 || work[0] == "") && |personal| == 0 ==> r == ""
  {
    if |work| > 0 && work[0] != "" then work[0]
    else if |personal| > 0 then personal[0]
    else ""
  }

  // ---------------------------------------------------------------- bulk lookup

  /** One parsed input line of the bulk lookup page; `id` is `name-<k>`. */
  datatype ParsedName = ParsedName(id: string, firstName: string, lastName: string, fullName: string)

  datatype LookupStatus = Found | NotFound | Error

  /** One element of a lookup route's `results` array. */
  datatype LookupEntry = LookupEntry(
    fullName: string,
    matchedName: Option<string>,
    personId: Option<string>,
    phoneNumbers: seq<string>,
    email: Option<string>,
    status: LookupStatus)

  /** `{ fullName, phoneNumbers: [], status }`: an entry that names only the query. */
  function Bare(fullName: string, status: LookupStatus): (r: LookupEntry)
    ensures r.fullName == fullName && r.status == status && r.phoneNumbers == []
    ensures r.matchedName.None? && r.personId.None? && r.email.None?
  {
    LookupEntry(fullName, None, None, [], None, status)
  }

  /** `email || undefined`. */
  function NonEmpty(s: string): (r: Option<string>)
    ensures r.Some? <==> s != ""
    ensures r.Some? ==> r.value == s
  {
    if s == "" then None else Some(s)
  }

  /** `phoneNumbers.length > 0 ? 'found' : 'not_found'`. */
  function StatusFor(phones: seq<string>): (r: LookupStatus)
    ensures r == Found <==> |phones| > 0
    ensures r != Error
  {
    if |phones| > 0 then Found else NotFound
  }
}
