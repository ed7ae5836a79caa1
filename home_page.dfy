/** The main search page (app/page.tsx): the two-level page cache behind pagination, the
    selection, turning enriched people into leads, the de-duplicating append to the lead
    list, removing a lead, and the leads export. */
module Home {
  import opened Wrappers
  import opened Seqs
  import opened Strings
  import opened Types
  import Csv

  /** `pageSize` sent with every search request. */
  const PageSize: int := 10

  /** `getFiltersKey`: the source tag, a colon, and the serialised filters. */
  function FiltersKey(source: Source, filtersJson: string): (key: string)
    ensures |key| == |SourceTag(source)| + 1 + |filtersJson|
    ensures key[|SourceTag(source)|] == ':' && key[|SourceTag(source)| + 1..] == filtersJson
  {
    SourceTag(source) + ":" + filtersJson
  }

  /** Different sources or different filters never share a cache entry. */
  lemma {:induction false} FiltersKeyInjective(s1: Source, j1: string, s2: Source, j2: string)
    requires FiltersKey(s1, j1) == FiltersKey(s2, j2)
    ensures s1 == s2 && j1 == j2
  {
  }

  /** The search route's reply to (source, serialised filters, page, page size): the
      response, or a failure when the request threw or the status was not OK. */
  type SearchApi = (Source, string, int, int) -> Result<SearchResponse>

  /** The enrich route's `enrichedPeople` for a source and a list of vendor ids, or a
      failure when the request threw or the status was not OK. */
  type EnrichApi = (Source, seq<string>) -> Result<seq<EnrichedPerson>>

  /** A non-new search whose filters and page are cached is answered from the cache. */
  predicate CacheHit(cache: map<string, map<int, seq<PersonSearchResult>>>, key: string, page: int, isNewSearch: bool) {
    !isNewSearch && key in cache && page in cache[key]
  }

  // ---------------------------------------------------------------- leads

  /** The selected results of the current page, in page order. */
  function SelectedResults(results: seq<PersonSearchResult>, ids: set<string>): (r: seq<PersonSearchResult>)
    ensures forall k :: 0 <= k < |r| ==> r[k].person.id in ids && r[k] in results
    ensures forall k :: 0 <= k < |results| && results[k].person.id in ids ==> results[k] in r
  {
    Filter(results, (r: PersonSearchResult) => r.person.id in ids)
  }

  /** The results of one source, in their order. */
  function OfSource(results: seq<PersonSearchResult>, source: Source): (r: seq<PersonSearchResult>)
    ensures forall k :: 0 <= k < |r| ==> r[k].person.source == source && r[k] in results
    ensures forall k :: 0 <= k < |results| && results[k].person.source == source ==> results[k] in r
  {
    Filter(results, (r: PersonSearchResult) => r.person.source == source)
  }

  /** `[...new Set(results.map(r => r.person.forager_person_id))]`: the vendor ids to enrich. */
  function VendorIds(results: seq<PersonSearchResult>): (ids: seq<string>)
    ensures forall i, j :: 0 <= i < j < |ids| ==> ids[i] != ids[j]
    ensures forall k :: 0 <= k < |results| ==> results[k].person.foragerPersonId in ids
    ensures forall i :: 0 <= i < |ids| ==> exists k :: 0 <= k < |results| && results[k].person.foragerPersonId == ids[i]
  {
    var all := Map(results, (r: PersonSearchResult) => r.person.foragerPersonId);
    var ids := Dedup(all);
    assert forall i :: 0 <= i < |ids| ==> ids[i] in all;
    ids
  }

  /** The position `resultMap.get(id)` reads: `forEach` sets the map in order, so the last
      selected result with that vendor id wins. */
  function LastWithId(selected: seq<PersonSearchResult>, id: string): (r: Option<nat>)
    ensures r.Some? ==> r.value < |selected| && selected[r.value].person.foragerPersonId == id
    ensures r.Some? ==> forall j :: r.value < j < |selected| ==> selected[j].person.foragerPersonId != id
    ensures r.None? ==> forall j :: 0 <= j < |selected| ==> selected[j].person.foragerPersonId != id
    decreases |selected|
  {
    if selected == [] then None
    else if selected[|selected| - 1].person.foragerPersonId == id then Some(|selected| - 1)
    else LastWithId(selected[..|selected| - 1], id)
  }

  /** `resultMap.get(id)`. */
  function ResultFor(selected: seq<PersonSearchResult>, id: string): (r: Option<PersonSearchResult>)
  {
    match LastWithId(selected, id)
    case Some(k) => Some(selected[k])
    case None => None
  }

  /** `originalResult?.role.title || p.current_role?.title || ''`, and the same for the company. */
  function RoleTitle(original: Option<PersonSearchResult>, current: Option<RoleInfo>): string {
    OrEmpty(OrElse(if original.Some? then Some(original.value.role.title) else None,
                   if current.Some? then Some(current.value.title) else None))
  }

  function CompanyName(original: Option<PersonSearchResult>, current: Option<RoleInfo>): string {
    OrEmpty(OrElse(if original.Some? then Some(original.value.role.companyName) else None,
                   if current.Some? then Some(current.value.companyName) else None))
  }

  /** The lead made from an enriched person who has a phone: the first phone, the role and
      company seen at search time when they are not empty (else the enrichment's current
      role, else ''), the preferred e-mail, and the time it was added. */
  function ToLead(p: EnrichedPerson, original: Option<PersonSearchResult>, now: string): (l: Lead)
    requires HasPhones(p)
    ensures l.id == p.id && l.fullName == p.fullName && l.source == p.source && l.addedAt == now
    ensures l.phoneNumber == p.phoneNumbers[0].phoneNumber
    ensures l.email == PreferredEmail(p.workEmails, p.personalEmails)
    ensures original.Some? && original.value.role.title != "" ==> l.roleTitle == original.value.role.title
    ensures (original.None? || original.value.role.title == "") && p.currentRole.Some? ==> l.roleTitle == p.currentRole.value.title
    ensures (original.None? || original.value.role.title == "") && p.currentRole.None? ==> l.roleTitle == ""
    ensures original.Some? && original.value.role.companyName != "" ==> l.companyName == original.value.role.companyName
    ensures (original.None? || original.value.role.companyName == "") && p.currentRole.Some? ==> l.companyName == p.currentRole.value.companyName
    ensures (original.None? || original.value.role.companyName == "") && p.currentRole.None? ==> l.companyName == ""
  {
    Lead(p.id, p.fullName, RoleTitle(original, p.currentRole), CompanyName(original, p.currentRole),
         p.phoneNumbers[0].phoneNumber, PreferredEmail(p.workEmails, p.personalEmails),
         p.linkedinUrl, p.location, p.headline, now, p.source)
  }

  /** `newLeads`: one lead per enriched person with a phone, in order, each matched with
      the selected result carrying its vendor id. */
  function BuildLeads(enriched: seq<EnrichedPerson>, selected: seq<PersonSearchResult>, now: string): (r: seq<Lead>)
    ensures var callable := Filter(enriched, HasPhones);
            && |r| == |callable|
            && forall k :: 0 <= k < |r| ==> r[k] == ToLead(callable[k], ResultFor(selected, callable[k].id), now)
  {
    var callable := Filter(enriched, HasPhones);
    seq(|callable|, k requires 0 <= k < |callable| => ToLead(callable[k], ResultFor(selected, callable[k].id), now))
  }

  /** Every new lead carries a phone number taken from its person's first phone. */
  lemma {:induction false} BuildLeadsHaveFirstPhone(enriched: seq<EnrichedPerson>, selected: seq<PersonSearchResult>, now: string, k: nat)
    requires k < |BuildLeads(enriched, selected, now)|
    ensures exists p :: p in enriched && HasPhones(p)
                        && BuildLeads(enriched, selected, now)[k].id == p.id
                        && BuildLeads(enriched, selected, now)[k].phoneNumber == p.phoneNumbers[0].phoneNumber
  {
    var callable := Filter(enriched, HasPhones);
    assert callable[k] in enriched;
  }

  function LeadIds(leads: seq<Lead>): (ids: set<string>)
    ensures forall k :: 0 <= k < |leads| ==> leads[k].id in ids
    ensures forall id :: id in ids ==> exists k :: 0 <= k < |leads| && leads[k].id == id
  {
    set k | 0 <= k < |leads| :: leads[k].id
  }

  function LeadId(l: Lead): string {
    l.id
  }

  /** `[...prev, ...newLeads.filter(l => !existingIds.has(l.id))]`: existing leads stay
      first and untouched, and only new leads whose id is not already listed are added, in
      their order. */
  function AppendLeads(prev: seq<Lead>, newLeads: seq<Lead>): (r: seq<Lead>)
    ensures |prev| <= |r| <= |prev| + |newLeads|
    ensures r[..|prev|] == prev
    ensures forall k :: |prev| <= k < |r| ==> r[k] in newLeads && r[k].id !in LeadIds(prev)
    ensures forall k :: 0 <= k < |newLeads| && newLeads[k].id !in LeadIds(prev) ==> newLeads[k] in r[|prev|..]
  {
    var existing := LeadIds(prev);
    var added := Filter(newLeads, (l: Lead) => l.id !in existing);
    assert (prev + added)[|prev|..] == added;
    prev + added
  }

  /** Appending keeps lead ids unique, given new leads with unique ids. */
  lemma {:induction false} AppendLeadsKeepsIdsUnique(prev: seq<Lead>, newLeads: seq<Lead>)
    requires DistinctBy(prev, LeadId) && DistinctBy(newLeads, LeadId)
    ensures DistinctBy(AppendLeads(prev, newLeads), LeadId)
  {
    var existing := LeadIds(prev);
    var p := (l: Lead) => l.id !in existing;
    var added := Filter(newLeads, p);
    FilterDistinctBy(newLeads, p, LeadId);
    var r := prev + added;
    forall i, j | 0 <= i < j < |r| ensures LeadId(r[i]) != LeadId(r[j]) {
      if j >= |prev| {
        assert r[j] == added[j - |prev|];
        if i < |prev| {
          assert r[i].id in existing;
        } else {
          assert r[i] == added[i - |prev|];
        }
      }
    }
  }

  /** Confirming the same leads twice adds them once. */
  lemma {:induction false} AppendLeadsIdempotent(prev: seq<Lead>, newLeads: seq<Lead>)
    ensures AppendLeads(AppendLeads(prev, newLeads), newLeads) == AppendLeads(prev, newLeads)
  {
    var once := AppendLeads(prev, newLeads);
    var ids := LeadIds(once);
    forall k | 0 <= k < |newLeads| ensures newLeads[k].id in ids {
      if newLeads[k].id !in LeadIds(prev) {
        var m :| 0 <= m < |once[|prev|..]| && once[|prev|..][m] == newLeads[k];
        assert once[|prev| + m] == newLeads[k];
      } else {
        var m :| 0 <= m < |prev| && prev[m].id == newLeads[k].id;
        assert once[m] == prev[m];
      }
    }
    FilterNonePass(newLeads, (l: Lead) => l.id !in ids);
    assert once + [] == once;
  }

  /** `prev.filter(l => l.id !== id)`. */
  function RemoveLead(leads: seq<Lead>, id: string): (r: seq<Lead>)
    ensures |r| <= |leads|
    ensures forall k :: 0 <= k < |r| ==> r[k].id != id && r[k] in leads
    ensures forall k :: 0 <= k < |leads| && leads[k].id != id ==> leads[k] in r
  {
    Filter(leads, (l: Lead) => l.id != id)
  }

  /** Removing an id that is not listed changes nothing. */
  lemma {:induction false} RemoveAbsentLead(leads: seq<Lead>, id: string)
    requires id !in LeadIds(leads)
    ensures RemoveLead(leads, id) == leads
  {
    FilterAllPass(leads, (l: Lead) => l.id != id);
  }

  /** Removing a lead drops it from the end of the list as well as from the middle: the
      leads before and after are kept in their order. */
  lemma {:induction false} RemoveLeadSplits(before: seq<Lead>, after: seq<Lead>, id: string)
    ensures RemoveLead(before + after, id) == RemoveLead(before, id) + RemoveLead(after, id)
  {
    FilterConcat(before, after, (l: Lead) => l.id != id);
  }

  // ---------------------------------------------------------------- export

  const LeadHeaders: seq<string> :=
    ["Name", "Source", "Role", "Company", "Phone", "Email", "LinkedIn", "Location", "Headline", "Added At"]

  /** The exported fields of one lead. */
  function LeadFields(l: Lead): (f: seq<string>)
    ensures |f| == |LeadHeaders|
    ensures f[1] == "Aviato" <==> l.source == AviatoSource
  {
    [ l.fullName,
      if l.source == AviatoSource then "Aviato" else "Forager",
      l.roleTitle, l.companyName, l.phoneNumber, l.email, l.linkedinUrl, l.location, l.headline, l.addedAt ]
  }

  /** `exportCSV`: no file for an empty list; otherwise the header line and one line per
      lead, in list order. */
  function ExportLeads(leads: seq<Lead>): (r: Option<string>)
    ensures r.None? <==> leads == []
    ensures r.Some? ==>
      var lines := Csv.DocumentLines(LeadHeaders, Map(leads, LeadFields));
      && r.value == Join(lines, "\n")
      && |lines| == |leads| + 1
      && forall k :: 0 <= k < |leads| ==> lines[k + 1] == Csv.RowLine(LeadFields(leads[k]))
  {
    if leads == [] then None else Some(Csv.Document(LeadHeaders, Map(leads, LeadFields)))
  }

  // ---------------------------------------------------------------- search and the page cache

  type PageCache = map<string, map<int, seq<PersonSearchResult>>>

  /** The part of the page's state a search reads and writes. */
  datatype SearchView = SearchView(
    results: seq<PersonSearchResult>,
    currentPage: int,
    totalCount: int,
    hasMore: bool,
    pageCache: PageCache,
    lastFiltersKey: string,
    selectedIds: set<string>)

  /** The last search's key, once there is one, has a cache entry: this is what makes
      `pageCache.current.get(filtersKey)!` safe when the key has not changed. */
  predicate CacheValid(v: SearchView) {
    v.lastFiltersKey == "" || v.lastFiltersKey in v.pageCache
  }

  /** The state after `performSearch(page, isNewSearch)` under the filters key `key`,
      `reply` being what the search route would answer (it is not asked on a cache hit). */
  function AfterSearch(v: SearchView, key: string, page: int, isNewSearch: bool, reply: Result<SearchResponse>): (w: SearchView)
    requires CacheValid(v) && key != ""
    ensures CacheValid(w)
  {
    if CacheHit(v.pageCache, key, page, isNewSearch) then
      v.(results := v.pageCache[key][page], currentPage := page)
    else if reply.Failure? then v
    else AfterFetch(v, key, page, isNewSearch, reply.value)
  }

  /** The state after a fetched page is stored: a new search, or a search under changed
      filters, starts the key's cache afresh and clears the selection. */
  function AfterFetch(v: SearchView, key: string, page: int, isNewSearch: bool, data: SearchResponse): (w: SearchView)
    requires CacheValid(v) && key != ""
    ensures CacheValid(w)
  {
    var reset := isNewSearch || key != v.lastFiltersKey;
    var filterCache := if reset then map[] else v.pageCache[key];
    v.(pageCache := v.pageCache[key := filterCache[page := data.results]],
       lastFiltersKey := key,
       selectedIds := if reset then {} else v.selectedIds,
       results := data.results,
       currentPage := page,
       totalCount := data.totalCount,
       hasMore := data.hasMore)
  }

  /** A cached page is shown as it was stored, and nothing else changes. */
  lemma {:induction false} CachedPageServed(v: SearchView, key: string, page: int, reply: Result<SearchResponse>)
    requires CacheValid(v) && key != ""
    requires CacheHit(v.pageCache, key, page, false)
    ensures var w := AfterSearch(v, key, page, false, reply);
            && w.results == v.pageCache[key][page] && w.currentPage == page
            && w.pageCache == v.pageCache && w.selectedIds == v.selectedIds
            && w.totalCount == v.totalCount && w.hasMore == v.hasMore
  {
  }

  /** A failed fetch changes nothing. */
  lemma {:induction false} FailedSearchChangesNothing(v: SearchView, key: string, page: int, isNewSearch: bool, error: string)
    requires CacheValid(v) && key != ""
    requires !CacheHit(v.pageCache, key, page, isNewSearch)
    ensures AfterSearch(v, key, page, isNewSearch, Failure(error)) == v
  {
  }

  /** A fetched page is stored: asking for it again is a cache hit that shows the same
      results, whatever the route would answer then. */
  lemma {:induction false} FetchedPageCached(v: SearchView, key: string, page: int, isNewSearch: bool, resp: SearchResponse, later: Result<SearchResponse>)
    requires CacheValid(v) && key != ""
    requires !CacheHit(v.pageCache, key, page, isNewSearch)
    ensures var w := AfterSearch(v, key, page, isNewSearch, Ok(resp));
            && CacheHit(w.pageCache, key, page, false)
            && AfterSearch(w, key, page, false, later).results == resp.results
  {
  }

  /** A new search, or a search under changed filters, starts the key's cache afresh with
      just the fetched page and clears the selection; the other keys' caches are kept. */
  lemma {:induction false} NewSearchResetsKey(v: SearchView, key: string, page: int, isNewSearch: bool, resp: SearchResponse)
    requires CacheValid(v) && key != ""
    requires !CacheHit(v.pageCache, key, page, isNewSearch)
    requires isNewSearch || key != v.lastFiltersKey
    ensures var w := AfterSearch(v, key, page, isNewSearch, Ok(resp));
            && w.pageCache[key] == map[page := resp.results]
            && w.selectedIds == {} && w.lastFiltersKey == key
            && forall k :: k in v.pageCache && k != key ==> k in w.pageCache && w.pageCache[k] == v.pageCache[k]
  {
  }

  /** Paging under unchanged filters adds the page to the key's cache and keeps the pages
      visited before, and the selection. */
  lemma {:induction false} PagingKeepsCache(v: SearchView, key: string, page: int, resp: SearchResponse)
    requires CacheValid(v) && key != ""
    requires !CacheHit(v.pageCache, key, page, false)
    requires key == v.lastFiltersKey
    ensures var w := AfterSearch(v, key, page, false, Ok(resp));
            && key in v.pageCache
            && w.pageCache[key] == v.pageCache[key][page := resp.results]
            && w.selectedIds == v.selectedIds
  {
  }

  // ---------------------------------------------------------------- confirming a selection

  /** What `Promise.all` over the enrich requests settles to: the Forager people, then the
      Aviato people, each request made only when the selection has results of its source;
      any failed request fails the whole. */
  function Enriched(selected: seq<PersonSearchResult>, enrich: EnrichApi): (r: Result<seq<EnrichedPerson>>)
  {
    var f := OfSource(selected, ForagerSource);
    var a := OfSource(selected, AviatoSource);
    var fr: Result<seq<EnrichedPerson>> := if |f| > 0 then enrich(ForagerSource, VendorIds(f)) else Ok([]);
    var ar: Result<seq<EnrichedPerson>> := if |a| > 0 then enrich(AviatoSource, VendorIds(a)) else Ok([]);
    if fr.Failure? then fr
    else if ar.Failure? then ar
    else Ok(fr.value + ar.value)
  }

  /** The leads and the selection after `handleConfirmSelection`. */
  function AfterConfirm(leads: seq<Lead>, selectedIds: set<string>, results: seq<PersonSearchResult>,
                        enrich: EnrichApi, now: string, contactsSent: bool): (r: (seq<Lead>, set<string>))
    ensures |leads| <= |r.0| && r.0[..|leads|] == leads
    ensures r.1 == selectedIds || r.1 == {}
    ensures selectedIds == {} ==> r == (leads, selectedIds)
    ensures selectedIds != {} ==>
              var selected := SelectedResults(results, selectedIds);
              var outcome := Enriched(selected, enrich);
              if outcome.Failure? || Filter(outcome.value, HasPhones) == [] then r == (leads, selectedIds)
              else && r.0 == AppendLeads(leads, BuildLeads(outcome.value, selected, now))
                   && r.1 == (if contactsSent then {} else selectedIds)
  {
    if selectedIds == {} then (leads, selectedIds)
    else
      var selected := SelectedResults(results, selectedIds);
      match Enriched(selected, enrich)
      case Failure(_) => (leads, selectedIds)
      case Ok(people) =>
        var newLeads := BuildLeads(people, selected, now);
        if newLeads == [] then (leads, selectedIds)
        else (AppendLeads(leads, newLeads), if contactsSent then {} else selectedIds)
  }

  /** Every lead a confirmation adds is a person enriched for the current page's selection
      who has a phone, and carries a new id. */
  lemma {:induction false} ConfirmAddsOnlyCallablePeople(leads: seq<Lead>, selectedIds: set<string>, results: seq<PersonSearchResult>,
                                      enrich: EnrichApi, now: string, contactsSent: bool, k: nat)
    requires var r := AfterConfirm(leads, selectedIds, results, enrich, now, contactsSent);
             |leads| <= k < |r.0|
    ensures var selected := SelectedResults(results, selectedIds);
            && Enriched(selected, enrich).Ok?
            && var r := AfterConfirm(leads, selectedIds, results, enrich, now, contactsSent);
            && r.0[k].id !in LeadIds(leads)
            && exists p :: p in Enriched(selected, enrich).value && HasPhones(p)
                           && r.0[k].id == p.id && r.0[k].phoneNumber == p.phoneNumbers[0].phoneNumber
  {
    var selected := SelectedResults(results, selectedIds);
    var people := Enriched(selected, enrich).value;
    var newLeads := BuildLeads(people, selected, now);
    var r := AfterConfirm(leads, selectedIds, results, enrich, now, contactsSent);
    assert r.0 == AppendLeads(leads, newLeads);
    var m :| 0 <= m < |newLeads| && newLeads[m] == r.0[k];
    BuildLeadsHaveFirstPhone(people, selected, now, m);
  }

  /** Conversely, every enriched person with a phone whose id is not yet among the leads
      is added, as the lead built from it. */
  lemma {:induction false} ConfirmAddsEveryNewCallablePerson(leads: seq<Lead>, selectedIds: set<string>, results: seq<PersonSearchResult>,
                                          enrich: EnrichApi, now: string, contactsSent: bool, p: EnrichedPerson)
    requires selectedIds != {}
    requires var outcome := Enriched(SelectedResults(results, selectedIds), enrich);
             outcome.Ok? && p in outcome.value
    requires HasPhones(p) && p.id !in LeadIds(leads)
    ensures var selected := SelectedResults(results, selectedIds);
            var r := AfterConfirm(leads, selectedIds, results, enrich, now, contactsSent);
            ToLead(p, ResultFor(selected, p.id), now) in r.0[|leads|..]
  {
    var selected := SelectedResults(results, selectedIds);
    var people := Enriched(selected, enrich).value;
    var callable := Filter(people, HasPhones);
    var newLeads := BuildLeads(people, selected, now);
    var m :| 0 <= m < |people| && people[m] == p;
    assert p in callable;
    var i :| 0 <= i < |callable| && callable[i] == p;
    assert newLeads[i] == ToLead(p, ResultFor(selected, p.id), now);
    assert newLeads[i].id == p.id;
  }

  // ---------------------------------------------------------------- the page

  class HomePage {
    var activeSource: Source
    /** The serialised Forager and Aviato filters. */
    var foragerFilters: string
    var aviatoFilters: string
    var results: seq<PersonSearchResult>
    var currentPage: int
    var totalCount: int
    var hasMore: bool
    var pageCache: PageCache
    var lastFiltersKey: string
    var selectedIds: set<string>
    var leads: seq<Lead>

    function View(): SearchView
      reads this
    {
      SearchView(results, currentPage, totalCount, hasMore, pageCache, lastFiltersKey, selectedIds)
    }

    ghost predicate Valid()
      reads this
    {
      CacheValid(View())
    }

    constructor()
      ensures Valid()
      ensures activeSource == ForagerSource && foragerFilters == "{}" && aviatoFilters == "{}"
      ensures results == [] && currentPage == 1 && totalCount == 0 && !hasMore
      ensures pageCache == map[] && lastFiltersKey == "" && selectedIds == {} && leads == []
    {
      activeSource := ForagerSource;
      foragerFilters := "{}";
      aviatoFilters := "{}";
      results := [];
      currentPage := 1;
      totalCount := 0;
      hasMore := false;
      pageCache := map[];
      lastFiltersKey := "";
      selectedIds := {};
      leads := [];
    }

    function CurrentFilters(): string
      reads this
    {
      if activeSource == ForagerSource then foragerFilters else aviatoFilters
    }

    function CurrentKey(): (key: string)
      reads this
      ensures key != ""
    {
      FiltersKey(activeSource, CurrentFilters())
    }

    /** `handleSourceChange`: switching sources clears the page and the selection (the
        cache and the leads stay); picking the active source changes nothing. */
    method SourceChange(source: Source)
      requires Valid()
      modifies this`activeSource, this`results, this`currentPage, this`totalCount, this`hasMore, this`pageCache, this`lastFiltersKey, this`selectedIds
      ensures Valid()
      ensures source == old(activeSource) ==> unchanged(this)
      ensures source != old(activeSource) ==>
        && activeSource == source && results == [] && selectedIds == {}
        && currentPage == 1 && totalCount == 0 && !hasMore
        && pageCache == old(pageCache) && lastFiltersKey == old(lastFiltersKey) && leads == old(leads)
        && foragerFilters == old(foragerFilters) && aviatoFilters == old(aviatoFilters)
    {
      if source == activeSource {
        return;
      }
      activeSource := source;
      results := [];
      selectedIds := {};
      currentPage := 1;
      totalCount := 0;
      hasMore := false;
    }

    /** The filter panel's `onFiltersChange`, with the filters in serialised form. */
    method SetFilters(source: Source, filtersJson: string)
      requires Valid()
      modifies this`foragerFilters, this`aviatoFilters
      ensures Valid()
      ensures source == ForagerSource ==> foragerFilters == filtersJson && aviatoFilters == old(aviatoFilters)
      ensures source == AviatoSource ==> aviatoFilters == filtersJson && foragerFilters == old(foragerFilters)
    {
      if source == ForagerSource {
        foragerFilters := filtersJson;
      } else {
        aviatoFilters := filtersJson;
      }
    }

    /** `performSearch`: the new state is `AfterSearch` of the old one under the current
        filters key, with the search route's answer for (source, filters, page, 10). */
    method PerformSearch(page: int, isNewSearch: bool, api: SearchApi)
      requires Valid()
      modifies this`results, this`currentPage, this`totalCount, this`hasMore, this`pageCache, this`lastFiltersKey, this`selectedIds
      ensures Valid()
      ensures View() == AfterSearch(old(View()), old(CurrentKey()), page, isNewSearch,
                                    api(old(activeSource), old(CurrentFilters()), page, PageSize))
    {
      var key := CurrentKey();
      if !isNewSearch && key in pageCache {
        var filterCache := pageCache[key];
        if page in filterCache {
          assert CacheHit(pageCache, key, page, isNewSearch);
          results := filterCache[page];
          currentPage := page;
          return;
        }
      }
      var reply := api(activeSource, CurrentFilters(), page, PageSize);
      if reply.Failure? {
        return;
      }
      StoreFetched(key, page, isNewSearch, reply.value);
    }

    /** The part of `performSearch` after a successful fetch: the cache for the key is
        started afresh on a new search or changed filters, then the page is stored and shown. */
    method StoreFetched(key: string, page: int, isNewSearch: bool, data: SearchResponse)
      requires Valid() && key != ""
      modifies this`results, this`currentPage, this`totalCount, this`hasMore, this`pageCache, this`lastFiltersKey, this`selectedIds
      ensures View() == AfterFetch(old(View()), key, page, isNewSearch, data)
    {
      if isNewSearch || key != lastFiltersKey {
        pageCache := pageCache[key := map[]];
        lastFiltersKey := key;
        selectedIds := {};
      }
      var filterCache := pageCache[key];
      pageCache := pageCache[key := filterCache[page := data.results]];
      results := data.results;
      currentPage := page;
      totalCount := data.totalCount;
      hasMore := data.hasMore;
    }

    /** `handleSearch`: the page is set to 1 first, so it reads 1 even if the search fails. */
    method Search(api: SearchApi)
      requires Valid()
      modifies this`results, this`currentPage, this`totalCount, this`hasMore, this`pageCache, this`lastFiltersKey, this`selectedIds
      ensures Valid()
      ensures View() == AfterSearch(old(View()).(currentPage := 1), old(CurrentKey()), 1, true,
                                    api(old(activeSource), old(CurrentFilters()), 1, PageSize))
    {
      currentPage := 1;
      PerformSearch(1, true, api);
    }

    /** `handleNextPage`. */
    method NextPage(api: SearchApi)
      requires Valid()
      modifies this`results, this`currentPage, this`totalCount, this`hasMore, this`pageCache, this`lastFiltersKey, this`selectedIds
      ensures Valid()
      ensures View() == AfterSearch(old(View()), old(CurrentKey()), old(currentPage) + 1, false,
                                    api(old(activeSource), old(CurrentFilters()), old(currentPage) + 1, PageSize))
    {
      PerformSearch(currentPage + 1, false, api);
    }

    /** `handlePreviousPage`: only from page 2 on. */
    method PreviousPage(api: SearchApi)
      requires Valid()
      modifies this`results, this`currentPage, this`totalCount, this`hasMore, this`pageCache, this`lastFiltersKey, this`selectedIds
      ensures Valid()
      ensures old(currentPage) <= 1 ==> unchanged(this)
      ensures old(currentPage) > 1 ==>
        View() == AfterSearch(old(View()), old(CurrentKey()), old(currentPage) - 1, false,
                              api(old(activeSource), old(CurrentFilters()), old(currentPage) - 1, PageSize))
    {
      if currentPage > 1 {
        PerformSearch(currentPage - 1, false, api);
      }
    }

    /** `toggleSelect`. */
    method ToggleSelect(id: string)
      requires Valid()
      modifies this`selectedIds
      ensures Valid()
      ensures selectedIds == Toggle(old(selectedIds), id)
    {
      selectedIds := Toggle(selectedIds, id);
    }

    /** `selectAll`: every result of the current page is selected, and nothing else. */
    method SelectAll()
      requires Valid()
      modifies this`selectedIds
      ensures Valid()
      ensures forall k :: 0 <= k < |results| ==> results[k].person.id in selectedIds
      ensures forall id :: id in selectedIds ==> exists k :: 0 <= k < |results| && results[k].person.id == id
    {
      selectedIds := set k | 0 <= k < |results| :: results[k].person.id;
    }

    /** `clearSelection`. */
    method ClearSelection()
      requires Valid()
      modifies this`selectedIds
      ensures Valid()
      ensures selectedIds == {}
    {
      selectedIds := {};
    }

    /** `clearLeads`: the list is emptied only when the user confirms. */
    method ClearLeads(confirmed: bool)
      requires Valid()
      modifies this`leads
      ensures Valid()
      ensures confirmed ==> leads == []
      ensures !confirmed ==> leads == old(leads)
    {
      if confirmed {
        leads := [];
      }
    }

    /** `removeLead`. */
    method RemoveLeadById(id: string)
      requires Valid()
      modifies this`leads
      ensures Valid()
      ensures leads == RemoveLead(old(leads), id)
    {
      leads := RemoveLead(leads, id);
    }

    /** `handleConfirmSelection`. The selected results of the current page are enriched per
        source, Forager first; if either request fails nothing changes. The enriched people
        with phones become leads; with none, nothing changes. Otherwise they are appended
        without duplicates, and the selection is cleared once the contacts request has
        been sent (`contactsSent` is false when that request threw, which leaves the
        selection as it was but the leads already appended). */
    method ConfirmSelection(enrich: EnrichApi, now: string, contactsSent: bool)
      requires Valid()
      modifies this`leads, this`selectedIds
      ensures Valid()
      ensures (leads, selectedIds) == AfterConfirm(old(leads), old(selectedIds), old(results), enrich, now, contactsSent)
    {
      if selectedIds == {} {
        return;
      }
      var selected := SelectedResults(results, selectedIds);
      var enrichedPeople := EnrichSelected(selected, enrich);
      if enrichedPeople.Failure? {
        return;
      }
      var newLeads := BuildLeads(enrichedPeople.value, selected, now);
      if |newLeads| == 0 {
        return;
      }
      leads := AppendLeads(leads, newLeads);
      if !contactsSent {
        return;
      }
      selectedIds := {};
    }

    /** The enrich requests of `handleConfirmSelection`, settled by `Promise.all` and
        flattened: Forager's people first, then Aviato's. */
    static method EnrichSelected(selected: seq<PersonSearchResult>, enrich: EnrichApi)
      returns (people: Result<seq<EnrichedPerson>>)
      ensures people.Ok? <==> Enriched(selected, enrich).Ok?
      ensures people.Ok? ==> people == Enriched(selected, enrich)
    {
      var foragerResults := OfSource(selected, ForagerSource);
      var aviatoResults := OfSource(selected, AviatoSource);
      var enrichedArrays: seq<seq<EnrichedPerson>> := [];
      ghost var fromForager: seq<EnrichedPerson> := [];
      ghost var fromAviato: seq<EnrichedPerson> := [];
      if |foragerResults| > 0 {
        var reply := enrich(ForagerSource, VendorIds(foragerResults));
        if reply.Failure? {
          return reply;
        }
        enrichedArrays := enrichedArrays + [reply.value];
        fromForager := reply.value;
      }
      if |aviatoResults| > 0 {
        var reply := enrich(AviatoSource, VendorIds(aviatoResults));
        if reply.Failure? {
          return reply;
        }
        enrichedArrays := enrichedArrays + [reply.value];
        fromAviato := reply.value;
      }
      FlattenSmall(fromForager, fromAviato);
      FlattenSmall(fromAviato, []);
      assert fromForager + [] == fromForager && [] + fromAviato == fromAviato;
      assert Flatten(enrichedArrays) == fromForager + fromAviato;
      people := Ok(Flatten(enrichedArrays));
    }

    /** `exportCSV` over the current leads. */
    function ExportCsv(): (r: Option<string>)
      reads this
      ensures r.None? <==> leads == []
    {
      ExportLeads(leads)
    }
  }
}
