# Lead search and bulk phone lookup, modelled in Dafny

This project models the core of a lead-generation web app. The app searches two
people-data vendors, Forager and Aviato. It enriches the people a user selects into
profiles with phone numbers and e-mails, keeps the callable ones as leads, and exports
them as CSV. A second page looks up phone numbers for a pasted or uploaded list of names.

The model covers these parts:

- **The vendor adapters** (`Forager`, `Aviato`):
  - query sanitising, and building the search request field by field;
  - mapping the vendor's hits to search results with page-unique display keys;
  - the total count and `has_more`;
  - the phone and e-mail lookups, current-role extraction, and URL normalisation;
  - single-person enrichment, and the batched `enrichMultiplePeople` with its id filter
    (`Batch` holds the batch loop both adapters share).
- **The enrich routes** (`EnrichRoutes`): validating `personIds`, enriching them, and
  keeping only the people with a phone.
- **The bulk-lookup routes** (`ForagerLookup`, `AviatoLookup`, `LookupBatch`):
  - the name matcher;
  - the per-name lookup with its found / not-found / error verdicts;
  - the `POST` handler, which runs the lookups three at a time.
- **The lookup page** (`BulkLookup`):
  - parsing names from text;
  - selection;
  - the batched search loop, which writes rows into an array;
  - the results export.
- **The main search page** (`Home`):
  - the two-level page cache behind pagination;
  - selection;
  - turning enriched people into leads;
  - the de-duplicating append, lead removal, and the leads export.

Vendor endpoints and HTTP routes are function parameters. Each one answers a request
with a `Result` (`Failure` when the call throws or the status is not OK) or a `Settled`
outcome (`Promise.allSettled`). The two pages are classes whose fields are the React
state their handlers update. Strings follow JavaScript's behaviour where it matters:
`split(/\s+/)` keeps leading and trailing empty fields, `trim`, `parseInt` of a decimal
prefix, and `toLowerCase` on ASCII letters.

Behaviour of the code that the model keeps as written:

- **Header lines on the lookup page.** Every header keyword contains `name`, so any
  line whose lower-cased text contains `name` is skipped as a header. A person called
  "Jon Namey" is dropped (`BulkLookup.HeaderIffContainsName`).
- **The lookup page's export.** Once any row is found, the export writes every row,
  not just the found ones (`BulkLookup.ExportResults`).
- **Confirming a selection** enriches only the selected people on the current results
  page. The leads are appended before the contacts request. When that request throws,
  the leads stay and the selection is kept. New leads are not de-duplicated among
  themselves, only against the existing list.
- **`handleSearch`** sets the page to 1 before searching, so the page reads 1 even when
  the search fails.
- **The enrich routes** report `totalRequested` as the number of ids received. The
  adapters enrich only the ids that pass their filter. Forager requires a parseable
  integer; Aviato takes any non-empty id other than `undefined`.
- **The Forager lookup's matcher** throws when a hit has no `full_name`. The route then
  answers an error entry for that name.

## Model

| member | source | states |
|---|---|---|
| Aviato.NormalizeUrl | lib/aviato.ts:38-42 | empty stays empty; an http(s) URL is kept; anything else gets `https://` prefixed, so a non-empty result always starts with a scheme |
| Aviato.NormalizeUrlIdempotent | lib/aviato.ts:38-42 | normalising twice is normalising once |
| Aviato.CurrentPosition | lib/aviato.ts:66 | none exactly when the position list is missing or empty; otherwise a position of that list |
| Aviato.GetCurrentRole | lib/aviato.ts:61-73 | null exactly for a missing or empty experience list; otherwise the role comes from one of its experiences |
| Aviato.CurrentRoleFirstOngoing | lib/aviato.ts:64-72 | when some experience has no end date, the role is taken from the first such experience |
| Aviato.CurrentRoleAllEnded | lib/aviato.ts:64-72 | when every experience has ended, the role is taken from the first experience |
| Aviato.RoleTitle | lib/aviato.ts:66-69 | an experience without positions contributes an empty title |
| Aviato.RoleTitleFirstOngoing | lib/aviato.ts:66-69 | the title is that of the first ongoing position |
| Aviato.RoleTitleAllEnded | lib/aviato.ts:66-69 | with every position ended, the title is that of the first position |
| Aviato.BuildSearchParams | lib/aviato.ts:81-100 | page and perPage are always sent; each filter is sent exactly when it is set, with its value; the connection minimum only when set and non-zero |
| Aviato.EnrichedOf | lib/aviato.ts:146-150 | a search item's enrichment is used exactly when its call was fulfilled with a record |
| Aviato.ToSearchResult | lib/aviato.ts:144-174 | display key `aviato-id-page-index`, the vendor id, names from the enrichment falling back to the item, title from the current role falling back to the headline, source Aviato |
| Aviato.MapItems | lib/aviato.ts:144 | one result per item, in order, each built from its own item and enrichment outcome |
| Aviato.DisplayIdsDistinct | lib/aviato.ts:157 | the display keys of one page are pairwise distinct, even when the vendor repeats an id |
| Aviato.TotalCount | lib/aviato.ts:176 | `totalResults` when present; else the parsed `count.value` when it is a non-zero number; else the number of results |
| Aviato.SearchPeople | lib/aviato.ts:75-189 | the query sent carries page and perPage and exactly the set filters (Aviato.QueryFor); fails exactly when the search call fails; otherwise one result per item, `has_more` exactly when the page is full, and an empty page has total 0 |
| Aviato.LookupPhoneNumbers | lib/aviato.ts:191-212 | a failed or non-array reply gives no phones; otherwise the entries with a number, in order, each non-empty |
| Aviato.LookupEmails | lib/aviato.ts:214-235 | a failed or non-array reply gives no e-mails; otherwise the entries with an address, in order, each non-empty |
| Aviato.AddressesOfKind | lib/aviato.ts:252-253 | exactly the addresses of the e-mails of the given type, and none when no e-mail has that type |
| Aviato.PartitionEmails | lib/aviato.ts:252-253 | personal = the personal addresses; work = the work addresses when there is one, else every address |
| Aviato.PartitionEmailsNonEmpty | lib/aviato.ts:263-264 | after the lookup's filter, neither list holds an empty address |
| Aviato.ToEnrichedPerson | lib/aviato.ts:255-276 | id, full name (else first and last joined and trimmed), the e-mail partition, the phones, the summary, the normalised LinkedIn URL, and a current role exactly when the experience list yields one, carrying that role's title, company name and company id and marked current |
| Aviato.EnrichPerson | lib/aviato.ts:237-281 | fails exactly when the record call fails; null exactly when there is no record; otherwise exactly the record converted by Aviato.ToEnrichedPerson from the vendor's record and both lookups, with the phone lookup's numbers and the partitioned e-mails |
| Aviato.EnrichMultiplePeople | lib/aviato.ts:283-305 | the valid ids are enriched in batches of five, in order; the batches flatten back to exactly the valid ids; the fulfilled non-null profiles are kept in order |
| Aviato.NonNumericIdKept | lib/aviato.ts:286 | of `''`, `'undefined'` and `'abc'`, only `'abc'` is enriched |
| Batch.Kept | lib/forager.ts:225-231 | a settled enrichment contributes one profile exactly when it was fulfilled with a record |
| Batch.CollectedConcat | lib/forager.ts:219-232 | collecting over two runs of ids is collecting over each in turn |
| Batch.CollectedAllFound | lib/aviato.ts:295-302 | when every id enriches to a profile, each id contributes exactly its profile |
| Batch.SettleBatch | lib/forager.ts:225-231 | one batch keeps the fulfilled non-null profiles of its ids, in order |
| Batch.EnrichInBatches | lib/forager.ts:219-232 | the batches are the consecutive slices of five; the profiles kept are those of all ids, in order, as if enriched one by one |
| Csv.DoubleQuotes | app/lookup/page.tsx:189 | never shorter; a value without `"` is unchanged |
| Csv.UndoubleDouble | app/lookup/page.tsx:189 | undoubling the doubled value gives the value back |
| Csv.EscapeCsv | app/lookup/page.tsx:187-192 | a value without `,`, `"` or a newline is unchanged; otherwise it is enclosed in quotes |
| Csv.EscapeRoundTrip | app/page.tsx:330-335 | reading an escaped field back, as RFC 4180 section 2 does, gives the value |
| Csv.EscapeAll | app/lookup/page.tsx:205 | every field of a row is escaped, position by position |
| Csv.DocumentLines | app/lookup/page.tsx:203-206 | the document is the unescaped header line, then one line per row of escaped fields, joined by newlines |
| EnrichRoutes.Respond | app/api/forager/enrich/route.ts:22-30 | exactly the enriched people with a phone, in order; `totalRequested` is the number of ids; `totalWithPhones` the number returned |
| EnrichRoutes.RespondKeepsAllCallable | app/api/aviato/enrich/route.ts:19-27 | filtering the returned people again changes nothing |
| EnrichRoutes.ForagerPost | app/api/forager/enrich/route.ts:4-38 | 500 exactly for a body that is not JSON or is `null`; 400 exactly for a missing or empty `personIds`; otherwise the reply for Forager's batched enrichment of the valid ids |
| EnrichRoutes.AviatoPost | app/api/aviato/enrich/route.ts:4-35 | the same contract, with Aviato's enrichment |
| Forager.StripQuerySyntax | lib/forager.ts:36 | no query-syntax character is left, every character kept comes from the input, and a clean input is unchanged |
| Forager.StripQuerySyntaxKeepsOthers | lib/forager.ts:36 | stripping is exactly the filter that drops the query-syntax characters and keeps every other character in order |
| Forager.CollapseSpaces | lib/forager.ts:37 | no whitespace is left, every character is `_` or from the input, and an input without whitespace is unchanged |
| Forager.CollapseRun | lib/forager.ts:37 | one whitespace run becomes one underscore |
| Forager.CollapseKeeps | lib/forager.ts:37 | a character that is not whitespace stays in place; with CollapseRun this fixes the result on every input |
| Forager.TrimStartRun | lib/forager.ts:38 | trimming drops exactly the leading whitespace run |
| Forager.SanitizeSearchString | lib/forager.ts:34-39 | the result is the stripped and collapsed input, the final trim changing nothing; it has no whitespace and no query syntax; a clean input is unchanged |
| Forager.SanitizeIdempotent | app/api/lookup/forager/route.ts:8-13 | sanitising twice is sanitising once |
| Forager.BuildSearchParams | lib/forager.ts:47-72 | current roles only, the page as given; each filter is sent exactly when set, the locations as one-element lists |
| Forager.IdText | lib/forager.ts:112 | `String(id \|\| '')` is empty exactly for a missing or zero id |
| Forager.ToSearchResult | lib/forager.ts:109-127 | display key `roleId-personId-page-index`, the vendor person id, title falling back to the headline, the organisation name, source Forager |
| Forager.MapResults | lib/forager.ts:109 | one result per hit, in order |
| Forager.DisplayIdsDistinct | lib/forager.ts:111 | the display keys of one page are pairwise distinct, even when the vendor repeats a hit |
| Forager.ToSearchResponse | lib/forager.ts:129-135 | the hits mapped in order; `has_more` exactly when the page is full; total from the vendor, else the number of hits |
| Forager.PhoneText | lib/forager.ts:155 | `phone_number` when set, else `number`, else `''` |
| Forager.LookupPhoneNumbers | lib/forager.ts:143-165 | a failed or non-array reply gives no phones; otherwise the entries with text, in order, each non-empty |
| Forager.SearchPeople | lib/forager.ts:41-140 | the request sent is current roles, the page and exactly the set filters (Forager.ParamsFor); fails exactly when the search call fails; otherwise the response built from the reply for the page |
| Forager.ToEnrichedPerson | lib/forager.ts:186-202 | the id (the record's when non-zero, else the requested one), the phones, both e-mail lists (empty when absent), the current role, source Forager |
| Forager.EnrichPerson | lib/forager.ts:167-207 | fails when the detail call fails; null when there is no record; otherwise exactly the record converted from the detail and the phone lookup, with the phone lookup's numbers and the Forager source |
| Forager.ValidIdIsParseable | lib/forager.ts:213 | an id passes the filter exactly when `parseInt` reads a number from it |
| Forager.ValidIdNatToString | lib/forager.ts:213 | every printed non-negative number passes the filter |
| Forager.ValidIdsScenario | lib/forager.ts:213 | of `''`, `'undefined'` and `'42'`, only `'42'` is enriched |
| Forager.EnrichMultiplePeople | lib/forager.ts:209-235 | the valid ids are enriched in batches of five, in order; the batches flatten back to exactly the valid ids; the fulfilled non-null profiles are kept in order |
| ForagerLookup.SingleTokenMatch | app/api/lookup/forager/route.ts:36-41 | a query without whitespace matches exactly the names that contain it, ignoring case |
| ForagerLookup.MultiTokenMatch | app/api/lookup/forager/route.ts:43-46 | a query of two or more fields matches exactly the names containing its first and its last field, ignoring case |
| ForagerLookup.FieldsMatchEnds | app/api/lookup/forager/route.ts:43-46 | with two or more fields, only the first and the last are looked at |
| ForagerLookup.MatchIgnoresCase | app/api/lookup/forager/route.ts:37-38 | lower-casing either name does not change the verdict |
| ForagerLookup.MatchesItself | app/api/lookup/forager/route.ts:36-47 | every query matches its own text |
| ForagerLookup.MatchSurvivesExtension | app/api/lookup/forager/route.ts:36-47 | a name that contains a matching name matches too |
| ForagerLookup.TwoWordQuery | app/api/lookup/forager/route.ts:36-47 | "first last" matches exactly the names containing both words, ignoring case |
| ForagerLookup.JohnSmithQuery | app/api/lookup/forager/route.ts:36-47 | "John Smith" matches exactly the names containing "john" and "smith" |
| ForagerLookup.JohnSmithMatches | app/api/lookup/forager/route.ts:36-47 | "John Smith" matches "John A. Smith - Recruiter" |
| ForagerLookup.JaneDoeDoesNotMatch | app/api/lookup/forager/route.ts:36-47 | "John Smith" does not match "Jane Doe" |
| ForagerLookup.FindMatch | app/api/lookup/forager/route.ts:75 | the first candidate that passes, with every earlier one failing; none when all fail; a failure when a candidate without a name is reached first |
| ForagerLookup.PhoneStrings | app/api/lookup/forager/route.ts:89-93 | a failed or non-array reply gives no phones; otherwise the non-empty phone texts, in order |
| ForagerLookup.DetailEmail | app/api/lookup/forager/route.ts:95 | the first work e-mail, else the first personal one, else `''` |
| ForagerLookup.SearchByName | app/api/lookup/forager/route.ts:49-109 | the entry names the query; error entries carry no phones; found exactly when there are phones; a matched name passes the matcher; a failed search is an error; no hits is not-found |
| ForagerLookup.SearchByNameChoosesFirstMatch | app/api/lookup/forager/route.ts:75-104 | the first passing candidate is reported, with its name, its id, its phone numbers, the detail's first work or personal email, and found exactly when it has phones |
| ForagerLookup.SearchByNameDetailFails | app/api/lookup/forager/route.ts:84-87 | when the first passing candidate's detail lookup fails, the entry is a bare error |
| ForagerLookup.SearchByNameNoMatch | app/api/lookup/forager/route.ts:75-79 | when every hit has a name the matcher rejects, the entry is a bare not-found |
| ForagerLookup.SearchByNameMatcherThrows | app/api/lookup/forager/route.ts:75 | a nameless hit reached before any accepted one makes the matcher throw, and the entry is a bare error |
| ForagerLookup.Post | app/api/lookup/forager/route.ts:111-145 | 500 exactly for a bad body; 400 exactly for a missing or empty `names`; otherwise one entry per name, in order, each the lookup of that name |
| AviatoLookup.PhoneStrings | app/api/lookup/aviato/route.ts:47 | never more texts than phones, none empty, each the text of some phone, and every non-empty phone text is kept |
| AviatoLookup.PhoneStringsSnoc | app/api/lookup/aviato/route.ts:47 | the texts keep the phones' order: one more phone adds its text at the end exactly when it is non-empty |
| AviatoLookup.PhoneStringsOfEnriched | app/api/lookup/aviato/route.ts:41-47 | for an enriched profile the filter drops nothing: one text per phone |
| AviatoLookup.SearchByName | app/api/lookup/aviato/route.ts:8-62 | the entry names the query; error entries carry no phones or id; found exactly when there are phones; a failed search is an error; no items is not-found |
| AviatoLookup.Post | app/api/lookup/aviato/route.ts:64-98 | 500 exactly for a bad body; 400 exactly for a missing or empty `names`; otherwise one entry per name, in order |
| LookupBatch.FallbackName | app/api/lookup/forager/route.ts:132 | the batch's name at that index when it is there and non-empty, else `Unknown` |
| LookupBatch.EntryFor | app/api/lookup/forager/route.ts:127-136 | a fulfilled lookup's entry, or an error entry naming the query (`Unknown` for an empty name) |
| LookupBatch.LookupInBatches | app/api/lookup/aviato/route.ts:76-91 | one entry per name, each for its own name, even though the fallback name is read by an index computed from the running count |
| LookupBatch.Post | app/api/lookup/forager/route.ts:111-145 | 500 exactly for a bad body; 400 with `names array is required` exactly for a missing or empty list; otherwise the batched entries |
| Types.SourceTag | app/page.tsx:52 | the source is written as `forager` or `aviato` |
| Types.PreferredEmail | app/page.tsx:231 | the first work e-mail when non-empty, else the first personal one, else `''` |
| Types.Bare | app/api/lookup/forager/route.ts:71 | an entry with the query, the status, and nothing else |
| Types.NonEmpty | app/api/lookup/forager/route.ts:102 | `email \|\| undefined`: present exactly when non-empty |
| Types.StatusFor | app/api/lookup/forager/route.ts:103 | found exactly when there are phones, and never error |
| Wrappers.Settle | lib/forager.ts:225 | a call is fulfilled exactly when it does not throw, with its value |
| Wrappers.OrElse | lib/aviato.ts:153 | `a \|\| b`: a when truthy, else b |
| Wrappers.OrEmpty | lib/forager.ts:113 | `s \|\| ''`: the string when truthy, else `''` |
| Wrappers.Head | lib/aviato.ts:66 | the first element exactly when the list is non-empty |
| Strings.Lower | app/lookup/page.tsx:15 | same length, each character lower-cased |
| Strings.Trim | app/lookup/page.tsx:10 | neither end of the result is whitespace; a string without whitespace is unchanged |
| Strings.TrimKeepsMiddle | app/lookup/page.tsx:10 | the result is the slice right after the leading whitespace run, and everything after it is whitespace |
| Strings.SplitWs | app/lookup/page.tsx:29 | `split(/\s+/)` always gives at least one field |
| Strings.SplitWsFieldsNoSpace | app/lookup/page.tsx:29 | no field holds whitespace |
| Strings.SplitWsLower | app/api/lookup/forager/route.ts:37 | lower-casing before splitting lower-cases each field |
| Strings.SplitOn | app/lookup/page.tsx:22 | `split(',')`: at least one field, at least two when the separator occurs, and no field contains it |
| Strings.SplitJoin | app/lookup/page.tsx:22 | splitting fields joined by the separator gives the fields back |
| Strings.NatToStringRoundTrip | lib/forager.ts:213 | the digits of a printed number read back as that number |
| Strings.ParseIntNatToString | lib/forager.ts:213 | `parseInt` of a printed non-negative number is that number |
| Seqs.Filter | app/page.tsx:177 | `filter`: every element kept passes and comes from the input, and every passing element is kept |
| Seqs.Chunks | lib/forager.ts:222-224 | non-empty slices of at most the batch size, all full but the last |
| Seqs.ChunksFlatten | lib/forager.ts:222-224 | the slices put back together give the ids back |
| Seqs.FirstIndex | app/api/lookup/forager/route.ts:75 | `find`: the first position that passes, or none when none passes |
| Seqs.Toggle | app/lookup/page.tsx:92-99 | the id is removed when present, added when absent |
| Seqs.ToggleTwice | app/page.tsx:149-159 | toggling twice restores the selection |
| Seqs.Dedup | app/page.tsx:186 | `[...new Set(xs)]`: distinct elements, each from the input, and every input element present |
| Seqs.DedupKeepsFirstOccurrenceOrder | app/page.tsx:186 | the values come in the order of their first occurrences in the input |
| BulkLookup.KeywordsContainName | app/lookup/page.tsx:7 | every header keyword contains `name` |
| BulkLookup.HeaderIffContainsName | app/lookup/page.tsx:7-15 | a line is a header exactly when its lower-cased text contains `name` |
| BulkLookup.StripQuotes | app/lookup/page.tsx:22 | at most one quote is dropped from each end; an unquoted part is unchanged |
| BulkLookup.CleanParts | app/lookup/page.tsx:22 | each part is trimmed and stripped of its quotes, position by position |
| BulkLookup.ParseLine | app/lookup/page.tsx:15-38 | a header gives nothing; otherwise the line's first and last name, kept exactly when one of them is non-empty |
| BulkLookup.Lines | app/lookup/page.tsx:10 | no line is empty; each is the trimmed form of some line of the text; every line of the text that is not blank after trimming is kept |
| BulkLookup.NameId | app/lookup/page.tsx:41 | ids read `name-` then the number |
| BulkLookup.NameIdInjective | app/lookup/page.tsx:41 | different numbers give different ids |
| BulkLookup.Numbered | app/lookup/page.tsx:40-45 | the k-th name gets number k |
| BulkLookup.ParsedShape | app/lookup/page.tsx:38-46 | at most one name per line; the k-th has id `name-k`, a first or last name, and the trimmed full name |
| BulkLookup.ParsedIdsDistinct | app/lookup/page.tsx:41 | parsed ids are pairwise distinct |
| BulkLookup.NumberedSnoc | app/lookup/page.tsx:13-47 | reading one more accepted line appends its name with the next number |
| BulkLookup.NumberLines | app/lookup/page.tsx:13-47 | the loop pushes exactly the numbered names of the accepted lines |
| BulkLookup.ParseNames | app/lookup/page.tsx:9-50 | the parsed names of the text's lines, with pairwise distinct ids |
| BulkLookup.CommaLineScenario | app/lookup/page.tsx:20-26 | `Smith,John` gives first name `Smith` and last name `John` |
| BulkLookup.FirstNameLineIsHeader | app/lookup/page.tsx:15 | `First Name,Last Name` is skipped |
| BulkLookup.StatusTextInjective | app/lookup/page.tsx:151 | different row statuses have different texts |
| BulkLookup.RowFromReply | app/lookup/page.tsx:144-171 | a row keeps its name and source; it copies the entry when the reply has one, and is an error otherwise |
| BulkLookup.BatchStart | app/lookup/page.tsx:128 | the batch holding a position starts at a multiple of five at or before it |
| BulkLookup.BatchStartOf | app/lookup/page.tsx:128 | that start is the only multiple of five within five positions before |
| BulkLookup.FullNames | app/lookup/page.tsx:130 | the batch's full names, in order |
| BulkLookup.BatchAt | app/lookup/page.tsx:129 | a batch has five names, or what is left at the end |
| BulkLookup.FinalRow | app/lookup/page.tsx:128-176 | every selected name ends with a settled row for its own name and the chosen source |
| BulkLookup.FinalRowInBatch | app/lookup/page.tsx:144-163 | position j of a batch gets the row built from the j-th entry of the reply to that batch's names |
| BulkLookup.Selected | app/lookup/page.tsx:111 | exactly the names whose id is selected, in order |
| BulkLookup.SelectedConcat | app/lookup/page.tsx:111 | selecting from two runs of names selects from each run, in order |
| BulkLookup.IdsOf | app/lookup/page.tsx:73 | the set of all names' ids |
| BulkLookup.AlignedReplyFillsRows | app/lookup/page.tsx:144-156 | a route that answers one entry per name gives every row its own entry |
| BulkLookup.LookupPage.constructor | app/lookup/page.tsx:55-59 | no names, no selection, no rows, not searching |
| BulkLookup.LookupPage.Load | app/lookup/page.tsx:71-74 | the parsed names, all of them selected, and no rows |
| BulkLookup.LookupPage.UploadFile | app/lookup/page.tsx:64-80 | the file's names replace the list, all selected, and the rows are cleared |
| BulkLookup.LookupPage.ParsePasted | app/lookup/page.tsx:83-89 | blank text changes nothing; otherwise as for an upload |
| BulkLookup.LookupPage.ToggleSelect | app/lookup/page.tsx:92-99 | the selection toggles that id |
| BulkLookup.LookupPage.ToggleAll | app/lookup/page.tsx:101-107 | cleared when its size equals the number of names, otherwise every name selected |
| BulkLookup.LookupPage.Search | app/lookup/page.tsx:110-179 | nothing selected changes nothing; otherwise one row per selected name, each the final row for its batch's reply, with full progress |
| BulkLookup.LookupPage.RunBatches | app/lookup/page.tsx:128-176 | the loop leaves every row at its final value and the progress at the total |
| BulkLookup.LookupPage.SearchBatch | app/lookup/page.tsx:129-172 | one pass writes exactly its batch's rows |
| BulkLookup.LookupPage.FillBatch | app/lookup/page.tsx:144-163 | the inner loop writes each of the batch's rows from the reply, and nothing else |
| BulkLookup.LookupPage.WriteRow | app/lookup/page.tsx:145-162 | one row is written; the others are unchanged |
| BulkLookup.ResultFields | app/lookup/page.tsx:194-201 | six fields, one per header |
| BulkLookup.ExportResults | app/lookup/page.tsx:182-206 | no file exactly when no row is found; otherwise the header line and one line per row, every row included |
| BulkLookup.ExportedFieldsReadBack | app/lookup/page.tsx:203-206 | each exported field reads back as the row's value |
| Home.FiltersKey | app/page.tsx:51-53 | the source tag, a colon, then the serialised filters |
| Home.FiltersKeyInjective | app/page.tsx:51-53 | different sources or filters never share a cache key |
| Home.SelectedResults | app/page.tsx:177 | exactly the results whose id is selected |
| Home.OfSource | app/page.tsx:179-180 | exactly the results of the given source: each kept result is of that source, and every result of that source is kept |
| Home.VendorIds | app/page.tsx:186 | the distinct vendor ids of the results, each present once |
| Home.LastWithId | app/page.tsx:217-218 | the last selected result with that vendor id, or none when there is none |
| Home.ToLead | app/page.tsx:223-237 | the person's id, name and source; the first phone; the preferred e-mail; the role and company seen at search time when non-empty, else the enrichment's current role, else `''` |
| Home.BuildLeads | app/page.tsx:221-238 | one lead per enriched person with phones, in order, each matched with its selected result |
| Home.BuildLeadsHaveFirstPhone | app/page.tsx:222-230 | every new lead carries the first phone of an enriched person with phones |
| Home.LeadIds | app/page.tsx:247 | the set of the leads' ids |
| Home.AppendLeads | app/page.tsx:246-250 | the existing leads first and unchanged, then exactly the new leads whose id is not listed yet |
| Home.AppendLeadsKeepsIdsUnique | app/page.tsx:246-250 | appending keeps lead ids unique |
| Home.AppendLeadsIdempotent | app/page.tsx:246-250 | confirming the same leads twice adds them once |
| Home.RemoveLead | app/page.tsx:295-297 | exactly the leads with another id, in order |
| Home.RemoveAbsentLead | app/page.tsx:295-297 | removing an unknown id changes nothing |
| Home.RemoveLeadSplits | app/page.tsx:295-297 | removal works on each part of the list independently |
| Home.LeadFields | app/page.tsx:316-327 | ten fields, the source written as `Aviato` exactly for Aviato leads |
| Home.ExportLeads | app/page.tsx:306-341 | no file exactly for no leads; otherwise the header line and one line per lead, in order |
| Home.AfterSearch | app/page.tsx:67-126 | the page cache keeps an entry for the last search's key |
| Home.AfterFetch | app/page.tsx:98-112 | the page cache keeps an entry for the last search's key |
| Home.CachedPageServed | app/page.tsx:72-79 | a cached page is shown as stored and nothing else changes |
| Home.FailedSearchChangesNothing | app/page.tsx:120-122 | a failed fetch changes nothing |
| Home.FetchedPageCached | app/page.tsx:105-107 | a fetched page is then a cache hit that shows the same results, whatever the route would answer |
| Home.NewSearchResetsKey | app/page.tsx:99-103 | a new search or changed filters restart that key's cache with the one page, clear the selection, and keep the other keys |
| Home.PagingKeepsCache | app/page.tsx:105-107 | paging under the same filters adds the page and keeps the earlier pages and the selection |
| Home.AfterConfirm | app/page.tsx:170-292 | the existing leads stay first; an empty selection, a failed enrich request or no enriched person with a phone changes nothing; otherwise the leads built from the callable people are appended without duplicates and the selection is cleared once the contacts request was sent |
| Home.ConfirmAddsEveryNewCallablePerson | app/page.tsx:213-250 | every enriched person with a phone whose id is not yet a lead is added, as the lead built from them |
| Home.ConfirmAddsOnlyCallablePeople | app/page.tsx:213-250 | every added lead is a person with phones enriched for the selection, with a new id and their first phone |
| Home.HomePage.constructor | app/page.tsx:20-43 | Forager active, empty filters, page 1, no results, cache, selection or leads |
| Home.HomePage.CurrentKey | app/page.tsx:68-69 | the cache key is never empty |
| Home.HomePage.SourceChange | app/page.tsx:56-64 | the active source changes nothing; another source clears the page and the selection and keeps the cache and the leads |
| Home.HomePage.SetFilters | app/page.tsx:68 | only the given source's filters change |
| Home.HomePage.PerformSearch | app/page.tsx:67-126 | the new state is the search transition of the old one under the current key and the route's answer |
| Home.HomePage.StoreFetched | app/page.tsx:98-112 | the new state is the fetched page stored and shown |
| Home.HomePage.Search | app/page.tsx:129-132 | page 1 is set first, then a new search of page 1 |
| Home.HomePage.NextPage | app/page.tsx:135-137 | a search of the next page |
| Home.HomePage.PreviousPage | app/page.tsx:139-143 | nothing on page 1; otherwise a search of the previous page |
| Home.HomePage.ToggleSelect | app/page.tsx:149-159 | the selection toggles that id |
| Home.HomePage.SelectAll | app/page.tsx:161-163 | exactly the current page's result ids are selected |
| Home.HomePage.ClearSelection | app/page.tsx:165-167 | nothing is selected |
| Home.HomePage.ClearLeads | app/page.tsx:299-303 | the leads are emptied exactly when the user confirms |
| Home.HomePage.RemoveLeadById | app/page.tsx:295-297 | the leads lose exactly that id |
| Home.HomePage.ConfirmSelection | app/page.tsx:170-292 | the page keeps its invariant, and its leads and selection become those of Home.AfterConfirm: unchanged on an empty selection, a failed enrich request or nobody with a phone; otherwise the new callable people appended without duplicates and the selection cleared once the contacts request was sent |
| Home.HomePage.EnrichSelected | app/page.tsx:183-214 | Forager's people then Aviato's, each requested only when selected; any failed request fails the whole |
| Home.HomePage.ExportCsv | app/page.tsx:306-307 | no file exactly for an empty lead list |

## Left out

- The React components and rendering (JSX, the terminal display, `companyMatches`, the progress and busy flags' visual effect) are not modelled; only the state the handlers update is.
- HTTP, `fetch`, JSON parsing and the API keys are not modelled. Each route or vendor call is a function parameter that answers a value or a failure.
- The search routes (app/api/forager/search/route.ts, app/api/aviato/search/route.ts) are not part of this model. The page's search call is a parameter.
- The contacts route (app/api/contacts/route.ts, a Supabase insert) is not part of this model. Only whether its request threw is kept, as the `contactsSent` parameter, and the `search_query` text sent with it is left out.
- The clock (`new Date().toISOString()`) is a parameter, read once per confirmation: every lead of one confirmation gets the same `now`, whereas the page reads the clock for each lead (app/page.tsx:235). `alert`, `confirm` and `console` are left out; `confirm` becomes a boolean parameter of `ClearLeads`.
- `JSON.stringify` of the filters is not modelled. The filters are held in serialised form and the cache key is built from that text.
- Concurrency and scheduling of promises are not modelled. `Promise.all` and `Promise.allSettled` become their settled outcomes, computed in input order.
- The file reader and the file input reset on the lookup page are left out. The uploaded file is given as its text.
- Strings.Lower: lower-cases ASCII letters only, whereas `toLowerCase` also folds non-ASCII letters.
- Strings.Trim: its contract states only that neither end is whitespace and that a string without whitespace is unchanged; which slice of the input it keeps is proved separately by Strings.TrimKeepsMiddle.
- Strings.SplitWs: its contract does not state that the fields are free of whitespace; that fact is proved separately by Strings.SplitWsFieldsNoSpace.
- Forager.StripQuerySyntax: its contract does not state that the other characters are kept in order; that is proved separately by Forager.StripQuerySyntaxKeepsOthers.
- Forager.CollapseSpaces: its contract does not pin the result; the lemmas Forager.CollapseRun and Forager.CollapseKeeps fix it on every input, one whitespace run or one kept character at a time.
- Seqs.Dedup: its contract does not state the order; that is proved separately by Seqs.DedupKeepsFirstOccurrenceOrder.
- Forager.BuildSearchParams and Aviato.BuildSearchParams: the vendors' URL encoding of parameters is not modelled.
- Aviato.TotalCount: `parseInt` is modelled for decimal digit prefixes with an optional sign; hexadecimal or exponent forms are not read.
