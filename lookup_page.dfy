/** The bulk phone-lookup page (app/lookup/page.tsx): parsing pasted or uploaded names,
    the selection, the batched search that fills one result row per selected name, and the
    results export. */
module BulkLookup {
  import opened Wrappers
  import opened Seqs
  import opened Strings
  import opened Types
  import Csv

  // ---------------------------------------------------------------- parsing names

  /** `HEADER_KEYWORDS`: a line whose lower-cased text contains one of these is a header. */
  const HeaderKeywords: seq<string> :=
    ["first_name", "last_name", "firstname", "lastname", "first name", "last name", "name", "full_name", "fullname"]

  predicate IsHeader(line: string) {
    exists k :: 0 <= k < |HeaderKeywords| && Contains(Lower(line), HeaderKeywords[k])
  }

  lemma {:induction false} KeywordsContainName(k: nat)
    requires k < |HeaderKeywords|
    ensures Contains(HeaderKeywords[k], "name")
  {
    var kw := HeaderKeywords[k];
    if k == 0 { assert OccursAt(kw, "name", 6); }
    else if k == 1 { assert OccursAt(kw, "name", 5); }
    else if k == 2 { assert OccursAt(kw, "name", 5); }
    else if k == 3 { assert OccursAt(kw, "name", 4); }
    else if k == 4 { assert OccursAt(kw, "name", 6); }
    else if k == 5 { assert OccursAt(kw, "name", 5); }
    else if k == 6 { assert OccursAt(kw, "name", 0); }
    else if k == 7 { assert OccursAt(kw, "name", 5); }
    else { assert OccursAt(kw, "name", 4); }
  }

  /** Every keyword contains `name`, so the keyword test is the same as asking whether the
      lower-cased line contains `name`: a line such as `Nameless Corp` or `Jane Hanamer`
      is skipped as a header. */
  lemma {:induction false} HeaderIffContainsName(line: string)
    ensures IsHeader(line) <==> Contains(Lower(line), "name")
  {
    if IsHeader(line) {
      var k :| 0 <= k < |HeaderKeywords| && Contains(Lower(line), HeaderKeywords[k]);
      KeywordsContainName(k);
      ContainsTransitive(Lower(line), HeaderKeywords[k], "name");
    } else {
      assert HeaderKeywords[6] == "name";
    }
  }

  predicate IsQuote(c: char) {
    c == '"' || c == '\''
  }

  /** `.replace(/^["']|["']$/g, '')`: one quote character is dropped from each end. */
  function StripQuotes(p: string): (r: string)
    ensures |r| <= |p| && |p| <= |r| + 2
    ensures (p == [] || !IsQuote(p[0])) && (p == [] || !IsQuote(p[|p| - 1])) ==> r == p
    ensures |p| >= 2 && IsQuote(p[0]) && IsQuote(p[|p| - 1]) ==> r == p[1..|p| - 1]
  {
    var q := if p != [] && IsQuote(p[0]) then p[1..] else p;
    if q != [] && IsQuote(q[|q| - 1]) then q[..|q| - 1] else q
  }

  /** `.map(p => p.trim().replace(...))` over the comma-separated parts. */
  function CleanParts(ps: seq<string>): (r: seq<string>)
    ensures |r| == |ps|
    ensures forall k :: 0 <= k < |ps| ==> r[k] == StripQuotes(Trim(ps[k]))
    decreases |ps|
  {
    if ps == [] then [] else [StripQuotes(Trim(ps[0]))] + CleanParts(ps[1..])
  }

  /** The first and last name read off one trimmed, non-empty line: a line with a comma is
      split on commas, its first two parts trimmed and unquoted; any other line is split on
      whitespace, the first field being the first name and the rest, joined by single spaces,
      the last name. */
  function Fields(line: string): (r: (string, string))
  {
    if ',' in line then
      var parts := CleanParts(SplitOn(line, ','));
      if |parts| >= 2 then (parts[0], parts[1]) else ("", "")
    else
      var parts := SplitWs(line);
      if |parts| >= 2 then (parts[0], Join(parts[1..], " "))
      else if |parts| == 1 then (parts[0], "")
      else ("", "")
  }

  /** The name a line contributes, if any: header lines and lines whose first and last
      name are both empty contribute none. */
  function ParseLine(line: string): (r: Option<(string, string)>)
    ensures IsHeader(line) ==> r.None?
    ensures r.Some? ==> r.value == Fields(line) && (r.value.0 != "" || r.value.1 != "")
    ensures !IsHeader(line) && (Fields(line).0 != "" || Fields(line).1 != "") ==> r.Some?
  {
    if IsHeader(line) then None
    else
      var (f, l) := Fields(line);
      if f != "" || l != "" then Some((f, l)) else None
  }

  /** `text.split('\n').map(l => l.trim()).filter(Boolean)`: the trimmed lines that are
      not blank, in their order. */
  function Lines(text: string): (r: seq<string>)
    ensures forall k :: 0 <= k < |r| ==> r[k] != ""
    ensures var raw := SplitOn(text, '\n');
            forall k :: 0 <= k < |r| ==> TrimOfSome(raw, r[k])
    ensures var raw := SplitOn(text, '\n');
            forall j :: 0 <= j < |raw| && Trim(raw[j]) != "" ==> Trim(raw[j]) in r
  {
    var raw := SplitOn(text, '\n');
    var trimmed := Map(raw, Trim);
    var r := Filter(trimmed, NotBlank);
    TrimmedLinesComeFromRaw(raw, r);
    r
  }

  /** `line` is the trimmed form of one of the `raw` lines. */
  predicate TrimOfSome(raw: seq<string>, line: string) {
    exists j :: 0 <= j < |raw| && line == Trim(raw[j])
  }

  /** The kept lines are exactly the non-blank trimmed forms of the raw lines. */
  lemma {:induction false} TrimmedLinesComeFromRaw(raw: seq<string>, r: seq<string>)
    requires r == Filter(Map(raw, Trim), NotBlank)
    ensures forall k :: 0 <= k < |r| ==> r[k] != ""
    ensures forall k :: 0 <= k < |r| ==> TrimOfSome(raw, r[k])
    ensures forall j :: 0 <= j < |raw| && Trim(raw[j]) != "" ==> Trim(raw[j]) in r
  {
    var trimmed := Map(raw, Trim);
    forall k | 0 <= k < |r| ensures TrimOfSome(raw, r[k]) {
      assert r[k] in trimmed;
      var j :| 0 <= j < |trimmed| && trimmed[j] == r[k];
      assert r[k] == Trim(raw[j]);
    }
    forall j | 0 <= j < |raw| && Trim(raw[j]) != "" ensures Trim(raw[j]) in r {
      assert trimmed[j] == Trim(raw[j]);
      assert NotBlank(trimmed[j]);
    }
  }

  predicate NotBlank(line: string) {
    line != ""
  }

  predicate Accepted(line: string) {
    ParseLine(line).Some?
  }

  /** The id of the `k`-th parsed name. */
  function NameId(k: nat): (id: string)
    ensures |id| > 5 && id[..5] == "name-"
  {
    "name-" + NatToString(k)
  }

  lemma {:induction false} NameIdInjective(m: nat, n: nat)
    requires NameId(m) == NameId(n)
    ensures m == n
  {
    assert NameId(m)[5..] == NatToString(m);
    assert NameId(n)[5..] == NatToString(n);
    NatToStringInjective(m, n);
  }

  function LinePair(line: string): (string, string) {
    match ParseLine(line)
    case Some(fl) => fl
    case None => ("", "")
  }

  /** The name numbered `k` for a first and last name. */
  function NameAt(k: nat, fl: (string, string)): ParsedName {
    ParsedName(NameId(k), fl.0, fl.1, Trim(fl.0 + " " + fl.1))
  }

  function Numbered(pairs: seq<(string, string)>): (r: seq<ParsedName>)
    ensures |r| == |pairs|
    ensures forall k :: 0 <= k < |pairs| ==> r[k] == NameAt(k, pairs[k])
  {
    seq(|pairs|, k requires 0 <= k < |pairs| => NameAt(k, pairs[k]))
  }

  /** The names parsed from `lines`: one per accepted line, in order, carrying that line's
      first and last name and numbered by position. */
  function Parsed(lines: seq<string>): seq<ParsedName>
  {
    Numbered(Map(Filter(lines, Accepted), LinePair))
  }

  /** At most one name per line; the `k`-th name has the id `name-<k>`, a non-empty first
      or last name, and the full name made of the two. */
  lemma {:induction false} ParsedShape(lines: seq<string>)
    ensures var r := Parsed(lines);
      && |r| <= |lines|
      && (forall k :: 0 <= k < |r| ==> r[k].id == NameId(k))
      && (forall k :: 0 <= k < |r| ==> r[k].firstName != "" || r[k].lastName != "")
      && (forall k :: 0 <= k < |r| ==> r[k].fullName == Trim(r[k].firstName + " " + r[k].lastName))
  {
    var kept := Filter(lines, Accepted);
    var pairs := Map(kept, LinePair);
    assert forall k :: 0 <= k < |kept| ==> pairs[k] == ParseLine(kept[k]).value;
  }

  /** The ids of the parsed names are pairwise distinct, so selecting by id selects exactly
      one name. */
  lemma {:induction false} ParsedIdsDistinct(lines: seq<string>, i: nat, j: nat)
    requires i < j < |Parsed(lines)|
    ensures Parsed(lines)[i].id != Parsed(lines)[j].id
  {
    ParsedShape(lines);
    if Parsed(lines)[i].id == Parsed(lines)[j].id {
      NameIdInjective(i, j);
    }
  }

  /** Reading one more line appends the line's name, numbered by how many names came
      before it, when the line is accepted, and nothing otherwise: the loop's
      `names.length` numbering is the position in the result. Stated for any line test and
      any field reader. */
  lemma {:induction false} NumberedSnoc(init: seq<string>, last: string, accept: string -> bool, pair: string -> (string, string))
    ensures var prev := Numbered(Map(Filter(init, accept), pair));
            Numbered(Map(Filter(init + [last], accept), pair))
              == if accept(last) then prev + [NameAt(|prev|, pair(last))] else prev
  {
    var kept := Filter(init, accept);
    FilterSnoc(init, last, accept);
    if accept(last) {
      MapSnoc(kept, last, pair);
      NumberedAppend(Map(kept, pair), pair(last));
    } else {
      assert Filter(init + [last], accept) == kept + [] == kept;
    }
  }

  /** Numbering one more pair gives it the next number. */
  lemma {:induction false} NumberedAppend(pairs: seq<(string, string)>, p: (string, string))
    ensures Numbered(pairs + [p]) == Numbered(pairs) + [NameAt(|pairs|, p)]
  {
  }

  /** The loop of `parseNames`: each line the test accepts is pushed with the id
      `name-<names.length>` and the fields the reader gives it. */
  method NumberLines(lines: seq<string>, accept: string -> bool, pair: string -> (string, string))
    returns (names: seq<ParsedName>)
    ensures names == Numbered(Map(Filter(lines, accept), pair))
  {
    names := [];
    var i := 0;
    while i < |lines|
      invariant 0 <= i <= |lines|
      invariant names == Numbered(Map(Filter(lines[..i], accept), pair))
    {
      var line := lines[i];
      assert lines[..i + 1] == lines[..i] + [line];
      NumberedSnoc(lines[..i], line, accept, pair);
      if accept(line) {
        names := names + [NameAt(|names|, pair(line))];
      }
      i := i + 1;
    }
    assert lines[..|lines|] == lines;
  }

  /** `parseNames`. */
  method ParseNames(text: string) returns (names: seq<ParsedName>)
    ensures names == Parsed(Lines(text))
    ensures forall i, j :: 0 <= i < j < |names| ==> names[i].id != names[j].id
  {
    var lines := Lines(text);
    names := NumberLines(lines, Accepted, LinePair);
    forall i, j | 0 <= i < j < |names| ensures names[i].id != names[j].id {
      ParsedIdsDistinct(lines, i, j);
    }
  }

  lemma {:induction false} LowerSmithJohn()
    ensures Lower("Smith,John") == "smith,john"
  {
  }

  lemma {:induction false} SmithJohnHasNoName()
    ensures !Contains("smith,john", "name")
  {
    var s := "smith,john";
    forall i: nat | i <= |s| ensures !OccursAt(s, "name", i) {
      if i + 4 <= |s| {
        assert s[i..i + 4][0] == s[i];
        assert s[i..i + 4][1] == s[i + 1];
      }
    }
  }

  lemma {:induction false} SmithJohnParts()
    ensures SplitOn("Smith,John", ',') == ["Smith", "John"]
  {
    SplitJoin(["Smith", "John"], ',');
    assert Join(["Smith", "John"], [',']) == "Smith,John";
  }

  lemma {:induction false} SmithJohnNotHeader()
    ensures !IsHeader("Smith,John")
  {
    LowerSmithJohn();
    SmithJohnHasNoName();
    HeaderIffContainsName("Smith,John");
  }

  lemma {:induction false} SmithJohnFields()
    ensures Fields("Smith,John") == ("Smith", "John")
  {
    SmithJohnParts();
    assert "Smith,John"[5] == ',';
    CleanSmithJohn();
  }

  /** A part without whitespace or quotes is kept as it is. */
  lemma {:induction false} PlainPart(p: string)
    requires NoSpace(p) && forall i :: 0 <= i < |p| ==> !IsQuote(p[i])
    ensures StripQuotes(Trim(p)) == p
  {
  }

  /** Two parts that cleaning leaves alone. */
  lemma {:induction false} CleanPlainPair(a: string, b: string)
    requires StripQuotes(Trim(a)) == a && StripQuotes(Trim(b)) == b
    ensures CleanParts([a, b]) == [a, b]
  {
    assert [a, b][1..] == [b];
    assert [b][1..] == [];
  }

  lemma {:induction false} SmithIsPlain()
    ensures StripQuotes(Trim("Smith")) == "Smith"
  {
    PlainPart("Smith");
  }

  lemma {:induction false} JohnIsPlain()
    ensures StripQuotes(Trim("John")) == "John"
  {
    PlainPart("John");
  }

  lemma {:induction false} CleanSmithJohn()
    ensures CleanParts(["Smith", "John"]) == ["Smith", "John"]
  {
    SmithIsPlain();
    JohnIsPlain();
    CleanPlainPair("Smith", "John");
  }

  /** A `last,first` line gives its two parts as they are, in that order. */
  lemma {:induction false} CommaLineScenario()
    ensures ParseLine("Smith,John") == Some(("Smith", "John"))
  {
    SmithJohnNotHeader();
    SmithJohnFields();
  }

  lemma {:induction false} FirstNameLineIsHeader()
    ensures ParseLine("First Name,Last Name") == None
  {
    var line := "First Name,Last Name";
    assert Lower(line) == "first name,last name";
    assert OccursAt(Lower(line), "name", 6);
    HeaderIffContainsName(line);
  }

  // ---------------------------------------------------------------- result rows

  /** `LookupResult.status`: before and while searching, then the route's verdict. */
  datatype RowStatus = Pending | Searching | Done(verdict: LookupStatus)

  function StatusText(s: RowStatus): (r: string)
  {
    match s
    case Pending => "pending"
    case Searching => "searching"
    case Done(Found) => "found"
    case Done(NotFound) => "not_found"
    case Done(Error) => "error"
  }

  lemma {:induction false} StatusTextInjective(a: RowStatus, b: RowStatus)
    requires StatusText(a) == StatusText(b)
    ensures a == b
  {
  }

  /** `LookupResult`: one row of the results table. */
  datatype LookupResult = LookupResult(
    name: ParsedName,
    status: RowStatus,
    phoneNumbers: seq<string>,
    email: Option<string>,
    fullNameMatch: Option<string>,
    source: Option<Source>)

  /** The row a selected name starts with. */
  function Initial(name: ParsedName, source: Source): (r: LookupResult)
  {
    LookupResult(name, Searching, [], None, None, Some(source))
  }

  /** The row built from the route's entry for the name. */
  function FromEntry(name: ParsedName, e: LookupEntry, source: Source): (r: LookupResult)
  {
    LookupResult(name, Done(e.status), e.phoneNumbers, e.email, e.matchedName, Some(source))
  }

  /** `{ ...row, status: 'error' }`. */
  function MarkError(row: LookupResult): (r: LookupResult)
  {
    row.(status := Done(Error))
  }

  /** The route's reply to a batch: the entries, or a failure when the request threw, the
      status was not OK or the body was not JSON. */
  type Api = seq<string> -> Result<seq<LookupEntry>>

  /** The row of the name at position `j` of a batch, given the reply for that batch: the
      reply's `j`-th entry when there is one, otherwise the starting row marked as an error. */
  function Row(name: ParsedName, reply: Result<seq<LookupEntry>>, j: nat, source: Source): LookupResult
  {
    if reply.Ok? && j < |reply.value| then FromEntry(name, reply.value[j], source)
    else MarkError(Initial(name, source))
  }

  /** The row keeps its name and source and is settled: it copies the verdict, phones,
      e-mail and matched name of the reply's entry when there is one, and is an error row
      without phones when the request failed or the reply is too short. */
  lemma {:induction false} RowFromReply(name: ParsedName, reply: Result<seq<LookupEntry>>, j: nat, source: Source)
    ensures var r := Row(name, reply, j, source);
      && r.name == name && r.source == Some(source) && r.status.Done?
      && (reply.Failure? ==> r.status == Done(Error) && r.phoneNumbers == [])
      && (reply.Ok? && j < |reply.value| ==>
            r.status == Done(reply.value[j].status) && r.phoneNumbers == reply.value[j].phoneNumbers
            && r.email == reply.value[j].email && r.fullNameMatch == reply.value[j].matchedName)
      && (reply.Ok? && j >= |reply.value| ==> r.status == Done(Error) && r.phoneNumbers == [])
  {
  }

  /** `BATCH_SIZE`. */
  const BatchSize: nat := 5

  /** The start of the batch that holds position `k`. */
  function BatchStart(k: nat): (b: nat)
    ensures b <= k < b + BatchSize && b % BatchSize == 0
  {
    k / 5 * 5
  }

  lemma {:induction false} BatchStartOf(b: nat, k: nat)
    requires b % BatchSize == 0 && b <= k < b + BatchSize
    ensures BatchStart(k) == b
  {
    var q := b / 5;
    assert b == q * 5;
    assert k / 5 == q;
  }

  function FullNames(batch: seq<ParsedName>): (r: seq<string>)
    ensures |r| == |batch|
    ensures forall k :: 0 <= k < |batch| ==> r[k] == batch[k].fullName
  {
    seq(|batch|, k requires 0 <= k < |batch| => batch[k].fullName)
  }

  /** The batch `selected.slice(b, b + BATCH_SIZE)`. */
  function BatchAt(selected: seq<ParsedName>, b: nat): (batch: seq<ParsedName>)
    requires b < |selected|
    ensures 0 < |batch| <= BatchSize
    ensures |batch| == if b + BatchSize <= |selected| then BatchSize else |selected| - b
  {
    selected[b..if b + BatchSize <= |selected| then b + BatchSize else |selected|]
  }

  /** The final row of the `k`-th selected name: its batch's full names are sent together,
      and the row is built from that batch's reply at the name's position in it. */
  function FinalRow(selected: seq<ParsedName>, k: nat, source: Source, api: Api): (r: LookupResult)
    requires k < |selected|
    ensures r.name == selected[k] && r.source == Some(source) && r.status.Done?
  {
    var b := BatchStart(k);
    Row(selected[k], api(FullNames(BatchAt(selected, b))), k - b, source)
  }

  /** Inside the batch that starts at `i`, the final row of position `i + j` is the row
      built from that batch's reply at `j`. */
  lemma {:induction false} FinalRowInBatch(selected: seq<ParsedName>, i: nat, j: nat, source: Source, api: Api)
    requires i < |selected| && i % BatchSize == 0 && j < |BatchAt(selected, i)|
    ensures i + j < |selected|
    ensures FinalRow(selected, i + j, source, api) == Row(selected[i + j], api(FullNames(BatchAt(selected, i))), j, source)
  {
    BatchStartOf(i, i + j);
  }

  /** `names.filter(n => selectedIds.has(n.id))`. */
  function Selected(names: seq<ParsedName>, ids: set<string>): (r: seq<ParsedName>)
    ensures |r| <= |names|
    ensures forall k :: 0 <= k < |r| ==> r[k].id in ids && r[k] in names
    ensures forall k :: 0 <= k < |names| && names[k].id in ids ==> names[k] in r
  {
    Filter(names, (n: ParsedName) => n.id in ids)
  }

  /** The selected names keep the list's order: selecting from two runs of names is
      selecting from each in turn. */
  lemma {:induction false} SelectedConcat(a: seq<ParsedName>, b: seq<ParsedName>, ids: set<string>)
    ensures Selected(a + b, ids) == Selected(a, ids) + Selected(b, ids)
  {
    FilterConcat(a, b, (n: ParsedName) => n.id in ids);
  }

  function IdsOf(names: seq<ParsedName>): (r: set<string>)
    ensures forall k :: 0 <= k < |names| ==> names[k].id in r
    ensures forall id :: id in r ==> exists k :: 0 <= k < |names| && names[k].id == id
  {
    set k | 0 <= k < |names| :: names[k].id
  }

  /** A route that answers every batch with one entry per name, in order, gives every
      selected name the verdict, phones and e-mail of its own entry. */
  lemma {:induction false} AlignedReplyFillsRows(selected: seq<ParsedName>, k: nat, source: Source, api: Api)
    requires k < |selected|
    requires forall batch :: api(batch).Ok? ==> |api(batch).value| == |batch|
    requires api(FullNames(BatchAt(selected, BatchStart(k)))).Ok?
    ensures var b := BatchStart(k);
            var e := api(FullNames(BatchAt(selected, b))).value[k - b];
            FinalRow(selected, k, source, api) == FromEntry(selected[k], e, source)
  {
  }

  // ---------------------------------------------------------------- the page

  /** The page's state. */
  class LookupPage {
    var names: seq<ParsedName>
    var selectedIds: set<string>
    var results: seq<LookupResult>
    var isSearching: bool
    var progressCurrent: nat
    var progressTotal: nat

    constructor()
      ensures names == [] && selectedIds == {} && results == []
      ensures !isSearching && progressCurrent == 0 && progressTotal == 0
    {
      names := [];
      selectedIds := {};
      results := [];
      isSearching := false;
      progressCurrent := 0;
      progressTotal := 0;
    }

    /** What both the file upload and the paste button do with the text: the parsed names
        replace the list, all of them are selected and the results are cleared. */
    method Load(text: string)
      modifies this`names, this`selectedIds, this`results
      ensures names == Parsed(Lines(text))
      ensures selectedIds == IdsOf(names) && results == []
    {
      var parsed := ParseNames(text);
      names := parsed;
      selectedIds := IdsOf(parsed);
      results := [];
    }

    /** `handleFileUpload`, the file's text being read by the browser. */
    method UploadFile(text: string)
      modifies this`names, this`selectedIds, this`results
      ensures names == Parsed(Lines(text))
      ensures selectedIds == IdsOf(names) && results == []
    {
      Load(text);
    }

    /** `handleParse`: blank pasted text changes nothing. */
    method ParsePasted(text: string)
      modifies this`names, this`selectedIds, this`results
      ensures Trim(text) == "" ==> unchanged(this)
      ensures Trim(text) != "" ==> names == Parsed(Lines(text)) && selectedIds == IdsOf(names) && results == []
    {
      if Trim(text) == "" {
        return;
      }
      Load(text);
    }

    /** `toggleSelect`. */
    method ToggleSelect(id: string)
      modifies this`selectedIds
      ensures selectedIds == Toggle(old(selectedIds), id)
    {
      selectedIds := Toggle(selectedIds, id);
    }

    /** `toggleAll`: clears the selection when its size equals the number of names,
        otherwise selects every name. */
    method ToggleAll()
      modifies this`selectedIds
      ensures |old(selectedIds)| == |names| ==> selectedIds == {}
      ensures |old(selectedIds)| != |names| ==> selectedIds == IdsOf(names)
    {
      if |selectedIds| == |names| {
        selectedIds := {};
      } else {
        selectedIds := IdsOf(names);
      }
    }

    /** `handleSearch`: with nothing selected nothing changes; otherwise every selected
        name ends with the row `FinalRow` describes, none is left searching, and the
        progress reads all of them done. */
    method Search(source: Source, api: Api)
      modifies this`results, this`isSearching, this`progressCurrent, this`progressTotal
      ensures Selected(names, selectedIds) == [] ==> unchanged(this)
      ensures var selected := Selected(names, selectedIds);
              selected != [] ==>
                && |results| == |selected|
                && (forall k :: 0 <= k < |selected| ==> results[k] == FinalRow(selected, k, source, api))
                && (forall k :: 0 <= k < |selected| ==> results[k].status != Searching)
                && !isSearching && progressCurrent == |selected| && progressTotal == |selected|
    {
      var selected := Selected(names, selectedIds);
      if |selected| == 0 {
        return;
      }
      var n := |selected|;
      isSearching := true;
      progressCurrent := 0;
      progressTotal := n;
      var all := new LookupResult[n](k requires 0 <= k < n => Initial(selected[k], source));
      results := all[..];
      RunBatches(selected, source, api, all);
      assert forall k :: 0 <= k < n ==> results[k] == all[k];
      assert Selected(names, selectedIds) == selected;
      isSearching := false;
    }

    /** The `for` loop of `handleSearch`: one batch per pass, the progress and the table
        updated after each. */
    method RunBatches(selected: seq<ParsedName>, source: Source, api: Api, all: array<LookupResult>)
      requires all.Length == |selected|
      requires forall k :: 0 <= k < |selected| ==> all[k] == Initial(selected[k], source)
      requires progressCurrent == 0 && results == all[..]
      modifies this`results, this`progressCurrent, all
      ensures progressCurrent == |selected| && results == all[..]
      ensures forall k :: 0 <= k < |selected| ==> all[k] == FinalRow(selected, k, source, api)
    {
      var n := |selected|;
      var i := 0;
      while i < n
        invariant 0 <= i <= n && (i % BatchSize == 0 || i == n)
        invariant progressCurrent == i && results == all[..]
        invariant forall k :: 0 <= k < i ==> all[k] == FinalRow(selected, k, source, api)
        invariant forall k :: i <= k < n ==> all[k] == Initial(selected[k], source)
      {
        SearchBatch(selected, i, source, api, all);
        var end := if i + BatchSize <= n then i + BatchSize else n;
        progressCurrent := end;
        results := all[..];
        i := end;
      }
    }

    /** One pass of the batch loop: the rows of the batch starting at `i` are written from
        the route's reply to it; the other rows are left as they are. */
    static method SearchBatch(selected: seq<ParsedName>, i: nat, source: Source, api: Api, all: array<LookupResult>)
      requires all.Length == |selected| && i < |selected| && i % BatchSize == 0
      requires forall k :: i <= k < |selected| ==> all[k] == Initial(selected[k], source)
      modifies all
      ensures forall k :: 0 <= k < all.Length && !(i <= k < i + BatchSize) ==> all[k] == old(all[k])
      ensures forall k :: i <= k < i + BatchSize && k < all.Length ==> all[k] == FinalRow(selected, k, source, api)
    {
      var batch := BatchAt(selected, i);
      var reply := api(FullNames(batch));
      FillBatch(selected, i, |batch|, reply, source, all);
      forall k | i <= k < i + BatchSize && k < all.Length
        ensures all[k] == FinalRow(selected, k, source, api)
      {
        FinalRowInBatch(selected, i, k - i, source, api);
      }
    }

    /** The inner loop over the `count` names of the batch starting at `i`, given the reply. */
    static method FillBatch(selected: seq<ParsedName>, i: nat, count: nat, reply: Result<seq<LookupEntry>>, source: Source, all: array<LookupResult>)
      requires all.Length == |selected| && i + count <= |selected|
      requires forall k :: i <= k < i + count ==> all[k] == Initial(selected[k], source)
      modifies all
      ensures forall k :: 0 <= k < all.Length && !(i <= k < i + count) ==> all[k] == old(all[k])
      ensures forall k :: i <= k < i + count ==> all[k] == Row(selected[k], reply, k - i, source)
    {
      var j := 0;
      while j < count
        invariant 0 <= j <= count
        invariant forall k :: 0 <= k < all.Length && !(i <= k < i + j) ==> all[k] == old(all[k])
        invariant forall k :: i <= k < i + j ==> all[k] == Row(selected[k], reply, k - i, source)
      {
        WriteRow(all, i + j, selected[i + j], reply, j, source);
        j := j + 1;
      }
    }

    /** The inner loop's body for the name at position `j` of its batch, stored at `k`:
        the reply's `j`-th entry when there is one, otherwise the row marked as an error. */
    static method WriteRow(all: array<LookupResult>, k: nat, name: ParsedName, reply: Result<seq<LookupEntry>>, j: nat, source: Source)
      requires k < all.Length && all[k] == Initial(name, source)
      modifies all
      ensures all[k] == Row(name, reply, j, source)
      ensures forall m :: 0 <= m < all.Length && m != k ==> all[m] == old(all[m])
    {
      if reply.Ok? {
        if j < |reply.value| {
          all[k] := FromEntry(name, reply.value[j], source);
        } else {
          all[k] := MarkError(all[k]);
        }
      } else {
        all[k] := MarkError(all[k]);
      }
    }
  }

  // ---------------------------------------------------------------- export

  /** A row `exportResults` counts as found: status found or some phone number. */
  predicate IsFound(r: LookupResult) {
    r.status == Done(Found) || |r.phoneNumbers| > 0
  }

  const ResultHeaders: seq<string> := ["Name", "Matched Name", "Phone Numbers", "Email", "Source", "Status"]

  /** The exported fields of one row. */
  function ResultFields(r: LookupResult): (f: seq<string>)
    ensures |f| == |ResultHeaders|
  {
    [ r.name.fullName,
      OrEmpty(r.fullNameMatch),
      Join(r.phoneNumbers, "; "),
      OrEmpty(r.email),
      if r.source.Some? then SourceTag(r.source.value) else "",
      StatusText(r.status) ]
  }

  /** `exportResults`: no file when no row is found; otherwise the header line and one line
      for EVERY row, found or not, in table order. */
  function ExportResults(results: seq<LookupResult>): (r: Option<string>)
    ensures r.None? <==> Filter(results, IsFound) == []
    ensures r.Some? ==>
      var lines := Csv.DocumentLines(ResultHeaders, Map(results, ResultFields));
      && r.value == Join(lines, "\n")
      && |lines| == |results| + 1
      && forall k :: 0 <= k < |results| ==> lines[k + 1] == Csv.RowLine(ResultFields(results[k]))
  {
    if Filter(results, IsFound) == [] then None
    else Some(Csv.Document(ResultHeaders, Map(results, ResultFields)))
  }

  /** Each exported field reads back as the row's value. */
  lemma {:induction false} ExportedFieldsReadBack(r: LookupResult, f: nat)
    requires f < |ResultHeaders|
    ensures Csv.UnescapeCsv(Csv.EscapeAll(ResultFields(r))[f]) == ResultFields(r)[f]
  {
    Csv.EscapeRoundTrip(ResultFields(r)[f]);
  }
}
