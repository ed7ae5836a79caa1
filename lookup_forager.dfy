/** The Forager bulk-lookup route (app/api/lookup/forager/route.ts): the name matcher, the
    per-name decision chain and the route's `POST`. */
module ForagerLookup {
  import opened Wrappers
  import opened Strings
  import opened Seqs
  import opened Types
  import Forager
  import LookupBatch

  // ---------------------------------------------------------------- matching

  /** `isReasonableMatch` (app/api/lookup/forager/route.ts:36-47): split the lower-cased query
      on whitespace; a one-field query matches when the lower-cased candidate contains it,
      a longer one when the candidate contains its first and its last field. */
  function IsReasonableMatch(searchName: string, resultName: string): (b: bool)
  {
    FieldsMatch(SplitWs(Lower(searchName)), Lower(resultName))
  }

  /** The test on the query's fields: the first, and the last when there are two or more. */
  predicate FieldsMatch(parts: seq<string>, resultLower: string)
    requires |parts| >= 1
  {
    if |parts| < 2 then Contains(resultLower, parts[0])
    else Contains(resultLower, parts[0]) && Contains(resultLower, parts[|parts| - 1])
  }

  /** A query without whitespace matches exactly the candidates containing it, ignoring case. */
  lemma {:induction false} SingleTokenMatch(searchName: string, resultName: string)
    requires NoSpace(searchName)
    ensures IsReasonableMatch(searchName, resultName) <==> Contains(Lower(resultName), Lower(searchName))
  {
    SplitWsNoSpace(Lower(searchName));
  }

  /** A query of two or more fields matches exactly the candidates containing its first and
      its last field, ignoring case; the middle fields play no part. */
  lemma {:induction false} MultiTokenMatch(searchName: string, resultName: string)
    requires |SplitWs(searchName)| >= 2
    ensures var parts := SplitWs(searchName);
      IsReasonableMatch(searchName, resultName) <==>
        Contains(Lower(resultName), Lower(parts[0])) && Contains(Lower(resultName), Lower(parts[|parts| - 1]))
  {
    var parts := SplitWs(searchName);
    var lowered := SplitWs(Lower(searchName));
    var hay := Lower(resultName);
    SplitWsLowerEnds(searchName);
    assert IsReasonableMatch(searchName, resultName) == FieldsMatch(lowered, hay);
    FieldsMatchEnds(lowered, hay, lowered[0], lowered[|lowered| - 1]);
  }

  /** With two fields or more, the test looks at the first and the last one only. */
  lemma {:induction false} FieldsMatchEnds(parts: seq<string>, resultLower: string, first: string, last: string)
    requires |parts| >= 2 && parts[0] == first && parts[|parts| - 1] == last
    ensures FieldsMatch(parts, resultLower) == (Contains(resultLower, first) && Contains(resultLower, last))
  {
  }

  /** Lower-casing either argument does not change the verdict. */
  lemma {:induction false} MatchIgnoresCase(searchName: string, resultName: string)
    ensures IsReasonableMatch(Lower(searchName), resultName) == IsReasonableMatch(searchName, resultName)
    ensures IsReasonableMatch(searchName, Lower(resultName)) == IsReasonableMatch(searchName, resultName)
  {
    LowerIdempotent(searchName);
    LowerIdempotent(resultName);
  }

  /** Every query matches its own text. */
  lemma {:induction false} MatchesItself(name: string)
    ensures IsReasonableMatch(name, name)
  {
    var parts := SplitWs(Lower(name));
    SplitWsFieldsOccur(Lower(name), 0);
    SplitWsFieldsOccur(Lower(name), |parts| - 1);
  }

  /** A candidate that contains a matching candidate's name matches too (a title or a
      middle initial around the name does not hurt). */
  lemma {:induction false} MatchSurvivesExtension(searchName: string, resultName: string, before: string, after: string)
    requires IsReasonableMatch(searchName, resultName)
    ensures IsReasonableMatch(searchName, before + resultName + after)
  {
    var parts := SplitWs(Lower(searchName));
    LowerConcat(before + resultName, after);
    LowerConcat(before, resultName);
    ContainsExtend(Lower(resultName), parts[0], Lower(before), Lower(after));
    ContainsExtend(Lower(resultName), parts[|parts| - 1], Lower(before), Lower(after));
  }

  /** A first and a last name: the query matches exactly the candidates containing both,
      ignoring case. */
  lemma {:induction false} TwoWordQuery(first: string, last: string, resultName: string)
    requires NoSpace(first) && NoSpace(last)
    ensures IsReasonableMatch(first + " " + last, resultName) <==>
      Contains(Lower(resultName), Lower(first)) && Contains(Lower(resultName), Lower(last))
  {
    SplitWsPair(first, last);
    MultiTokenMatch(first + " " + last, resultName);
  }

  lemma {:induction false} JohnSmithWords()
    ensures NoSpace("John") && NoSpace("Smith")
    ensures Lower("John") == "john" && Lower("Smith") == "smith"
  {
  }

  /** The query "John Smith" matches exactly the candidates containing "john" and "smith". */
  lemma {:induction false} JohnSmithQuery(resultName: string)
    ensures IsReasonableMatch("John Smith", resultName) <==>
      Contains(Lower(resultName), "john") && Contains(Lower(resultName), "smith")
  {
    JohnSmithWords();
    assert "John Smith" == "John" + " " + "Smith";
    TwoWordQuery("John", "Smith", resultName);
  }

  lemma {:induction false} LowerRecruiter()
    ensures Lower("John A. Smith - Recruiter") == "john a. smith - recruiter"
  {
  }

  lemma {:induction false} RecruiterHasJohnSmith()
    ensures Contains("john a. smith - recruiter", "john")
    ensures Contains("john a. smith - recruiter", "smith")
  {
    var l := "john a. smith - recruiter";
    assert OccursAt(l, "john", 0);
    assert OccursAt(l, "smith", 8);
  }

  /** "John Smith" matches "John A. Smith - Recruiter". */
  lemma {:induction false} JohnSmithMatches()
    ensures IsReasonableMatch("John Smith", "John A. Smith - Recruiter")
  {
    JohnSmithQuery("John A. Smith - Recruiter");
    LowerRecruiter();
    RecruiterHasJohnSmith();
  }

  lemma {:induction false} LowerJaneDoe()
    ensures Lower("Jane Doe") == "jane doe"
  {
  }

  lemma {:induction false} JaneDoeLacksJohn()
    ensures !Contains("jane doe", "john")
  {
    var l := "jane doe";
    forall i: nat | i <= |l| ensures !OccursAt(l, "john", i) {
      if i + 4 <= |l| {
        assert l[i..i + 4][0] == l[i] && l[i..i + 4][1] == l[i + 1];
      }
    }
  }

  /** "John Smith" does not match "Jane Doe". */
  lemma {:induction false} JaneDoeDoesNotMatch()
    ensures !IsReasonableMatch("John Smith", "Jane Doe")
  {
    JohnSmithQuery("Jane Doe");
    LowerJaneDoe();
    JaneDoeLacksJohn();
  }

  // ---------------------------------------------------------------- decision chain

  /** One element of `search_results`, reduced to what the route reads: `person.id` and
      `person.full_name`, which may be missing. */
  datatype Candidate = Candidate(personId: int, fullName: Option<string>)

  /** The candidate passes the matcher. */
  predicate Passes(query: string, c: Candidate) {
    c.fullName.Some? && IsReasonableMatch(query, c.fullName.value)
  }

  /** The candidate has a name and fails the matcher. */
  predicate Fails(query: string, c: Candidate) {
    c.fullName.Some? && !IsReasonableMatch(query, c.fullName.value)
  }

  /** `results.find(r => isReasonableMatch(fullName, r.person.full_name))`, as an index; a
      candidate without a name reached by the search makes the matcher throw (`Failure`). */
  function FindMatch(query: string, cands: seq<Candidate>): (r: Result<Option<nat>>)
    ensures r.Ok? && r.value.Some? ==>
      && r.value.value < |cands| && Passes(query, cands[r.value.value])
      && forall j :: 0 <= j < r.value.value ==> Fails(query, cands[j])
    ensures r.Ok? && r.value.None? ==> forall j :: 0 <= j < |cands| ==> Fails(query, cands[j])
    ensures r.Failure? ==> exists k :: (0 <= k < |cands| && cands[k].fullName.None? &&
      forall j :: 0 <= j < k ==> Fails(query, cands[j]))
    decreases |cands|
  {
    if cands == [] then Ok(None)
    else if cands[0].fullName.None? then Failure("full_name is undefined")
    else if IsReasonableMatch(query, cands[0].fullName.value) then Ok(Some(0))
    else match FindMatch(query, cands[1..])
      case Failure(e) =>
        var k :| 0 <= k < |cands| - 1 && cands[1..][k].fullName.None? &&
          forall j :: 0 <= j < k ==> Fails(query, cands[1..][j]);
        assert cands[k + 1].fullName.None? && forall j :: 0 <= j < k + 1 ==> Fails(query, cands[j]);
        Failure(e)
      case Ok(None) => Ok(None)
      case Ok(Some(k)) => Ok(Some(k + 1))
  }

  /** The contact record of `/person_detail_lookup/`, reduced to the e-mail lists the route reads. */
  datatype ContactDetail = ContactDetail(workEmails: Option<seq<string>>, personalEmails: Option<seq<string>>)

  /** The Forager endpoints the route calls: the headline search (page 1) with the sanitised
      name, and the detail and phone lookups by person id. `phones` answers `Ok(None)` when
      its reply is not an array. */
  datatype Vendor = Vendor(
    search: string -> Result<Option<seq<Candidate>>>,
    detail: int -> Result<Option<ContactDetail>>,
    phones: int -> Result<Option<seq<Forager.RawPhone>>>)

  predicate NonEmptyText(s: string) {
    s != ""
  }

  /** The route's phone list: `[]` when the lookup failed or did not answer an array,
      otherwise `p.phone_number || p.number || ''` for each entry, empty strings dropped. */
  function PhoneStrings(reply: Result<Option<seq<Forager.RawPhone>>>): (r: seq<string>)
    ensures reply.Failure? || reply.value.None? ==> r == []
    ensures forall i :: 0 <= i < |r| ==> r[i] != ""
    ensures reply.Ok? && reply.value.Some? ==> r == Filter(Map(reply.value.value, Forager.PhoneText), NonEmptyText)
  {
    match reply
    case Ok(Some(entries)) => Filter(Map(entries, Forager.PhoneText), NonEmptyText)
    case _ => []
  }

  function ListOrEmpty(o: Option<seq<string>>): seq<string> {
    if o.Some? then o.value else []
  }

  /** `personData?.work_emails?.[0] || personData?.personal_emails?.[0] || ''`. */
  function DetailEmail(detail: Option<ContactDetail>): (r: string)
    ensures detail.None? ==> r == ""
    ensures detail.Some? ==> r == PreferredEmail(ListOrEmpty(detail.value.workEmails), ListOrEmpty(detail.value.personalEmails))
  {
    if detail.None? then ""
    else PreferredEmail(ListOrEmpty(detail.value.workEmails), ListOrEmpty(detail.value.personalEmails))
  }

  /** `searchByName` (app/api/lookup/forager/route.ts:49-109). Every failure (search, matcher,
      detail lookup) ends in an error entry naming the query; a failed phone lookup only
      empties the phone list. */
  function SearchByName(fullName: string, v: Vendor): (r: LookupEntry)
    ensures r.fullName == fullName
    ensures r.status == Error ==> r.phoneNumbers == [] && r.matchedName.None?
    ensures r.status != Error ==> (r.status == Found <==> |r.phoneNumbers| > 0)
    ensures forall i :: 0 <= i < |r.phoneNumbers| ==> r.phoneNumbers[i] != ""
    ensures r.matchedName.Some? ==> IsReasonableMatch(fullName, r.matchedName.value)
    ensures v.search(Forager.SanitizeSearchString(fullName)).Failure? ==> r == Bare(fullName, Error)
    ensures var reply := v.search(Forager.SanitizeSearchString(fullName));
      reply.Ok? && (reply.value.None? || reply.value.value == []) ==> r == Bare(fullName, NotFound)
  {
    match v.search(Forager.SanitizeSearchString(fullName))
    case Failure(_) => Bare(fullName, Error)
    case Ok(data) =>
      var cands := if data.Some? then data.value else [];
      if |cands| == 0 then Bare(fullName, NotFound)
      else match FindMatch(fullName, cands)
        case Failure(_) => Bare(fullName, Error)
        case Ok(None) => Bare(fullName, NotFound)
        case Ok(Some(k)) =>
          var m := cands[k];
          match v.detail(m.personId)
          case Failure(_) => Bare(fullName, Error)
          case Ok(detail) =>
            var phones := PhoneStrings(v.phones(m.personId));
            LookupEntry(fullName, m.fullName, Some(IntToString(m.personId)), phones,
                        NonEmpty(DetailEmail(detail)), StatusFor(phones))
  }

  /** The chosen candidate is the first one, in list order, that passes the matcher, and the
      entry reports its name and id. */
  lemma {:induction false} SearchByNameChoosesFirstMatch(fullName: string, v: Vendor, k: nat)
    requires var reply := v.search(Forager.SanitizeSearchString(fullName));
      reply.Ok? && reply.value.Some? && k < |reply.value.value|
    requires var cands := v.search(Forager.SanitizeSearchString(fullName)).value.value;
      Passes(fullName, cands[k]) && forall j :: 0 <= j < k ==> Fails(fullName, cands[j])
    requires v.detail(v.search(Forager.SanitizeSearchString(fullName)).value.value[k].personId).Ok?
    ensures var c := v.search(Forager.SanitizeSearchString(fullName)).value.value[k];
      && SearchByName(fullName, v).matchedName == c.fullName
      && SearchByName(fullName, v).personId == Some(IntToString(c.personId))
      && SearchByName(fullName, v).phoneNumbers == PhoneStrings(v.phones(c.personId))
      && SearchByName(fullName, v).email == NonEmpty(DetailEmail(v.detail(c.personId).value))
      && SearchByName(fullName, v).status == StatusFor(PhoneStrings(v.phones(c.personId)))
  {
    var cands := v.search(Forager.SanitizeSearchString(fullName)).value.value;
    assert FindMatch(fullName, cands) == Ok(Some(k));
  }

  /** When the first candidate the matcher accepts has no readable detail, the lookup
      reports an error. */
  lemma {:induction false} SearchByNameDetailFails(fullName: string, v: Vendor, k: nat)
    requires var reply := v.search(Forager.SanitizeSearchString(fullName));
      reply.Ok? && reply.value.Some? && k < |reply.value.value|
    requires var cands := v.search(Forager.SanitizeSearchString(fullName)).value.value;
      Passes(fullName, cands[k]) && forall j :: 0 <= j < k ==> Fails(fullName, cands[j])
    requires v.detail(v.search(Forager.SanitizeSearchString(fullName)).value.value[k].personId).Failure?
    ensures SearchByName(fullName, v) == Bare(fullName, Error)
  {
    var cands := v.search(Forager.SanitizeSearchString(fullName)).value.value;
    assert FindMatch(fullName, cands) == Ok(Some(k));
  }

  /** When every candidate has a name the matcher rejects, nobody is found. */
  lemma {:induction false} SearchByNameNoMatch(fullName: string, v: Vendor)
    requires var reply := v.search(Forager.SanitizeSearchString(fullName));
      reply.Ok? && reply.value.Some?
    requires var cands := v.search(Forager.SanitizeSearchString(fullName)).value.value;
      forall j :: 0 <= j < |cands| ==> Fails(fullName, cands[j])
    ensures SearchByName(fullName, v) == Bare(fullName, NotFound)
  {
    var cands := v.search(Forager.SanitizeSearchString(fullName)).value.value;
    if cands != [] {
      assert FindMatch(fullName, cands) == Ok(None);
    }
  }

  /** A nameless candidate reached before any accepted one makes the matcher throw, and
      the lookup reports an error. */
  lemma {:induction false} SearchByNameMatcherThrows(fullName: string, v: Vendor, k: nat)
    requires var reply := v.search(Forager.SanitizeSearchString(fullName));
      reply.Ok? && reply.value.Some? && k < |reply.value.value|
    requires var cands := v.search(Forager.SanitizeSearchString(fullName)).value.value;
      cands[k].fullName.None? && forall j :: 0 <= j < k ==> Fails(fullName, cands[j])
    ensures SearchByName(fullName, v) == Bare(fullName, Error)
  {
    var cands := v.search(Forager.SanitizeSearchString(fullName)).value.value;
    assert FindMatch(fullName, cands).Failure?;
  }

  /** `POST` (app/api/lookup/forager/route.ts:111-145): 400 before any lookup for a missing or
      empty `names`; otherwise one entry per name, in input order, each naming its query. */
  method Post(names: Result<Option<seq<string>>>, v: Vendor) returns (reply: LookupBatch.Reply)
    ensures names.Failure? <==> reply.ServerError?
    ensures reply.BadRequest? <==> names.Ok? && (names.value.None? || names.value.value == [])
    ensures reply.Results? ==>
      && |reply.results| == |names.value.value|
      && forall k :: 0 <= k < |reply.results| ==>
           reply.results[k] == SearchByName(names.value.value[k], v) &&
           reply.results[k].fullName == names.value.value[k]
  {
    reply := LookupBatch.Post(names, name => Fulfilled(SearchByName(name, v)));
  }
}
