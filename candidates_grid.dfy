/**
 * The candidate grid's filter: a copy of the candidates narrowed, in turn, by
 * district, by electoral list and by a case-insensitive search over nine name
 * fields. A filter that is missing or empty is skipped.
 */
module CandidatesGrid {
  import opened Wrappers
  import opened Strings
  import Seqs

  /** A district or an electoral list as embedded in a candidate record. */
  datatype Ref = Ref(id: string, nameAr: string, nameEn: string, nameFr: string)

  /** The fields of a candidate the filter reads. */
  datatype Candidate = Candidate(
    id: string,
    fullNameAr: string,
    fullNameEn: string,
    fullNameFr: string,
    district: Option<Ref>,
    currentList: Option<Ref>)

  /** The filters handed to the grid; each may be missing. */
  datatype Query = Query(districtId: Option<string>, listId: Option<string>, search: Option<string>)

  /** `candidate.district?.id === districtId`: a candidate without a district is in none. */
  predicate InDistrict(c: Candidate, districtId: string) {
    c.district.Some? && c.district.value.id == districtId
  }

  /** `candidate.currentList?.id === listId`. */
  predicate OnList(c: Candidate, listId: string) {
    c.currentList.Some? && c.currentList.value.id == listId
  }

  /** The three lowered names of a district or list; a missing one searches as three empty strings. */
  predicate RefMatches(r: Option<Ref>, needle: string) {
    var ar := if r.Some? then Lower(r.value.nameAr) else "";
    var en := if r.Some? then Lower(r.value.nameEn) else "";
    var fr := if r.Some? then Lower(r.value.nameFr) else "";
    Contains(ar, needle) || Contains(en, needle) || Contains(fr, needle)
  }

  /** The search test: `needle` (already lowered) occurs in one of the nine lowered name fields. */
  predicate MatchesSearch(c: Candidate, needle: string) {
    Contains(Lower(c.fullNameAr), needle) || Contains(Lower(c.fullNameEn), needle) || Contains(Lower(c.fullNameFr), needle)
    || RefMatches(c.district, needle) || RefMatches(c.currentList, needle)
  }

  /** Whether a candidate passes every filter of `q` that is set. */
  predicate Keeps(q: Query, c: Candidate) {
    (IsSet(q.districtId) ==> InDistrict(c, q.districtId.value))
    && (IsSet(q.listId) ==> OnList(c, q.listId.value))
    && (IsSet(q.search) ==> MatchesSearch(c, Lower(q.search.value)))
  }

  /** The grid's `filteredCandidates`: the three filter stages, each run only when its filter is set. */
  function FilterCandidates(candidates: seq<Candidate>, q: Query): (r: seq<Candidate>)
    ensures |r| <= |candidates|
    ensures !IsSet(q.districtId) && !IsSet(q.listId) && !IsSet(q.search) ==> r == candidates
  {
    var districtId, listId, needle := q.districtId.GetOr(""), q.listId.GetOr(""), Lower(q.search.GetOr(""));
    var byDistrict := if IsSet(q.districtId) then Seqs.Filter(candidates, c => InDistrict(c, districtId)) else candidates;
    var byList := if IsSet(q.listId) then Seqs.Filter(byDistrict, c => OnList(c, listId)) else byDistrict;
    if IsSet(q.search) then Seqs.Filter(byList, c => MatchesSearch(c, needle)) else byList
  }

  /** A candidate is shown iff it is one of the input candidates and passes every set filter. */
  lemma {:induction false} FilterCandidatesMembers(candidates: seq<Candidate>, q: Query, c: Candidate)
    ensures c in FilterCandidates(candidates, q) <==> c in candidates && Keeps(q, c)
  {
    var districtId, listId, needle := q.districtId.GetOr(""), q.listId.GetOr(""), Lower(q.search.GetOr(""));
    var byDistrict := if IsSet(q.districtId) then Seqs.Filter(candidates, c => InDistrict(c, districtId)) else candidates;
    var byList := if IsSet(q.listId) then Seqs.Filter(byDistrict, c => OnList(c, listId)) else byDistrict;
    Seqs.FilterMembers(candidates, c => InDistrict(c, districtId), c);
    Seqs.FilterMembers(byDistrict, c => OnList(c, listId), c);
    Seqs.FilterMembers(byList, c => MatchesSearch(c, needle), c);
  }

  /** The shown candidates keep their input order: they are a subsequence of the input. */
  lemma {:induction false} FilterCandidatesOrdered(candidates: seq<Candidate>, q: Query)
    ensures Seqs.IsSubsequence(FilterCandidates(candidates, q), candidates)
  {
    var districtId, listId, needle := q.districtId.GetOr(""), q.listId.GetOr(""), Lower(q.search.GetOr(""));
    var byDistrict := if IsSet(q.districtId) then Seqs.Filter(candidates, c => InDistrict(c, districtId)) else candidates;
    var byList := if IsSet(q.listId) then Seqs.Filter(byDistrict, c => OnList(c, listId)) else byDistrict;
    Seqs.MaybeFilterIsSubsequence(candidates, IsSet(q.districtId), c => InDistrict(c, districtId));
    Seqs.MaybeFilterIsSubsequence(byDistrict, IsSet(q.listId), c => OnList(c, listId));
    Seqs.MaybeFilterIsSubsequence(byList, IsSet(q.search), c => MatchesSearch(c, needle));
    Seqs.SubsequenceTrans(byList, byDistrict, candidates);
    Seqs.SubsequenceTrans(FilterCandidates(candidates, q), byList, candidates);
  }

  /** With a district filter set, a candidate without a district is never shown. */
  lemma {:induction false} NoDistrictDropped(candidates: seq<Candidate>, q: Query, c: Candidate)
    requires IsSet(q.districtId) && c.district.None?
    ensures c !in FilterCandidates(candidates, q)
  {
    FilterCandidatesMembers(candidates, q, c);
  }

  /** A missing district or list never matches a non-empty search. */
  lemma {:induction false} MissingRefNeverMatches(needle: string)
    requires needle != ""
    ensures !RefMatches(None, needle)
  {
    EmptyContainsOnlyEmpty(needle);
  }

  /**
   * The search is case-insensitive: a query and its lowered form show the same
   * candidates.
   */
  lemma {:induction false} SearchIgnoresCase(candidates: seq<Candidate>, q: Query)
    requires q.search.Some?
    ensures FilterCandidates(candidates, q) == FilterCandidates(candidates, q.(search := Some(Lower(q.search.value))))
  {
    LowerIdempotent(q.search.value);
    assert IsSet(q.search) <==> IsSet(Some(Lower(q.search.value)));
  }
}
