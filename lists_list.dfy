/**
 * The electoral-list page's filter: a copy of the lists narrowed by district
 * and then by a case-insensitive search over the list's and its district's
 * names; and the notice shown when nothing is left.
 */
module ListsList {
  import opened Wrappers
  import opened Strings
  import Seqs
  import CandidatesGrid

  /** The fields of an electoral list the filter reads. */
  datatype ElectoralList = ElectoralList(id: string, nameAr: string, nameEn: string, nameFr: string, district: CandidatesGrid.Ref)

  /** `list.district?.id === districtFilter`. */
  predicate InDistrict(l: ElectoralList, districtId: string) {
    l.district.id == districtId
  }

  /** `needle` (already lowered) occurs in one of the three lowered list names or the three lowered district names. */
  predicate ListMatches(l: ElectoralList, needle: string) {
    Contains(Lower(l.nameAr), needle) || Contains(Lower(l.nameEn), needle) || Contains(Lower(l.nameFr), needle)
    || Contains(Lower(l.district.nameAr), needle) || Contains(Lower(l.district.nameEn), needle)
    || Contains(Lower(l.district.nameFr), needle)
  }

  /**
   * `filteredLists`: the district stage runs when `districtFilter` is
   * non-empty, the search stage when `searchQuery` is; both default to "".
   */
  function FilterLists(lists: seq<ElectoralList>, searchQuery: string, districtFilter: string): (r: seq<ElectoralList>)
    ensures |r| <= |lists|
    ensures searchQuery == "" && districtFilter == "" ==> r == lists
  {
    var byDistrict := if districtFilter != "" then Seqs.Filter(lists, l => InDistrict(l, districtFilter)) else lists;
    if searchQuery != "" then Seqs.Filter(byDistrict, l => ListMatches(l, Lower(searchQuery))) else byDistrict
  }

  /** A list is shown iff it is in the input, lies in the chosen district, if any, and matches the search, if any. */
  lemma {:induction false} FilterListsMembers(lists: seq<ElectoralList>, searchQuery: string, districtFilter: string, l: ElectoralList)
    ensures l in FilterLists(lists, searchQuery, districtFilter) <==>
      l in lists
      && (districtFilter != "" ==> InDistrict(l, districtFilter))
      && (searchQuery != "" ==> ListMatches(l, Lower(searchQuery)))
  {
    var byDistrict := if districtFilter != "" then Seqs.Filter(lists, l => InDistrict(l, districtFilter)) else lists;
    Seqs.FilterMembers(lists, l => InDistrict(l, districtFilter), l);
    Seqs.FilterMembers(byDistrict, l => ListMatches(l, Lower(searchQuery)), l);
  }

  /** The shown lists keep their input order. */
  lemma {:induction false} FilterListsOrdered(lists: seq<ElectoralList>, searchQuery: string, districtFilter: string)
    ensures Seqs.IsSubsequence(FilterLists(lists, searchQuery, districtFilter), lists)
  {
    var byDistrict := if districtFilter != "" then Seqs.Filter(lists, l => InDistrict(l, districtFilter)) else lists;
    Seqs.MaybeFilterIsSubsequence(lists, districtFilter != "", l => InDistrict(l, districtFilter));
    Seqs.MaybeFilterIsSubsequence(byDistrict, searchQuery != "", l => ListMatches(l, Lower(searchQuery)));
    Seqs.SubsequenceTrans(FilterLists(lists, searchQuery, districtFilter), byDistrict, lists);
  }

  /**
   * The notice under an empty result: the caller's message when it is set,
   * else "No lists found"; nothing while a list is shown.
   */
  function EmptyNotice(shown: seq<ElectoralList>, emptyMessage: Option<string>): (r: Option<string>)
    ensures r.Some? <==> shown == []
    ensures r.Some? ==> r.value != ""
    ensures r.Some? && IsSet(emptyMessage) ==> r.value == emptyMessage.value
    ensures r.Some? && !IsSet(emptyMessage) ==> r.value == "No lists found"
  {
    if shown == [] then Some(OrElse(emptyMessage, "No lists found")) else None
  }
}
