/**
 * The district list's search: districts whose lowered Arabic, English or
 * French name, or whose election year in decimal, contains the lowered query;
 * and the notice shown when nothing is left.
 */
module DistrictsList {
  import opened Wrappers
  import opened Strings
  import Seqs

  /** The fields of a district the search reads; `year` is the year of its electoral cycle, if loaded. */
  datatype District = District(id: string, nameAr: string, nameEn: string, nameFr: string, year: Option<int>)

  /** The year as the search sees it: its decimal digits, or the empty string when missing. */
  function YearText(d: District): (r: string)
    ensures d.year.None? <==> r == ""
  {
    if d.year.Some? then IntToString(d.year.value) else ""
  }

  /** `needle` (already lowered) occurs in one of the lowered names or in the year. */
  predicate DistrictMatches(d: District, needle: string) {
    Contains(Lower(d.nameAr), needle) || Contains(Lower(d.nameEn), needle) || Contains(Lower(d.nameFr), needle)
    || Contains(YearText(d), needle)
  }

  /** `filteredDistricts`: all districts for an empty query, otherwise those that match its lowered form. */
  function FilterDistricts(districts: seq<District>, query: string): (r: seq<District>)
    ensures |r| <= |districts|
    ensures query == "" ==> r == districts
  {
    if query == "" then districts
    else Seqs.Filter(districts, d => DistrictMatches(d, Lower(query)))
  }

  /** A district is shown iff it is in the input and, for a non-empty query, matches it. */
  lemma {:induction false} FilterDistrictsMembers(districts: seq<District>, query: string, d: District)
    ensures d in FilterDistricts(districts, query) <==> d in districts && (query == "" || DistrictMatches(d, Lower(query)))
  {
    if query != "" {
      Seqs.FilterMembers(districts, d => DistrictMatches(d, Lower(query)), d);
    }
  }

  /** The shown districts keep their input order. */
  lemma {:induction false} FilterDistrictsOrdered(districts: seq<District>, query: string)
    ensures Seqs.IsSubsequence(FilterDistricts(districts, query), districts)
  {
    Seqs.MaybeFilterIsSubsequence(districts, query != "", d => DistrictMatches(d, Lower(query)));
  }

  /** A match for a longer needle is a match for each of its prefixes. */
  lemma {:induction false} MatchesPrefix(d: District, needle: string, more: string)
    requires DistrictMatches(d, needle + more)
    ensures DistrictMatches(d, needle)
  {
    if Contains(Lower(d.nameAr), needle + more) {
      ContainsPrefixOf(Lower(d.nameAr), needle, more);
    } else if Contains(Lower(d.nameEn), needle + more) {
      ContainsPrefixOf(Lower(d.nameEn), needle, more);
    } else if Contains(Lower(d.nameFr), needle + more) {
      ContainsPrefixOf(Lower(d.nameFr), needle, more);
    } else {
      ContainsPrefixOf(YearText(d), needle, more);
    }
  }

  /**
   * Typing more characters never brings a district back: the districts shown
   * for `query + more` are a subsequence of those shown for `query`.
   */
  lemma {:induction false} NarrowingQueryNarrowsResult(districts: seq<District>, query: string, more: string)
    ensures Seqs.IsSubsequence(FilterDistricts(districts, query + more), FilterDistricts(districts, query))
  {
    if query == "" {
      assert query + more == more;
      FilterDistrictsOrdered(districts, more);
    } else {
      LowerAppend(query, more);
      forall d | DistrictMatches(d, Lower(query + more)) ensures DistrictMatches(d, Lower(query)) {
        MatchesPrefix(d, Lower(query), Lower(more));
      }
      Seqs.FilterStricter(districts, d => DistrictMatches(d, Lower(query)), d => DistrictMatches(d, Lower(query + more)));
    }
  }

  /**
   * The notice under an empty result: the caller's message when it is set,
   * else "No districts found"; nothing while a district is shown.
   */
  function EmptyNotice(shown: seq<District>, emptyMessage: Option<string>): (r: Option<string>)
    ensures r.Some? <==> shown == []
    ensures r.Some? ==> r.value != ""
    ensures r.Some? && IsSet(emptyMessage) ==> r.value == emptyMessage.value
    ensures r.Some? && !IsSet(emptyMessage) ==> r.value == "No districts found"
  {
    if shown == [] then Some(OrElse(emptyMessage, "No districts found")) else None
  }
}
