/**
 * The electoral-list page's filter panel: the search text and the chosen
 * district, each handler updating its field and handing both, with empty
 * strings left out, to the parent's `onFilterChange` (recorded here as the
 * sequence `emitted`).
 */
module ListFilters {
  import opened Wrappers
  import opened Strings
  import ListsList

  /** The filters handed to `onFilterChange`. */
  datatype ListQuery = ListQuery(search: Option<string>, districtId: Option<string>)

  /** Both fields, with an empty one left out. */
  function Emit(search: string, districtId: string): (q: ListQuery)
    ensures q.search.GetOr("") == search && q.districtId.GetOr("") == districtId
    ensures (IsSet(q.search) <==> search != "") && (IsSet(q.districtId) <==> districtId != "")
  {
    ListQuery(NonEmpty(search), NonEmpty(districtId))
  }

  /**
   * The list page hands the emitted filters to the list view with "" for a
   * missing one, so the view filters by exactly the panel's two fields.
   */
  lemma {:induction false} EmittedFiltersLists(lists: seq<ListsList.ElectoralList>, search: string, districtId: string)
    ensures var q := Emit(search, districtId);
            ListsList.FilterLists(lists, q.search.GetOr(""), q.districtId.GetOr("")) == ListsList.FilterLists(lists, search, districtId)
  {
  }

  /** `hasActiveFilters`: either field is non-empty. */
  predicate HasActiveFilters(search: string, districtId: string)
    ensures HasActiveFilters(search, districtId) <==> Emit(search, districtId) != ListQuery(None, None)
  {
    search != "" || districtId != ""
  }

  class Panel {
    var searchQuery: string
    var selectedDistrict: string
    /** Every value handed to `onFilterChange`, oldest first. */
    var emitted: seq<ListQuery>

    /** The parent's filters, once it has heard from the panel, are the panel's own fields. */
    ghost predicate InSync()
      reads this
    {
      if emitted == [] then searchQuery == "" && selectedDistrict == ""
      else emitted[|emitted| - 1] == Emit(searchQuery, selectedDistrict)
    }

    constructor ()
      ensures InSync()
      ensures searchQuery == "" && selectedDistrict == "" && emitted == []
    {
      searchQuery, selectedDistrict := "", "";
      emitted := [];
    }

    /** Typing in the search keeps the district. */
    method SearchChange(search: string)
      modifies this
      ensures InSync()
      ensures searchQuery == search && selectedDistrict == old(selectedDistrict)
      ensures emitted == old(emitted) + [Emit(search, old(selectedDistrict))]
    {
      searchQuery := search;
      emitted := emitted + [Emit(search, selectedDistrict)];
    }

    /** Choosing a district keeps the search. */
    method DistrictChange(districtId: string)
      modifies this
      ensures InSync()
      ensures selectedDistrict == districtId && searchQuery == old(searchQuery)
      ensures emitted == old(emitted) + [Emit(old(searchQuery), districtId)]
    {
      selectedDistrict := districtId;
      emitted := emitted + [Emit(searchQuery, districtId)];
    }

    /** "Clear" empties both fields and hands the parent no filters at all. */
    method ClearFilters()
      modifies this
      ensures InSync()
      ensures searchQuery == "" && selectedDistrict == ""
      ensures emitted == old(emitted) + [ListQuery(None, None)]
    {
      searchQuery, selectedDistrict := "", "";
      emitted := emitted + [ListQuery(None, None)];
    }
  }
}
