/**
 * The candidate page's filter panel: the chosen district, the chosen electoral
 * list and the search text, each handler updating its field and handing the
 * three, with empty strings left out, to the parent's `onFilterChange`
 * (recorded here as the sequence `emitted`). The list select offers only the
 * lists of the chosen district.
 */
module CandidateFilters {
  import opened Wrappers
  import opened Strings
  import Seqs
  import SharedTypes
  import CandidatesGrid
  import CustomSelect

  /**
   * A list as the panel receives it: it may carry its district's id directly,
   * its district record, or both.
   */
  datatype PanelList = PanelList(id: string, name: SharedTypes.Translation, districtId: Option<string>, district: Option<CandidatesGrid.Ref>)

  /** `list.districtId === districtId || list.district?.id === districtId`. */
  predicate InDistrict(l: PanelList, districtId: string) {
    (l.districtId.Some? && l.districtId.value == districtId) || (l.district.Some? && l.district.value.id == districtId)
  }

  /** `filteredLists`: every list while no district is chosen, else the lists of that district. */
  function FilteredLists(lists: seq<PanelList>, selectedDistrict: string): (r: seq<PanelList>)
    ensures |r| <= |lists|
    ensures selectedDistrict == "" ==> r == lists
  {
    if selectedDistrict == "" then lists else Seqs.Filter(lists, l => InDistrict(l, selectedDistrict))
  }

  /** A list is offered iff it is one of the lists and, once a district is chosen, lies in it. */
  lemma {:induction false} FilteredListsMembers(lists: seq<PanelList>, selectedDistrict: string, l: PanelList)
    ensures l in FilteredLists(lists, selectedDistrict) <==> l in lists && (selectedDistrict != "" ==> InDistrict(l, selectedDistrict))
  {
    if selectedDistrict != "" {
      Seqs.FilterMembers(lists, l => InDistrict(l, selectedDistrict), l);
    }
  }

  /** The list select's options: "All Lists" with the empty value, then one option per offered list, in order. */
  function ListOptions(lists: seq<PanelList>, selectedDistrict: string, locale: SharedTypes.Locale): (r: seq<CustomSelect.SelectOption>)
    ensures var offered := FilteredLists(lists, selectedDistrict);
            |r| == |offered| + 1 && r[0].value == ""
            && forall i :: 0 <= i < |offered| ==> r[i + 1].value == offered[i].id
  {
    var offered := FilteredLists(lists, selectedDistrict);
    [CustomSelect.SelectOption("", SharedTypes.Field(SharedTypes.Translation("جميع اللوائح", "All Lists", "Toutes les listes"), locale))]
    + seq(|offered|, i requires 0 <= i < |offered| => CustomSelect.SelectOption(offered[i].id, SharedTypes.GetLocalized(offered[i].name, locale)))
  }

  /** Once a district is chosen, every list option but "All Lists" names a list of that district. */
  lemma {:induction false} ListOptionsInDistrict(lists: seq<PanelList>, selectedDistrict: string, locale: SharedTypes.Locale, i: int)
    requires selectedDistrict != ""
    requires 1 <= i < |ListOptions(lists, selectedDistrict, locale)|
    ensures exists l :: l in lists && InDistrict(l, selectedDistrict) && l.id == ListOptions(lists, selectedDistrict, locale)[i].value
  {
    var offered := FilteredLists(lists, selectedDistrict);
    var l := offered[i - 1];
    FilteredListsMembers(lists, selectedDistrict, l);
  }

  /** The filters handed to `onFilterChange`: each field, with an empty one left out. */
  function Emit(districtId: string, listId: string, search: string): (q: CandidatesGrid.Query)
    ensures q.districtId.GetOr("") == districtId && q.listId.GetOr("") == listId && q.search.GetOr("") == search
    ensures (IsSet(q.districtId) <==> districtId != "") && (IsSet(q.listId) <==> listId != "") && (IsSet(q.search) <==> search != "")
  {
    CandidatesGrid.Query(NonEmpty(districtId), NonEmpty(listId), NonEmpty(search))
  }

  /** The grid filters by exactly the fields the panel holds: what it shows is `Keeps` of the non-empty ones. */
  lemma {:induction false} EmittedFiltersGrid(districtId: string, listId: string, search: string, c: CandidatesGrid.Candidate)
    ensures CandidatesGrid.Keeps(Emit(districtId, listId, search), c) <==>
      (districtId != "" ==> CandidatesGrid.InDistrict(c, districtId))
      && (listId != "" ==> CandidatesGrid.OnList(c, listId))
      && (search != "" ==> CandidatesGrid.MatchesSearch(c, Lower(search)))
  {
    var q := Emit(districtId, listId, search);
    assert IsSet(q.districtId) ==> q.districtId.value == districtId;
    assert IsSet(q.listId) ==> q.listId.value == listId;
    assert IsSet(q.search) ==> q.search.value == search;
  }

  /** `hasActiveFilters`: some field is non-empty. */
  predicate HasActiveFilters(districtId: string, listId: string, search: string) {
    districtId != "" || listId != "" || search != ""
  }

  /** "Clear all" is shown exactly when the parent is filtering by something. */
  lemma {:induction false} ActiveIffFiltering(districtId: string, listId: string, search: string)
    ensures var q := Emit(districtId, listId, search);
            HasActiveFilters(districtId, listId, search) <==> IsSet(q.districtId) || IsSet(q.listId) || IsSet(q.search)
  {
  }

  /** The list select is disabled while no district is chosen, unless there are no districts at all. */
  predicate ListSelectDisabled(selectedDistrict: string, districtCount: nat) {
    selectedDistrict == "" && districtCount > 0
  }

  class Panel {
    var selectedDistrict: string
    var selectedList: string
    var searchQuery: string
    /** Every value handed to `onFilterChange`, oldest first. */
    var emitted: seq<CandidatesGrid.Query>

    /** The parent's filters, once it has heard from the panel, are the panel's own fields. */
    ghost predicate InSync()
      reads this
    {
      if emitted == [] then selectedDistrict == "" && selectedList == "" && searchQuery == ""
      else emitted[|emitted| - 1] == Emit(selectedDistrict, selectedList, searchQuery)
    }

    constructor ()
      ensures InSync()
      ensures selectedDistrict == "" && selectedList == "" && searchQuery == "" && emitted == []
    {
      selectedDistrict, selectedList, searchQuery := "", "", "";
      emitted := [];
    }

    /** Choosing a district clears the chosen list; the search is kept. */
    method DistrictChange(districtId: string)
      modifies this
      ensures InSync()
      ensures selectedDistrict == districtId && selectedList == "" && searchQuery == old(searchQuery)
      ensures emitted == old(emitted) + [Emit(districtId, "", old(searchQuery))]
    {
      selectedDistrict := districtId;
      selectedList := "";
      emitted := emitted + [Emit(districtId, "", searchQuery)];
    }

    /** Choosing a list keeps the district and the search. */
    method ListChange(listId: string)
      modifies this
      ensures InSync()
      ensures selectedList == listId && selectedDistrict == old(selectedDistrict) && searchQuery == old(searchQuery)
      ensures emitted == old(emitted) + [Emit(old(selectedDistrict), listId, old(searchQuery))]
    {
      selectedList := listId;
      emitted := emitted + [Emit(selectedDistrict, listId, searchQuery)];
    }

    /** Typing in the search keeps the district and the list. */
    method SearchChange(search: string)
      modifies this
      ensures InSync()
      ensures searchQuery == search && selectedDistrict == old(selectedDistrict) && selectedList == old(selectedList)
      ensures emitted == old(emitted) + [Emit(old(selectedDistrict), old(selectedList), search)]
    {
      searchQuery := search;
      emitted := emitted + [Emit(selectedDistrict, selectedList, search)];
    }

    /** "Clear all" empties every field and hands the parent no filters at all. */
    method ClearFilters()
      modifies this
      ensures InSync()
      ensures selectedDistrict == "" && selectedList == "" && searchQuery == ""
      ensures emitted == old(emitted) + [CandidatesGrid.Query(None, None, None)]
    {
      selectedDistrict, selectedList, searchQuery := "", "", "";
      emitted := emitted + [CandidatesGrid.Query(None, None, None)];
    }
  }
}
