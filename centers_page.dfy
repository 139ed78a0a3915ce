/**
 * The electoral-centres page: a district select whose choice filters the
 * centres handed to the map, a button that asks the browser for the user's
 * position, and a line counting the centres shown.
 *
 * The browser's geolocation service is outside the model: whether it exists
 * is a parameter of the request, and its answer arrives through the two
 * callbacks `LocationFound` and `LocationFailed`.
 */
module CentersPage {
  import opened Wrappers
  import opened Strings
  import Seqs
  import SharedTypes
  import CustomSelect
  import DistrictsList
  import CandidatesGrid

  /** A centre and the district it belongs to. */
  datatype Center = Center(id: string, name: string, district: CandidatesGrid.Ref)

  predicate InDistrict(c: Center, districtId: string) {
    c.district.id == districtId
  }

  /** `filteredCenters`: every centre when no district is chosen, else the chosen district's. */
  function FilterCenters(centers: seq<Center>, selectedDistrictId: string): (r: seq<Center>)
    ensures |r| <= |centers|
    ensures selectedDistrictId == "" ==> r == centers
  {
    if selectedDistrictId != "" then Seqs.Filter(centers, c => InDistrict(c, selectedDistrictId)) else centers
  }

  /** A centre is shown iff it is in the input and, when a district is chosen, lies in it. */
  lemma {:induction false} FilterCentersMembers(centers: seq<Center>, selectedDistrictId: string, c: Center)
    ensures c in FilterCenters(centers, selectedDistrictId) <==>
      c in centers && (selectedDistrictId != "" ==> InDistrict(c, selectedDistrictId))
  {
    Seqs.FilterMembers(centers, c => InDistrict(c, selectedDistrictId), c);
  }

  /** The shown centres keep their input order. */
  lemma {:induction false} FilterCentersOrdered(centers: seq<Center>, selectedDistrictId: string)
    ensures Seqs.IsSubsequence(FilterCenters(centers, selectedDistrictId), centers)
  {
    Seqs.MaybeFilterIsSubsequence(centers, selectedDistrictId != "", c => InDistrict(c, selectedDistrictId));
  }

  /** `getContent(en, ar, fr)`: the Arabic text for Arabic, the French for French, else the English. */
  function GetContent(en: string, ar: string, fr: string, locale: SharedTypes.Locale): (r: string)
    ensures locale == SharedTypes.Ar ==> r == ar
    ensures locale == SharedTypes.Fr ==> r == fr
    ensures locale == SharedTypes.En ==> r == en
  {
    if locale == SharedTypes.Ar then ar else if locale == SharedTypes.Fr then fr else en
  }

  /**
   * `getContent` is the translation's entry for the locale, with no fallback:
   * where `getLocalized` would fall back to English for an empty entry,
   * `getContent` shows the empty entry.
   */
  lemma {:induction false} GetContentIsEntry(en: string, ar: string, fr: string, locale: SharedTypes.Locale)
    ensures GetContent(en, ar, fr, locale) == SharedTypes.Field(SharedTypes.Translation(ar, en, fr), locale)
    ensures locale == SharedTypes.Fr && fr == "" && en != "" ==>
      GetContent(en, ar, fr, locale) == "" != SharedTypes.GetLocalized(SharedTypes.Translation(ar, en, fr), locale)
  {
  }

  /** A district's three names as one translation. */
  function DistrictName(d: DistrictsList.District): SharedTypes.Translation {
    SharedTypes.Translation(d.nameAr, d.nameEn, d.nameFr)
  }

  /** The label of the first option, which stands for every district. */
  function AllDistrictsLabel(locale: SharedTypes.Locale): (r: string)
    ensures r != ""
  {
    GetContent("All Districts", "جميع الدوائر", "Toutes les circonscriptions", locale)
  }

  /**
   * `districtOptions`: the "all districts" entry with the empty value, then
   * one entry per district, in input order, valued by its id and labelled by
   * its localized name.
   */
  function DistrictOptions(districts: seq<DistrictsList.District>, locale: SharedTypes.Locale): (r: seq<CustomSelect.SelectOption>)
    ensures |r| == |districts| + 1
    ensures r[0] == CustomSelect.SelectOption("", AllDistrictsLabel(locale))
    ensures forall i :: 0 <= i < |districts| ==>
      r[i + 1].value == districts[i].id && r[i + 1].text == SharedTypes.GetLocalized(DistrictName(districts[i]), locale)
  {
    [CustomSelect.SelectOption("", AllDistrictsLabel(locale))]
      + seq(|districts|, i requires 0 <= i < |districts| =>
          CustomSelect.SelectOption(districts[i].id, SharedTypes.GetLocalized(DistrictName(districts[i]), locale)))
  }

  /** With no district chosen, the select shows "All Districts" (in the page's language), not its placeholder. */
  lemma {:induction false} NoChoiceShowsAllDistricts(districts: seq<DistrictsList.District>, locale: SharedTypes.Locale, placeholder: string)
    ensures CustomSelect.DisplayLabel(DistrictOptions(districts, locale), "", placeholder) == AllDistrictsLabel(locale)
  {
    CustomSelect.DisplayLabelOfSelected(DistrictOptions(districts, locale), "", placeholder, 0);
  }

  /** Choosing a district's option (with a non-empty id) narrows the map to that district's centres. */
  lemma {:induction false} ChosenOptionFilters(districts: seq<DistrictsList.District>, locale: SharedTypes.Locale, centers: seq<Center>, i: int, c: Center)
    requires 0 <= i < |districts| && districts[i].id != ""
    ensures c in FilterCenters(centers, DistrictOptions(districts, locale)[i + 1].value) <==>
      c in centers && c.district.id == districts[i].id
  {
    FilterCentersMembers(centers, districts[i].id, c);
  }

  /**
   * The line under the map. English and French add "s" to "center"/"centre"
   * unless exactly one centre is shown; the Arabic form does not change.
   */
  function CountLabel(shown: nat, locale: SharedTypes.Locale): (r: string)
    ensures |r| >= 1
  {
    var n := NatToString(shown);
    var plural := if shown != 1 then "s" else "";
    GetContent("Showing " + n + " center" + plural, "عرض " + n + " مركز", "Affichage de " + n + " centre" + plural, locale)
  }

  /** In English and French the label ends in "s" exactly when the count is not one; in Arabic it never does. */
  lemma {:induction false} CountLabelSingularIffOne(shown: nat, locale: SharedTypes.Locale)
    ensures var r := CountLabel(shown, locale);
      (locale != SharedTypes.Ar ==> (r[|r| - 1] == 's' <==> shown != 1))
      && (locale == SharedTypes.Ar ==> r[|r| - 1] == 'ز')
  {
  }

  /** The ways a position request fails, as the geolocation service reports them. */
  datatype FailureCode = PermissionDenied | PositionUnavailable | Timeout | OtherFailure

  /** A position: latitude and longitude in degrees. */
  datatype Position = Position(lat: real, lng: real)

  /** The error the panel shows: no geolocation service, or a failed request and its code. */
  datatype LocationMessage = Unsupported | Failed(code: FailureCode)

  /** The text of each message in the page's language. */
  function MessageText(m: LocationMessage, locale: SharedTypes.Locale): string {
    match m
    case Unsupported => GetContent("Geolocation is not supported by your browser", "الموقع الجغرافي غير مدعوم في متصفحك",
      "La géolocalisation n'est pas prise en charge par votre navigateur", locale)
    case Failed(PermissionDenied) => GetContent(
      "Location access denied. Please click the lock icon in the address bar, allow location access, then try again.",
      "تم رفض طلب الموقع. يرجى النقر على أيقونة القفل في شريط العنوان والسماح بالوصول إلى الموقع، ثم إعادة المحاولة.",
      "Accès à la position refusé. Veuillez cliquer sur l'icône de cadenas dans la barre d'adresse, autoriser l'accès à la position, puis réessayer.",
      locale)
    case Failed(PositionUnavailable) => GetContent("Location information unavailable", "معلومات الموقع غير متاحة",
      "Les informations de position ne sont pas disponibles", locale)
    case Failed(Timeout) => GetContent("Location request timed out. Please try again.", "انتهت مهلة طلب الموقع. يرجى المحاولة مرة أخرى.",
      "La demande de position a expiré. Veuillez réessayer.", locale)
    case Failed(OtherFailure) => GetContent("Failed to get your location", "فشل في الحصول على موقعك",
      "Échec de l'obtention de votre position", locale)
  }

  /** The location part of the page: the request in flight, the position found and the error shown. */
  class LocationPanel {
    const locale: SharedTypes.Locale
    var isLoadingLocation: bool
    var userLocation: Option<Position>
    var locationError: Option<LocationMessage>

    /** No error is shown while a request is in flight. */
    ghost predicate Valid()
      reads this
    {
      isLoadingLocation ==> locationError.None?
    }

    constructor (locale: SharedTypes.Locale)
      ensures Valid() && this.locale == locale
      ensures !isLoadingLocation && userLocation.None? && locationError.None?
    {
      this.locale := locale;
      isLoadingLocation := false;
      userLocation := None;
      locationError := None;
    }

    /** The button is disabled while a request or the position's transition is pending. */
    predicate ButtonDisabled(isPending: bool)
      reads this
    {
      isLoadingLocation || isPending
    }

    /**
     * `handleGetLocation`: ignored while a request is in flight; without a
     * geolocation service, only the "not supported" error is set; otherwise a
     * request starts and any earlier error is cleared. The position already
     * found stays until the answer arrives.
     */
    method RequestLocation(supported: bool)
      requires Valid()
      modifies this
      ensures Valid()
      ensures userLocation == old(userLocation)
      ensures old(isLoadingLocation) ==> isLoadingLocation && locationError == old(locationError)
      ensures !old(isLoadingLocation) && !supported ==> !isLoadingLocation && locationError == Some(Unsupported)
      ensures !old(isLoadingLocation) && supported ==> isLoadingLocation && locationError.None?
    {
      if isLoadingLocation {
        return;
      }
      if !supported {
        locationError := Some(Unsupported);
        return;
      }
      isLoadingLocation := true;
      locationError := None;
    }

    /** The success callback: the position is recorded, the request ends, no error is shown. */
    method LocationFound(p: Position)
      modifies this
      ensures Valid()
      ensures userLocation == Some(p) && !isLoadingLocation && locationError.None?
    {
      userLocation := Some(p);
      isLoadingLocation := false;
      locationError := None;
    }

    /** The failure callback: the request ends with the code's message; an earlier position stays. */
    method LocationFailed(code: FailureCode)
      modifies this
      ensures Valid()
      ensures !isLoadingLocation && locationError == Some(Failed(code))
      ensures userLocation == old(userLocation)
    {
      isLoadingLocation := false;
      locationError := Some(Failed(code));
    }

    /** "Clear": forget the position and the error; a request in flight goes on. */
    method ClearLocation()
      requires Valid()
      modifies this
      ensures Valid()
      ensures userLocation.None? && locationError.None? && isLoadingLocation == old(isLoadingLocation)
    {
      userLocation := None;
      locationError := None;
    }
  }
}
