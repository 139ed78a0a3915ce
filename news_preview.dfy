/**
 * The home page's news preview: the first three items, each with its age as
 * "just now" or whole minutes, hours or days, a style for its category, its
 * text in the page's language with English as the fallback, and a link that
 * stays as given when external and gets the locale prefix otherwise.
 *
 * The clock is a parameter: ages are computed from the difference `now -
 * timestamp` in milliseconds.
 */
module NewsPreview {
  import opened Wrappers
  import SharedTypes
  import Validation

  const MinuteMs := 60000
  const HourMs := 3600000
  const DayMs := 86400000

  /** The four buckets of `getTimeAgo`. */
  datatype Age = JustNow | MinutesAgo(minutes: int) | HoursAgo(hours: int) | DaysAgo(days: int)

  /**
   * `getTimeAgo` on a difference of `diffMs` milliseconds. Each count is the
   * floor of the difference over the unit, and a difference below a minute,
   * the negative ones of future timestamps included, is "just now".
   */
  function TimeAgo(diffMs: int): (r: Age)
    ensures r == JustNow <==> diffMs < MinuteMs
    ensures r.MinutesAgo? <==> MinuteMs <= diffMs < HourMs
    ensures r.HoursAgo? <==> HourMs <= diffMs < DayMs
    ensures r.DaysAgo? <==> DayMs <= diffMs
    ensures r.MinutesAgo? ==> 1 <= r.minutes < 60 && r.minutes * MinuteMs <= diffMs < (r.minutes + 1) * MinuteMs
    ensures r.HoursAgo? ==> 1 <= r.hours < 24 && r.hours * HourMs <= diffMs < (r.hours + 1) * HourMs
    ensures r.DaysAgo? ==> 1 <= r.days && r.days * DayMs <= diffMs < (r.days + 1) * DayMs
  {
    // Dafny's division by a positive divisor rounds down, as `Math.floor(a / b)` does
    var minutes, hours, days := diffMs / MinuteMs, diffMs / HourMs, diffMs / DayMs;
    if minutes < 1 then JustNow
    else if minutes < 60 then MinutesAgo(minutes)
    else if hours < 24 then HoursAgo(hours)
    else DaysAgo(days)
  }

  /** An older item never shows a younger age: the buckets are ordered by the difference. */
  function AgeRank(a: Age): nat {
    match a
    case JustNow => 0
    case MinutesAgo(_) => 1
    case HoursAgo(_) => 2
    case DaysAgo(_) => 3
  }

  lemma {:induction false} TimeAgoMonotone(d1: int, d2: int)
    requires d1 <= d2
    ensures AgeRank(TimeAgo(d1)) <= AgeRank(TimeAgo(d2))
    ensures TimeAgo(d1).MinutesAgo? && TimeAgo(d2).MinutesAgo? ==> TimeAgo(d1).minutes <= TimeAgo(d2).minutes
    ensures TimeAgo(d1).HoursAgo? && TimeAgo(d2).HoursAgo? ==> TimeAgo(d1).hours <= TimeAgo(d2).hours
    ensures TimeAgo(d1).DaysAgo? && TimeAgo(d2).DaysAgo? ==> TimeAgo(d1).days <= TimeAgo(d2).days
  {
  }

  /** `mockNewsItems.slice(0, 3)`. */
  function Latest<T>(items: seq<T>): (r: seq<T>)
    ensures |r| == if |items| < 3 then |items| else 3
    ensures r == items[..|r|]
  {
    if |items| < 3 then items else items[..3]
  }

  datatype CategoryStyle = Announcement | Update | Alert | General

  /** The four known categories have their own style; every other category gets the general one. */
  function CategoryStyleOf(category: string): (r: CategoryStyle)
    ensures r == General <==> category !in {"announcement", "update", "alert"}
  {
    if category == "announcement" then Announcement
    else if category == "update" then Update
    else if category == "alert" then Alert
    else General
  }

  /** `obj[locale] || obj.en`: the page's language, or English when that entry is empty. */
  function LocalizedText(t: SharedTypes.Translation, locale: SharedTypes.Locale): (r: string)
    ensures SharedTypes.Field(t, locale) != "" ==> r == SharedTypes.Field(t, locale)
    ensures SharedTypes.Field(t, locale) == "" ==> r == t.en
  {
    if SharedTypes.Field(t, locale) != "" then SharedTypes.Field(t, locale) else t.en
  }

  /** Unlike `getLocalized`, the preview never falls back to Arabic: an item without English shows nothing then. */
  lemma {:induction false} NoArabicFallback(t: SharedTypes.Translation, locale: SharedTypes.Locale)
    requires locale != SharedTypes.Ar && SharedTypes.Field(t, locale) == "" && t.en == "" && t.ar != ""
    ensures LocalizedText(t, locale) == "" && SharedTypes.GetLocalized(t, locale) == t.ar
  {
  }

  /** `s.startsWith(p)`. */
  predicate StartsWith(s: string, p: string) {
    |p| <= |s| && s[..|p|] == p
  }

  /** An item's link: its target and whether it opens in a new tab. */
  datatype Link = Link(href: string, newTab: bool)

  /** A link starting with "http" is used as is, in a new tab; any other is put under `/<locale>`. */
  function ItemLink(link: string, locale: SharedTypes.Locale): (r: Link)
    ensures r.newTab <==> StartsWith(link, "http")
    ensures r.newTab ==> r.href == link
    ensures !r.newTab ==> r.href == "/" + Validation.LocaleName(locale) + link
  {
    if StartsWith(link, "http") then Link(link, true)
    else Link("/" + Validation.LocaleName(locale) + link, false)
  }

  /** An internal link never starts with "http", so resolving it is stable once prefixed. */
  lemma {:induction false} InternalLinkLocal(link: string, locale: SharedTypes.Locale)
    requires !StartsWith(link, "http")
    ensures !ItemLink(link, locale).newTab
    ensures StartsWith(ItemLink(link, locale).href, "/")
    ensures !StartsWith(ItemLink(link, locale).href, "http")
  {
    var h := ItemLink(link, locale).href;
    assert h[0] == '/';
  }
}
