/**
 * The shared validation patterns: slugs, locales, three-language texts,
 * pagination with defaults, archive methods and the http(s)-only URL rule.
 * Each schema is a predicate on the input, or a parser into a typed value
 * that fails exactly when the schema rejects.
 */
module Validation {
  import opened Wrappers
  import opened SharedTypes
  import Strings

  const MaxSlugLength: nat := 200

  /** `slugSchema`: 1 to 200 characters, each in `[a-z0-9-]`. */
  predicate IsSlug(s: string)
    ensures IsSlug(s) ==> s != "" && forall j :: 0 <= j < |s| ==> s[j] != ' ' && s[j] != '/' && !Strings.IsUpperAscii(s[j])
  {
    1 <= |s| <= MaxSlugLength && forall j :: 0 <= j < |s| ==> IsSlugChar(s[j])
  }

  /** A sanitized slug of acceptable length passes the slug schema. */
  lemma {:induction false} SanitizedSlugIsValid(input: string)
    requires SanitizeSlug(input) != "" && |SanitizeSlug(input)| <= MaxSlugLength
    ensures IsSlug(SanitizeSlug(input))
  {
    var r := SanitizeSlug(input);
    SanitizeSlugChars(input);
    assert forall j :: 0 <= j < |r| ==> r[j] in r;
  }

  /** `localeSchema`: one of `ar`, `en`, `fr`. */
  function ParseLocale(s: string): (r: Option<Locale>)
    ensures r.Some? <==> s == "ar" || s == "en" || s == "fr"
    ensures r.Some? ==> LocaleName(r.value) == s
  {
    if s == "ar" then Some(Ar)
    else if s == "en" then Some(En)
    else if s == "fr" then Some(Fr)
    else None
  }

  function LocaleName(l: Locale): string {
    match l
    case Ar => "ar"
    case En => "en"
    case Fr => "fr"
  }

  /** Every locale's code parses back to it. */
  lemma {:induction false} LocaleRoundTrip(l: Locale)
    ensures ParseLocale(LocaleName(l)) == Some(l)
  {
  }

  /** `multilingualTextSchema`: all three texts present and non-empty. */
  predicate IsMultilingualText(t: Translation)
    ensures IsMultilingualText(t) <==> forall l: Locale :: Field(t, l) != ""
  {
    assert Field(t, Ar) == t.ar && Field(t, En) == t.en && Field(t, Fr) == t.fr;
    t.ar != "" && t.en != "" && t.fr != ""
  }

  /** A text that passes the schema is shown in the requested language, never a fallback. */
  lemma {:induction false} ValidTextNeedsNoFallback(t: Translation, l: Locale)
    requires IsMultilingualText(t)
    ensures GetLocalized(t, l) == Field(t, l) && GetLocalized(t, l) != ""
  {
  }

  /** What `z.coerce.number()` makes of a query value: absent, an integer, or anything else. */
  datatype NumberInput = Absent | Whole(n: int) | NotWhole

  /** The validated page request. */
  datatype Pagination = Pagination(page: int, pageSize: int)

  const DefaultPage: int := 1
  const DefaultPageSize: int := 20
  const MaxPageSize: int := 100

  /** `paginationSchema`: integer `page >= 1` defaulting to 1, integer `pageSize` in 1..100 defaulting to 20. */
  function ParsePagination(page: NumberInput, pageSize: NumberInput): (r: Option<Pagination>)
    ensures r.Some? ==> 1 <= r.value.page && 1 <= r.value.pageSize <= MaxPageSize
    ensures r.Some? <==> (page.Absent? || (page.Whole? && page.n >= 1))
                         && (pageSize.Absent? || (pageSize.Whole? && 1 <= pageSize.n <= MaxPageSize))
    ensures r.Some? ==> r.value.page == (if page.Absent? then DefaultPage else page.n)
    ensures r.Some? ==> r.value.pageSize == (if pageSize.Absent? then DefaultPageSize else pageSize.n)
  {
    var p := match page
      case Absent => Some(DefaultPage)
      case Whole(n) => if n >= 1 then Some(n) else None
      case NotWhole => None;
    var ps := match pageSize
      case Absent => Some(DefaultPageSize)
      case Whole(n) => if 1 <= n <= MaxPageSize then Some(n) else None
      case NotWhole => None;
    if p.Some? && ps.Some? then Some(Pagination(p.value, ps.value)) else None
  }

  /** An empty query string asks for the first page of twenty. */
  lemma {:induction false} PaginationDefaults()
    ensures ParsePagination(Absent, Absent) == Some(Pagination(1, 20))
  {
  }

  /** How a source was archived. */
  datatype ArchiveMethod = WAYBACK | PDF | SCREENSHOT | VIDEO_DOWNLOAD | MANUAL

  function ArchiveMethodName(m: ArchiveMethod): string {
    match m
    case WAYBACK => "WAYBACK"
    case PDF => "PDF"
    case SCREENSHOT => "SCREENSHOT"
    case VIDEO_DOWNLOAD => "VIDEO_DOWNLOAD"
    case MANUAL => "MANUAL"
  }

  /** `archiveMethodSchema`: exactly the five method names. */
  function ParseArchiveMethod(s: string): (r: Option<ArchiveMethod>)
    ensures r.Some? ==> ArchiveMethodName(r.value) == s
    ensures r.None? ==> s !in {"WAYBACK", "PDF", "SCREENSHOT", "VIDEO_DOWNLOAD", "MANUAL"}
  {
    if s == "WAYBACK" then Some(WAYBACK)
    else if s == "PDF" then Some(PDF)
    else if s == "SCREENSHOT" then Some(SCREENSHOT)
    else if s == "VIDEO_DOWNLOAD" then Some(VIDEO_DOWNLOAD)
    else if s == "MANUAL" then Some(MANUAL)
    else None
  }

  /** Every method's name parses back to it. */
  lemma {:induction false} ArchiveMethodRoundTrip(m: ArchiveMethod)
    ensures ParseArchiveMethod(ArchiveMethodName(m)) == Some(m)
  {
  }

  /**
   * `urlSchema`: a well-formed URL whose protocol is `http:` or `https:`.
   * `protocol` is what the URL parser reports, `None` when it rejects the text.
   */
  predicate IsWebUrl(protocol: Option<string>)
    ensures protocol.None? ==> !IsWebUrl(protocol)
    ensures IsWebUrl(protocol) ==> protocol.Some? && |protocol.value| >= 5 && protocol.value[..4] == "http" && protocol.value[|protocol.value| - 1] == ':'
  {
    protocol == Some("http:") || protocol == Some("https:")
  }
}
