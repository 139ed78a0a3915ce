/**
 * Types and helpers shared by the front ends and the back end: the
 * three-language text record, the locale fallback of `getLocalized`, and
 * `sanitizeSlug`, the regular-expression pipeline that turns free text into a
 * URL slug.
 */
module SharedTypes {
  import Strings
  import Seqs

  /** The site's three languages. */
  datatype Locale = Ar | En | Fr

  /** A text in Arabic, English and French. */
  datatype Translation = Translation(ar: string, en: string, fr: string)

  /** `obj[locale]`. */
  function Field(t: Translation, l: Locale): string {
    match l
    case Ar => t.ar
    case En => t.en
    case Fr => t.fr
  }

  /**
   * `getLocalized`: the requested language when its text is non-empty, else
   * English, else Arabic, else the empty string.
   */
  function GetLocalized(t: Translation, l: Locale): (r: string)
    ensures Field(t, l) != "" ==> r == Field(t, l)
    ensures Field(t, l) == "" && t.en != "" ==> r == t.en
    ensures Field(t, l) == "" && t.en == "" ==> r == t.ar
    ensures r == "" <==> Field(t, l) == "" && t.en == "" && t.ar == ""
  {
    if Field(t, l) != "" then Field(t, l)
    else if t.en != "" then t.en
    else if t.ar != "" then t.ar
    else ""
  }

  /** French never serves as a fallback: with a French request it is the French text or the English/Arabic chain. */
  lemma {:induction false} FrenchIsNeverFallback(t: Translation, l: Locale)
    requires l != Fr && t.fr != ""
    ensures GetLocalized(t, l) == GetLocalized(t.(fr := ""), l)
  {
  }

  /** `\w`: ASCII letters and digits and the underscore. */
  predicate IsWordChar(c: char) {
    Strings.IsUpperAscii(c) || Strings.IsLowerAscii(c) || Strings.IsDigit(c) || c == '_'
  }

  /** The characters a slug may hold: `[a-z0-9-]`. */
  predicate IsSlugChar(c: char) {
    Strings.IsLowerAscii(c) || Strings.IsDigit(c) || c == '-'
  }

  /** What `/[^\w\s-]/g` leaves in place. */
  predicate IsKept(c: char) {
    IsWordChar(c) || Strings.IsJsSpace(c) || c == '-'
  }

  /** The characters `/[\s_]+/g` turns into a hyphen. */
  predicate IsGap(c: char) {
    Strings.IsJsSpace(c) || c == '_'
  }

  /** The input without its leading run of gap characters. */
  function SkipGaps(s: string): (r: string)
    ensures |r| <= |s| && r == s[|s| - |r|..]
    ensures r == [] || !IsGap(r[0])
    decreases |s|
  {
    if s != [] && IsGap(s[0]) then SkipGaps(s[1..]) else s
  }

  /** `.replace(/[\s_]+/g, "-")`: every maximal run of gap characters becomes one hyphen. */
  function HyphenateGaps(s: string): (r: string)
    ensures forall c :: c in r ==> (c in s && !IsGap(c)) || c == '-'
    ensures (forall j :: 0 <= j < |s| ==> !IsGap(s[j])) ==> r == s
    decreases |s|
  {
    if s == [] then []
    else if IsGap(s[0]) then
      var rest := SkipGaps(s[1..]);
      assert forall c :: c in rest ==> c in s;
      ['-'] + HyphenateGaps(rest)
    else
      assert forall c :: c in s[1..] ==> c in s;
      [s[0]] + HyphenateGaps(s[1..])
  }

  /** The input without its leading run of hyphens. */
  function DropLeadingHyphens(s: string): (r: string)
    ensures |r| <= |s| && forall c :: c in r ==> c in s
    ensures r == [] || r[0] != '-'
    ensures s == [] || s[0] != '-' ==> r == s
    decreases |s|
  {
    if s != [] && s[0] == '-' then DropLeadingHyphens(s[1..]) else s
  }

  /** The input without its trailing run of hyphens. */
  function DropTrailingHyphens(s: string): (r: string)
    ensures |r| <= |s| && forall c :: c in r ==> c in s
    ensures r != [] ==> r[0] == s[0]
    ensures r == [] || r[|r| - 1] != '-'
    ensures s == [] || s[|s| - 1] != '-' ==> r == s
    decreases |s|
  {
    if s != [] && s[|s| - 1] == '-' then DropTrailingHyphens(s[..|s| - 1]) else s
  }

  /** `.replace(/^-+|-+$/g, "")`. */
  function StripHyphens(s: string): (r: string)
    ensures forall c :: c in r ==> c in s
    ensures r == [] || (r[0] != '-' && r[|r| - 1] != '-')
    ensures s == [] || (s[0] != '-' && s[|s| - 1] != '-') ==> r == s
  {
    DropTrailingHyphens(DropLeadingHyphens(s))
  }

  /**
   * `sanitizeSlug`: lower-case, trim, drop special characters, hyphenate gaps,
   * strip end hyphens. The result neither starts nor ends with a hyphen.
   */
  function SanitizeSlug(input: string): (r: string)
    ensures r == [] || (r[0] != '-' && r[|r| - 1] != '-')
  {
    StripHyphens(Hyphenated(input))
  }

  /** The stages before the end hyphens are stripped. */
  function Hyphenated(input: string): string {
    HyphenateGaps(Seqs.Filter(Strings.Trim(Strings.Lower(input)), IsKept))
  }

  /** Every character of a sanitized slug is a lower-case ASCII letter, a digit or a hyphen. */
  lemma {:induction false} SanitizeSlugChars(input: string)
    ensures forall c :: c in SanitizeSlug(input) ==> IsSlugChar(c)
  {
    forall c | c in SanitizeSlug(input) ensures IsSlugChar(c) {
      HyphenatedChar(input, c);
    }
  }

  /** Before the ends are stripped, every character is already a slug character. */
  lemma {:induction false} HyphenatedChar(input: string, c: char)
    requires c in Hyphenated(input)
    ensures IsSlugChar(c)
  {
    var lowered := Strings.Lower(input);
    var trimmed := Strings.Trim(lowered);
    if c != '-' {
      assert c in Seqs.Filter(trimmed, IsKept) && !IsGap(c);
      Seqs.FilterMembers(trimmed, IsKept, c);
      TrimmedCharsOf(lowered, c);
      LoweredHasNoUpper(input, c);
    }
  }

  /** Lower-casing leaves no upper-case ASCII letter. */
  lemma {:induction false} LoweredHasNoUpper(s: string, c: char)
    requires c in Strings.Lower(s)
    ensures !Strings.IsUpperAscii(c)
  {
    var i :| 0 <= i < |Strings.Lower(s)| && Strings.Lower(s)[i] == c;
  }

  /** Trimming only removes characters. */
  lemma {:induction false} TrimmedCharsOf(s: string, c: char)
    requires c in Strings.Trim(s)
    ensures c in s
  {
    var t := Strings.TrimStart(s);
    assert c in Strings.TrimEnd(t);
    assert c in t;
  }

  /** A string of slug characters without end hyphens is its own sanitized slug. */
  lemma {:induction false} SanitizeSlugFixes(r: string)
    requires forall j :: 0 <= j < |r| ==> IsSlugChar(r[j])
    requires r == [] || (r[0] != '-' && r[|r| - 1] != '-')
    ensures SanitizeSlug(r) == r
  {
    HyphenatedFixes(r);
    assert StripHyphens(r) == r;
  }

  /** Slug characters pass every stage before the end hyphens unchanged. */
  lemma {:induction false} HyphenatedFixes(r: string)
    requires forall j :: 0 <= j < |r| ==> IsSlugChar(r[j])
    ensures Hyphenated(r) == r
  {
    SlugCharsLowerTrimmed(r);
    assert Strings.Trim(Strings.Lower(r)) == r;
    Seqs.FilterKeepsAll(r, IsKept);
    SlugCharsNoGaps(r);
  }

  /** Slug characters are already lower case and hold no white space. */
  lemma {:induction false} SlugCharsLowerTrimmed(r: string)
    requires forall j :: 0 <= j < |r| ==> IsSlugChar(r[j])
    ensures Strings.Lower(r) == r && Strings.Trim(r) == r
    ensures forall j :: 0 <= j < |r| ==> IsKept(r[j])
  {
    forall j | 0 <= j < |r|
      ensures Strings.Lower(r)[j] == r[j] && !Strings.IsJsSpace(r[j]) && IsKept(r[j])
    {
      SlugCharPlain(r[j]);
    }
    assert Strings.Lower(r) == r;
  }

  /** A slug character is its own lower case, no white space, and kept by the filter. */
  lemma {:induction false} SlugCharPlain(c: char)
    requires IsSlugChar(c)
    ensures Strings.LowerChar(c) == c && !Strings.IsJsSpace(c) && IsKept(c)
  {
  }

  /** Slug characters hold no gap, so hyphenation leaves them alone. */
  lemma {:induction false} SlugCharsNoGaps(r: string)
    requires forall j :: 0 <= j < |r| ==> IsSlugChar(r[j])
    ensures HyphenateGaps(r) == r
  {
    assert forall j :: 0 <= j < |r| ==> !IsGap(r[j]);
  }

  /** Sanitizing a sanitized slug changes nothing. */
  lemma {:induction false} SanitizeSlugIdempotent(input: string)
    ensures SanitizeSlug(SanitizeSlug(input)) == SanitizeSlug(input)
  {
    var r := SanitizeSlug(input);
    SanitizeSlugChars(input);
    assert forall j :: 0 <= j < |r| ==> r[j] in r;
    SanitizeSlugFixes(r);
  }

  /** A special character vanishes without a trace: its neighbours close up. */
  lemma {:induction false} SpecialCharacterDropped(a: string, c: char, b: string)
    requires !IsKept(c)
    ensures Seqs.Filter(a + [c] + b, IsKept) == Seqs.Filter(a, IsKept) + Seqs.Filter(b, IsKept)
  {
    Seqs.FilterAppend(a + [c], b, IsKept);
    Seqs.FilterAppend(a, [c], IsKept);
    assert [c][1..] == [];
    assert Seqs.Filter([c], IsKept) == [] + Seqs.Filter([c][1..], IsKept);
  }

  /** Skipping a run of gaps lands on what follows it. */
  lemma {:induction false} SkipGapsRun(g: string, rest: string)
    requires forall j :: 0 <= j < |g| ==> IsGap(g[j])
    requires rest == [] || !IsGap(rest[0])
    ensures SkipGaps(g + rest) == rest
    decreases |g|
  {
    if g != [] {
      assert (g + rest)[1..] == g[1..] + rest;
      SkipGapsRun(g[1..], rest);
    } else {
      assert g + rest == rest;
    }
  }

  /** A whole run of white space and underscores becomes one hyphen. */
  lemma {:induction false} GapRunBecomesOneHyphen(g: string, rest: string)
    requires g != [] && forall j :: 0 <= j < |g| ==> IsGap(g[j])
    requires rest == [] || !IsGap(rest[0])
    ensures HyphenateGaps(g + rest) == "-" + HyphenateGaps(rest)
  {
    assert (g + rest)[0] == g[0];
    assert (g + rest)[1..] == g[1..] + rest;
    SkipGapsRun(g[1..], rest);
  }

  /** A hyphen already present is kept as it is, next to any hyphen a gap turns into. */
  lemma {:induction false} HyphenKept(rest: string)
    ensures HyphenateGaps("-" + rest) == "-" + HyphenateGaps(rest)
  {
    assert ("-" + rest)[0] == '-' && ("-" + rest)[1..] == rest;
  }
}
