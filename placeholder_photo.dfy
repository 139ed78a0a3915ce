/**
 * The placeholder shown for a candidate without a photo, derived from a seed
 * (the candidate's id or slug): a hue computed from a 32-bit string hash, the
 * initials of the seed's first two words, and the style's choice between a
 * coloured disc, the initials and a grey silhouette.
 *
 * The hash is JavaScript's: `<<` reduces its left operand to a signed 32-bit
 * integer and wraps the shifted result the same way; the running value itself
 * is a double, which stays an exact integer for any realistic seed (see
 * `HashExact`), so it is modelled as an unbounded integer.
 */
module PlaceholderPhoto {
  import opened Strings

  const TwoTo31 := 0x8000_0000
  const TwoTo32 := 0x1_0000_0000

  /** ECMAScript's ToInt32 on an integer: the value modulo 2^32, taken into [-2^31, 2^31). */
  function ToInt32(x: int): (r: int)
    ensures -TwoTo31 <= r < TwoTo31
    ensures -TwoTo31 <= x < TwoTo31 ==> r == x
    ensures (x - r) % TwoTo32 == 0
  {
    var m := x % TwoTo32;
    if m >= TwoTo31 then m - TwoTo32 else m
  }

  /** `acc << 5`: the 32-bit form of `acc`, times 32, wrapped back into 32 bits. */
  function ShiftLeft5(acc: int): (r: int)
    ensures -TwoTo31 <= r < TwoTo31
  {
    ToInt32(ToInt32(acc) * 32)
  }

  /** One step of the fold: `char.charCodeAt(0) + ((acc << 5) - acc)`. */
  function HashStep(acc: int, c: char): int {
    c as int + (ShiftLeft5(acc) - acc)
  }

  /** `seed.split("").reduce(step, 0)`: the fold from 0 over the characters, left to right. */
  function Hash(seed: string): int
    decreases |seed|
  {
    if seed == [] then 0 else HashStep(Hash(seed[..|seed| - 1]), seed[|seed| - 1])
  }

  /** A character's code is below 0x110000. */
  const CodeLimit := 0x11_0000

  /** Each step adds at most 2^31 plus a character code to the size of the running value. */
  lemma {:induction false} HashBound(seed: string)
    ensures -|seed| * (TwoTo31 + CodeLimit) <= Hash(seed) <= |seed| * (TwoTo31 + CodeLimit)
    decreases |seed|
  {
    if seed != [] {
      var prefix := seed[..|seed| - 1];
      HashBound(prefix);
      assert |seed| * (TwoTo31 + CodeLimit) == |prefix| * (TwoTo31 + CodeLimit) + (TwoTo31 + CodeLimit);
    }
  }

  /**
   * For seeds up to four million characters the running value stays below
   * 2^53, where doubles hold integers exactly: the unbounded fold is the one
   * JavaScript computes.
   */
  lemma {:induction false} HashExact(seed: string)
    requires |seed| <= 4_000_000
    ensures -0x20_0000_0000_0000 < Hash(seed) < 0x20_0000_0000_0000
  {
    HashBound(seed);
    assert |seed| * (TwoTo31 + CodeLimit) <= 4_000_000 * (TwoTo31 + CodeLimit);
  }

  /** JavaScript's `%`: the remainder takes the sign of the dividend. */
  function JsRem(a: int, b: int): (r: int)
    requires b > 0
    ensures -b < r < b
    ensures a >= 0 ==> r == a % b
    ensures a < 0 ==> r <= 0 && -r == (-a) % b
  {
    if a >= 0 then a % b else -((-a) % b)
  }

  /** `Math.abs(hash % 360)`. */
  function Hue(seed: string): (h: int)
    ensures 0 <= h < 360
    ensures Hash(seed) >= 0 ==> h == Hash(seed) % 360
    ensures Hash(seed) < 0 ==> h == (-Hash(seed)) % 360
  {
    var r := JsRem(Hash(seed), 360);
    if r < 0 then -r else r
  }

  /** Two worked seeds: "a" hashes to 97, and "ab" to 98 + 97 * 31 = 3105, whose hue is 225. */
  lemma {:induction false} HueExamples()
    ensures Hash("a") == 97 && Hue("a") == 97
    ensures Hash("ab") == 3105 && Hue("ab") == 225
  {
    assert "a"[..0] == [];
    assert "ab"[..1] == "a";
  }

  /** The characters `/[-_\s]/` matches. */
  const Separators: set<char> := {'-', '_', ' ', '\t', '\n', '\r', '\U{000B}', '\U{000C}', '\U{00A0}', '\U{1680}',
    '\U{2000}', '\U{2001}', '\U{2002}', '\U{2003}', '\U{2004}', '\U{2005}', '\U{2006}', '\U{2007}', '\U{2008}',
    '\U{2009}', '\U{200A}', '\U{2028}', '\U{2029}', '\U{202F}', '\U{205F}', '\U{3000}', '\U{FEFF}'}

  /** The separator set is exactly `-`, `_` and JavaScript's white space. */
  lemma {:induction false} SeparatorsAreDashUnderscoreSpace(c: char)
    ensures c in Separators <==> c == '-' || c == '_' || IsJsSpace(c)
  {
  }

  /** `part[0]?.toUpperCase() || ""`. */
  function Initial(part: string): (r: string)
    ensures |r| <= 1
    ensures part != "" ==> r == [UpperChar(part[0])]
  {
    if part == "" then "" else [UpperChar(part[0])]
  }

  /** Split on the separators, take each part's initial, keep the first two, join them. */
  function Initials(seed: string): (r: string)
    ensures |r| <= 2
  {
    var parts := Split(seed, Separators);
    var firsts := seq(|parts|, i requires 0 <= i < |parts| => Initial(parts[i]));
    var kept := if |firsts| < 2 then firsts else firsts[..2];
    if |kept| == 2 then JoinTwo(kept[0], kept[1], ""); assert kept == [kept[0], kept[1]]; Join(kept, "")
    else Join(kept, "")
  }

  /** The initials are those of the first part, followed by those of the second when there is one. */
  lemma {:induction false} InitialsOfParts(seed: string)
    ensures var parts := Split(seed, Separators);
      Initials(seed) == if |parts| == 1 then Initial(parts[0]) else Initial(parts[0]) + Initial(parts[1])
  {
    var parts := Split(seed, Separators);
    var firsts := seq(|parts|, i requires 0 <= i < |parts| => Initial(parts[i]));
    if |parts| >= 2 {
      assert firsts[..2] == [Initial(parts[0]), Initial(parts[1])];
      JoinTwo(Initial(parts[0]), Initial(parts[1]), "");
    } else {
      assert firsts == [Initial(parts[0])];
    }
  }

  /** A seed with no separator gives the upper-cased first character. */
  lemma {:induction false} InitialsOneWord(word: string)
    requires word != [] && forall j :: 0 <= j < |word| ==> word[j] !in Separators
    ensures Initials(word) == [UpperChar(word[0])]
  {
    SplitNoSeparator(word, Separators);
  }

  /** Two words give the upper-cased first character of each. */
  lemma {:induction false} InitialsTwoWords(a: string, sep: char, b: string)
    requires a != [] && b != [] && sep in Separators
    requires forall j :: 0 <= j < |a| ==> a[j] !in Separators
    requires forall j :: 0 <= j < |b| ==> b[j] !in Separators
    ensures Initials(a + [sep] + b) == [UpperChar(a[0]), UpperChar(b[0])]
  {
    SplitAtSeparator(a, sep, b, Separators);
    SplitNoSeparator(a, Separators);
    SplitNoSeparator(b, Separators);
    var firsts := [Initial(a), Initial(b)];
    JoinTwo(Initial(a), Initial(b), "");
  }

  /**
   * Only the first two parts count, and an empty part takes a place while
   * contributing nothing: a seed that starts with a separator yields one
   * initial however many words follow.
   */
  lemma {:induction false} InitialsLeadingSeparator(sep: char, b: string, rest: string)
    requires b != [] && sep in Separators
    requires forall j :: 0 <= j < |b| ==> b[j] !in Separators
    ensures Initials([sep] + b + rest) == [UpperChar(b[0])]
  {
    var seed := [sep] + b + rest;
    assert seed[1..] == b + rest;
    var parts := Split(seed, Separators);
    assert parts == [""] + Split(b + rest, Separators);
    SplitFirstIsFirstField(b + rest, Separators);
    FirstFieldOfWord(b, rest);
    assert parts[1] == FirstField(b + rest, Separators);
    InitialsOfParts(seed);
  }

  /** The first field of a word followed by anything starts with the word's first character. */
  lemma {:induction false} FirstFieldOfWord(b: string, rest: string)
    requires b != [] && b[0] !in Separators
    ensures FirstField(b + rest, Separators) != "" && FirstField(b + rest, Separators)[0] == b[0]
  {
    assert (b + rest)[0] == b[0];
  }

  /** What the placeholder draws. */
  datatype Photo = Disc(hue: int) | Lettered(text: string, hue: int) | Silhouette

  /**
   * "GEOMETRIC" draws a disc in the seed's hue, "INITIALS" the initials (or
   * "?" when there are none) on that hue, and every other style the grey
   * silhouette.
   */
  function Render(style: string, seed: string): (p: Photo)
    ensures p.Disc? <==> style == "GEOMETRIC"
    ensures p.Lettered? <==> style == "INITIALS"
    ensures p.Disc? || p.Lettered? ==> p.hue == Hue(seed)
    ensures p.Lettered? ==> p.text != "" && (Initials(seed) == "" ==> p.text == "?") && (Initials(seed) != "" ==> p.text == Initials(seed))
  {
    if style == "GEOMETRIC" then Disc(Hue(seed))
    else if style == "INITIALS" then Lettered(if Initials(seed) == "" then "?" else Initials(seed), Hue(seed))
    else Silhouette
  }

  /** A seed made only of separators has no initials and shows "?". */
  lemma {:induction false} OnlySeparatorsShowQuestionMark(seed: string)
    requires forall j :: 0 <= j < |seed| ==> seed[j] in Separators
    ensures Initials(seed) == ""
    ensures Render("INITIALS", seed).text == "?"
  {
    EmptyParts(seed);
    InitialsOfParts(seed);
  }

  /** Splitting a string made only of separators leaves only empty parts. */
  lemma {:induction false} EmptyParts(seed: string)
    requires forall j :: 0 <= j < |seed| ==> seed[j] in Separators
    ensures forall k :: 0 <= k < |Split(seed, Separators)| ==> Split(seed, Separators)[k] == ""
    decreases |seed|
  {
    if seed != [] {
      EmptyParts(seed[1..]);
    }
  }
}
