/**
 * The pure and counting parts of the database seed script: the slug made
 * from a name, the index arithmetic that assigns lists and candidates to
 * districts, the parsing of the points file, and the loop that spreads the
 * points over the districts as electoral centers with generated names.
 * Database writes, coordinates as numbers and the random addresses are not
 * part of this model.
 */
module Seed {
  import opened Wrappers
  import Strings

  // ---------------------------------------------------------------------
  // createSlug

  /** `[a-z0-9]`. */
  predicate IsAlnum(c: char) {
    Strings.IsLowerAscii(c) || Strings.IsDigit(c)
  }

  /** A seed slug's characters: `[a-z0-9-]`. */
  predicate IsSeedSlugChar(c: char) {
    IsAlnum(c) || c == '-'
  }

  /** The input without its leading run of characters outside `[a-z0-9]`. */
  function SkipNonAlnum(s: string): (r: string)
    ensures |r| <= |s| && r == s[|s| - |r|..]
    ensures r == [] || IsAlnum(r[0])
    decreases |s|
  {
    if s != [] && !IsAlnum(s[0]) then SkipNonAlnum(s[1..]) else s
  }

  /** `.replace(/[^a-z0-9]+/g, "-")`: each maximal run outside `[a-z0-9]` becomes one hyphen. */
  function HyphenateRuns(s: string): (r: string)
    ensures forall j :: 0 <= j < |r| ==> IsSeedSlugChar(r[j])
    ensures forall j, k :: 0 <= j < |r| && 0 <= k < |r| && k == j + 1 && r[j] == '-' ==> r[k] != '-'
    ensures s == [] <==> r == []
    ensures s != [] ==> (r[0] == '-' <==> !IsAlnum(s[0]))
    decreases |s|
  {
    if s == [] then []
    else if IsAlnum(s[0]) then [s[0]] + HyphenateRuns(s[1..])
    else ['-'] + HyphenateRuns(SkipNonAlnum(s[1..]))
  }

  /** Every character is in `[a-z0-9-]`. */
  predicate SeedSlugChars(t: string) {
    forall j :: 0 <= j < |t| ==> IsSeedSlugChar(t[j])
  }

  /** No hyphen is followed by another. */
  predicate NoDoubleHyphen(t: string) {
    forall j, k :: 0 <= j < |t| && 0 <= k < |t| && k == j + 1 && t[j] == '-' ==> t[k] != '-'
  }

  /**
   * `.replace(/^-|-$/g, "")`: one hyphen off each end. On hyphenated text,
   * which never holds two hyphens in a row, no hyphen is left at either end;
   * text without end hyphens is left alone.
   */
  function TrimOneHyphen(t: string): (r: string)
    ensures SeedSlugChars(t) && NoDoubleHyphen(t) ==>
      SeedSlugChars(r) && NoDoubleHyphen(r) && (r == [] || (r[0] != '-' && r[|r| - 1] != '-'))
    ensures t == [] || (t[0] != '-' && t[|t| - 1] != '-') ==> r == t
  {
    var a := if t != [] && t[0] == '-' then t[1..] else t;
    if a != [] && a[|a| - 1] == '-' then a[..|a| - 1] else a
  }

  /** `createSlug`: lower-case, hyphenate every run of other characters, drop the end hyphens. */
  function CreateSlug(name: string): (r: string)
    ensures forall j :: 0 <= j < |r| ==> IsSeedSlugChar(r[j])
    ensures forall j, k :: 0 <= j < |r| && 0 <= k < |r| && k == j + 1 && r[j] == '-' ==> r[k] != '-'
    ensures r == [] || (r[0] != '-' && r[|r| - 1] != '-')
  {
    TrimOneHyphen(HyphenateRuns(Strings.Lower(name)))
  }

  /** A name without a single ASCII letter or digit (an Arabic-only name, say) gives the empty slug. */
  lemma {:induction false} NoLatinNameGivesEmptySlug(name: string)
    requires forall j :: 0 <= j < |name| ==> !IsAlnum(Strings.LowerChar(name[j]))
    ensures CreateSlug(name) == ""
  {
    var lowered := Strings.Lower(name);
    if lowered != [] {
      var rest := SkipNonAlnum(lowered[1..]);
      assert rest == [];
      assert HyphenateRuns(lowered) == "-";
    }
  }

  /** A slug-shaped string: `[a-z0-9-]`, and every hyphen is followed by a letter or digit. */
  predicate HyphensFollowedByAlnum(s: string) {
    (s != [] ==> s[|s| - 1] != '-')
    && forall j, k :: 0 <= j < |s| && 0 <= k < |s| && k == j + 1 && s[j] == '-' ==> IsAlnum(s[k])
  }

  /** Hyphenating a string whose hyphens are each followed by a letter or digit changes nothing. */
  lemma {:induction false} HyphenateRunsFixes(s: string)
    requires SeedSlugChars(s)
    requires HyphensFollowedByAlnum(s)
    ensures HyphenateRuns(s) == s
    decreases |s|
  {
    if s != [] {
      var tail := s[1..];
      TailShaped(s);
      HyphenateRunsFixes(tail);
      assert s == [s[0]] + tail;
      if !IsAlnum(s[0]) {
        assert tail != [] && IsAlnum(tail[0]);
        assert SkipNonAlnum(tail) == tail;
      }
    }
  }

  /** The tail of a slug-shaped string is slug-shaped. */
  lemma {:induction false} TailShaped(s: string)
    requires s != [] && SeedSlugChars(s) && HyphensFollowedByAlnum(s)
    ensures SeedSlugChars(s[1..]) && HyphensFollowedByAlnum(s[1..])
  {
    var tail := s[1..];
    assert forall j :: 0 <= j < |tail| ==> tail[j] == s[j + 1];
  }

  /** `createSlug` leaves its own results alone. */
  lemma {:induction false} CreateSlugIdempotent(name: string)
    ensures CreateSlug(CreateSlug(name)) == CreateSlug(name)
  {
    var r := CreateSlug(name);
    SlugIsLower(r);
    assert HyphensFollowedByAlnum(r);
    HyphenateRunsFixes(r);
    assert CreateSlug(r) == TrimOneHyphen(HyphenateRuns(Strings.Lower(r)));
  }

  /** Slug characters are already lower case. */
  lemma {:induction false} SlugIsLower(r: string)
    requires SeedSlugChars(r)
    ensures Strings.Lower(r) == r
  {
    assert forall j :: 0 <= j < |r| ==> Strings.LowerChar(r[j]) == r[j];
  }

  // ---------------------------------------------------------------------
  // Lists and candidates

  function Min(a: int, b: int): int {
    if a <= b then a else b
  }

  /** The lists loop runs for `i < #list templates && i < #districts`. */
  function ListCount(templates: nat, districts: nat): (r: nat)
    ensures r <= templates && r <= districts
    ensures r == templates || r == districts
  {
    Min(templates, districts)
  }

  /** List `i` goes to district `i mod d`. */
  function ListDistrict(i: nat, districts: nat): (r: nat)
    requires districts >= 1
    ensures r < districts
  {
    i % districts
  }

  /** Every list created goes to the district of the same index: no two lists share a district. */
  lemma {:induction false} ListsInDistinctDistricts(i: nat, templates: nat, districts: nat)
    requires i < ListCount(templates, districts)
    ensures ListDistrict(i, districts) == i
  {
  }

  /** Candidate `i` goes to district `i mod d`. */
  function CandidateDistrict(i: nat, districts: nat): (r: nat)
    requires districts >= 1
    ensures r < districts
  {
    i % districts
  }

  /** Candidate `i` joins list `i mod #lists` when `i < #lists`, otherwise none. */
  function CandidateList(i: nat, lists: nat): (r: Option<nat>)
    ensures r.Some? <==> i < lists
    ensures r.Some? ==> r.value == i
  {
    if i < lists then Some(i % lists) else None
  }

  /** A candidate on a list is seeded in that list's district. */
  lemma {:induction false} CandidateInListDistrict(i: nat, templates: nat, districts: nat)
    requires districts >= 1
    requires CandidateList(i, ListCount(templates, districts)).Some?
    ensures CandidateDistrict(i, districts) == ListDistrict(CandidateList(i, ListCount(templates, districts)).value, districts)
  {
  }

  /** The slug is made from the English name, or from the Arabic one when the English is empty. */
  function CandidateSlug(fullNameEn: string, fullNameAr: string): (r: string)
    ensures fullNameEn != "" ==> r == CreateSlug(fullNameEn)
    ensures fullNameEn == "" ==> r == CreateSlug(fullNameAr)
  {
    CreateSlug(if fullNameEn != "" then fullNameEn else fullNameAr)
  }

  // ---------------------------------------------------------------------
  // The points file

  /** The latitude and longitude text of one line. */
  datatype Point = Point(latitude: string, longitude: string)

  /** `const [a, b, c] = ...`: a missing element is `undefined`, which is falsy like `""`. */
  function FieldAt(fields: seq<string>, k: nat): string {
    if k < |fields| then fields[k] else ""
  }

  /** One data line: blank lines are skipped; otherwise kept iff its second and third fields are non-empty. */
  function PointOf(line: string): (r: Option<Point>)
    ensures r.Some? <==> Strings.Trim(line) != ""
                         && FieldAt(Strings.Split(Strings.Trim(line), {','}), 1) != ""
                         && FieldAt(Strings.Split(Strings.Trim(line), {','}), 2) != ""
    ensures r.Some? ==> ',' !in r.value.latitude && ',' !in r.value.longitude
  {
    var t := Strings.Trim(line);
    if t == "" then None
    else
      var fields := Strings.Split(t, {','});
      var lat := FieldAt(fields, 1);
      var lon := FieldAt(fields, 2);
      if lat != "" && lon != "" then Some(Point(lat, lon)) else None
  }

  /** The points of a run of data lines, in order. */
  function PointsOf(lines: seq<string>): (r: seq<Point>)
    ensures |r| <= |lines|
    decreases |lines|
  {
    if lines == [] then []
    else
      var last := PointOf(lines[|lines| - 1]);
      PointsOf(lines[..|lines| - 1]) + (if last.Some? then [last.value] else [])
  }

  /** The points are those of the lines, in file order: parsing distributes over concatenation. */
  lemma {:induction false} PointsOfAppend(a: seq<string>, b: seq<string>)
    ensures PointsOf(a + b) == PointsOf(a) + PointsOf(b)
    decreases |b|
  {
    if b == [] {
      assert a + b == a;
    } else {
      var b' := b[..|b| - 1];
      assert (a + b)[..|a + b| - 1] == a + b';
      assert (a + b)[|a + b| - 1] == b[|b| - 1];
      PointsOfAppend(a, b');
    }
  }

  /** Each point comes from a line with both coordinate fields present. */
  lemma {:induction false} PointsHaveCoordinates(lines: seq<string>)
    ensures forall p :: p in PointsOf(lines) ==> p.latitude != "" && p.longitude != ""
    decreases |lines|
  {
    if lines != [] {
      PointsHaveCoordinates(lines[..|lines| - 1]);
    }
  }

  /** The lines of the file: `content.trim().split("\n")`. */
  function CsvLines(content: string): (r: seq<string>)
    ensures |r| >= 1
  {
    Strings.Split(Strings.Trim(content), {'\n'})
  }

  /** The points of the file: every line after the header. */
  function CsvPoints(content: string): seq<Point> {
    PointsOf(CsvLines(content)[1..])
  }

  /** The parsing loop: skip the header, then push a point for every accepted line. */
  method ParseCsv(content: string) returns (points: seq<Point>)
    ensures points == CsvPoints(content)
  {
    var lines := CsvLines(content);
    points := [];
    var i := 1;
    while i < |lines|
      invariant 1 <= i <= |lines|
      invariant points == PointsOf(lines[1..i])
    {
      var p := PointOf(lines[i]);
      PointsOfNextLine(lines, i, p);
      if p.Some? {
        points := points + [p.value];
      }
      i := i + 1;
    }
    assert lines[1..i] == lines[1..];
  }

  /** One more line adds its point, if any, at the end. */
  lemma {:induction false} PointsOfNextLine(lines: seq<string>, i: nat, p: Option<Point>)
    requires 1 <= i < |lines| && p == PointOf(lines[i])
    ensures PointsOf(lines[1..i + 1]) == PointsOf(lines[1..i]) + (if p.Some? then [p.value] else [])
  {
    assert lines[1..i + 1][..i - 1] == lines[1..i];
    assert lines[1..i + 1][i - 1] == lines[i];
  }

  // ---------------------------------------------------------------------
  // Electoral centers

  /** `Math.ceil(points / districts)`, for at least one district. */
  function PointsPerDistrict(points: nat, districts: nat): (r: nat)
    requires districts >= 1
    ensures r * districts >= points
    ensures points > 0 ==> r >= 1 && (r - 1) * districts < points
  {
    (points + districts - 1) / districts
  }

  datatype Name = Name(ar: string, en: string, fr: string)

  const Templates: seq<Name> := [
    Name("مدرسة", "School", "École"),
    Name("معهد", "Institute", "Institut"),
    Name("جامعة", "University", "Université"),
    Name("قاعة", "Hall", "Salle"),
    Name("مركز", "Center", "Centre"),
    Name("مستوصف", "Clinic", "Clinique"),
    Name("بلدية", "Municipality", "Municipalité"),
    Name("نادي", "Club", "Club"),
    Name("كنيسة", "Church", "Église"),
    Name("مسجد", "Mosque", "Mosquée")
  ]

  const Locations: seq<Name> := [
    Name("الشهداء", "Martyrs", "Martyrs"),
    Name("الحرية", "Freedom", "Liberté"),
    Name("الوحدة", "Unity", "Unité"),
    Name("النهضة", "Renaissance", "Renaissance"),
    Name("الكرامة", "Dignity", "Dignité"),
    Name("العدالة", "Justice", "Justice"),
    Name("السلام", "Peace", "Paix"),
    Name("الاستقلال", "Independence", "Indépendance"),
    Name("التحرير", "Liberation", "Libération"),
    Name("النهار", "Day", "Jour"),
    Name("القديس", "Saint", "Saint"),
    Name("الأنبياء", "Prophets", "Prophètes"),
    Name("المخلص", "Savior", "Sauveur"),
    Name("القديسة", "Saint", "Sainte"),
    Name("الرسول", "Apostle", "Apôtre")
  ]

  /** The number in a center's name: `c mod 50 + 1`. */
  function CenterNumber(c: nat): (r: nat)
    ensures 1 <= r <= 50
  {
    c % 50 + 1
  }

  /** Center `c`'s name: template `c mod 10`, location `(c div 10) mod 15`, then the number. */
  function CenterName(c: nat): (r: Name)
    ensures r.ar != "" && r.en != "" && r.fr != ""
    ensures r.ar[|r.ar| - 1] == r.en[|r.en| - 1] == r.fr[|r.fr| - 1]
  {
    var template := Templates[c % |Templates|];
    var location := Locations[(c / 10) % |Locations|];
    var number := Strings.NatToString(CenterNumber(c));
    Name(template.ar + " " + location.ar + " " + number,
         location.en + " " + template.en + " " + number,
         template.fr + " " + location.fr + " " + number)
  }

  /**
   * A created center: its district's index and the index of its point. Its
   * names are determined by that index, which is also the running center
   * count the names are made from.
   */
  datatype Center = Center(district: nat, point: nat) {
    function Names(): Name {
      CenterName(point)
    }
  }

  /** The `c`-th center made with `p` points per district. */
  function CenterAt(c: nat, p: nat): Center
    requires p >= 1
  {
    Center(c / p, c)
  }

  /** The `c`-th center is point `c`, and its district is the one whose block of `p` points holds `c`. */
  lemma {:induction false} CenterAtBlock(c: nat, p: nat)
    requires p >= 1
    ensures CenterAt(c, p).point == c
    ensures CenterAt(c, p).district * p <= c < (CenterAt(c, p).district + 1) * p
  {
    DivBlock(c, p, c / p);
  }

  /** `c div p` names the block of `p` that holds `c`. */
  lemma {:induction false} DivBlock(c: nat, p: nat, q: nat)
    requires p >= 1 && q == c / p
    ensures q * p <= c < (q + 1) * p
  {
    assert q * p + c % p == c;
    assert (q + 1) * p == q * p + p;
  }

  /** District `k` receives exactly the points `k*p .. min((k+1)*p, n) - 1`, and no center is past the last district. */
  lemma {:induction false} DistrictBlocks(c: nat, n: nat, d: nat, k: nat)
    requires d >= 1 && c < n
    ensures var p := PointsPerDistrict(n, d);
      (CenterAt(c, p).district == k <==> k * p <= c < (k + 1) * p) && CenterAt(c, p).district < d
  {
    var p := PointsPerDistrict(n, d);
    var q := CenterAt(c, p).district;
    CenterAtBlock(c, p);
    if q < k {
      assert (q + 1) * p <= k * p by { MulMono(q + 1, k, p); }
    } else if q > k {
      assert (k + 1) * p <= q * p by { MulMono(k + 1, q, p); }
    }
    if q >= d {
      assert d * p <= q * p by { MulMono(d, q, p); }
    }
  }

  lemma {:induction false} MulMono(a: nat, b: nat, p: nat)
    requires a <= b
    ensures a * p <= b * p
  {
  }

  /** The `c`-th center of district `k`'s block is in district `k`. */
  lemma {:induction false} BlockOfDistrict(k: nat, p: nat, i: nat)
    requires i < p
    ensures (k * p + i) / p == k
  {
    var q := (k * p + i) / p;
    assert q * p + (k * p + i) % p == k * p + i;
    if q < k {
      MulMono(q + 1, k, p);
    } else if q > k {
      MulMono(k + 1, q, p);
    }
  }

  /** The first `m` centers, each where `CenterAt` puts it. */
  function CentersUpTo(m: nat, p: nat): (r: seq<Center>)
    requires p >= 1
    ensures |r| == m
  {
    if m == 0 then [] else CentersUpTo(m - 1, p) + [CenterAt(m - 1, p)]
  }

  /** The `c`-th of the first `m` centers is `CenterAt(c, p)`. */
  lemma {:induction false} CentersUpToAt(m: nat, p: nat)
    requires p >= 1
    ensures forall c :: 0 <= c < m ==> CentersUpTo(m, p)[c] == CenterAt(c, p)
  {
    if m > 0 {
      CentersUpToAt(m - 1, p);
    }
  }

  /** The first point of district `k`'s block, `p` points per district. */
  function BlockStart(k: nat, p: nat): nat {
    if k == 0 then 0 else BlockStart(k - 1, p) + p
  }

  lemma {:induction false} BlockStartIsProduct(k: nat, p: nat)
    ensures BlockStart(k, p) == k * p
  {
    if k > 0 {
      BlockStartIsProduct(k - 1, p);
      assert k * p == (k - 1) * p + p;
    }
  }

  /** With `pointsPerDistrict` points each, the districts' blocks cover every point. */
  lemma {:induction false} BlocksCoverPoints(n: nat, d: nat)
    requires d >= 1
    ensures BlockStart(d, PointsPerDistrict(n, d)) >= n
  {
    var p := PointsPerDistrict(n, d);
    BlockStartIsProduct(d, p);
    assert d * p == p * d;
  }

  /** Placing point `m` of district `k`'s block extends the centers by the one `CenterAt` puts there. */
  lemma {:induction false} CentersAppend(p: nat, k: nat, m: nat)
    requires p >= 1 && BlockStart(k, p) <= m < BlockStart(k, p) + p
    ensures CentersUpTo(m + 1, p) == CentersUpTo(m, p) + [Center(k, m)]
  {
    BlockStartIsProduct(k, p);
    BlockOfDistrict(k, p, m - k * p);
  }

  /**
   * The distribution loop: for each district in turn, up to `p` points,
   * stopping once the points run out; `pointIndex` and `centerCount` move
   * together. Every point becomes exactly one center, in file order.
   */
  method DistributeCenters(n: nat, d: nat) returns (centers: seq<Center>)
    ensures d == 0 ==> centers == []
    ensures d >= 1 ==> |centers| == n
    ensures d >= 1 ==> forall c :: 0 <= c < n ==> centers[c] == CenterAt(c, PointsPerDistrict(n, d))
  {
    var p := if d == 0 then 0 else PointsPerDistrict(n, d);
    centers := [];
    var pointIndex := 0;
    var centerCount := 0;
    var k := 0;
    while k < d
      invariant 0 <= k <= d
      invariant pointIndex == centerCount == |centers|
      invariant pointIndex == Min(BlockStart(k, p), n)
      invariant p >= 1 ==> centers == CentersUpTo(|centers|, p)
    {
      var i := 0;
      while i < p && pointIndex < n
        invariant 0 <= i <= p
        invariant pointIndex == centerCount == |centers|
        invariant pointIndex == Min(BlockStart(k, p) + i, n)
        invariant p >= 1 ==> centers == CentersUpTo(|centers|, p)
      {
        CentersAppend(p, k, pointIndex);
        centers := centers + [Center(k, pointIndex)];
        pointIndex := pointIndex + 1;
        centerCount := centerCount + 1;
        i := i + 1;
      }
      k := k + 1;
    }
    if d >= 1 {
      BlocksCoverPoints(n, d);
    }
    if p >= 1 {
      CentersUpToAt(|centers|, p);
    }
  }
}
