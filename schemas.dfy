/**
 * The API's request schemas, read as parsers: each takes a request body (a
 * map from field name to the JSON value found there) and yields the typed
 * record when every field passes, or `None` when the schema rejects. The
 * issue list a rejection carries is not modelled.
 *
 * The checks done by library code are parameters: `isUuid` for the UUID
 * format, `urlProtocol` for the URL parser (the protocol, or `None` when the
 * text is no URL), `dateOf` for date coercion and `numeric` for the coercion
 * of a query string to a number.
 */
module Schemas {
  import opened Wrappers
  import Validation

  /** A JSON value as far as the schemas distinguish them. */
  datatype Value = Text(s: string) | Number(n: int) | Fraction | Null | Other

  type Body = map<string, Value>

  /** Library checks the schemas delegate to. */
  datatype Checks = Checks(isUuid: string -> bool, urlProtocol: string -> Option<string>,
                           dateOf: Value -> Option<int>, numeric: string -> Validation.NumberInput)

  /** A string field of length `min..max` (no upper bound when `max` is `None`). */
  function Str(b: Body, key: string, min: nat, max: Option<nat>): (r: Option<string>)
    ensures r.Some? <==> key in b && b[key].Text? && min <= |b[key].s| && (max.None? || |b[key].s| <= max.value)
    ensures r.Some? ==> r.value == b[key].s
  {
    if key in b && b[key].Text? && min <= |b[key].s| && (max.None? || |b[key].s| <= max.value)
    then Some(b[key].s) else None
  }

  /** `.optional()`: an absent field is `Some(None)`, a present one must pass. */
  function OptStr(b: Body, key: string): (r: Option<Option<string>>)
    ensures r.Some? <==> key !in b || b[key].Text?
    ensures r == Some(None) <==> key !in b
  {
    if key !in b then Some(None)
    else if b[key].Text? then Some(Some(b[key].s))
    else None
  }

  /** `z.enum(allowed)`. */
  function Enum(b: Body, key: string, allowed: set<string>): (r: Option<string>)
    ensures r.Some? <==> key in b && b[key].Text? && b[key].s in allowed
    ensures r.Some? ==> r.value == b[key].s
  {
    if key in b && b[key].Text? && b[key].s in allowed then Some(b[key].s) else None
  }

  /** `z.enum(allowed).default(d)`: an absent field takes the default. */
  function EnumDefault(b: Body, key: string, allowed: set<string>, d: string): (r: Option<string>)
    ensures key !in b ==> r == Some(d)
    ensures key in b ==> r == Enum(b, key, allowed)
  {
    if key !in b then Some(d) else Enum(b, key, allowed)
  }

  /** `uuidSchema`. */
  function Uuid(b: Body, key: string, c: Checks): (r: Option<string>)
    ensures r.Some? <==> key in b && b[key].Text? && c.isUuid(b[key].s)
    ensures r.Some? ==> r.value == b[key].s
  {
    if key in b && b[key].Text? && c.isUuid(b[key].s) then Some(b[key].s) else None
  }

  /** `uuidSchema.optional()`. */
  function OptUuid(b: Body, key: string, c: Checks): (r: Option<Option<string>>)
    ensures r == Some(None) <==> key !in b
  {
    if key !in b then Some(None)
    else if b[key].Text? && c.isUuid(b[key].s) then Some(Some(b[key].s))
    else None
  }

  /** `urlSchema`: a URL whose protocol is http or https. */
  function Url(b: Body, key: string, c: Checks): (r: Option<string>)
    ensures r.Some? ==> key in b && b[key].Text? && Validation.IsWebUrl(c.urlProtocol(b[key].s))
  {
    if key in b && b[key].Text? && Validation.IsWebUrl(c.urlProtocol(b[key].s)) then Some(b[key].s) else None
  }

  /** `z.coerce.date()`: a missing field coerces to an invalid date, a present one as `dateOf` says. */
  function Date(b: Body, key: string, c: Checks): (r: Option<int>)
    ensures key !in b ==> r.None?
    ensures key in b ==> r == c.dateOf(b[key])
  {
    if key in b then c.dateOf(b[key]) else None
  }

  /** `z.coerce.date().optional()`. */
  function OptDate(b: Body, key: string, c: Checks): (r: Option<Option<int>>)
    ensures key !in b ==> r == Some(None)
  {
    if key !in b then Some(None)
    else match c.dateOf(b[key])
      case Some(d) => Some(Some(d))
      case None => None
  }

  // ---------------------------------------------------------------------
  // How a body carries a record's fields

  /** Field `key` holds the text `s`. */
  predicate HoldsText(b: Body, key: string, s: string) {
    key in b && b[key] == Text(s)
  }

  /** An optional text field: absent for `None`, the text otherwise. */
  predicate HoldsOptText(b: Body, key: string, o: Option<string>) {
    if o.None? then key !in b else HoldsText(b, key, o.value)
  }

  /** A field of an enum with a default: the text when present, the default when absent. */
  predicate HoldsOrDefault(b: Body, key: string, s: string, default: string) {
    if key in b then b[key] == Text(s) else s == default
  }

  /** A date field whose coercion gives `d`. */
  predicate HoldsDate(b: Body, key: string, d: int, c: Checks) {
    key in b && c.dateOf(b[key]) == Some(d)
  }

  /** An optional date field: absent for `None`, a coercible value otherwise. */
  predicate HoldsOptDate(b: Body, key: string, o: Option<int>, c: Checks) {
    if o.None? then key !in b else HoldsDate(b, key, o.value, c)
  }

  /** An optional UUID, when present. */
  predicate OptIsUuid(o: Option<string>, c: Checks) {
    o.Some? ==> c.isUuid(o.value)
  }

  const CandidateStatuses: set<string> := {"POTENTIAL", "OFFICIAL", "WITHDRAWN", "DISQUALIFIED"}
  const PhotoStyles: set<string> := {"GEOMETRIC", "INITIALS", "SILHOUETTE"}
  const ListStatuses: set<string> := {"DRAFT", "ANNOUNCED", "OFFICIAL", "WITHDRAWN"}
  const AffiliationTypes: set<string> := {"PARTY", "BLOC", "LIST", "ROLE", "ALLIANCE"}
  const StatementKinds: set<string> := {"QUOTE", "INTERVIEW", "VOTE", "PROGRAM", "OTHER"}

  datatype NewSource = NewSource(title: string, publisher: string, originalUrl: string, archivedUrl: string,
                                 archivedAt: int, archiveMethod: Validation.ArchiveMethod,
                                 contentType: Option<string>, checksum: Option<string>, notes: Option<string>)

  /** The body's fields are the source's. */
  predicate CarriesSource(b: Body, s: NewSource, c: Checks) {
    HoldsText(b, "title", s.title) && HoldsText(b, "publisher", s.publisher)
    && HoldsText(b, "originalUrl", s.originalUrl) && HoldsText(b, "archivedUrl", s.archivedUrl)
    && HoldsDate(b, "archivedAt", s.archivedAt, c)
    && HoldsText(b, "archiveMethod", Validation.ArchiveMethodName(s.archiveMethod))
    && HoldsOptText(b, "contentType", s.contentType) && HoldsOptText(b, "checksum", s.checksum)
    && HoldsOptText(b, "notes", s.notes)
  }

  /** What `createSourceSchema` demands of the values. */
  predicate ValidSource(s: NewSource, c: Checks) {
    1 <= |s.title| <= 500 && 1 <= |s.publisher| <= 200
    && Validation.IsWebUrl(c.urlProtocol(s.originalUrl)) && Validation.IsWebUrl(c.urlProtocol(s.archivedUrl))
  }

  /** `createSourceSchema`: title 1..500, publisher 1..200, both URLs, the archive instant and method required. */
  function ParseSource(b: Body, c: Checks): (r: Option<NewSource>)
    ensures r.Some? ==> CarriesSource(b, r.value, c) && ValidSource(r.value, c)
    ensures r.Some? ==> 1 <= |r.value.title| <= 500 && 1 <= |r.value.publisher| <= 200
    ensures r.Some? ==> "archivedUrl" in b && "archivedAt" in b && "archiveMethod" in b
    ensures r.Some? ==> Validation.IsWebUrl(c.urlProtocol(r.value.originalUrl))
                        && Validation.IsWebUrl(c.urlProtocol(r.value.archivedUrl))
  {
    var title := Str(b, "title", 1, Some(500));
    var publisher := Str(b, "publisher", 1, Some(200));
    var original := Url(b, "originalUrl", c);
    var archived := Url(b, "archivedUrl", c);
    var at := Date(b, "archivedAt", c);
    var method_ := if "archiveMethod" in b && b["archiveMethod"].Text?
                   then Validation.ParseArchiveMethod(b["archiveMethod"].s) else None;
    var contentType := OptStr(b, "contentType");
    var checksum := OptStr(b, "checksum");
    var notes := OptStr(b, "notes");
    if title.Some? && publisher.Some? && original.Some? && archived.Some? && at.Some? && method_.Some?
       && contentType.Some? && checksum.Some? && notes.Some?
    then Some(NewSource(title.value, publisher.value, original.value, archived.value, at.value, method_.value,
                        contentType.value, checksum.value, notes.value))
    else None
  }

  /** Every body that carries a valid source's fields is accepted as that source. */
  lemma {:induction false} ParseSourceAccepts(b: Body, c: Checks, s: NewSource)
    requires CarriesSource(b, s, c) && ValidSource(s, c)
    ensures ParseSource(b, c) == Some(s)
  {
    Validation.ArchiveMethodRoundTrip(s.archiveMethod);
  }

  /** A title longer than 500 characters rejects the source. */
  lemma {:induction false} LongTitleRejected(b: Body, c: Checks)
    requires "title" in b && b["title"].Text? && |b["title"].s| > 500
    ensures ParseSource(b, c).None?
  {
  }

  datatype NewCandidate = NewCandidate(cycleId: string, districtId: string, currentListId: Option<string>,
                                       fullNameAr: string, fullNameEn: string, fullNameFr: string,
                                       slug: string, status: string, placeholderPhotoStyle: string)

  /** The body's fields are the candidate's; an absent status or photo style stands for its default. */
  predicate CarriesCandidate(b: Body, n: NewCandidate) {
    HoldsText(b, "cycleId", n.cycleId) && HoldsText(b, "districtId", n.districtId)
    && HoldsOptText(b, "currentListId", n.currentListId)
    && HoldsText(b, "fullNameAr", n.fullNameAr) && HoldsText(b, "fullNameEn", n.fullNameEn)
    && HoldsText(b, "fullNameFr", n.fullNameFr) && HoldsText(b, "slug", n.slug)
    && HoldsOrDefault(b, "status", n.status, "POTENTIAL")
    && HoldsOrDefault(b, "placeholderPhotoStyle", n.placeholderPhotoStyle, "GEOMETRIC")
  }

  /** What `createCandidateSchema` demands of the values. */
  predicate ValidCandidate(n: NewCandidate, c: Checks) {
    c.isUuid(n.cycleId) && c.isUuid(n.districtId) && OptIsUuid(n.currentListId, c)
    && n.fullNameAr != "" && n.fullNameEn != "" && n.fullNameFr != "" && Validation.IsSlug(n.slug)
    && n.status in CandidateStatuses && n.placeholderPhotoStyle in PhotoStyles
  }

  /** `createCandidateSchema`. */
  function ParseCandidate(b: Body, c: Checks): (r: Option<NewCandidate>)
    ensures r.Some? ==> CarriesCandidate(b, r.value) && ValidCandidate(r.value, c)
    ensures r.Some? ==> r.value.fullNameAr != "" && r.value.fullNameEn != "" && r.value.fullNameFr != ""
    ensures r.Some? ==> Validation.IsSlug(r.value.slug)
    ensures r.Some? ==> r.value.status in CandidateStatuses && r.value.placeholderPhotoStyle in PhotoStyles
    ensures r.Some? && "status" !in b ==> r.value.status == "POTENTIAL"
    ensures r.Some? && "placeholderPhotoStyle" !in b ==> r.value.placeholderPhotoStyle == "GEOMETRIC"
  {
    var cycle := Uuid(b, "cycleId", c);
    var district := Uuid(b, "districtId", c);
    var list := OptUuid(b, "currentListId", c);
    var ar := Str(b, "fullNameAr", 1, None);
    var en := Str(b, "fullNameEn", 1, None);
    var fr := Str(b, "fullNameFr", 1, None);
    var slug := if "slug" in b && b["slug"].Text? && Validation.IsSlug(b["slug"].s) then Some(b["slug"].s) else None;
    var status := EnumDefault(b, "status", CandidateStatuses, "POTENTIAL");
    var style := EnumDefault(b, "placeholderPhotoStyle", PhotoStyles, "GEOMETRIC");
    if cycle.Some? && district.Some? && list.Some? && ar.Some? && en.Some? && fr.Some? && slug.Some?
       && status.Some? && style.Some?
    then Some(NewCandidate(cycle.value, district.value, list.value, ar.value, en.value, fr.value,
                           slug.value, status.value, style.value))
    else None
  }

  /** Every body that carries a valid candidate's fields is accepted, the defaults filling an absent status or style. */
  lemma {:induction false} ParseCandidateAccepts(b: Body, c: Checks, n: NewCandidate)
    requires CarriesCandidate(b, n) && ValidCandidate(n, c)
    ensures ParseCandidate(b, c) == Some(n)
  {
  }

  /** A candidate body with an empty name in any of the three languages is rejected. */
  lemma {:induction false} CandidateNamesRequired(b: Body, c: Checks, key: string)
    requires key in {"fullNameAr", "fullNameEn", "fullNameFr"}
    requires key in b && b[key] == Text("")
    ensures ParseCandidate(b, c).None?
  {
  }

  /** `updateCandidateStatusSchema`: the status is required; there is no default. */
  function ParseCandidateStatus(b: Body): (r: Option<string>)
    ensures r.Some? <==> "status" in b && b["status"].Text? && b["status"].s in CandidateStatuses
  {
    Enum(b, "status", CandidateStatuses)
  }

  /** `assignCandidateToListSchema`: a list id, or `null` to take the candidate off its list. */
  function ParseListAssignment(b: Body, c: Checks): (r: Option<Option<string>>)
    ensures r == Some(None) <==> "listId" in b && b["listId"] == Null
    ensures r.Some? && r.value.Some? ==> HoldsText(b, "listId", r.value.value) && c.isUuid(r.value.value)
    ensures "listId" !in b ==> r.None?
  {
    if "listId" in b && b["listId"] == Null then Some(None)
    else match Uuid(b, "listId", c)
      case Some(id) => Some(Some(id))
      case None => None
  }

  /** A body whose `listId` is a UUID assigns the candidate to that list. */
  lemma {:induction false} ParseListAssignmentAccepts(b: Body, c: Checks, id: string)
    requires HoldsText(b, "listId", id) && c.isUuid(id)
    ensures ParseListAssignment(b, c) == Some(Some(id))
  {
  }

  datatype NewAffiliation = NewAffiliation(candidateId: string, kind: string, nameAr: string, nameEn: string,
                                           nameFr: string, startDate: int, endDate: Option<int>,
                                           notes: Option<string>, sourceId: string)

  /** An end date: absent or `null` for `None`, a coercible non-null value otherwise. */
  predicate HoldsEndDate(b: Body, o: Option<int>, c: Checks) {
    if o.None? then "endDate" !in b || b["endDate"] == Null
    else "endDate" in b && b["endDate"] != Null && c.dateOf(b["endDate"]) == Some(o.value)
  }

  /** The body's fields are the affiliation's. */
  predicate CarriesAffiliation(b: Body, a: NewAffiliation, c: Checks) {
    HoldsText(b, "candidateId", a.candidateId) && HoldsText(b, "type", a.kind)
    && HoldsText(b, "nameAr", a.nameAr) && HoldsText(b, "nameEn", a.nameEn) && HoldsText(b, "nameFr", a.nameFr)
    && HoldsDate(b, "startDate", a.startDate, c) && HoldsEndDate(b, a.endDate, c)
    && HoldsOptText(b, "notes", a.notes) && HoldsText(b, "sourceId", a.sourceId)
  }

  /** What `createAffiliationSchema` demands of the values. */
  predicate ValidAffiliation(a: NewAffiliation, c: Checks) {
    c.isUuid(a.candidateId) && a.kind in AffiliationTypes
    && a.nameAr != "" && a.nameEn != "" && a.nameFr != "" && c.isUuid(a.sourceId)
  }

  /** `createAffiliationSchema`: the end date may be absent or `null`; the start date and the source are required. */
  function ParseAffiliation(b: Body, c: Checks): (r: Option<NewAffiliation>)
    ensures r.Some? ==> CarriesAffiliation(b, r.value, c) && ValidAffiliation(r.value, c)
    ensures "startDate" !in b ==> r.None?
    ensures r.Some? ==> r.value.kind in AffiliationTypes && r.value.nameAr != "" && r.value.nameEn != "" && r.value.nameFr != ""
    ensures r.Some? ==> "sourceId" in b && c.isUuid(r.value.sourceId)
    ensures r.Some? && ("endDate" !in b || b["endDate"] == Null) ==> r.value.endDate.None?
  {
    var candidate := Uuid(b, "candidateId", c);
    var kind := Enum(b, "type", AffiliationTypes);
    var ar := Str(b, "nameAr", 1, None);
    var en := Str(b, "nameEn", 1, None);
    var fr := Str(b, "nameFr", 1, None);
    var start := Date(b, "startDate", c);
    var end := if "endDate" in b && b["endDate"] == Null then Some(None) else OptDate(b, "endDate", c);
    var notes := OptStr(b, "notes");
    var source := Uuid(b, "sourceId", c);
    if candidate.Some? && kind.Some? && ar.Some? && en.Some? && fr.Some? && start.Some? && end.Some?
       && notes.Some? && source.Some?
    then Some(NewAffiliation(candidate.value, kind.value, ar.value, en.value, fr.value, start.value,
                             end.value, notes.value, source.value))
    else None
  }

  /** Every body that carries a valid affiliation's fields is accepted as that affiliation. */
  lemma {:induction false} ParseAffiliationAccepts(b: Body, c: Checks, a: NewAffiliation)
    requires CarriesAffiliation(b, a, c) && ValidAffiliation(a, c)
    ensures ParseAffiliation(b, c) == Some(a)
  {
  }

  datatype NewStatement = NewStatement(candidateId: string, topicId: string, kind: string,
                                       summaryAr: Option<string>, summaryEn: Option<string>, summaryFr: Option<string>,
                                       occurredAt: Option<int>, sourceId: string)

  /** The body's fields are the statement's. */
  predicate CarriesStatement(b: Body, s: NewStatement, c: Checks) {
    HoldsText(b, "candidateId", s.candidateId) && HoldsText(b, "topicId", s.topicId) && HoldsText(b, "kind", s.kind)
    && HoldsOptText(b, "summaryAr", s.summaryAr) && HoldsOptText(b, "summaryEn", s.summaryEn)
    && HoldsOptText(b, "summaryFr", s.summaryFr) && HoldsOptDate(b, "occurredAt", s.occurredAt, c)
    && HoldsText(b, "sourceId", s.sourceId)
  }

  /** What `createStatementSchema` demands of the values. */
  predicate ValidStatement(s: NewStatement, c: Checks) {
    c.isUuid(s.candidateId) && c.isUuid(s.topicId) && s.kind in StatementKinds && c.isUuid(s.sourceId)
  }

  /** `createStatementSchema`: the summaries and the date are optional; the source is required. */
  function ParseStatement(b: Body, c: Checks): (r: Option<NewStatement>)
    ensures r.Some? ==> CarriesStatement(b, r.value, c) && ValidStatement(r.value, c)
    ensures r.Some? ==> r.value.kind in StatementKinds
    ensures r.Some? ==> "sourceId" in b && c.isUuid(r.value.sourceId)
  {
    var candidate := Uuid(b, "candidateId", c);
    var topic := Uuid(b, "topicId", c);
    var kind := Enum(b, "kind", StatementKinds);
    var ar := OptStr(b, "summaryAr");
    var en := OptStr(b, "summaryEn");
    var fr := OptStr(b, "summaryFr");
    var at := OptDate(b, "occurredAt", c);
    var source := Uuid(b, "sourceId", c);
    if candidate.Some? && topic.Some? && kind.Some? && ar.Some? && en.Some? && fr.Some? && at.Some? && source.Some?
    then Some(NewStatement(candidate.value, topic.value, kind.value, ar.value, en.value, fr.value, at.value, source.value))
    else None
  }

  /** Every body that carries a valid statement's fields is accepted as that statement. */
  lemma {:induction false} ParseStatementAccepts(b: Body, c: Checks, s: NewStatement)
    requires CarriesStatement(b, s, c) && ValidStatement(s, c)
    ensures ParseStatement(b, c) == Some(s)
  {
  }

  datatype NewDistrict = NewDistrict(cycleId: string, nameAr: string, nameEn: string, nameFr: string,
                                     seatCount: int, notes: Option<string>)

  /** The body's fields are the district's; the seat count is a JSON number. */
  predicate CarriesDistrict(b: Body, d: NewDistrict) {
    HoldsText(b, "cycleId", d.cycleId)
    && HoldsText(b, "nameAr", d.nameAr) && HoldsText(b, "nameEn", d.nameEn) && HoldsText(b, "nameFr", d.nameFr)
    && "seatCount" in b && b["seatCount"] == Number(d.seatCount) && HoldsOptText(b, "notes", d.notes)
  }

  /** What `createDistrictSchema` demands of the values. */
  predicate ValidDistrict(d: NewDistrict, c: Checks) {
    c.isUuid(d.cycleId) && d.nameAr != "" && d.nameEn != "" && d.nameFr != "" && d.seatCount >= 1
  }

  /** `createDistrictSchema`: `seatCount` is an integer of at least 1 (a number, not coerced). */
  function ParseDistrict(b: Body, c: Checks): (r: Option<NewDistrict>)
    ensures r.Some? ==> CarriesDistrict(b, r.value) && ValidDistrict(r.value, c)
    ensures r.Some? ==> r.value.seatCount >= 1 && "seatCount" in b && b["seatCount"] == Number(r.value.seatCount)
    ensures "seatCount" in b && b["seatCount"].Number? && b["seatCount"].n < 1 ==> r.None?
  {
    var cycle := Uuid(b, "cycleId", c);
    var ar := Str(b, "nameAr", 1, None);
    var en := Str(b, "nameEn", 1, None);
    var fr := Str(b, "nameFr", 1, None);
    var seats := if "seatCount" in b && b["seatCount"].Number? && b["seatCount"].n >= 1 then Some(b["seatCount"].n) else None;
    var notes := OptStr(b, "notes");
    if cycle.Some? && ar.Some? && en.Some? && fr.Some? && seats.Some? && notes.Some?
    then Some(NewDistrict(cycle.value, ar.value, en.value, fr.value, seats.value, notes.value))
    else None
  }

  /** Every body that carries a valid district's fields is accepted as that district. */
  lemma {:induction false} ParseDistrictAccepts(b: Body, c: Checks, d: NewDistrict)
    requires CarriesDistrict(b, d) && ValidDistrict(d, c)
    ensures ParseDistrict(b, c) == Some(d)
  {
  }

  datatype NewList = NewList(cycleId: string, districtId: string, nameAr: string, nameEn: string, nameFr: string,
                             status: string, announcedAt: Option<int>, notes: Option<string>)

  /** The body's fields are the list's; an absent status stands for DRAFT. */
  predicate CarriesList(b: Body, l: NewList, c: Checks) {
    HoldsText(b, "cycleId", l.cycleId) && HoldsText(b, "districtId", l.districtId)
    && HoldsText(b, "nameAr", l.nameAr) && HoldsText(b, "nameEn", l.nameEn) && HoldsText(b, "nameFr", l.nameFr)
    && HoldsOrDefault(b, "status", l.status, "DRAFT") && HoldsOptDate(b, "announcedAt", l.announcedAt, c)
    && HoldsOptText(b, "notes", l.notes)
  }

  /** What `createElectoralListSchema` demands of the values. */
  predicate ValidList(l: NewList, c: Checks) {
    c.isUuid(l.cycleId) && c.isUuid(l.districtId) && l.nameAr != "" && l.nameEn != "" && l.nameFr != ""
    && l.status in ListStatuses
  }

  /** `createElectoralListSchema`: the status defaults to DRAFT. */
  function ParseList(b: Body, c: Checks): (r: Option<NewList>)
    ensures r.Some? ==> CarriesList(b, r.value, c) && ValidList(r.value, c)
    ensures r.Some? ==> r.value.status in ListStatuses
    ensures r.Some? && "status" !in b ==> r.value.status == "DRAFT"
  {
    var cycle := Uuid(b, "cycleId", c);
    var district := Uuid(b, "districtId", c);
    var ar := Str(b, "nameAr", 1, None);
    var en := Str(b, "nameEn", 1, None);
    var fr := Str(b, "nameFr", 1, None);
    var status := EnumDefault(b, "status", ListStatuses, "DRAFT");
    var at := OptDate(b, "announcedAt", c);
    var notes := OptStr(b, "notes");
    if cycle.Some? && district.Some? && ar.Some? && en.Some? && fr.Some? && status.Some? && at.Some? && notes.Some?
    then Some(NewList(cycle.value, district.value, ar.value, en.value, fr.value, status.value, at.value, notes.value))
    else None
  }

  /** Every body that carries a valid list's fields is accepted, DRAFT filling an absent status. */
  lemma {:induction false} ParseListAccepts(b: Body, c: Checks, l: NewList)
    requires CarriesList(b, l, c) && ValidList(l, c)
    ensures ParseList(b, c) == Some(l)
  {
  }

  /** A decision with optional notes: submissions and replies. */
  datatype Decision = Decision(status: string, notes: Option<string>)

  function ParseDecision(b: Body, allowed: set<string>): (r: Option<Decision>)
    ensures r.Some? <==> "status" in b && b["status"].Text? && b["status"].s in allowed && OptStr(b, "decisionNotes").Some?
    ensures r.Some? ==> r.value.status == b["status"].s
    ensures r.Some? ==> HoldsOptText(b, "decisionNotes", r.value.notes)
  {
    var status := Enum(b, "status", allowed);
    var notes := OptStr(b, "decisionNotes");
    if status.Some? && notes.Some? then Some(Decision(status.value, notes.value)) else None
  }

  /** `approveSubmissionSchema`. */
  function ParseSubmissionDecision(b: Body): (r: Option<Decision>)
    ensures r.Some? ==> r.value.status in {"APPROVED", "REJECTED"} && HoldsText(b, "status", r.value.status)
    ensures r.Some? ==> HoldsOptText(b, "decisionNotes", r.value.notes)
    ensures HoldsText(b, "status", "APPROVED") || HoldsText(b, "status", "REJECTED") ==> (r.Some? <==> OptStr(b, "decisionNotes").Some?)
  {
    ParseDecision(b, {"APPROVED", "REJECTED"})
  }

  /** `publishReplySchema`. */
  function ParseReplyDecision(b: Body): (r: Option<Decision>)
    ensures r.Some? ==> r.value.status in {"PUBLISHED", "REJECTED"} && HoldsText(b, "status", r.value.status)
    ensures r.Some? ==> HoldsOptText(b, "decisionNotes", r.value.notes)
    ensures HoldsText(b, "status", "PUBLISHED") || HoldsText(b, "status", "REJECTED") ==> (r.Some? <==> OptStr(b, "decisionNotes").Some?)
  {
    ParseDecision(b, {"PUBLISHED", "REJECTED"})
  }

  /** `createProfileVersionSchema`. */
  function ParseProfileVersion(b: Body, c: Checks): (r: Option<(string, Option<string>)>)
    ensures r.Some? ==> c.isUuid(r.value.0) && (r.value.1.Some? <==> "changeNote" in b)
    ensures r.Some? ==> HoldsText(b, "candidateId", r.value.0) && HoldsOptText(b, "changeNote", r.value.1)
  {
    var candidate := Uuid(b, "candidateId", c);
    var note := OptStr(b, "changeNote");
    if candidate.Some? && note.Some? then Some((candidate.value, note.value)) else None
  }

  /** A body naming a UUID candidate, with or without a textual change note, is accepted with those values. */
  lemma {:induction false} ParseProfileVersionAccepts(b: Body, c: Checks, candidate: string, note: Option<string>)
    requires HoldsText(b, "candidateId", candidate) && c.isUuid(candidate) && HoldsOptText(b, "changeNote", note)
    ensures ParseProfileVersion(b, c) == Some((candidate, note))
  {
  }

  /** `reviewVersionSchema`: REVIEWED or DRAFT. */
  function ParseReview(b: Body): (r: Option<string>)
    ensures r.Some? <==> HoldsText(b, "publishStatus", "REVIEWED") || HoldsText(b, "publishStatus", "DRAFT")
    ensures r.Some? ==> HoldsText(b, "publishStatus", r.value)
  {
    Enum(b, "publishStatus", {"REVIEWED", "DRAFT"})
  }

  /** `publishVersionSchema`: the literal PUBLISHED. */
  function ParsePublish(b: Body): (r: Option<string>)
    ensures r.Some? <==> HoldsText(b, "publishStatus", "PUBLISHED")
    ensures r.Some? ==> r.value == "PUBLISHED"
  {
    Enum(b, "publishStatus", {"PUBLISHED"})
  }

  /** No body passes both the review and the publish schema: publishing cannot go through review. */
  lemma {:induction false} ReviewAndPublishDisjoint(b: Body)
    ensures !(ParseReview(b).Some? && ParsePublish(b).Some?)
    ensures ParseReview(b).Some? ==> ParseReview(b).value != "PUBLISHED"
  {
  }

  /** The body's status and note are the resolution's. */
  predicate CarriesResolution(b: Body, status: string, note: string) {
    HoldsText(b, "status", status) && HoldsText(b, "resolutionNote", note)
  }

  /** `resolveCorrectionSchema`: RESOLVED or REJECTED, with a non-empty note. */
  function ParseResolution(b: Body): (r: Option<(string, string)>)
    ensures r.Some? ==> CarriesResolution(b, r.value.0, r.value.1)
    ensures r.Some? ==> r.value.0 in {"RESOLVED", "REJECTED"} && r.value.1 != ""
    ensures "resolutionNote" !in b || b["resolutionNote"] == Text("") ==> r.None?
  {
    var status := Enum(b, "status", {"RESOLVED", "REJECTED"});
    var note := Str(b, "resolutionNote", 1, None);
    if status.Some? && note.Some? then Some((status.value, note.value)) else None
  }

  /** Every body with status RESOLVED or REJECTED and a non-empty textual note is accepted with those values. */
  lemma {:induction false} ParseResolutionAccepts(b: Body, status: string, note: string)
    requires CarriesResolution(b, status, note) && status in {"RESOLVED", "REJECTED"} && note != ""
    ensures ParseResolution(b) == Some((status, note))
  {
  }

  /** The query string's pagination part, coerced. */
  function ParsePage(q: map<string, string>, c: Checks): (r: Option<Validation.Pagination>)
    ensures "page" !in q && "pageSize" !in q ==> r == Some(Validation.Pagination(1, 20))
    ensures r.Some? ==> 1 <= r.value.page && 1 <= r.value.pageSize <= Validation.MaxPageSize
  {
    Validation.PaginationDefaults();
    Validation.ParsePagination(if "page" in q then c.numeric(q["page"]) else Validation.Absent,
                               if "pageSize" in q then c.numeric(q["pageSize"]) else Validation.Absent)
  }

  /** An optional query filter: absent, or a value passing `ok`. */
  function Filter(q: map<string, string>, key: string, ok: string -> bool): (r: Option<Option<string>>)
    ensures key !in q ==> r == Some(None)
    ensures r.Some? && r.value.Some? ==> key in q && r.value.value == q[key] && ok(q[key])
  {
    if key !in q then Some(None) else if ok(q[key]) then Some(Some(q[key])) else None
  }

  /** An optional query filter: absent for `None`, the query's value otherwise. */
  predicate HoldsFilter(q: map<string, string>, key: string, o: Option<string>) {
    if o.None? then key !in q else key in q && q[key] == o.value
  }

  datatype CandidateQuery = CandidateQuery(page: Validation.Pagination, cycleId: Option<string>,
                                           districtId: Option<string>, listId: Option<string>,
                                           status: Option<string>, q: Option<string>)

  /** The query string's values are the parsed query's. */
  predicate CarriesCandidateQuery(q: map<string, string>, x: CandidateQuery, c: Checks) {
    ParsePage(q, c) == Some(x.page)
    && HoldsFilter(q, "cycleId", x.cycleId) && HoldsFilter(q, "districtId", x.districtId)
    && HoldsFilter(q, "listId", x.listId) && HoldsFilter(q, "status", x.status) && HoldsFilter(q, "q", x.q)
  }

  /** What `candidateQuerySchema` demands of the filters. */
  predicate ValidCandidateQuery(x: CandidateQuery, c: Checks) {
    OptIsUuid(x.cycleId, c) && OptIsUuid(x.districtId, c) && OptIsUuid(x.listId, c)
    && (x.status.Some? ==> x.status.value in CandidateStatuses)
  }

  /** `candidateQuerySchema`: pagination plus optional filters and a free-text search. */
  function ParseCandidateQuery(q: map<string, string>, c: Checks): (r: Option<CandidateQuery>)
    ensures r.Some? ==> CarriesCandidateQuery(q, r.value, c) && ValidCandidateQuery(r.value, c)
    ensures r.Some? ==> ParsePage(q, c).Some? && r.value.page == ParsePage(q, c).value
    ensures r.Some? && r.value.status.Some? ==> r.value.status.value in CandidateStatuses
    ensures r.Some? && r.value.q.Some? ==> "q" in q && r.value.q.value == q["q"]
  {
    var page := ParsePage(q, c);
    var cycle := Filter(q, "cycleId", c.isUuid);
    var district := Filter(q, "districtId", c.isUuid);
    var list := Filter(q, "listId", c.isUuid);
    var status := Filter(q, "status", s => s in CandidateStatuses);
    var search := Filter(q, "q", _ => true);
    if page.Some? && cycle.Some? && district.Some? && list.Some? && status.Some? && search.Some?
    then Some(CandidateQuery(page.value, cycle.value, district.value, list.value, status.value, search.value))
    else None
  }

  /** Every query string that carries a valid query's values is accepted as that query. */
  lemma {:induction false} ParseCandidateQueryAccepts(q: map<string, string>, c: Checks, x: CandidateQuery)
    requires CarriesCandidateQuery(q, x, c) && ValidCandidateQuery(x, c)
    ensures ParseCandidateQuery(q, c) == Some(x)
  {
  }

  datatype ListQuery = ListQuery(page: Validation.Pagination, cycleId: Option<string>,
                                 districtId: Option<string>, status: Option<string>)

  /** The query string's values are the parsed query's. */
  predicate CarriesListQuery(q: map<string, string>, x: ListQuery, c: Checks) {
    ParsePage(q, c) == Some(x.page)
    && HoldsFilter(q, "cycleId", x.cycleId) && HoldsFilter(q, "districtId", x.districtId)
    && HoldsFilter(q, "status", x.status)
  }

  /** What `listQuerySchema` demands of the filters. */
  predicate ValidListQuery(x: ListQuery, c: Checks) {
    OptIsUuid(x.cycleId, c) && OptIsUuid(x.districtId, c) && (x.status.Some? ==> x.status.value in ListStatuses)
  }

  /** `listQuerySchema`. */
  function ParseListQuery(q: map<string, string>, c: Checks): (r: Option<ListQuery>)
    ensures r.Some? ==> CarriesListQuery(q, r.value, c) && ValidListQuery(r.value, c)
    ensures r.Some? ==> ParsePage(q, c).Some? && r.value.page == ParsePage(q, c).value
    ensures r.Some? && r.value.status.Some? ==> r.value.status.value in ListStatuses
  {
    var page := ParsePage(q, c);
    var cycle := Filter(q, "cycleId", c.isUuid);
    var district := Filter(q, "districtId", c.isUuid);
    var status := Filter(q, "status", s => s in ListStatuses);
    if page.Some? && cycle.Some? && district.Some? && status.Some?
    then Some(ListQuery(page.value, cycle.value, district.value, status.value))
    else None
  }

  /** Every query string that carries a valid query's values is accepted as that query. */
  lemma {:induction false} ParseListQueryAccepts(q: map<string, string>, c: Checks, x: ListQuery)
    requires CarriesListQuery(q, x, c) && ValidListQuery(x, c)
    ensures ParseListQuery(q, c) == Some(x)
  {
  }

  /** `districtQuerySchema`. */
  function ParseDistrictQuery(q: map<string, string>, c: Checks): (r: Option<(Validation.Pagination, Option<string>)>)
    ensures r.Some? ==> HoldsFilter(q, "cycleId", r.value.1)
    ensures r.Some? ==> ParsePage(q, c).Some? && r.value.0 == ParsePage(q, c).value
    ensures r.Some? && r.value.1.Some? ==> c.isUuid(r.value.1.value)
  {
    var page := ParsePage(q, c);
    var cycle := Filter(q, "cycleId", c.isUuid);
    if page.Some? && cycle.Some? then Some((page.value, cycle.value)) else None
  }

  /** A query string whose paging parses and whose cycle filter is absent or a UUID is accepted with those values. */
  lemma {:induction false} ParseDistrictQueryAccepts(q: map<string, string>, c: Checks,
                                                      page: Validation.Pagination, cycle: Option<string>)
    requires ParsePage(q, c) == Some(page) && HoldsFilter(q, "cycleId", cycle) && OptIsUuid(cycle, c)
    ensures ParseDistrictQuery(q, c) == Some((page, cycle))
  {
  }

  /** A query string without any of the schema's keys lists the first twenty candidates unfiltered. */
  lemma {:induction false} EmptyCandidateQuery(c: Checks)
    ensures ParseCandidateQuery(map[], c) == Some(CandidateQuery(Validation.Pagination(1, 20), None, None, None, None, None))
  {
  }
}
