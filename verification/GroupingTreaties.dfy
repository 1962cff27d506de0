/** Warnings about treaties that carry one number but different loss-affecting terms. */
module GroupingTreaties {
  import opened Prelude
  import opened Ordering
  import opened GroupingModel

  // ---- normalised terms -----------------------------------------------------------------

  type Fields = map<string, Json>

  function Get(fields: Fields, name: string): Json { if name in fields then fields[name] else JNull }

  const LOSS_AFFECTING_FIELDS: set<string> := {
    "cedant", "treatyType", "currency", "attachmentBasis", "attachmentLevel", "occurrenceLimit", "attachmentPoint",
    "riskLimit", "retentionAmount", "percentagePlaced", "effectiveDate", "expirationDate", "percentageRetention",
    "percentageRiShare", "percentageCovered", "priority", "numberOfReinstatements", "reinstatementCharge",
    "maolAmount", "aggregateDeductible", "aggregateLimit" }

  const TERM_FIELDS: set<string> := LOSS_AFFECTING_FIELDS + {"lobs", "lossOccurrences"}

  /** A reference is named by its first key that is set, a plain value by itself. */
  function ReferenceValue(value: Json, first: string, second: string): Json {
    if !value.JObject? then value
    else if Get(value.fields, first) != JNull then Get(value.fields, first)
    else Get(value.fields, second)
  }

  /** What iterating over a value yields, once a value that counts as false is taken for an empty
      list: items, characters or keys. Numbers and true cannot be iterated over. The keys come in
      whatever order; they are sorted later. */
  function Items(value: Json): Option<seq<Json>> {
    match value
    case JNull => Some([])
    case JBool(b) => if b then None else Some([])
    case JNumber(text) => if text in {"0", "0.0", "-0.0"} then Some([]) else None
    case JString(s) => Some(seq(|s|, i requires 0 <= i < |s| => JString([s[i]])))
    case JList(items) => Some(items)
    case JObject(fields) =>
      var keys := SortedStrings(fields.Keys);
      Some(seq(|keys|, i requires 0 <= i < |keys| => JString(keys[i])))
  }

  function LobTerm(lob: Json): Json { ReferenceValue(lob, "lobId", "lobName") }

  function OccurrenceTerm(o: Json): Json {
    if !o.JObject? then o
    else JObject(map["regionPeril" := ReferenceValue(Get(o.fields, "regionPeril"), "code", "id"),
                     "lossOccurrenceTime" := Get(o.fields, "lossOccurrenceTime"),
                     "lossOccurrenceRadius" := Get(o.fields, "lossOccurrenceRadius"),
                     "radiusUnit" := ReferenceValue(Get(o.fields, "radiusUnit"), "code", "id"),
                     "multiLossOccurrence" := ReferenceValue(Get(o.fields, "multiLossOccurrence"), "code", "id")])
  }

  function JsonKey(codec: Codec): Json -> Key { j => StringKey(codec.json(j)) }

  function SortedTerms(codec: Codec, items: seq<Json>, term: Json -> Json): Json {
    JList(StableSort(Mapped(items, term), JsonKey(codec)))
  }

  function PlainTerms(treaty: Fields): Fields { map name | name in LOSS_AFFECTING_FIELDS :: Get(treaty, name) }

  function TermsWith(codec: Codec, treaty: Fields, lobs: seq<Json>, occurrences: seq<Json>): Fields {
    PlainTerms(treaty)
    ["cedant" := ReferenceValue(Get(treaty, "cedant"), "cedantId", "cedantName")]
    ["currency" := ReferenceValue(Get(treaty, "currency"), "code", "id")]
    ["lobs" := SortedTerms(codec, lobs, LobTerm)]
    ["lossOccurrences" := SortedTerms(codec, occurrences, OccurrenceTerm)]
  }

  /** The normalised terms; None where a value that cannot be iterated over raises. */
  function TermsOf(codec: Codec, treaty: Fields): Option<Fields> {
    var lobs, occurrences := Items(Get(treaty, "lobs")), Items(Get(treaty, "lossOccurrences"));
    if lobs.None? || occurrences.None? then None else Some(TermsWith(codec, treaty, lobs.value, occurrences.value))
  }

  lemma TermFields(codec: Codec, treaty: Fields)
    ensures TermsOf(codec, treaty).Some? ==> TermsOf(codec, treaty).value.Keys == TERM_FIELDS
  {
  }

  lemma SortedTermsPermuted(codec: Codec, xs: seq<Json>, ys: seq<Json>, term: Json -> Json)
    requires Injective(codec.json) && multiset(xs) == multiset(ys)
    ensures SortedTerms(codec, xs, term) == SortedTerms(codec, ys, term)
  {
    MappedPermuted(xs, ys, term);
    forall i, j | i in Mapped(xs, term) && j in Mapped(xs, term) && JsonKey(codec)(i) == JsonKey(codec)(j) ensures i == j {
      StringKeyInjective(codec.json(i), codec.json(j));
    }
    PermutedSort(Mapped(xs, term), Mapped(ys, term), JsonKey(codec));
  }

  /** Two values list the same items, in whatever order, or neither can be iterated over. */
  ghost predicate SameItems(v: Json, w: Json) {
    if Items(v).None? then Items(w).None? else Items(w).Some? && multiset(Items(v).value) == multiset(Items(w).value)
  }

  /** The order of a treaty's lines of business and of its loss occurrences does not matter. */
  lemma TermsPermuted(codec: Codec, treaty: Fields, other: Fields)
    requires Injective(codec.json)
    requires forall name :: name in LOSS_AFFECTING_FIELDS ==> Get(treaty, name) == Get(other, name)
    requires SameItems(Get(treaty, "lobs"), Get(other, "lobs"))
    requires SameItems(Get(treaty, "lossOccurrences"), Get(other, "lossOccurrences"))
    ensures TermsOf(codec, treaty) == TermsOf(codec, other)
  {
    var lobs, occurrences := Items(Get(treaty, "lobs")), Items(Get(treaty, "lossOccurrences"));
    var lobs', occurrences' := Items(Get(other, "lobs")), Items(Get(other, "lossOccurrences"));
    if lobs.Some? && occurrences.Some? {
      TermsWithPermuted(codec, treaty, other, lobs.value, lobs'.value, occurrences.value, occurrences'.value);
    }
  }

  lemma TermsWithPermuted(codec: Codec, treaty: Fields, other: Fields, lobs: seq<Json>, lobs': seq<Json>,
                          occurrences: seq<Json>, occurrences': seq<Json>)
    requires Injective(codec.json)
    requires forall name :: name in LOSS_AFFECTING_FIELDS ==> Get(treaty, name) == Get(other, name)
    requires multiset(lobs) == multiset(lobs') && multiset(occurrences) == multiset(occurrences')
    ensures TermsWith(codec, treaty, lobs, occurrences) == TermsWith(codec, other, lobs', occurrences')
  {
    SortedTermsPermuted(codec, lobs, lobs', LobTerm);
    SortedTermsPermuted(codec, occurrences, occurrences', OccurrenceTerm);
    assert PlainTerms(treaty) == PlainTerms(other);
    assert "cedant" in LOSS_AFFECTING_FIELDS && "currency" in LOSS_AFFECTING_FIELDS;
  }

  // ---- what the terms are ---------------------------------------------------------------------

  /** A reference is named by its first key if that is set, else by its second; a plain value by itself. */
  ghost predicate IsReference(r: Json, value: Json, first: string, second: string) {
    match value
    case JObject(fields) =>
      if first in fields && fields[first] != JNull then r == fields[first]
      else r == if second in fields then fields[second] else JNull
    case _ => r == value
  }

  /** A loss occurrence keeps its five fields, three of them as references. */
  ghost predicate IsOccurrence(r: Json, value: Json) {
    match value
    case JObject(fields) =>
      && r.JObject? && r.fields.Keys == {"regionPeril", "lossOccurrenceTime", "lossOccurrenceRadius", "radiusUnit", "multiLossOccurrence"}
      && IsReference(r.fields["regionPeril"], Get(fields, "regionPeril"), "code", "id")
      && r.fields["lossOccurrenceTime"] == Get(fields, "lossOccurrenceTime")
      && r.fields["lossOccurrenceRadius"] == Get(fields, "lossOccurrenceRadius")
      && IsReference(r.fields["radiusUnit"], Get(fields, "radiusUnit"), "code", "id")
      && IsReference(r.fields["multiLossOccurrence"], Get(fields, "multiLossOccurrence"), "code", "id")
    case _ => r == value
  }

  /** What a value that can be iterated over lists. */
  ghost predicate Lists(value: Json, listed: seq<Json>) {
    match value
    case JNull => listed == []
    case JBool(b) => !b && listed == []
    case JNumber(text) => (text == "0" || text == "0.0" || text == "-0.0") && listed == []
    case JString(s) => |listed| == |s| && forall i :: 0 <= i < |s| ==> listed[i] == JString([s[i]])
    case JList(items) => listed == items
    case JObject(fields) =>
      Distinct(listed) && forall item :: item in listed <==> exists key :: key in fields && item == JString(key)
  }

  lemma ItemsAre(value: Json)
    ensures Items(value).Some? ==> Lists(value, Items(value).value)
    ensures Items(value).None? ==> forall listed :: !Lists(value, listed)
  {
    if value.JObject? {
      var keys, listed := SortedStrings(value.fields.Keys), Items(value).value;
      SortedStringsIs(value.fields.Keys);
      forall item ensures item in listed <==> exists key :: key in value.fields && item == JString(key) {
        if key :| key in value.fields && item == JString(key) {
          var i :| 0 <= i < |keys| && keys[i] == key;
          assert listed[i] == item;
        }
        if item in listed {
          var i :| 0 <= i < |listed| && listed[i] == item;
          assert keys[i] in keys;
        }
      }
    }
  }

  /** The field of the terms holds the images of what the value lists, ordered by their texts. */
  ghost predicate Ordered(codec: Codec, field: Json, images: seq<Json>) {
    && field.JList? && multiset(field.items) == multiset(images)
    && forall i, j :: 0 <= i < j < |field.items| ==>
         Leq(StringKey(codec.json(field.items[i])), StringKey(codec.json(field.items[j])))
  }

  ghost predicate ReferencesOf(images: seq<Json>, listed: seq<Json>) {
    |images| == |listed| && forall i :: 0 <= i < |listed| ==> IsReference(images[i], listed[i], "lobId", "lobName")
  }

  ghost predicate OccurrencesOf(images: seq<Json>, listed: seq<Json>) {
    |images| == |listed| && forall i :: 0 <= i < |listed| ==> IsOccurrence(images[i], listed[i])
  }

  ghost predicate LobsAre(codec: Codec, field: Json, value: Json) {
    exists listed, images :: Lists(value, listed) && ReferencesOf(images, listed) && Ordered(codec, field, images)
  }

  ghost predicate OccurrencesAre(codec: Codec, field: Json, value: Json) {
    exists listed, images :: Lists(value, listed) && OccurrencesOf(images, listed) && Ordered(codec, field, images)
  }

  /** The fields that are compared as they are. */
  ghost predicate Compared(name: string) { name in LOSS_AFFECTING_FIELDS && name != "cedant" && name != "currency" }

  /** They are these. */
  lemma ComparedAre(name: string)
    ensures Compared(name) <==>
            name in {"treatyType", "attachmentBasis", "attachmentLevel", "occurrenceLimit", "attachmentPoint", "riskLimit",
                     "retentionAmount", "percentagePlaced", "effectiveDate", "expirationDate", "percentageRetention",
                     "percentageRiShare", "percentageCovered", "priority", "numberOfReinstatements", "reinstatementCharge",
                     "maolAmount", "aggregateDeductible", "aggregateLimit"}
  {
    assert "cedant"[..2] == "ce" && "currency"[..2] == "cu";
  }

  lemma NoListsAmongThem(name: string)
    requires name in LOSS_AFFECTING_FIELDS
    ensures name != "" && name[0] != 'l'
  {
  }

  /** The terms of a treaty: its plain fields as they are, the cedant and the currency as references,
      its lines of business and loss occurrences item by item. */
  ghost predicate AreTerms(codec: Codec, treaty: Fields, terms: Fields) {
    && (forall name :: name in terms <==> Compared(name) || name in {"cedant", "currency", "lobs", "lossOccurrences"})
    && (forall name :: Compared(name) ==> terms[name] == if name in treaty then treaty[name] else JNull)
    && IsReference(terms["cedant"], Get(treaty, "cedant"), "cedantId", "cedantName")
    && IsReference(terms["currency"], Get(treaty, "currency"), "code", "id")
    && LobsAre(codec, terms["lobs"], Get(treaty, "lobs"))
    && OccurrencesAre(codec, terms["lossOccurrences"], Get(treaty, "lossOccurrences"))
  }

  lemma SortedIsOrdered(codec: Codec, images: seq<Json>)
    ensures Ordered(codec, JList(StableSort(images, JsonKey(codec))), images)
  {
    var sorted, key := StableSort(images, JsonKey(codec)), JsonKey(codec);
    StableSortIs(images, key, []);
    forall i, j | 0 <= i < j < |sorted| ensures Leq(StringKey(codec.json(sorted[i])), StringKey(codec.json(sorted[j]))) {
      assert Leq(key(sorted[i]), key(sorted[j]));
    }
  }

  lemma PlainFields(codec: Codec, treaty: Fields, lobs: seq<Json>, occurrences: seq<Json>)
    ensures var terms := TermsWith(codec, treaty, lobs, occurrences);
            && (forall name :: name in terms <==> Compared(name) || name in {"cedant", "currency", "lobs", "lossOccurrences"})
            && (forall name :: Compared(name) ==> terms[name] == Get(treaty, name))
  {
    var terms := TermsWith(codec, treaty, lobs, occurrences);
    assert "lobs"[0] == 'l' && "lossOccurrences"[0] == 'l';
    forall name | Compared(name) ensures terms[name] == Get(treaty, name) {
      NoListsAmongThem(name);
    }
  }

  lemma OtherFields(codec: Codec, treaty: Fields, lobs: seq<Json>, occurrences: seq<Json>)
    ensures var terms := TermsWith(codec, treaty, lobs, occurrences);
            && terms["cedant"] == ReferenceValue(Get(treaty, "cedant"), "cedantId", "cedantName")
            && terms["currency"] == ReferenceValue(Get(treaty, "currency"), "code", "id")
            && terms["lobs"] == SortedTerms(codec, lobs, LobTerm)
            && terms["lossOccurrences"] == SortedTerms(codec, occurrences, OccurrenceTerm)
  {
    assert "cedant"[1] == 'e' && "currency"[1] == 'u' && |"lobs"| == 4 && |"lossOccurrences"| == 15;
  }

  lemma ReferenceIs(value: Json, first: string, second: string)
    ensures IsReference(ReferenceValue(value, first, second), value, first, second)
  {
  }

  lemma OccurrenceIs(value: Json)
    ensures IsOccurrence(OccurrenceTerm(value), value)
  {
  }

  lemma LobsListed(codec: Codec, value: Json, listed: seq<Json>)
    requires Lists(value, listed)
    ensures LobsAre(codec, SortedTerms(codec, listed, LobTerm), value)
  {
    SortedIsOrdered(codec, Mapped(listed, LobTerm));
    assert ReferencesOf(Mapped(listed, LobTerm), listed);
  }

  lemma OccurrencesListed(codec: Codec, value: Json, listed: seq<Json>)
    requires Lists(value, listed)
    ensures OccurrencesAre(codec, SortedTerms(codec, listed, OccurrenceTerm), value)
  {
    SortedIsOrdered(codec, Mapped(listed, OccurrenceTerm));
    forall i | 0 <= i < |listed| ensures IsOccurrence(Mapped(listed, OccurrenceTerm)[i], listed[i]) {
      OccurrenceIs(listed[i]);
    }
    assert OccurrencesOf(Mapped(listed, OccurrenceTerm), listed);
  }

  lemma TermsWithAre(codec: Codec, treaty: Fields, lobs: seq<Json>, occurrences: seq<Json>)
    requires Lists(Get(treaty, "lobs"), lobs) && Lists(Get(treaty, "lossOccurrences"), occurrences)
    ensures AreTerms(codec, treaty, TermsWith(codec, treaty, lobs, occurrences))
  {
    PlainFields(codec, treaty, lobs, occurrences);
    OtherFields(codec, treaty, lobs, occurrences);
    ReferenceIs(Get(treaty, "cedant"), "cedantId", "cedantName");
    ReferenceIs(Get(treaty, "currency"), "code", "id");
    LobsListed(codec, Get(treaty, "lobs"), lobs);
    OccurrencesListed(codec, Get(treaty, "lossOccurrences"), occurrences);
  }

  /** A treaty has terms exactly when what should be lists can be iterated over. */
  lemma TermsAre(codec: Codec, treaty: Fields)
    ensures TermsOf(codec, treaty).Some? ==> AreTerms(codec, treaty, TermsOf(codec, treaty).value)
    ensures TermsOf(codec, treaty).Some? <==>
            (exists listed :: Lists(Get(treaty, "lobs"), listed)) && exists listed :: Lists(Get(treaty, "lossOccurrences"), listed)
  {
    ItemsAre(Get(treaty, "lobs"));
    ItemsAre(Get(treaty, "lossOccurrences"));
    if TermsOf(codec, treaty).Some? {
      TermsWithAre(codec, treaty, Items(Get(treaty, "lobs")).value, Items(Get(treaty, "lossOccurrences")).value);
    }
  }

  method MapItems(items: seq<Json>, term: Json -> Json) returns (r: seq<Json>)
    ensures r == Mapped(items, term)
  {
    r := [];
    for i := 0 to |items|
      invariant r == Mapped(items[..i], term)
    {
      assert items[..i + 1] == items[..i] + [items[i]];
      r := r + [term(items[i])];
    }
    assert items[..|items|] == items;
  }

  /** `_loss_affecting_treaty_terms`. */
  method LossAffectingTerms(codec: Codec, treaty: Fields) returns (r: Option<Fields>)
    ensures r == TermsOf(codec, treaty)
  {
    var terms := PlainTerms(treaty);
    terms := terms["cedant" := ReferenceValue(Get(treaty, "cedant"), "cedantId", "cedantName")];
    terms := terms["currency" := ReferenceValue(Get(treaty, "currency"), "code", "id")];
    var lobItems := Items(Get(treaty, "lobs"));
    if lobItems.None? { return None; }
    var lobs := MapItems(lobItems.value, LobTerm);
    terms := terms["lobs" := JList(StableSort(lobs, JsonKey(codec)))];
    var occurrenceItems := Items(Get(treaty, "lossOccurrences"));
    if occurrenceItems.None? { return None; }
    var occurrences := MapItems(occurrenceItems.value, OccurrenceTerm);
    terms := terms["lossOccurrences" := JList(StableSort(occurrences, JsonKey(codec)))];
    r := Some(terms);
  }

  // ---- warnings -------------------------------------------------------------------------------

  function Numbers(treaties: seq<Treaty>): set<string> { set t | t in treaties :: t.number }

  function WithNumber(treaties: seq<Treaty>, number: string): seq<Treaty> {
    if treaties == [] then []
    else
      var n := |treaties| - 1;
      WithNumber(treaties[..n], number) + if treaties[n].number == number then [treaties[n]] else []
  }

  /** The texts of all terms, and the texts of one field, over some treaties. */
  function TermTexts(codec: Codec, matches: seq<Treaty>): set<string> {
    set t | t in matches :: codec.json(JObject(t.terms))
  }

  function FieldTexts(codec: Codec, matches: seq<Treaty>, field: string): set<string> {
    set t | t in matches :: codec.json(Get(t.terms, field))
  }

  function DifferingFields(codec: Codec, matches: seq<Treaty>): set<string>
    requires matches != []
  {
    set field | field in matches[0].terms && |FieldTexts(codec, matches, field)| > 1
  }

  function ListedKey(t: Treaty): Key { [t.analysisId, OrZero(t.treatyId)] }

  function WarningFor(codec: Codec, number: string, matches: seq<Treaty>): seq<Warning> {
    if |matches| < 2 || |TermTexts(codec, matches)| == 1 then []
    else [Warning(number,
                  SortedNats(set t | t in matches :: t.analysisId),
                  SortedNats(set t | t in matches && t.treatyId.Some? :: t.treatyId.value),
                  SortedStrings(DifferingFields(codec, matches)),
                  StableSort(matches, ListedKey))]
  }

  function WarningsFor(codec: Codec, treaties: seq<Treaty>, numbers: seq<string>): seq<Warning> {
    if numbers == [] then []
    else
      var n := |numbers| - 1;
      WarningsFor(codec, treaties, numbers[..n]) + WarningFor(codec, numbers[n], WithNumber(treaties, numbers[n]))
  }

  function Warnings(codec: Codec, treaties: seq<Treaty>): seq<Warning> {
    WarningsFor(codec, treaties, SortedStrings(Numbers(treaties)))
  }

  // ---- what is warned about ---------------------------------------------------------------------------

  /** All terms have the same fields, as normalised terms do. */
  ghost predicate Uniform(treaties: seq<Treaty>, fields: set<string>) {
    forall t :: t in treaties ==> t.terms.Keys == fields
  }

  ghost predicate Inconsistent(treaties: seq<Treaty>, number: string) {
    exists s, t :: s in treaties && t in treaties && s.number == number == t.number && s.terms != t.terms
  }

  ghost predicate DiffersIn(treaties: seq<Treaty>, number: string, field: string) {
    exists s, t :: s in treaties && t in treaties && s.number == number == t.number && Get(s.terms, field) != Get(t.terms, field)
  }

  lemma {:induction false} WithNumberIs(treaties: seq<Treaty>, number: string)
    ensures forall t :: t in WithNumber(treaties, number) <==> t in treaties && t.number == number
  {
    if treaties != [] {
      var n := |treaties| - 1;
      WithNumberIs(treaties[..n], number);
      assert treaties == treaties[..n] + [treaties[n]];
    }
  }

  lemma SeveralElements<T>(s: set<T>)
    ensures |s| > 1 <==> exists a, b :: a in s && b in s && a != b
  {
    if a, b :| a in s && b in s && a != b {
      assert {a, b} <= s;
      assert |{a, b}| == 2;
      SubsetSize({a, b}, s);
    }
    if |s| > 1 {
      var a :| a in s;
      var rest := s - {a};
      assert |rest| == |s| - 1 > 0;
      var b :| b in rest;
      assert a in s && b in s && a != b;
    }
  }

  lemma SubsetSize<T>(s: set<T>, t: set<T>)
    requires s <= t
    ensures |s| <= |t|
  {
    assert t == s + (t - s);
  }

  lemma FieldDiffers(codec: Codec, treaties: seq<Treaty>, number: string, field: string)
    requires Injective(codec.json)
    ensures |FieldTexts(codec, WithNumber(treaties, number), field)| > 1 <==> DiffersIn(treaties, number, field)
  {
    var matches := WithNumber(treaties, number);
    var texts := FieldTexts(codec, matches, field);
    WithNumberIs(treaties, number);
    SeveralElements(texts);
    if |texts| > 1 {
      var a, b :| a in texts && b in texts && a != b;
      var s :| s in matches && a == codec.json(Get(s.terms, field));
      var t :| t in matches && b == codec.json(Get(t.terms, field));
    }
    if DiffersIn(treaties, number, field) {
      var s, t :| s in treaties && t in treaties && s.number == number == t.number && Get(s.terms, field) != Get(t.terms, field);
      assert codec.json(Get(s.terms, field)) in texts && codec.json(Get(t.terms, field)) in texts;
    }
  }

  lemma TermsDiffer(codec: Codec, treaties: seq<Treaty>, number: string)
    requires Injective(codec.json)
    ensures |TermTexts(codec, WithNumber(treaties, number))| > 1 <==> Inconsistent(treaties, number)
  {
    var matches := WithNumber(treaties, number);
    var texts := TermTexts(codec, matches);
    WithNumberIs(treaties, number);
    SeveralElements(texts);
    if |texts| > 1 {
      var a, b :| a in texts && b in texts && a != b;
      var s :| s in matches && a == codec.json(JObject(s.terms));
      var t :| t in matches && b == codec.json(JObject(t.terms));
    }
    if Inconsistent(treaties, number) {
      var s, t :| s in treaties && t in treaties && s.number == number == t.number && s.terms != t.terms;
      assert JObject(s.terms) != JObject(t.terms);
      assert codec.json(JObject(s.terms)) in texts && codec.json(JObject(t.terms)) in texts;
    }
  }

  /** A warning is due exactly when two treaties of the number differ in their terms. */
  lemma WarnedIffInconsistent(codec: Codec, treaties: seq<Treaty>, number: string)
    requires Injective(codec.json)
    ensures WarningFor(codec, number, WithNumber(treaties, number)) != [] <==> Inconsistent(treaties, number)
  {
    var matches := WithNumber(treaties, number);
    TermsDiffer(codec, treaties, number);
    WithNumberIs(treaties, number);
    var texts := TermTexts(codec, matches);
    if matches != [] { assert codec.json(JObject(matches[0].terms)) in texts; }
    if |texts| > 1 {
      SeveralElements(texts);
      assert |matches| >= 2;
    }
  }

  /** The fields named are those on which two treaties of the number differ: at least one, each
      once, in order. */
  ghost predicate NamesFields(treaties: seq<Treaty>, number: string, named: seq<string>) {
    && (forall field :: field in named <==> DiffersIn(treaties, number, field))
    && named != [] && Ascending(named, StringKey) && Distinct(named)
  }

  ghost predicate Increasing(ids: seq<nat>) { forall i, j :: 0 <= i < j < |ids| ==> ids[i] < ids[j] }

  /** The ids are those of the treaties of the number and of their analyses, each once, in order. */
  ghost predicate NamesIds(treaties: seq<Treaty>, w: Warning) {
    && (forall id :: id in w.analysisIds <==> exists t :: t in treaties && t.number == w.number && t.analysisId == id)
    && (forall id :: id in w.treatyIds <==> exists t :: t in treaties && t.number == w.number && t.treatyId == Some(id))
    && Increasing(w.analysisIds) && Increasing(w.treatyIds)
  }

  /** By analysis and, within one, by treaty id, a treaty without an id first. */
  ghost predicate ListedInOrder(ts: seq<Treaty>) {
    forall i, j :: 0 <= i < j < |ts| ==>
      || ts[i].analysisId < ts[j].analysisId
      || (ts[i].analysisId == ts[j].analysisId
          && (ts[i].treatyId.Some? ==> ts[i].treatyId.value <= if ts[j].treatyId.Some? then ts[j].treatyId.value else 0))
  }

  ghost predicate Describes(treaties: seq<Treaty>, w: Warning) {
    && NamesFields(treaties, w.number, w.differingFields)
    && NamesIds(treaties, w)
    && multiset(w.treaties) == multiset(WithNumber(treaties, w.number)) && ListedInOrder(w.treaties)
  }

  lemma DifferingFieldIff(codec: Codec, treaties: seq<Treaty>, number: string, fields: set<string>, field: string)
    requires Injective(codec.json) && Uniform(treaties, fields) && WithNumber(treaties, number) != []
    ensures field in DifferingFields(codec, WithNumber(treaties, number)) <==> DiffersIn(treaties, number, field)
  {
    var matches := WithNumber(treaties, number);
    WithNumberIs(treaties, number);
    assert matches[0] in matches && matches[0] in treaties;
    FieldDiffers(codec, treaties, number, field);
    if DiffersIn(treaties, number, field) {
      var s, t :| s in treaties && t in treaties && s.number == number == t.number && Get(s.terms, field) != Get(t.terms, field);
      assert s.terms.Keys == fields && t.terms.Keys == fields;
      assert field in fields;
    }
  }

  lemma SomeFieldDiffers(treaties: seq<Treaty>, number: string, fields: set<string>)
    requires Uniform(treaties, fields) && Inconsistent(treaties, number)
    ensures exists field :: DiffersIn(treaties, number, field)
  {
    var s, t :| s in treaties && t in treaties && s.number == number == t.number && s.terms != t.terms;
    assert s.terms.Keys == t.terms.Keys;
    var field :| field in s.terms && s.terms[field] != t.terms[field];
    assert DiffersIn(treaties, number, field);
  }

  lemma FieldsNamed(codec: Codec, treaties: seq<Treaty>, number: string, fields: set<string>)
    requires Injective(codec.json) && Uniform(treaties, fields) && Inconsistent(treaties, number)
    requires WithNumber(treaties, number) != []
    ensures NamesFields(treaties, number, SortedStrings(DifferingFields(codec, WithNumber(treaties, number))))
  {
    var differing := DifferingFields(codec, WithNumber(treaties, number));
    var named := SortedStrings(differing);
    SortedStringsIs(differing);
    forall field ensures field in named <==> DiffersIn(treaties, number, field) {
      DifferingFieldIff(codec, treaties, number, fields, field);
    }
    SomeFieldDiffers(treaties, number, fields);
  }

  lemma IdsNamed(treaties: seq<Treaty>, matches: seq<Treaty>, w: Warning)
    requires forall t :: t in matches <==> t in treaties && t.number == w.number
    requires w.analysisIds == SortedNats(set t | t in matches :: t.analysisId)
    requires w.treatyIds == SortedNats(set t | t in matches && t.treatyId.Some? :: t.treatyId.value)
    ensures NamesIds(treaties, w)
  {
    SortedNatsIncrease(set t | t in matches :: t.analysisId);
    SortedNatsIncrease(set t | t in matches && t.treatyId.Some? :: t.treatyId.value);
    forall id | id in w.treatyIds ensures exists t :: t in treaties && t.number == w.number && t.treatyId == Some(id) {
      var t :| t in matches && t.treatyId.Some? && t.treatyId.value == id;
    }
  }

  lemma SortedIsListed(ts: seq<Treaty>)
    ensures ListedInOrder(StableSort(ts, ListedKey))
  {
    var r := StableSort(ts, ListedKey);
    StableSortIs(ts, ListedKey, []);
    forall i, j | 0 <= i < j < |r|
      ensures ListedKey(r[i])[0] < ListedKey(r[j])[0]
              || (ListedKey(r[i])[0] == ListedKey(r[j])[0] && ListedKey(r[i])[1] <= ListedKey(r[j])[1])
    {
      PairOrder(r[i].analysisId, OrZero(r[i].treatyId), r[j].analysisId, OrZero(r[j].treatyId));
    }
  }

  /** The warning of a number names exactly the differing fields, at least one, and exactly the
      analyses, treaty ids and treaties of the number. */
  lemma WarningDescribes(codec: Codec, treaties: seq<Treaty>, number: string, fields: set<string>)
    requires Injective(codec.json) && Uniform(treaties, fields) && Inconsistent(treaties, number)
    ensures var ws := WarningFor(codec, number, WithNumber(treaties, number));
            |ws| == 1 && ws[0].number == number && Describes(treaties, ws[0])
  {
    var matches := WithNumber(treaties, number);
    WarnedIffInconsistent(codec, treaties, number);
    WithNumberIs(treaties, number);
    FieldsNamed(codec, treaties, number, fields);
    IdsNamed(treaties, matches, WarningFor(codec, number, matches)[0]);
    StableSortIs(matches, ListedKey, []);
    SortedIsListed(matches);
  }

  ghost predicate WarnsAt(codec: Codec, treaties: seq<Treaty>, number: string, w: Warning) {
    w in WarningFor(codec, number, WithNumber(treaties, number))
  }

  lemma {:induction false} WarningsForAre(codec: Codec, treaties: seq<Treaty>, numbers: seq<string>)
    ensures forall w :: w in WarningsFor(codec, treaties, numbers) <==>
              exists number :: number in numbers && WarnsAt(codec, treaties, number, w)
  {
    if numbers != [] {
      var n := |numbers| - 1;
      WarningsForAre(codec, treaties, numbers[..n]);
      assert numbers == numbers[..n] + [numbers[n]];
      forall w ensures w in WarningsFor(codec, treaties, numbers) <==>
                         w in WarningsFor(codec, treaties, numbers[..n]) || WarnsAt(codec, treaties, numbers[n], w) {
      }
    }
  }

  ghost predicate AreAmong(ws: seq<Warning>, numbers: seq<string>) {
    forall i :: 0 <= i < |ws| ==> ws[i].number in numbers
  }

  ghost predicate OncePerNumber(ws: seq<Warning>) {
    forall i, j :: 0 <= i < j < |ws| ==>
      Leq(StringKey(ws[i].number), StringKey(ws[j].number)) && ws[i].number != ws[j].number
  }

  lemma OneMoreWarning(ws: seq<Warning>, numbers: seq<string>, number: string, w: Warning)
    requires AreAmong(ws, numbers) && OncePerNumber(ws) && w.number == number
    requires Ascending(numbers + [number], StringKey) && Distinct(numbers + [number])
    ensures AreAmong(ws + [w], numbers + [number]) && OncePerNumber(ws + [w])
  {
    forall i | 0 <= i < |ws| ensures Leq(StringKey(ws[i].number), StringKey(number)) && ws[i].number != number {
      assert ws[i].number in numbers;
      var j :| 0 <= j < |numbers| && numbers[j] == ws[i].number;
      assert (numbers + [number])[j] == ws[i].number && (numbers + [number])[|numbers|] == number;
    }
  }

  /** Every number is warned about at most once, in order. */
  lemma {:induction false} WarningsAscend(codec: Codec, treaties: seq<Treaty>, numbers: seq<string>)
    requires Ascending(numbers, StringKey) && Distinct(numbers)
    ensures AreAmong(WarningsFor(codec, treaties, numbers), numbers)
    ensures OncePerNumber(WarningsFor(codec, treaties, numbers))
  {
    if numbers != [] {
      var n := |numbers| - 1;
      WarningsAscend(codec, treaties, numbers[..n]);
      assert numbers == numbers[..n] + [numbers[n]];
      var last := WarningFor(codec, numbers[n], WithNumber(treaties, numbers[n]));
      if last != [] { OneMoreWarning(WarningsFor(codec, treaties, numbers[..n]), numbers[..n], numbers[n], last[0]); }
    }
  }

  lemma WarningDue(codec: Codec, treaties: seq<Treaty>, fields: set<string>, number: string)
    requires Injective(codec.json) && Uniform(treaties, fields) && Inconsistent(treaties, number)
    ensures exists w :: w in Warnings(codec, treaties) && w.number == number
  {
    var numbers := SortedStrings(Numbers(treaties));
    SortedStringsIs(Numbers(treaties));
    WarningsForAre(codec, treaties, numbers);
    WarningDescribes(codec, treaties, number, fields);
    var w := WarningFor(codec, number, WithNumber(treaties, number))[0];
    assert number in numbers && WarnsAt(codec, treaties, number, w);
  }

  lemma WarningRight(codec: Codec, treaties: seq<Treaty>, fields: set<string>, w: Warning)
    requires Injective(codec.json) && Uniform(treaties, fields) && w in Warnings(codec, treaties)
    ensures Inconsistent(treaties, w.number) && Describes(treaties, w)
  {
    var numbers := SortedStrings(Numbers(treaties));
    WarningsForAre(codec, treaties, numbers);
    var number :| number in numbers && WarnsAt(codec, treaties, number, w);
    WarnedIffInconsistent(codec, treaties, number);
    WarningDescribes(codec, treaties, number, fields);
  }

  /** A number is warned about exactly when two of its treaties differ in their normalised terms,
      then once, and every warning describes its number. */
  lemma WarningsAre(codec: Codec, treaties: seq<Treaty>, fields: set<string>)
    requires Injective(codec.json) && Uniform(treaties, fields)
    ensures forall number :: Inconsistent(treaties, number) <==> exists w :: w in Warnings(codec, treaties) && w.number == number
    ensures forall w :: w in Warnings(codec, treaties) ==> Describes(treaties, w)
    ensures OncePerNumber(Warnings(codec, treaties))
  {
    forall number | Inconsistent(treaties, number) ensures exists w :: w in Warnings(codec, treaties) && w.number == number {
      WarningDue(codec, treaties, fields, number);
    }
    forall w | w in Warnings(codec, treaties) ensures Inconsistent(treaties, w.number) && Describes(treaties, w) {
      WarningRight(codec, treaties, fields, w);
    }
    SortedStringsIs(Numbers(treaties));
    WarningsAscend(codec, treaties, SortedStrings(Numbers(treaties)));
  }

  // ---- the loops ---------------------------------------------------------------------------------------

  /** `by_number`: the treaties of each number, in order. */
  method GroupByNumber(treaties: seq<Treaty>) returns (byNumber: map<string, seq<Treaty>>)
    ensures byNumber.Keys == Numbers(treaties)
    ensures forall n :: n in byNumber ==> byNumber[n] == WithNumber(treaties, n)
  {
    byNumber := map[];
    for i := 0 to |treaties|
      invariant byNumber.Keys == Numbers(treaties[..i])
      invariant forall n :: n in byNumber ==> byNumber[n] == WithNumber(treaties[..i], n)
    {
      WithNumberMore(treaties, i);
      var number := treaties[i].number;
      if number !in byNumber { NoneWithNumber(treaties[..i], number); }
      byNumber := byNumber[number := (if number in byNumber then byNumber[number] else []) + [treaties[i]]];
    }
    assert treaties[..|treaties|] == treaties;
  }

  lemma WithNumberMore(treaties: seq<Treaty>, i: nat)
    requires i < |treaties|
    ensures Numbers(treaties[..i + 1]) == Numbers(treaties[..i]) + {treaties[i].number}
    ensures forall n :: WithNumber(treaties[..i + 1], n)
                     == WithNumber(treaties[..i], n) + if treaties[i].number == n then [treaties[i]] else []
  {
    assert treaties[..i + 1] == treaties[..i] + [treaties[i]];
    assert treaties[..i + 1][..i] == treaties[..i];
  }

  lemma NoneWithNumber(treaties: seq<Treaty>, number: string)
    requires number !in Numbers(treaties)
    ensures WithNumber(treaties, number) == []
  {
  }

  method WarnAbout(codec: Codec, number: string, matches: seq<Treaty>) returns (warnings: seq<Warning>)
    ensures warnings == WarningFor(codec, number, matches)
  {
    if |matches| < 2 { return []; }
    if |TermTexts(codec, matches)| == 1 { return []; }
    var differing := SortedStrings(DifferingFields(codec, matches));
    var affected := SortedNats(set t | t in matches :: t.analysisId);
    var ids := SortedNats(set t | t in matches && t.treatyId.Some? :: t.treatyId.value);
    warnings := [Warning(number, affected, ids, differing, StableSort(matches, ListedKey))];
  }

  method WarnAboutAll(codec: Codec, byNumber: map<string, seq<Treaty>>, numbers: seq<string>, ghost treaties: seq<Treaty>)
    returns (warnings: seq<Warning>)
    requires forall n :: n in numbers ==> n in byNumber && byNumber[n] == WithNumber(treaties, n)
    ensures warnings == WarningsFor(codec, treaties, numbers)
  {
    warnings := [];
    for i := 0 to |numbers|
      invariant warnings == WarningsFor(codec, treaties, numbers[..i])
    {
      assert numbers[..i + 1][..i] == numbers[..i];
      assert numbers[i] in numbers;
      var more := WarnAbout(codec, numbers[i], byNumber[numbers[i]]);
      warnings := warnings + more;
    }
    assert numbers[..|numbers|] == numbers;
  }

  /** `_treaty_warnings`. */
  method TreatyWarnings(codec: Codec, treaties: seq<Treaty>) returns (warnings: seq<Warning>)
    ensures warnings == Warnings(codec, treaties)
  {
    var byNumber := GroupByNumber(treaties);
    SortedStringsIs(byNumber.Keys);
    warnings := WarnAboutAll(codec, byNumber, SortedStrings(byNumber.Keys), treaties);
  }
}
