/** The entities of analysis grouping, and the Platform seen as fixed answers to reads. */
module GroupingModel {
  import opened Prelude
  import opened Ordering

  // ---- facts -------------------------------------------------------------------------

  datatype PartitionKey = PartitionKey(peril: string, region: string, version: string)

  datatype Framework = ELT | PLT

  datatype Fact = Fact(analysisId: nat, framework: Framework, peril: string, region: string, version: string,
                       engine: string, subRegion: string, modelRegion: string, schemeId: Option<nat>,
                       petId: Option<nat>, petName: Option<string>, periods: Option<nat>, applyContract: bool)

  function KeyOf(f: Fact): PartitionKey { PartitionKey(f.peril, f.region, f.version) }

  function OrZero(o: Option<nat>): nat { if o.Some? then o.value else 0 }

  function FrameworkName(f: Framework): string { if f == ELT then "ELT" else "PLT" }

  function PartitionSortKey(k: PartitionKey): Key {
    StringKey(k.peril) + (StringKey(k.region) + StringKey(k.version))
  }

  function FactSortKey(f: Fact): Key {
    PartitionSortKey(KeyOf(f)) + StringKey(FrameworkName(f.framework)) + StringKey(f.modelRegion)
    + StringKey(f.engine) + [OrZero(f.schemeId), OrZero(f.petId), OrZero(f.periods)]
  }

  /** Peril, then region, then version. */
  ghost predicate KeyPrecedes(j: PartitionKey, k: PartitionKey) {
    if j.peril != k.peril then Precedes(j.peril, k.peril)
    else if j.region != k.region then Precedes(j.region, k.region)
    else Precedes(j.version, k.version)
  }

  /** Facts in the order of their keys, ELT before PLT, then by model region, engine, scheme, PET and
      periods, an id that is not there counting as zero. */
  ghost predicate FactPrecedes(f: Fact, g: Fact) {
    if KeyOf(f) != KeyOf(g) then KeyPrecedes(KeyOf(f), KeyOf(g))
    else if f.framework != g.framework then f.framework == ELT
    else if f.modelRegion != g.modelRegion then Precedes(f.modelRegion, g.modelRegion)
    else if f.engine != g.engine then Precedes(f.engine, g.engine)
    else if OrZero(f.schemeId) != OrZero(g.schemeId) then OrZero(f.schemeId) < OrZero(g.schemeId)
    else if OrZero(f.petId) != OrZero(g.petId) then OrZero(f.petId) < OrZero(g.petId)
    else OrZero(f.periods) <= OrZero(g.periods)
  }

  lemma Regrouped(a: Key, b: Key, c: Key, d: Key)
    ensures (a + (b + c)) + d == a + (b + (c + d))
  {
  }

  lemma PartitionOrder(j: PartitionKey, a: Key, k: PartitionKey, b: Key)
    ensures Leq(PartitionSortKey(j) + a, PartitionSortKey(k) + b) <==> if j == k then Leq(a, b) else KeyPrecedes(j, k)
  {
    var ja, kb := StringKey(j.version) + a, StringKey(k.version) + b;
    Regrouped(StringKey(j.peril), StringKey(j.region), StringKey(j.version), a);
    Regrouped(StringKey(k.peril), StringKey(k.region), StringKey(k.version), b);
    TextOrder(j.peril, StringKey(j.region) + ja, k.peril, StringKey(k.region) + kb);
    TextOrder(j.region, ja, k.region, kb);
    TextOrder(j.version, a, k.version, b);
  }

  lemma TripleOrder(a: int, b: int, c: int, x: int, y: int, z: int)
    ensures Leq([a, b, c], [x, y, z]) <==> if a != x then a < x else if b != y then b < y else c <= z
  {
    assert [a, b, c][1..] == [b, c] && [x, y, z][1..] == [y, z];
    PairOrder(b, c, y, z);
  }

  function IdsKey(f: Fact): Key { [OrZero(f.schemeId), OrZero(f.petId), OrZero(f.periods)] }

  lemma FactKeyIs(f: Fact)
    ensures FactSortKey(f)
         == PartitionSortKey(KeyOf(f))
            + (StringKey(FrameworkName(f.framework)) + (StringKey(f.modelRegion) + (StringKey(f.engine) + IdsKey(f))))
  {
    FiveParts(PartitionSortKey(KeyOf(f)), StringKey(FrameworkName(f.framework)), StringKey(f.modelRegion), StringKey(f.engine), IdsKey(f));
  }

  lemma FiveParts(a: Key, b: Key, c: Key, d: Key, e: Key)
    ensures a + b + c + d + e == a + (b + (c + (d + e)))
  {
  }

  lemma FactOrder(f: Fact, g: Fact)
    ensures Leq(FactSortKey(f), FactSortKey(g)) <==> FactPrecedes(f, g)
  {
    FactKeyIs(f);
    FactKeyIs(g);
    var a, b := StringKey(f.engine) + IdsKey(f), StringKey(g.engine) + IdsKey(g);
    var m, n := FrameworkName(f.framework), FrameworkName(g.framework);
    PartitionOrder(KeyOf(f), StringKey(m) + (StringKey(f.modelRegion) + a), KeyOf(g), StringKey(n) + (StringKey(g.modelRegion) + b));
    TextOrder(m, StringKey(f.modelRegion) + a, n, StringKey(g.modelRegion) + b);
    if f.framework != g.framework { FrameworkOrder(f.framework, g.framework); }
    TextOrder(f.modelRegion, a, g.modelRegion, b);
    TextOrder(f.engine, IdsKey(f), g.engine, IdsKey(g));
    TripleOrder(OrZero(f.schemeId), OrZero(f.petId), OrZero(f.periods), OrZero(g.schemeId), OrZero(g.petId), OrZero(g.periods));
  }

  lemma FrameworkOrder(f: Framework, g: Framework)
    requires f != g
    ensures FrameworkName(f) != FrameworkName(g) && (Precedes(FrameworkName(f), FrameworkName(g)) <==> f == ELT)
  {
    var m, n := FrameworkName(f), FrameworkName(g);
    assert "ELT"[0] == 'E' && "PLT"[0] == 'P';
    assert m[..0] == n[..0];
    assert forall k :: 0 < k <= 3 ==> m[..k][0] == m[0] && n[..k][0] == n[0];
  }

  function NatKey(n: nat): Key { [n] }

  lemma PartitionSortKeyInjective(j: PartitionKey, k: PartitionKey)
    requires PartitionSortKey(j) == PartitionSortKey(k)
    ensures j == k
  {
    StringKeyPrefixFree(j.peril, k.peril, StringKey(j.region) + StringKey(j.version), StringKey(k.region) + StringKey(k.version));
    StringKeyPrefixFree(j.region, k.region, StringKey(j.version), StringKey(k.version));
    StringKeyInjective(j.version, k.version);
  }

  lemma PartitionKeysInjective(s: set<PartitionKey>)
    ensures InjectiveOn(s, PartitionSortKey)
  {
    forall j, k | j in s && k in s && PartitionSortKey(j) == PartitionSortKey(k) ensures j == k {
      PartitionSortKeyInjective(j, k);
    }
  }

  lemma StringKeysInjective(s: set<string>)
    ensures InjectiveOn(s, StringKey)
  {
    forall j, k | j in s && k in s && StringKey(j) == StringKey(k) ensures j == k {
      StringKeyInjective(j, k);
    }
  }

  function SortedStrings(s: set<string>): seq<string> {
    StringKeysInjective(s);
    SortedSet(s, StringKey)
  }

  function SortedNats(s: set<nat>): seq<nat> {
    assert forall m, n :: m in s && n in s && NatKey(m) == NatKey(n) ==> m == n by {
      assert forall m: nat :: NatKey(m)[0] == m;
    }
    SortedSet(s, NatKey)
  }

  function SortedPartitions(s: set<PartitionKey>): seq<PartitionKey> {
    PartitionKeysInjective(s);
    SortedSet(s, PartitionSortKey)
  }

  lemma SortedStringsIs(s: set<string>)
    ensures SortedForm(SortedStrings(s), s, StringKey)
  {
    StringKeysInjective(s);
    SortedSetIs(s, StringKey);
  }

  lemma SortedNatsIs(s: set<nat>)
    ensures SortedForm(SortedNats(s), s, NatKey)
  {
    assert InjectiveOn(s, NatKey) by { assert forall m: nat :: NatKey(m)[0] == m; }
    SortedSetIs(s, NatKey);
  }

  lemma SortedNatsIncrease(s: set<nat>)
    ensures var r := SortedNats(s);
            (forall n :: n in r <==> n in s) && forall i, j :: 0 <= i < j < |r| ==> r[i] < r[j]
  {
    var r := SortedNats(s);
    SortedNatsIs(s);
    forall i, j | 0 <= i < j < |r| ensures r[i] < r[j] {
      assert Leq(NatKey(r[i]), NatKey(r[j])) && NatKey(r[i])[0] == r[i] && NatKey(r[j])[0] == r[j];
    }
  }

  lemma SortedPartitionsIs(s: set<PartitionKey>)
    ensures SortedForm(SortedPartitions(s), s, PartitionSortKey)
  {
    PartitionKeysInjective(s);
    SortedSetIs(s, PartitionSortKey);
  }

  datatype Member = Member(analysisId: nat, found: bool, isGroup: bool, framework: Option<string>, engineType: Option<string>,
                           engineVersion: Option<string>, peril: Option<string>, region: Option<string>,
                           version: Option<string>, regions: seq<Fact>)

  // ---- partitions, problems, requests ------------------------------------------------

  datatype SchemeOption = SchemeOption(id: nat, schemeLabel: Option<string>)

  datatype SimulationOption = SimulationOption(id: nat, periods: nat, schemeId: Option<nat>, setLabel: Option<string>)

  datatype Partition = Partition(key: PartitionKey, analysisIds: seq<nat>, schemeOptions: seq<SchemeOption>,
                                 petIds: seq<nat>, schemeRequired: bool,
                                 simulationOptions: seq<SimulationOption>, simulationRequired: bool)

  datatype Mapping = Mapping(partition: PartitionKey, analysisIds: seq<nat>, engines: string, modelRegion: string,
                             schemeId: nat, setId: nat, periods: nat)

  datatype ProblemCode =
    | MemberNotFound | MemberRegionDataMissing | MemberClassificationConflict
    | ModelVersionMappingMissing | ModelVersionMappingAmbiguous
    | EventRateSchemeMissing | EventRateSchemeMappingMissing | SimulationSetMappingMissing
    | RegionRowMetadataMissing | PetIdMissing | PetPeriodsMissing | ApplyContractFlagUnsupported
    | SelectionMissing(what: string) | SelectionDuplicate(what: string) | SelectionUnknownPartition(what: string)
    | SelectionNotRequired(what: string) | SelectionNotOffered(what: string)
    | InspectionChanged

  /** `message` stands for the parts of a problem that do not identify it. */
  datatype Problem = Problem(code: ProblemCode, analysisIds: seq<nat>, partition: Option<PartitionKey>,
                             petIds: seq<nat>, subRegions: seq<string>, message: string)

  /** The fields under which problems are deduplicated. */
  datatype ProblemId = ProblemId(code: ProblemCode, analysisIds: seq<nat>, partition: Option<PartitionKey>,
                                 petIds: seq<nat>, subRegions: seq<string>)

  function IdOf(p: Problem): ProblemId { ProblemId(p.code, p.analysisIds, p.partition, p.petIds, p.subRegions) }

  datatype Json =
    | JNull | JBool(b: bool) | JNumber(text: string) | JString(s: string)
    | JList(items: seq<Json>) | JObject(fields: map<string, Json>)

  datatype Treaty = Treaty(analysisId: nat, treatyId: Option<nat>, number: string, terms: map<string, Json>)

  /** A treaty number whose treaties differ, and in what. */
  datatype Warning = Warning(number: string, analysisIds: seq<nat>, treatyIds: seq<nat>,
                             differingFields: seq<string>, treaties: seq<Treaty>)

  /** One row of the request's region-peril simulation set. */
  datatype Entry = Entry(engine: string, schemeId: nat, modelRegion: string, modelVersion: string,
                         peril: string, region: string, periods: nat, setId: nat)

  datatype Inspection = Inspection(analysisIds: seq<nat>, resourceUris: seq<string>, fingerprint: string,
                                   members: seq<Member>, simulateToPlt: bool, partitions: seq<Partition>,
                                   mappings: seq<Mapping>, treaties: seq<Treaty>, required: seq<string>,
                                   warnings: seq<Warning>, blocking: seq<Problem>)

  // ---- the canonical payload of the fingerprint -----------------------------------------

  datatype PartitionView = PartitionView(key: PartitionKey, analysisIds: seq<nat>, schemeIds: seq<nat>, petIds: seq<nat>,
                                         schemeRequired: bool, simulations: seq<(nat, nat, Option<nat>)>,
                                         simulationRequired: bool)

  datatype ProblemView = ProblemView(code: ProblemCode, analysisIds: seq<nat>, partition: Option<PartitionKey>, petIds: seq<nat>)

  datatype Payload = Payload(analysisIds: seq<nat>, resourceUris: seq<string>, members: seq<Member>, simulateToPlt: bool,
                             partitions: seq<PartitionView>, mappings: seq<Mapping>, treaties: seq<Treaty>,
                             problems: seq<ProblemView>)

  /** Canonical JSON texts, the resource address of an analysis, and the digest. */
  datatype Codec = Codec(problem: ProblemId -> string, entry: Entry -> string, json: Json -> string,
                         uri: nat -> string, digest: Payload -> string)

  ghost predicate Injective<A(!new), B>(f: A -> B) {
    forall x, y :: f(x) == f(y) ==> x == y
  }

  /** Canonical texts and digests identify what they encode. */
  ghost predicate Faithful(c: Codec) {
    Injective(c.problem) && Injective(c.entry) && Injective(c.json) && Injective(c.digest)
  }

  // ---- the Platform ------------------------------------------------------------------

  /** The fields inspection reads off an analysis detail. */
  datatype Detail = Detail(framework: Option<string>, engine: Option<string>, peril: Option<string>, region: Option<string>,
                           perilName: Option<string>, regionName: Option<string>, scheme: Option<nat>,
                           schemeLabel: Option<string>, engineType: Option<string>, isGroup: bool)

  datatype AnalysisAnswer = NotFound | ReadFails | Found(detail: Detail)

  /** One region row: its fields, or a row that is not a mapping. */
  datatype RawRegion =
    | Malformed
    | RawRegion(framework: Option<string>, subRegion: Option<string>, engine: Option<string>, regionText: Option<string>,
                perilText: Option<string>, applyContract: bool, scheme: Option<nat>, pet: Option<nat>, periods: Option<nat>)

  datatype RegionAnswer = RegionsFail | Regions(rows: seq<RawRegion>)

  datatype RawTreaty = RawTreaty(number: Option<string>, id: Option<nat>, fields: map<string, Json>)

  datatype TreatyAnswer = TreatiesFail | Treaties(rows: seq<RawTreaty>)

  datatype VersionKey = VersionKey(engine: string, region: string, peril: string)

  datatype PetKey = PetKey(pet: nat, version: string, modelRegion: string)

  /** A model-version lookup raises, and says whether several versions matched. */
  datatype VersionAnswer = Version(code: string) | VersionError(multiple: bool)

  /** A reference row that names a model region under some id. */
  datatype RegionRef = RegionRef(id: Option<nat>, modelRegion: Option<string>)

  datatype SchemeRow = SchemeRow(id: Option<nat>, name: Option<string>, peril: Option<string>,
                                 modelRegion: Option<string>, modelVersion: Option<string>)

  datatype SimulationRow = SimulationRow(id: Option<nat>, periods: Option<nat>, scheme: Option<nat>, name: Option<string>,
                                         peril: Option<string>, modelRegion: Option<string>, modelVersion: Option<string>,
                                         source: Option<string>)

  datatype TotalCount = NoTotal | NotACount | Total(n: int)

  /** The scheme search answers with rows and a claimed total, or with something else. */
  datatype SchemeAnswer = NotAList | SchemeRows(rows: seq<SchemeRow>, total: TotalCount)

  datatype Platform = Platform(
    analysis: nat -> AnalysisAnswer,
    treaties: nat -> TreatyAnswer,
    regions: nat -> RegionAnswer,
    version: VersionKey -> VersionAnswer,
    petName: PetKey -> Option<string>,
    schemes: SchemeAnswer,
    allPets: Option<seq<RegionRef>>,
    simulationSets: Option<seq<SimulationRow>>)

  /** The region rows of an analysis, where the read answers. */
  function RegionRows(p: Platform, id: nat): seq<RawRegion> {
    if p.regions(id).Regions? then p.regions(id).rows else []
  }

  /** The active scheme rows, unless the read raises: a short read is refused. */
  function ActiveSchemes(p: Platform): Option<seq<SchemeRow>> {
    match p.schemes
    case NotAList => None
    case SchemeRows(rows, total) =>
      if total.NotACount? || (total.Total? && |rows| < total.n) then None else Some(rows)
  }

  // ---- text ------------------------------------------------------------------------------

  function UpperChar(c: char): char { if 'a' <= c <= 'z' then c - 32 as char else c }

  function Upper(s: string): (r: string)
    ensures |r| == |s|
  {
    seq(|s|, i requires 0 <= i < |s| => UpperChar(s[i]))
  }

  function LowerChar(c: char): char { if 'A' <= c <= 'Z' then c + 32 as char else c }

  /** The same text, in either case of letters. */
  predicate SameFolded(s: string, t: string) {
    |s| == |t| && forall i :: 0 <= i < |s| ==> LowerChar(s[i]) == LowerChar(t[i])
  }

  lemma SameUpper(s: string, t: string)
    ensures Upper(s) == Upper(t) <==> SameFolded(s, t)
  {
    assert |Upper(s)| == |s| && |Upper(t)| == |t|;
    if Upper(s) == Upper(t) {
      forall i | 0 <= i < |s| ensures LowerChar(s[i]) == LowerChar(t[i]) {
        assert Upper(s)[i] == Upper(t)[i];
      }
    }
  }

  function Joined(parts: seq<string>, separator: string): string {
    if parts == [] then ""
    else if |parts| == 1 then parts[0]
    else parts[0] + separator + Joined(parts[1..], separator)
  }

  /** The parts of a text between separators. */
  ghost function Split(s: string, c: char): (parts: seq<string>)
    ensures parts != []
  {
    if s == "" then [""]
    else if s[0] == c then [""] + Split(s[1..], c)
    else
      var rest := Split(s[1..], c);
      [[s[0]] + rest[0]] + rest[1..]
  }

  lemma {:induction false} SplitFirst(part: string, rest: string, c: char)
    requires c !in part
    ensures Split(part, c) == [part]
    ensures Split(part + [c] + rest, c) == [part] + Split(rest, c)
  {
    var s := part + [c] + rest;
    if part == "" {
      assert s[1..] == rest;
    } else {
      SplitFirst(part[1..], rest, c);
      assert s[1..] == part[1..] + [c] + rest;
      assert part == [part[0]] + part[1..];
    }
  }

  /** Texts joined with a separator none of them contains can be taken apart again. */
  lemma {:induction false} SplitJoined(parts: seq<string>, c: char)
    requires parts != [] && forall part :: part in parts ==> c !in part
    ensures Split(Joined(parts, [c]), c) == parts
  {
    if |parts| == 1 {
      SplitFirst(parts[0], "", c);
    } else {
      SplitJoined(parts[1..], c);
      SplitFirst(parts[0], Joined(parts[1..], [c]), c);
      assert parts == [parts[0]] + parts[1..];
    }
  }
}
