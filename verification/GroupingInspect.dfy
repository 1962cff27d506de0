/** Inspection: gather the members, partition their facts, work out the choices offered, and
    report what blocks the group. */
module GroupingInspect {
  import opened Prelude
  import opened Ordering
  import opened GroupingModel
  import opened GroupingLookups
  import opened GroupingProblems
  import opened GroupingRegions
  import opened GroupingTreaties

  // ---- one member ---------------------------------------------------------------------

  datatype Examination =
    | ExamineRaises
    | Examined(member: Member, problems: seq<Problem>, treaties: seq<Treaty>, schemeLabel: Option<(nat, Option<string>)>)

  function PlainProblem(code: ProblemCode, id: nat): Problem { Problem(code, [id], None, [], [], "") }

  function AbsentMember(id: nat): Member { Member(id, false, false, None, None, None, None, None, None, []) }

  /** The treaties of one analysis; None where one carries no number, or its terms raise. */
  function TreatiesOf(codec: Codec, id: nat, rows: seq<RawTreaty>): Option<seq<Treaty>> {
    if rows == [] then Some([])
    else
      match TreatiesOf(codec, id, rows[..|rows| - 1])
      case None => None
      case Some(before) =>
        var row := rows[|rows| - 1];
        var terms := TermsOf(codec, row.fields);
        if row.number.None? || terms.None? then None
        else Some(before + [Treaty(id, row.id, row.number.value, terms.value)])
  }

  predicate FrameworksConflict(d: Detail, observed: set<Framework>) {
    Has(d.framework) && observed != {} && (set f | f in observed :: FrameworkName(f)) != {d.framework.value}
  }

  function MemberFramework(d: Detail, observed: set<Framework>): Option<string> {
    if d.framework.None? && observed == {ELT} then Some("ELT")
    else if d.framework.None? && observed == {PLT} then Some("PLT")
    else d.framework
  }

  function SoleVersion(facts: seq<Fact>): Option<string> { TheOnly(set f | f in facts :: f.version) }

  function FoundMember(id: nat, d: Detail, facts: seq<Fact>, observed: set<Framework>): Member {
    Member(id, true, d.isGroup, MemberFramework(d, observed), d.engineType, d.engine, d.peril, d.region,
           SoleVersion(facts), StableSort(facts, FactSortKey))
  }

  function Examine(p: Platform, codec: Codec, id: nat): Examination {
    match p.analysis(id)
    case ReadFails => ExamineRaises
    case NotFound => Examined(AbsentMember(id), [PlainProblem(MemberNotFound, id)], [], None)
    case Found(d) =>
      var treaties := if p.treaties(id).TreatiesFail? then None else TreatiesOf(codec, id, p.treaties(id).rows);
      var regions := RegionsOf(p, id, d, RegionRows(p, id));
      if treaties.None? || p.regions(id).RegionsFail? || regions.RegionsRaise? then ExamineRaises
      else
        Examined(
          FoundMember(id, d, regions.facts, regions.frameworks),
          (if RegionRows(p, id) == [] then [PlainProblem(MemberRegionDataMissing, id)] else [])
          + regions.problems
          + (if FrameworksConflict(d, regions.frameworks) then [PlainProblem(MemberClassificationConflict, id)] else []),
          treaties.value,
          if d.scheme.Some? then Some((d.scheme.value, d.schemeLabel)) else None)
  }

  method ReadTreaties(codec: Codec, id: nat, rows: seq<RawTreaty>) returns (r: Option<seq<Treaty>>)
    ensures r == TreatiesOf(codec, id, rows)
  {
    var treaties: seq<Treaty> := [];
    for i := 0 to |rows|
      invariant TreatiesOf(codec, id, rows[..i]) == Some(treaties)
    {
      assert rows[..i + 1][..i] == rows[..i];
      if rows[i].number.None? {
        TreatyRaiseStays(codec, id, rows, i + 1);
        return None;
      }
      var terms := LossAffectingTerms(codec, rows[i].fields);
      if terms.None? {
        TreatyRaiseStays(codec, id, rows, i + 1);
        return None;
      }
      treaties := treaties + [Treaty(id, rows[i].id, rows[i].number.value, terms.value)];
    }
    assert rows[..|rows|] == rows;
    r := Some(treaties);
  }

  /** One turn of the loop over the analyses in `_inspect`. */
  method ExamineAnalysis(codec: Codec, id: nat, lookups: ReferenceLookups) returns (r: Examination)
    requires lookups.Valid()
    modifies lookups
    ensures lookups.Valid() && r == Examine(lookups.platform, codec, id)
  {
    var analysis := lookups.platform.analysis(id);
    if analysis.ReadFails? { return ExamineRaises; }
    if analysis.NotFound? {
      return Examined(AbsentMember(id), [PlainProblem(MemberNotFound, id)], [], None);
    }
    var d := analysis.detail;
    var raw := lookups.platform.treaties(id);
    if raw.TreatiesFail? { return ExamineRaises; }
    var treaties := ReadTreaties(codec, id, raw.rows);
    if treaties.None? { return ExamineRaises; }
    if lookups.platform.regions(id).RegionsFail? { return ExamineRaises; }
    var rows := lookups.platform.regions(id).rows;
    var problems: seq<Problem> := [];
    if rows == [] { problems := [PlainProblem(MemberRegionDataMissing, id)]; }
    var regions := RegionFacts(id, d, rows, lookups);
    if regions.RegionsRaise? { return ExamineRaises; }
    problems := problems + regions.problems;
    if FrameworksConflict(d, regions.frameworks) {
      problems := problems + [PlainProblem(MemberClassificationConflict, id)];
    } else {
      assert problems + [] == problems;
    }
    r := Examined(FoundMember(id, d, regions.facts, regions.frameworks), problems, treaties.value,
                  if d.scheme.Some? then Some((d.scheme.value, d.schemeLabel)) else None);
  }

  lemma {:induction false} TreatyRaiseStays(codec: Codec, id: nat, rows: seq<RawTreaty>, n: nat)
    requires n <= |rows| && TreatiesOf(codec, id, rows[..n]).None?
    ensures TreatiesOf(codec, id, rows).None?
    decreases |rows|
  {
    if n == |rows| {
      assert rows[..n] == rows;
    } else {
      assert rows[..|rows| - 1][..n] == rows[..n];
      TreatyRaiseStays(codec, id, rows[..|rows| - 1], n);
    }
  }

  // ---- all members --------------------------------------------------------------------------

  datatype Gathering =
    | GatherRaises
    | Gathered(members: seq<Member>, problems: seq<Problem>, treaties: seq<Treaty>, labels: map<nat, Option<string>>)

  function AddExamination(g: Gathering, e: Examination): Gathering {
    if g.GatherRaises? || e.ExamineRaises? then GatherRaises
    else
      Gathered(g.members + [e.member], g.problems + e.problems, g.treaties + e.treaties,
               if e.schemeLabel.Some? then g.labels[e.schemeLabel.value.0 := e.schemeLabel.value.1] else g.labels)
  }

  /** The lists grown and the labels overwritten, one examination after the other. */
  function Collect(es: seq<Examination>): Gathering {
    if es == [] then Gathered([], [], [], map[]) else AddExamination(Collect(es[..|es| - 1]), es[|es| - 1])
  }

  lemma CollectMore(es: seq<Examination>, i: nat)
    requires i < |es|
    ensures Collect(es[..i + 1]) == AddExamination(Collect(es[..i]), es[i])
  {
    assert es[..i + 1][..i] == es[..i];
  }

  function Examinations(p: Platform, codec: Codec, ids: seq<nat>): (es: seq<Examination>)
    ensures |es| == |ids|
  {
    seq(|ids|, i requires 0 <= i < |ids| => Examine(p, codec, ids[i]))
  }

  function Gather(p: Platform, codec: Codec, ids: seq<nat>): Gathering { Collect(Examinations(p, codec, ids)) }

  lemma {:induction false} CollectIs(es: seq<Examination>)
    ensures Collect(es).GatherRaises? <==> exists i :: 0 <= i < |es| && es[i].ExamineRaises?
    ensures Collect(es).Gathered? ==>
              && |Collect(es).members| == |es|
              && (forall i :: 0 <= i < |es| ==> es[i].Examined? && Collect(es).members[i] == es[i].member)
              && (forall q :: q in Collect(es).problems <==> exists i :: 0 <= i < |es| && ProblemIn(es[i], q))
  {
    if es != [] {
      var n := |es| - 1;
      var before := es[..n];
      CollectIs(before);
      assert es == before + [es[n]];
      if i :| 0 <= i < |es| && es[i].ExamineRaises? {
        if i < n { assert before[i].ExamineRaises?; }
      }
      if Collect(es).Gathered? {
        forall q ensures q in Collect(es).problems <==> exists i :: 0 <= i < |es| && ProblemIn(es[i], q) {
          if i :| 0 <= i < |before| && ProblemIn(before[i], q) { assert ProblemIn(es[i], q); }
          if i :| 0 <= i < |es| && ProblemIn(es[i], q) {
            if i < n { assert ProblemIn(before[i], q); }
          }
        }
      }
    }
  }

  predicate ProblemIn(e: Examination, q: Problem) { e.Examined? && q in e.problems }

  lemma {:induction false} CollectRaiseStays(es: seq<Examination>, n: nat)
    requires n <= |es| && Collect(es[..n]).GatherRaises?
    ensures Collect(es).GatherRaises?
  {
    CollectIs(es[..n]);
    CollectIs(es);
    var i :| 0 <= i < n && es[..n][i].ExamineRaises?;
    assert es[i].ExamineRaises?;
  }

  // ---- partitions ------------------------------------------------------------------------------

  function FactsOf(members: seq<Member>): set<Fact> {
    set m, f | m in members && f in m.regions :: f
  }

  function FactsWith(facts: set<Fact>, key: PartitionKey): set<Fact> {
    set f | f in facts && KeyOf(f) == key
  }

  function EltFacts(facts: set<Fact>): set<Fact> { set f | f in facts && f.framework == ELT }

  function SchemesIn(facts: set<Fact>): set<nat> {
    set f | f in facts && f.framework == ELT && f.schemeId.Some? :: f.schemeId.value
  }

  function AnalysesIn(facts: set<Fact>): set<nat> { set f | f in facts :: f.analysisId }

  function PetsIn(facts: set<Fact>): set<nat> {
    set f | f in facts && f.framework == PLT && f.petId.Some? :: f.petId.value
  }

  function EnginesIn(facts: set<Fact>): string {
    Joined(SortedStrings(set f | f in facts && f.framework == ELT :: f.engine), ",")
  }

  function BroadRegion(key: PartitionKey): string { key.region + key.peril }

  predicate Applicable(r: SchemeRow, key: PartitionKey, sameVersion: bool) {
    r.id.Some? && r.peril == Some(key.peril) && r.modelRegion == Some(BroadRegion(key))
    && (sameVersion ==> r.modelVersion == Some(key.version))
  }

  /** Applicable schemes by id; of two rows with one id the later names it. */
  function SchemeTable(rows: seq<SchemeRow>, key: PartitionKey, sameVersion: bool): map<nat, Option<string>> {
    if rows == [] then map[]
    else
      var before := SchemeTable(rows[..|rows| - 1], key, sameVersion);
      var row := rows[|rows| - 1];
      if Applicable(row, key, sameVersion) then before[row.id.value := row.name] else before
  }

  function SchemeName(rows: seq<SchemeRow>, id: nat): Option<string> {
    if rows == [] then None
    else if rows[0].id == Some(id) then rows[0].name
    else SchemeName(rows[1..], id)
  }

  predicate Convertible(r: SimulationRow, key: PartitionKey, active: set<nat>) {
    && r.modelRegion == Some(BroadRegion(key)) && r.modelVersion == Some(key.version) && r.peril == Some(key.peril)
    && (r.source.None? || r.source.value == "SYSTEM")
    && r.scheme.Some? && r.scheme.value in active
    && r.id.Some? && r.periods.Some?
  }

  function SimulationTable(rows: seq<SimulationRow>, key: PartitionKey, active: set<nat>): map<nat, SimulationOption> {
    if rows == [] then map[]
    else
      var before := SimulationTable(rows[..|rows| - 1], key, active);
      var row := rows[|rows| - 1];
      if Convertible(row, key, active)
      then before[row.id.value := SimulationOption(row.id.value, row.periods.value, row.scheme, row.name)]
      else before
  }

  /** What every partition is worked out from. */
  datatype Context = Context(schemes: Option<seq<SchemeRow>>, simulations: seq<SimulationRow>, simulate: bool,
                             dlm: set<nat>, labels: map<nat, Option<string>>)

  function ActiveIds(c: Context): set<nat> {
    if c.schemes.None? then {} else set r | r in c.schemes.value && r.id.Some? :: r.id.value
  }

  datatype PartitionResult =
    | PartitionRaises
    | PartitionDone(partition: Partition, problems: seq<Problem>, mappings: seq<Mapping>)

  function SchemeOptions(c: Context, facts: set<Fact>, key: PartitionKey): seq<SchemeOption>
    requires SchemesIn(facts) != {} ==> c.schemes.Some?
  {
    var ids := SortedNats(SchemesIn(facts));
    if |SchemesIn(facts)| > 1 then
      var table := SchemeTable(c.schemes.value, key, forall f :: f in EltFacts(facts) ==> f.analysisId in c.dlm);
      var offered := SortedNats(table.Keys);
      SortedNatsIs(table.Keys);
      seq(|offered|, i requires 0 <= i < |offered| => SchemeOption(offered[i], table[offered[i]]))
    else if ids == [] then []
    else
      seq(|ids|, i requires 0 <= i < |ids| =>
        SchemeOption(ids[i], if Has(SchemeName(c.schemes.value, ids[i])) then SchemeName(c.schemes.value, ids[i])
                             else if ids[i] in c.labels then c.labels[ids[i]] else None))
  }

  function SimulationOptions(c: Context, facts: set<Fact>, key: PartitionKey): seq<SimulationOption> {
    if c.simulate && EltFacts(facts) != {} then
      var table := SimulationTable(c.simulations, key, ActiveIds(c));
      var ids := SortedNats(table.Keys);
      SortedNatsIs(table.Keys);
      seq(|ids|, i requires 0 <= i < |ids| => table[ids[i]])
    else []
  }

  function PartitionOf(c: Context, facts: set<Fact>, key: PartitionKey): PartitionResult {
    if SchemesIn(facts) != {} && c.schemes.None? then PartitionRaises
    else
      var conflict := |SchemesIn(facts)| > 1;
      var schemes := SchemeOptions(c, facts, key);
      var simulations := SimulationOptions(c, facts, key);
      var eltIds := SortedNats(AnalysesIn(EltFacts(facts)));
      PartitionDone(
        Partition(key, SortedNats(AnalysesIn(facts)), schemes, SortedNats(PetsIn(facts)), conflict,
                  simulations, simulations != []),
        (if conflict && schemes == [] then [Problem(EventRateSchemeMappingMissing, eltIds, Some(key), [], [], "")] else [])
        + (if c.simulate && EltFacts(facts) != {} && simulations == []
           then [Problem(SimulationSetMappingMissing, eltIds, Some(key), [], [], "")] else []),
        seq(|simulations|, i requires 0 <= i < |simulations| => MappingFor(key, eltIds, EnginesIn(facts), simulations[i])))
  }

  function MappingFor(key: PartitionKey, eltIds: seq<nat>, engines: string, option: SimulationOption): Mapping {
    Mapping(key, eltIds, engines, BroadRegion(key), OrZero(option.schemeId), option.id, option.periods)
  }

  // ---- the payload --------------------------------------------------------------------------------

  function MemberSortKey(m: Member): Key { [m.analysisId] }

  function TreatySortKey(t: Treaty): Key { [t.analysisId] + (StringKey(t.number) + [OrZero(t.treatyId)]) }

  function MappingSortKey(m: Mapping): Key {
    PartitionSortKey(m.partition) + [m.setId, m.schemeId, m.periods] + StringKey(m.engines) + StringKey(m.modelRegion)
  }

  function ViewOf(x: Partition): PartitionView {
    PartitionView(x.key, x.analysisIds,
                  seq(|x.schemeOptions|, i requires 0 <= i < |x.schemeOptions| => x.schemeOptions[i].id),
                  x.petIds, x.schemeRequired,
                  seq(|x.simulationOptions|, i requires 0 <= i < |x.simulationOptions| =>
                    (x.simulationOptions[i].id, x.simulationOptions[i].periods, x.simulationOptions[i].schemeId)),
                  x.simulationRequired)
  }

  function ProblemViewOf(q: Problem): ProblemView { ProblemView(q.code, q.analysisIds, q.partition, q.petIds) }

  function Views(ps: seq<Partition>): seq<PartitionView> {
    seq(|ps|, i requires 0 <= i < |ps| => ViewOf(ps[i]))
  }

  function ProblemViews(qs: seq<Problem>): seq<ProblemView> {
    seq(|qs|, i requires 0 <= i < |qs| => ProblemViewOf(qs[i]))
  }

  /** `_fingerprint`, before the digest: what was inspected, in canonical order. */
  function PayloadOf(x: Inspection): Payload {
    Payload(StableSort(x.analysisIds, NatKey), StableSort(x.resourceUris, StringKey),
            StableSort(x.members, MemberSortKey), x.simulateToPlt, Views(x.partitions),
            StableSort(x.mappings, MappingSortKey), StableSort(x.treaties, TreatySortKey), ProblemViews(x.blocking))
  }

  // ---- inspection ------------------------------------------------------------------------------------

  datatype Outcome = InspectRaises | Inspected(inspection: Inspection)

  function UpperIs(o: Option<string>, text: string): bool { o.Some? && Upper(o.value) == text }

  function DlmIds(members: seq<Member>): set<nat> {
    set m | m in members && m.found && UpperIs(m.engineType, "DLM") :: m.analysisId
  }

  predicate AnyPlt(facts: set<Fact>) { exists f :: f in facts && f.framework == PLT }

  predicate NeedsSimulations(facts: set<Fact>) { AnyPlt(facts) && EltFacts(facts) != {} }

  function ContextOf(p: Platform, g: Gathering): Context
    requires g.Gathered?
  {
    var facts := FactsOf(g.members);
    Context(ActiveSchemes(p),
            if NeedsSimulations(facts) && p.simulationSets.Some? then p.simulationSets.value else [],
            AnyPlt(facts), DlmIds(g.members), g.labels)
  }

  datatype PartitionsResult =
    | PartitionsRaise
    | PartitionsDone(partitions: seq<Partition>, problems: seq<Problem>, mappings: seq<Mapping>)

  function AddPartition(r: PartitionsResult, part: PartitionResult): PartitionsResult {
    if r.PartitionsRaise? || part.PartitionRaises? then PartitionsRaise
    else PartitionsDone(r.partitions + [part.partition], r.problems + part.problems, r.mappings + part.mappings)
  }

  /** What the keys give put together, in order; a key that raises ends it all. */
  function CombineParts(rs: seq<PartitionResult>): PartitionsResult {
    if rs == [] then PartitionsDone([], [], []) else AddPartition(CombineParts(rs[..|rs| - 1]), rs[|rs| - 1])
  }

  function PartResults(c: Context, facts: set<Fact>, keys: seq<PartitionKey>): (rs: seq<PartitionResult>)
    ensures |rs| == |keys|
  {
    seq(|keys|, i requires 0 <= i < |keys| => PartitionOf(c, FactsWith(facts, keys[i]), keys[i]))
  }

  /** The partitions of the given keys, worked out one after the other. */
  function PartitionsOf(c: Context, facts: set<Fact>, keys: seq<PartitionKey>): PartitionsResult {
    CombineParts(PartResults(c, facts, keys))
  }

  function KeysOf(facts: set<Fact>): set<PartitionKey> { set f | f in facts :: KeyOf(f) }

  function Uris(codec: Codec, ids: seq<nat>): seq<string> {
    seq(|ids|, i requires 0 <= i < |ids| => codec.uri(ids[i]))
  }

  /** `required_caller_inputs`. */
  function RequiredInputs(ps: seq<Partition>): seq<string> {
    ["analysis_name", "currency", "propagate_detailed_losses", "num_of_simulations"]
    + (if exists q :: q in ps && q.schemeRequired then ["event_rate_selections"] else [])
    + (if exists q :: q in ps && q.simulationRequired then ["simulation_set_selections"] else [])
  }

  function Summarised(p: Platform, codec: Codec, ids: seq<nat>, g: Gathering): Outcome
    requires g.Gathered?
  {
    var facts := FactsOf(g.members);
    if NeedsSimulations(facts) && (p.simulationSets.None? || ActiveSchemes(p).None?) then InspectRaises
    else
      match PartitionsOf(ContextOf(p, g), facts, SortedPartitions(KeysOf(facts)))
      case PartitionsRaise => InspectRaises
      case PartitionsDone(partitions, problems, mappings) =>
        var x := Inspection(ids, Uris(codec, ids), "", g.members, AnyPlt(facts), partitions, mappings, g.treaties,
                            RequiredInputs(partitions), Warnings(codec, g.treaties), Deduplicated(codec, g.problems + problems));
        Inspected(x.(fingerprint := codec.digest(PayloadOf(x))))
  }

  function Inspect(p: Platform, codec: Codec, ids: seq<nat>): Outcome {
    match Gather(p, codec, ids)
    case GatherRaises => InspectRaises
    case Gathered(m, q, t, l) => Summarised(p, codec, ids, Gathered(m, q, t, l))
  }

  // ---- the loops of _inspect ----------------------------------------------------------------------------

  method GatherMembers(codec: Codec, ids: seq<nat>, lookups: ReferenceLookups) returns (g: Gathering)
    requires lookups.Valid()
    modifies lookups
    ensures lookups.Valid() && g == Gather(lookups.platform, codec, ids)
  {
    var members: seq<Member> := [];
    var problems: seq<Problem> := [];
    var treaties: seq<Treaty> := [];
    var labels: map<nat, Option<string>> := map[];
    ghost var es := Examinations(lookups.platform, codec, ids);
    for i := 0 to |ids|
      invariant lookups.Valid()
      invariant Collect(es[..i]) == Gathered(members, problems, treaties, labels)
    {
      CollectMore(es, i);
      var e := ExamineAnalysis(codec, ids[i], lookups);
      assert e == es[i];
      if e.ExamineRaises? {
        CollectRaiseStays(es, i + 1);
        return GatherRaises;
      }
      members := members + [e.member];
      problems := problems + e.problems;
      treaties := treaties + e.treaties;
      if e.schemeLabel.Some? { labels := labels[e.schemeLabel.value.0 := e.schemeLabel.value.1]; }
    }
    assert es[..|ids|] == es;
    g := Gathered(members, problems, treaties, labels);
  }

  function ListSet(xs: seq<Fact>): set<Fact> { set f | f in xs }

  /** The facts of all members in one list. */
  function AllFacts(members: seq<Member>): seq<Fact> {
    if members == [] then [] else AllFacts(members[..|members| - 1]) + members[|members| - 1].regions
  }

  lemma {:induction false} AllFactsIs(members: seq<Member>)
    ensures ListSet(AllFacts(members)) == FactsOf(members)
  {
    if members != [] {
      var n := |members| - 1;
      AllFactsIs(members[..n]);
      assert members == members[..n] + [members[n]];
      assert FactsOf(members) == FactsOf(members[..n]) + ListSet(members[n].regions);
    }
  }

  ghost predicate GroupsOf(groups: map<PartitionKey, seq<Fact>>, facts: set<Fact>) {
    && groups.Keys == KeysOf(facts)
    && forall k :: k in groups ==> ListSet(groups[k]) == FactsWith(facts, k)
  }

  lemma GroupOneMore(groups: map<PartitionKey, seq<Fact>>, facts: set<Fact>, fact: Fact)
    requires GroupsOf(groups, facts)
    ensures var key := KeyOf(fact);
            GroupsOf(groups[key := (if key in groups then groups[key] else []) + [fact]], facts + {fact})
  {
    var key := KeyOf(fact);
    var list := if key in groups then groups[key] else [];
    var more := groups[key := list + [fact]];
    assert ListSet(list + [fact]) == ListSet(list) + {fact};
    forall k | k in more ensures ListSet(more[k]) == FactsWith(facts + {fact}, k) {
      if k == key {
        assert ListSet(list) == FactsWith(facts, key);
      } else {
        assert FactsWith(facts + {fact}, k) == FactsWith(facts, k);
      }
    }
    assert KeysOf(facts + {fact}) == KeysOf(facts) + {key};
  }

  /** `partition_facts`: the facts of each key, in the order they come. */
  method GroupFacts(members: seq<Member>) returns (groups: map<PartitionKey, seq<Fact>>)
    ensures GroupsOf(groups, FactsOf(members))
  {
    groups := map[];
    var facts := AllFacts(members);
    for i := 0 to |facts|
      invariant GroupsOf(groups, ListSet(facts[..i]))
    {
      assert ListSet(facts[..i + 1]) == ListSet(facts[..i]) + {facts[i]} by {
        assert facts[..i + 1] == facts[..i] + [facts[i]];
      }
      GroupOneMore(groups, ListSet(facts[..i]), facts[i]);
      var key := KeyOf(facts[i]);
      groups := groups[key := (if key in groups then groups[key] else []) + [facts[i]]];
    }
    assert facts[..|facts|] == facts;
    AllFactsIs(members);
  }

  /** The simulation sets one partition may be converted with. */
  method SimulationChoices(rows: seq<SimulationRow>, key: PartitionKey, active: set<nat>)
    returns (options: map<nat, SimulationOption>)
    ensures options == SimulationTable(rows, key, active)
  {
    options := map[];
    for i := 0 to |rows|
      invariant options == SimulationTable(rows[..i], key, active)
    {
      assert rows[..i + 1][..i] == rows[..i];
      var row := rows[i];
      if row.modelRegion != Some(BroadRegion(key)) || row.modelVersion != Some(key.version)
         || row.peril != Some(key.peril) || !(row.source.None? || row.source.value == "SYSTEM")
         || row.scheme.None? || row.scheme.value !in active {
        continue;
      }
      if row.id.None? || row.periods.None? { continue; }
      options := options[row.id.value := SimulationOption(row.id.value, row.periods.value, row.scheme, row.name)];
    }
    assert rows[..|rows|] == rows;
  }

  /** The options in the order of their ids. */
  method OrderedOptions(table: map<nat, SimulationOption>) returns (options: seq<SimulationOption>)
    ensures var ids := SortedNats(table.Keys);
            |options| == |ids| && forall k :: 0 <= k < |ids| ==> ids[k] in table && options[k] == table[ids[k]]
  {
    var ids := SortedNats(table.Keys);
    SortedNatsIs(table.Keys);
    options := [];
    for i := 0 to |ids|
      invariant |options| == i && forall k :: 0 <= k < i ==> ids[k] in table && options[k] == table[ids[k]]
    {
      assert ids[i] in ids;
      options := options + [table[ids[i]]];
    }
  }

  method MappingsFor(key: PartitionKey, eltIds: seq<nat>, engines: string, options: seq<SimulationOption>)
    returns (mappings: seq<Mapping>)
    ensures mappings == seq(|options|, i requires 0 <= i < |options| => MappingFor(key, eltIds, engines, options[i]))
  {
    mappings := [];
    for i := 0 to |options|
      invariant |mappings| == i
      invariant forall k :: 0 <= k < i ==> mappings[k] == MappingFor(key, eltIds, engines, options[k])
    {
      mappings := mappings + [MappingFor(key, eltIds, engines, options[i])];
    }
  }

  /** One turn of the loop over the sorted partition keys. */
  method InspectPartition(c: Context, list: seq<Fact>, key: PartitionKey) returns (r: PartitionResult)
    ensures r == PartitionOf(c, ListSet(list), key)
  {
    var facts := ListSet(list);
    if SchemesIn(facts) != {} && c.schemes.None? { return PartitionRaises; }
    var elt := EltFacts(facts);
    var eltIds := SortedNats(AnalysesIn(elt));
    var conflict := |SchemesIn(facts)| > 1;
    var schemes := SchemeOptions(c, facts, key);
    var simulations: seq<SimulationOption> := [];
    if c.simulate && elt != {} {
      var table := SimulationChoices(c.simulations, key, ActiveIds(c));
      simulations := OrderedOptions(table);
    }
    assert simulations == SimulationOptions(c, facts, key);
    var problems: seq<Problem> := [];
    if conflict && schemes == [] {
      problems := [Problem(EventRateSchemeMappingMissing, eltIds, Some(key), [], [], "")];
    }
    if c.simulate && elt != {} && simulations == [] {
      problems := problems + [Problem(SimulationSetMappingMissing, eltIds, Some(key), [], [], "")];
    } else {
      assert problems + [] == problems;
    }
    var mappings := MappingsFor(key, eltIds, EnginesIn(facts), simulations);
    r := PartitionDone(Partition(key, SortedNats(AnalysesIn(facts)), schemes, SortedNats(PetsIn(facts)), conflict,
                                 simulations, simulations != []),
                       problems, mappings);
  }

  method InspectPartitions(c: Context, groups: map<PartitionKey, seq<Fact>>, keys: seq<PartitionKey>, ghost facts: set<Fact>)
    returns (r: PartitionsResult)
    requires GroupsOf(groups, facts) && forall k :: k in keys ==> k in groups
    ensures r == PartitionsOf(c, facts, keys)
  {
    var partitions: seq<Partition> := [];
    var problems: seq<Problem> := [];
    var mappings: seq<Mapping> := [];
    ghost var rs := PartResults(c, facts, keys);
    for i := 0 to |keys|
      invariant CombineParts(rs[..i]) == PartitionsDone(partitions, problems, mappings)
    {
      assert rs[..i + 1][..i] == rs[..i];
      assert keys[i] in keys;
      var part := InspectPartition(c, groups[keys[i]], keys[i]);
      assert part == rs[i];
      if part.PartitionRaises? {
        PartRaiseStays(rs, i + 1);
        return PartitionsRaise;
      }
      partitions := partitions + [part.partition];
      problems := problems + part.problems;
      mappings := mappings + part.mappings;
    }
    assert rs[..|keys|] == rs;
    r := PartitionsDone(partitions, problems, mappings);
  }

  lemma {:induction false} PartRaiseStays(rs: seq<PartitionResult>, n: nat)
    requires n <= |rs| && CombineParts(rs[..n]).PartitionsRaise?
    ensures CombineParts(rs).PartitionsRaise?
    decreases |rs|
  {
    if n == |rs| {
      assert rs[..n] == rs;
    } else {
      assert rs[..|rs| - 1][..n] == rs[..n];
      PartRaiseStays(rs[..|rs| - 1], n);
    }
  }

  method ListRequired(ps: seq<Partition>) returns (required: seq<string>)
    ensures required == RequiredInputs(ps)
  {
    required := ["analysis_name", "currency", "propagate_detailed_losses", "num_of_simulations"];
    if exists q :: q in ps && q.schemeRequired { required := required + ["event_rate_selections"]; }
    if exists q :: q in ps && q.simulationRequired { required := required + ["simulation_set_selections"]; }
  }

  /** `_inspect`. */
  method InspectMembers(p: Platform, codec: Codec, ids: seq<nat>) returns (r: Outcome)
    ensures r == Inspect(p, codec, ids)
  {
    var lookups := new ReferenceLookups(p);
    var g := GatherMembers(codec, ids, lookups);
    if g.GatherRaises? { return InspectRaises; }
    var groups := GroupFacts(g.members);
    if NeedsSimulations(FactsOf(g.members)) && (p.simulationSets.None? || ActiveSchemes(p).None?) {
      return InspectRaises;
    }
    var keys := SortedPartitions(groups.Keys);
    SortedPartitionsIs(groups.Keys);
    var parts := InspectPartitions(ContextOf(p, g), groups, keys, FactsOf(g.members));
    if parts.PartitionsRaise? { return InspectRaises; }
    var blocking := DeduplicateProblems(codec, g.problems + parts.problems);
    var warnings := TreatyWarnings(codec, g.treaties);
    var required := ListRequired(parts.partitions);
    var x := Inspection(ids, Uris(codec, ids), "", g.members, AnyPlt(FactsOf(g.members)), parts.partitions,
                        parts.mappings, g.treaties, required, warnings, blocking);
    r := Inspected(x.(fingerprint := codec.digest(PayloadOf(x))));
  }
}
