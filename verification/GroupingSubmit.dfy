/** Submitting a group: what an unblocked inspection guarantees to the builder, and the checks
    that lead up to the request. */
module GroupingSubmit {
  import opened Prelude
  import opened Ordering
  import opened GroupingModel
  import opened GroupingProblems
  import opened GroupingRegions
  import opened GroupingInspect
  import opened GroupingSelections
  import opened GroupingRequest
  import opened GroupingTreaties

  // ---- an unblocked inspection has a fact for every raw row -------------------------------------

  /** Row number `j` of analysis `id` normalises to this fact without a problem. */
  ghost predicate RowGives(p: Platform, id: nat, j: nat, f: Fact) {
    p.analysis(id).Found? && j < |RegionRows(p, id)|
    && Gives(RowResultOf(p, id, p.analysis(id).detail, RegionRows(p, id)[j]), f)
  }

  ghost predicate RowCovered(p: Platform, id: nat, j: nat, facts: set<Fact>) {
    exists f :: f in facts && RowGives(p, id, j, f)
  }

  /** The analysis exists and has rows, and every row gives one of these facts. */
  ghost predicate RowsCovered(p: Platform, id: nat, facts: set<Fact>) {
    p.analysis(id).Found? && RegionRows(p, id) != []
    && forall j :: 0 <= j < |RegionRows(p, id)| ==> RowCovered(p, id, j, facts)
  }

  ghost predicate FromRow(p: Platform, id: nat, f: Fact) { exists j :: RowGives(p, id, j, f) }

  lemma NothingInThree<T>(xs: seq<T>, ys: seq<T>, zs: seq<T>)
    requires xs + ys + zs == []
    ensures xs == [] && ys == [] && zs == []
  {
  }

  /** What examining without a problem says of the parts. */
  lemma ExaminedParts(p: Platform, codec: Codec, id: nat)
    requires Examine(p, codec, id).Examined? && Examine(p, codec, id).problems == []
    ensures p.analysis(id).Found? && RegionRows(p, id) != []
    ensures var regions := RegionsOf(p, id, p.analysis(id).detail, RegionRows(p, id));
            regions.RegionsDone? && regions.problems == []
            && ListSet(Examine(p, codec, id).member.regions) == ListSet(regions.facts)
  {
    var d, rows := p.analysis(id).detail, RegionRows(p, id);
    if p.analysis(id).Found? {
      var regions := RegionsOf(p, id, d, rows);
      NothingInThree(if rows == [] then [PlainProblem(MemberRegionDataMissing, id)] else [], regions.problems,
                     if FrameworksConflict(d, regions.frameworks) then [PlainProblem(MemberClassificationConflict, id)] else []);
      SameElements(regions.facts, FactSortKey);
    }
  }

  lemma CombinedCovers(p: Platform, id: nat, rs: seq<RowResult>, facts: set<Fact>, j: nat)
    requires p.analysis(id).Found? && rs == RowResults(p, id, p.analysis(id).detail, RegionRows(p, id)) && j < |rs|
    requires Combine(rs).RegionsDone? && ListSet(Combine(rs).facts) == facts
    requires exists f :: f in Combine(rs).facts && Gives(rs[j], f)
    ensures RowCovered(p, id, j, facts)
  {
    var f :| f in Combine(rs).facts && Gives(rs[j], f);
    assert f in facts && RowGives(p, id, j, f);
  }

  lemma GivenComesFromRow(p: Platform, id: nat, rs: seq<RowResult>, f: Fact)
    requires p.analysis(id).Found? && rs == RowResults(p, id, p.analysis(id).detail, RegionRows(p, id))
    requires exists j :: 0 <= j < |rs| && Gives(rs[j], f)
    ensures FromRow(p, id, f)
  {
    var j :| 0 <= j < |rs| && Gives(rs[j], f);
    assert RowGives(p, id, j, f);
  }

  /** An analysis examined without a problem exists, has rows, and each row gives a fact. */
  lemma ExaminedClean(p: Platform, codec: Codec, id: nat)
    requires Examine(p, codec, id).Examined? && Examine(p, codec, id).problems == []
    ensures RowsCovered(p, id, ListSet(Examine(p, codec, id).member.regions))
    ensures forall f :: f in ListSet(Examine(p, codec, id).member.regions) ==> FromRow(p, id, f) && Usable(f) && f.analysisId == id
  {
    ExaminedParts(p, codec, id);
    var facts := ListSet(Examine(p, codec, id).member.regions);
    var rs := RowResults(p, id, p.analysis(id).detail, RegionRows(p, id));
    RowsReport(p, id, p.analysis(id).detail, RegionRows(p, id));
    CombinedClean(id, rs);
    forall j | 0 <= j < |RegionRows(p, id)| ensures RowCovered(p, id, j, facts) {
      CombinedCovers(p, id, rs, facts, j);
    }
    forall f | f in facts ensures FromRow(p, id, f) && Usable(f) && f.analysisId == id {
      assert f in Combine(rs).facts;
      GivenComesFromRow(p, id, rs, f);
    }
  }

  lemma {:induction false} CollectedClean(es: seq<Examination>)
    requires Collect(es).Gathered? && Collect(es).problems == []
    ensures |Collect(es).members| == |es|
    ensures forall i :: 0 <= i < |es| ==> es[i].Examined? && es[i].problems == [] && Collect(es).members[i] == es[i].member
  {
    if es != [] { CollectedClean(es[..|es| - 1]); }
  }

  lemma MoreCovered(p: Platform, id: nat, facts: set<Fact>, more: set<Fact>)
    requires RowsCovered(p, id, facts) && facts <= more
    ensures RowsCovered(p, id, more)
  {
    forall j | 0 <= j < |RegionRows(p, id)| ensures RowCovered(p, id, j, more) {
      assert RowCovered(p, id, j, facts);
    }
  }

  /** No problem while gathering: the facts are exactly what the raw rows give, and no row is lost. */
  lemma GatheredClean(p: Platform, codec: Codec, ids: seq<nat>)
    requires Gather(p, codec, ids).Gathered? && Gather(p, codec, ids).problems == []
    ensures var facts := FactsOf(Gather(p, codec, ids).members);
            && (forall id :: id in ids ==> RowsCovered(p, id, facts))
            && (forall f :: f in facts ==> f.analysisId in ids && FromRow(p, f.analysisId, f) && Usable(f))
  {
    var es, members := Examinations(p, codec, ids), Gather(p, codec, ids).members;
    var facts := FactsOf(members);
    CollectedClean(es);
    forall id | id in ids ensures RowsCovered(p, id, facts) {
      var i :| 0 <= i < |ids| && ids[i] == id;
      assert es[i] == Examine(p, codec, id);
      ExaminedClean(p, codec, id);
      assert members[i] in members;
      MoreCovered(p, id, ListSet(members[i].regions), facts);
    }
    forall f | f in facts ensures f.analysisId in ids && FromRow(p, f.analysisId, f) && Usable(f) {
      var m :| m in members && f in m.regions;
      var i :| 0 <= i < |members| && members[i] == m;
      assert es[i] == Examine(p, codec, ids[i]);
      ExaminedClean(p, codec, ids[i]);
      assert ids[i] in ids;
    }
  }

  // ---- the partitions of an inspection --------------------------------------------------------------

  ghost predicate HaveKeys(ps: seq<Partition>, keys: seq<PartitionKey>) {
    |ps| == |keys| && forall i :: 0 <= i < |keys| ==> ps[i].key == keys[i]
  }

  lemma {:induction false} CombinedAt(rs: seq<PartitionResult>, i: nat)
    requires CombineParts(rs).PartitionsDone? && i < |rs|
    ensures rs[i].PartitionDone?
    ensures |CombineParts(rs).partitions| == |rs| && CombineParts(rs).partitions[i] == rs[i].partition
    ensures CombineParts(rs).problems == [] ==> rs[i].problems == []
  {
    var n := |rs| - 1;
    if n > 0 { CombinedAt(rs[..n], if i < n then i else 0); }
  }

  lemma PartitionHasKey(c: Context, facts: set<Fact>, key: PartitionKey)
    requires PartitionOf(c, facts, key).PartitionDone?
    ensures PartitionOf(c, facts, key).partition.key == key
  {
  }

  lemma PartitionsHaveKeys(c: Context, facts: set<Fact>, keys: seq<PartitionKey>)
    requires PartitionsOf(c, facts, keys).PartitionsDone?
    ensures HaveKeys(PartitionsOf(c, facts, keys).partitions, keys)
  {
    var rs := PartResults(c, facts, keys);
    if rs != [] { CombinedAt(rs, 0); }
    forall i | 0 <= i < |keys| ensures CombineParts(rs).partitions[i].key == keys[i] {
      CombinedAt(rs, i);
      PartitionHasKey(c, FactsWith(facts, keys[i]), keys[i]);
    }
  }

  /** Where keys are distinct, the table finds each partition under its own. */
  lemma TableAt(ps: seq<Partition>, i: nat)
    requires i < |ps| && forall j, k :: 0 <= j < k < |ps| ==> ps[j].key != ps[k].key
    ensures ps[i].key in TableOf(ps) && TableOf(ps)[ps[i].key] == ps[i]
  {
  }

  lemma SortedNatsLength(s: set<nat>)
    ensures |SortedNats(s)| == |s|
  {
    assert InjectiveOn(s, NatKey) by { assert forall m: nat :: NatKey(m)[0] == m; }
    SortedSetLength(s, NatKey);
  }

  /** A partition without a conflict offers at most one scheme, and one if it has an ELT fact with a
      scheme; a partition without a problem offers a scheme, and when simulating a set, to its ELT facts. */
  lemma PartitionOffers(c: Context, facts: set<Fact>, key: PartitionKey)
    requires PartitionOf(c, facts, key).PartitionDone?
    ensures var r := PartitionOf(c, facts, key);
            && r.partition.key == key
            && (!r.partition.schemeRequired ==> |r.partition.schemeOptions| <= 1)
            && (r.partition.simulationRequired <==> r.partition.simulationOptions != [])
            && (r.problems == [] && SchemesIn(facts) != {} ==> r.partition.schemeOptions != [])
            && (r.problems == [] && c.simulate && EltFacts(facts) != {} ==> r.partition.simulationRequired)
            && (r.partition.schemeRequired ==> EltFacts(facts) != {})
  {
    SortedNatsLength(SchemesIn(facts));
    if |SchemesIn(facts)| > 1 {
      var s :| s in SchemesIn(facts);
      var f :| f in facts && f.framework == ELT && f.schemeId == Some(s);
      assert f in EltFacts(facts);
    }
  }

  lemma {:induction false} SchemeTableIs(rows: seq<SchemeRow>, key: PartitionKey, sameVersion: bool)
    ensures forall id :: id in SchemeTable(rows, key, sameVersion) <==>
              exists row :: row in rows && Applicable(row, key, sameVersion) && row.id == Some(id)
  {
    if rows != [] {
      SchemeTableIs(rows[..|rows| - 1], key, sameVersion);
      assert rows == rows[..|rows| - 1] + [rows[|rows| - 1]];
    }
  }

  lemma {:induction false} SimulationTableKeys(rows: seq<SimulationRow>, key: PartitionKey, active: set<nat>)
    ensures forall id :: id in SimulationTable(rows, key, active) <==>
              exists row :: row in rows && Convertible(row, key, active) && row.id == Some(id)
    ensures forall id :: id in SimulationTable(rows, key, active) ==> SimulationTable(rows, key, active)[id].id == id
  {
    if rows != [] {
      SimulationTableKeys(rows[..|rows| - 1], key, active);
      assert rows == rows[..|rows| - 1] + [rows[|rows| - 1]];
    }
  }

  lemma ListedOptions(ids: seq<nat>, options: seq<SchemeOption>, value: nat)
    requires |options| == |ids| && forall i :: 0 <= i < |ids| ==> options[i].id == ids[i]
    ensures (exists o :: o in options && o.id == value) <==> value in ids
  {
  }

  lemma SoleSchemeOffered(c: Context, facts: set<Fact>, key: PartitionKey, id: nat)
    requires |SchemesIn(facts)| <= 1 && (SchemesIn(facts) != {} ==> c.schemes.Some?)
    ensures (exists o :: o in SchemeOptions(c, facts, key) && o.id == id) <==> id in SchemesIn(facts)
  {
    SortedNatsIs(SchemesIn(facts));
    ListedOptions(SortedNats(SchemesIn(facts)), SchemeOptions(c, facts, key), id);
  }

  lemma ApplicableSchemesOffered(c: Context, facts: set<Fact>, key: PartitionKey, id: nat)
    requires |SchemesIn(facts)| > 1 && c.schemes.Some?
    ensures (exists o :: o in SchemeOptions(c, facts, key) && o.id == id) <==>
              exists row :: row in c.schemes.value && row.id == Some(id)
                            && Applicable(row, key, forall f :: f in EltFacts(facts) ==> f.analysisId in c.dlm)
  {
    var same := forall f :: f in EltFacts(facts) ==> f.analysisId in c.dlm;
    var table := SchemeTable(c.schemes.value, key, same);
    SchemeTableIs(c.schemes.value, key, same);
    SortedNatsIs(table.Keys);
    ListedOptions(SortedNats(table.Keys), SchemeOptions(c, facts, key), id);
  }

  /** A scheme is offered when it is the only one in use, or when several are in use and an active
      row applies it to the partition: same peril and model region and, among DLM analyses, version. */
  lemma SchemesOffered(c: Context, facts: set<Fact>, key: PartitionKey, id: nat)
    requires PartitionOf(c, facts, key).PartitionDone?
    ensures Offers(EventRate, PartitionOf(c, facts, key).partition, id) <==>
              if |SchemesIn(facts)| <= 1 then id in SchemesIn(facts)
              else exists row :: row in c.schemes.value && row.id == Some(id)
                                 && Applicable(row, key, forall f :: f in EltFacts(facts) ==> f.analysisId in c.dlm)
  {
    assert PartitionOf(c, facts, key).partition.schemeOptions == SchemeOptions(c, facts, key);
    if |SchemesIn(facts)| > 1 {
      ApplicableSchemesOffered(c, facts, key, id);
    } else {
      SoleSchemeOffered(c, facts, key, id);
    }
  }

  /** A simulation set is offered to a partition with ELT facts of a simulated group exactly when
      some row of the reference table converts it. */
  lemma SetsOffered(c: Context, facts: set<Fact>, key: PartitionKey, id: nat)
    requires PartitionOf(c, facts, key).PartitionDone?
    ensures Offers(SimulationSet, PartitionOf(c, facts, key).partition, id) <==>
              && c.simulate && EltFacts(facts) != {}
              && exists row :: row in c.simulations && Convertible(row, key, ActiveIds(c)) && row.id == Some(id)
  {
    if c.simulate && EltFacts(facts) != {} {
      var table := SimulationTable(c.simulations, key, ActiveIds(c));
      var ids, options := SortedNats(table.Keys), SimulationOptions(c, facts, key);
      SimulationTableKeys(c.simulations, key, ActiveIds(c));
      SortedNatsIs(table.Keys);
      if id in ids {
        var i :| 0 <= i < |ids| && ids[i] == id;
        assert options[i] in options && options[i].id == id;
      }
      if o :| o in options && o.id == id {
        var i :| 0 <= i < |options| && options[i] == o;
        assert ids[i] in table && table[ids[i]].id == ids[i];
        assert ids[i] in ids;
      }
    }
  }

  /** What an inspection is made of. */
  lemma InspectionIs(p: Platform, codec: Codec, ids: seq<nat>, x: Inspection)
    requires Inspect(p, codec, ids) == Inspected(x)
    ensures Gather(p, codec, ids).Gathered?
    ensures var g := Gather(p, codec, ids);
            var c, facts := ContextOf(p, g), FactsOf(g.members);
            var parts := PartitionsOf(c, facts, SortedPartitions(KeysOf(facts)));
            && parts.PartitionsDone?
            && x.members == g.members && x.treaties == g.treaties && x.warnings == Warnings(codec, g.treaties)
            && x.partitions == parts.partitions && x.mappings == parts.mappings
            && x.simulateToPlt == AnyPlt(facts) == c.simulate
            && x.blocking == Deduplicated(codec, g.problems + parts.problems)
            && x.required == RequiredInputs(parts.partitions)
            && x.analysisIds == ids && x.resourceUris == Uris(codec, ids)
            && x.fingerprint == codec.digest(PayloadOf(x))
  {
  }

  /** A partition offers more than one scheme only when it requires a choice, and simulation sets
      exactly when it requires one of them. */
  predicate Shaped(q: Partition) {
    && (!q.schemeRequired ==> |q.schemeOptions| <= 1)
    && (q.simulationRequired <==> q.simulationOptions != [])
  }

  lemma PartitionsShaped(c: Context, facts: set<Fact>, keys: seq<PartitionKey>)
    requires PartitionsOf(c, facts, keys).PartitionsDone?
    ensures forall q :: q in PartitionsOf(c, facts, keys).partitions ==> Shaped(q)
  {
    var rs := PartResults(c, facts, keys);
    if rs != [] { CombinedAt(rs, 0); }
    forall i | 0 <= i < |keys| ensures Shaped(CombineParts(rs).partitions[i]) {
      CombinedAt(rs, i);
      PartitionOffers(c, FactsWith(facts, keys[i]), keys[i]);
    }
  }

  /** The partitions of an inspection: one for each key of its facts, all shaped. */
  lemma InspectionShape(p: Platform, codec: Codec, ids: seq<nat>, x: Inspection)
    requires Inspect(p, codec, ids) == Inspected(x)
    ensures TableOf(x.partitions).Keys == KeysOf(FactsOf(x.members))
    ensures forall q :: q in x.partitions ==> Shaped(q)
  {
    InspectionIs(p, codec, ids, x);
    var c, facts := ContextOf(p, Gather(p, codec, ids)), FactsOf(x.members);
    var keys := SortedPartitions(KeysOf(facts));
    SortedPartitionsIs(KeysOf(facts));
    PartitionsHaveKeys(c, facts, keys);
    PartitionsShaped(c, facts, keys);
    KeysListed(x.partitions, keys, KeysOf(facts));
  }

  lemma KeysListed(ps: seq<Partition>, keys: seq<PartitionKey>, all: set<PartitionKey>)
    requires HaveKeys(ps, keys)
    requires (forall k :: k in keys ==> k in all) && forall k :: k in all ==> k in keys
    ensures KeysIn(ps) == all
  {
  }

  /** No problem reported for the partitions: every ELT fact has a scheme to go by and, when the
      group is simulated, a simulation set to be converted with. */
  lemma PartitionsServe(c: Context, facts: set<Fact>, keys: seq<PartitionKey>, f: Fact)
    requires PartitionsOf(c, facts, keys).PartitionsDone? && PartitionsOf(c, facts, keys).problems == []
    requires Distinct(keys) && f in facts && KeyOf(f) in keys && f.framework == ELT && f.schemeId.Some?
    ensures Served(TableOf(PartitionsOf(c, facts, keys).partitions), c.simulate, f)
  {
    var i :| 0 <= i < |keys| && keys[i] == KeyOf(f);
    var own := FactsWith(facts, keys[i]);
    PartitionsHaveKeys(c, facts, keys);
    CombinedAt(PartResults(c, facts, keys), i);
    TableAt(PartitionsOf(c, facts, keys).partitions, i);
    PartitionOffers(c, own, keys[i]);
    assert f in EltFacts(own) && f.schemeId.value in SchemesIn(own);
  }

  /** An ELT fact's partition offers a scheme and, when simulating, a simulation set. */
  predicate Served(t: Table, simulate: bool, f: Fact) {
    f.framework == ELT ==>
      KeyOf(f) in t && t[KeyOf(f)].schemeOptions != [] && (simulate ==> t[KeyOf(f)].simulationRequired)
  }

  ghost predicate DistinctKeys(ps: seq<Partition>) {
    forall j, k :: 0 <= j < k < |ps| ==> ps[j].key != ps[k].key
  }

  lemma InspectionLists(p: Platform, codec: Codec, ids: seq<nat>, x: Inspection)
    requires Inspect(p, codec, ids) == Inspected(x)
    ensures DistinctKeys(x.partitions) && x.required == RequiredInputs(x.partitions)
  {
    InspectionIs(p, codec, ids, x);
    var keys := SortedPartitions(KeysOf(FactsOf(x.members)));
    SortedPartitionsIs(KeysOf(FactsOf(x.members)));
    PartitionsHaveKeys(ContextOf(p, Gather(p, codec, ids)), FactsOf(x.members), keys);
  }

  /** Required are the four settings, and selections exactly when submission refuses to go without any. */
  ghost predicate RequiresNeeded(required: seq<string>, t: Table) {
    forall name :: name in required <==>
      || name == "analysis_name" || name == "currency" || name == "propagate_detailed_losses" || name == "num_of_simulations"
      || (name == "event_rate_selections" && !Admissible(EventRate, t, []))
      || (name == "simulation_set_selections" && !Admissible(SimulationSet, t, []))
  }

  lemma RequiredNeeded(ps: seq<Partition>)
    requires DistinctKeys(ps)
    ensures RequiresNeeded(RequiredInputs(ps), TableOf(ps))
  {
    RequiredListed(ps);
    NeededIffMandatory(EventRate, ps);
    NeededIffMandatory(SimulationSet, ps);
  }

  lemma RequiredMeansNeeded(p: Platform, codec: Codec, ids: seq<nat>, x: Inspection)
    requires Inspect(p, codec, ids) == Inspected(x)
    ensures RequiresNeeded(x.required, TableOf(x.partitions))
  {
    InspectionLists(p, codec, ids, x);
    RequiredNeeded(x.partitions);
  }

  lemma NeededIffMandatory(kind: Kind, ps: seq<Partition>)
    requires DistinctKeys(ps)
    ensures !Admissible(kind, TableOf(ps), []) <==> exists q :: q in ps && Mandatory(kind, q)
  {
    if q :| q in ps && Mandatory(kind, q) {
      TableHolds(ps);
      MandatoryIsNeeded(kind, TableOf(ps), q.key);
    } else {
      NoneIsNeeded(kind, TableOf(ps));
    }
  }

  lemma MandatoryIsNeeded(kind: Kind, t: Table, key: PartitionKey)
    requires key in t && Mandatory(kind, t[key])
    ensures !Admissible(kind, t, [])
  {
    assert key !in Selected([]);
  }

  lemma NoneIsNeeded(kind: Kind, t: Table)
    requires forall k :: k in t ==> !Mandatory(kind, t[k])
    ensures Admissible(kind, t, [])
  {
  }

  lemma RequiredListed(ps: seq<Partition>)
    ensures forall name :: name in RequiredInputs(ps) <==>
              || name == "analysis_name" || name == "currency" || name == "propagate_detailed_losses" || name == "num_of_simulations"
              || (name == "event_rate_selections" && exists q :: q in ps && q.schemeRequired)
              || (name == "simulation_set_selections" && exists q :: q in ps && q.simulationRequired)
  {
  }

  /** Where keys are distinct, the table holds every partition. */
  lemma TableHolds(ps: seq<Partition>)
    requires forall j, k :: 0 <= j < k < |ps| ==> ps[j].key != ps[k].key
    ensures forall q :: q in ps ==> q.key in TableOf(ps) && TableOf(ps)[q.key] == q
  {
    forall q | q in ps ensures q.key in TableOf(ps) && TableOf(ps)[q.key] == q {
      var i :| 0 <= i < |ps| && ps[i] == q;
      TableAt(ps, i);
    }
  }

  /** What nothing blocking means. */
  lemma Unblocked(p: Platform, codec: Codec, ids: seq<nat>, x: Inspection)
    requires Faithful(codec) && Inspect(p, codec, ids) == Inspected(x) && x.blocking == []
    ensures forall id :: id in ids ==> RowsCovered(p, id, FactsOf(x.members))
    ensures forall f :: f in FactsOf(x.members) ==> f.analysisId in ids && FromRow(p, f.analysisId, f) && Usable(f)
    ensures forall f :: f in FactsOf(x.members) ==> Served(TableOf(x.partitions), x.simulateToPlt, f)
  {
    InspectionIs(p, codec, ids, x);
    var g := Gather(p, codec, ids);
    var c, facts := ContextOf(p, g), FactsOf(x.members);
    var keys := SortedPartitions(KeysOf(facts));
    var parts := PartitionsOf(c, facts, keys);
    DeduplicatedIs(codec, g.problems + parts.problems);
    assert |g.problems + parts.problems| == |g.problems| + |parts.problems|;
    GatheredClean(p, codec, ids);
    SortedPartitionsIs(KeysOf(facts));
    forall f | f in facts ensures Served(TableOf(x.partitions), x.simulateToPlt, f) {
      if f.framework == ELT { PartitionsServe(c, facts, keys, f); }
    }
  }

  // ---- the builder is safe, and loses nothing ----------------------------------------------------------

  datatype Wanted = Wanted(rates: seq<Selection>, sets: seq<Selection>, periods: seq<Selection>)

  /** All three resolvers settle, on these choices. */
  ghost predicate Settles(codec: Codec, x: Inspection, w: Wanted, c: Choices) {
    && EventRates(codec, x.partitions, w.rates) == Settled(c.rates)
    && SimulationSets(codec, x.partitions, w.sets) == Settled(c.sets)
    && PeriodCounts(codec, x.simulateToPlt, x.partitions, w.periods) == Settled(c.periods)
  }

  /** Where the caller selected a period count for the partition the row has that one, and otherwise
      the count of its own. */
  ghost predicate Counts(w: Wanted, key: PartitionKey, own: nat, e: Entry) {
    && (forall s :: s in w.periods && s.partition == key ==> e.periods == s.value)
    && ((forall s :: s in w.periods ==> s.partition != key) ==> e.periods == own)
  }

  /** The row names a scheme the partition offers: the selected one, if one is selected. */
  ghost predicate Rated(w: Wanted, q: Partition, e: Entry) {
    && (exists o :: o in q.schemeOptions && o.id == e.schemeId)
    && (forall s :: s in w.rates && s.partition == q.key ==> e.schemeId == s.value)
  }

  /** The row names a simulation set the partition offers, the selected one, and its period count,
      unless told otherwise. */
  ghost predicate ConvertedBy(w: Wanted, q: Partition, e: Entry) {
    && (exists o :: o in q.simulationOptions && o.id == e.setId && Counts(w, q.key, o.periods, e))
    && (forall s :: s in w.sets && s.partition == q.key ==> e.setId == s.value)
  }

  /** The request row carries the fact's region, peril and version. A PLT fact keeps its engine and
      PET; an ELT fact goes by the engines of its partition and a scheme offered there and, in a
      simulated group, is converted with a set offered there. */
  ghost predicate Represents(x: Inspection, w: Wanted, e: Entry, f: Fact) {
    var key := PartitionKey(f.peril, f.region, f.version);
    && e.modelRegion == f.modelRegion && e.modelVersion == f.version && e.peril == f.peril && e.region == f.region
    && (f.framework == PLT ==>
          && e.engine == f.engine && e.schemeId == 0 && f.petId == Some(e.setId)
          && f.periods.Some? && Counts(w, key, f.periods.value, e))
    && (f.framework == ELT ==>
          && e.engine == EnginesIn(FactsWith(FactsOf(x.members), key))
          && exists q :: q in x.partitions && q.key == key && Rated(w, q, e)
                         && if x.simulateToPlt then ConvertedBy(w, q, e) else e.setId == 0 && e.periods == 0)
  }

  /** The fact becomes a row, and the row represents it. */
  ghost predicate Converts(x: Inspection, w: Wanted, c: Choices, f: Fact) {
    var r := RowFor(x.simulateToPlt, EltEngines(FactsOf(x.members), x.partitions), c, f);
    r.Row? && Represents(x, w, r.entry, f)
  }

  /** The choices give the fact's partition a scheme and a set it offers. */
  ghost predicate Chosen(t: Table, simulate: bool, c: Choices, f: Fact) {
    f.framework == ELT ==>
      && KeyOf(f) in t && KeyOf(f) in c.rates && Offers(EventRate, t[KeyOf(f)], c.rates[KeyOf(f)])
      && (simulate ==> KeyOf(f) in c.sets && c.sets[KeyOf(f)] in t[KeyOf(f)].simulationOptions)
  }

  lemma ServedIsChosen(codec: Codec, x: Inspection, w: Wanted, c: Choices, f: Fact)
    requires LoneUnlessRequired(x.partitions) && Settles(codec, x, w, c)
    requires Served(TableOf(x.partitions), x.simulateToPlt, f)
    ensures Chosen(TableOf(x.partitions), x.simulateToPlt, c, f)
  {
    EventRatesSettle(codec, x.partitions, w.rates);
    SimulationSetsSettle(codec, x.partitions, w.sets);
    var t, key := TableOf(x.partitions), KeyOf(f);
    if f.framework == ELT && x.simulateToPlt {
      assert key in c.sets && c.sets[key] in t[key].simulationOptions;
    }
  }

  /** The choices hold what is selected, and period counts for nothing else. */
  ghost predicate Follows(w: Wanted, c: Choices) {
    && (forall s :: s in w.rates ==> s.partition in c.rates && c.rates[s.partition] == s.value)
    && (forall s :: s in w.sets ==> s.partition in c.sets && c.sets[s.partition].id == s.value)
    && (forall s :: s in w.periods ==> s.partition in c.periods && c.periods[s.partition] == s.value)
    && (forall k :: k in c.periods ==> exists s :: s in w.periods && s.partition == k)
  }

  lemma SettledFollows(codec: Codec, x: Inspection, w: Wanted, c: Choices)
    requires LoneUnlessRequired(x.partitions) && Settles(codec, x, w, c)
    ensures Follows(w, c)
  {
    EventRatesSettle(codec, x.partitions, w.rates);
    SimulationSetsSettle(codec, x.partitions, w.sets);
    PeriodCountsSettle(codec, x.simulateToPlt, x.partitions, w.periods);
  }

  lemma GivenCounts(w: Wanted, c: Choices, key: PartitionKey, own: nat, e: Entry)
    requires Follows(w, c) && e.periods == if key in c.periods then c.periods[key] else own
    ensures Counts(w, key, own, e)
  {
  }

  lemma RowIsRated(simulate: bool, engines: map<PartitionKey, string>, c: Choices, f: Fact)
    requires f.framework == ELT && RowFor(simulate, engines, c, f).Row?
    ensures KeyOf(f) in c.rates && RowFor(simulate, engines, c, f).entry.schemeId == c.rates[KeyOf(f)]
  {
  }

  lemma ChosenConverts(x: Inspection, w: Wanted, c: Choices, f: Fact)
    requires Usable(f) && Chosen(TableOf(x.partitions), x.simulateToPlt, c, f) && Follows(w, c)
    ensures Converts(x, w, c, f)
  {
    var key := KeyOf(f);
    var e := RowFor(x.simulateToPlt, EltEngines(FactsOf(x.members), x.partitions), c, f).entry;
    if f.framework == PLT {
      GivenCounts(w, c, key, f.periods.value, e);
    } else {
      var q := TableOf(x.partitions)[key];
      RowIsRated(x.simulateToPlt, EltEngines(FactsOf(x.members), x.partitions), c, f);
      assert q in x.partitions && Rated(w, q, e);
      if x.simulateToPlt {
        GivenCounts(w, c, key, c.sets[key].periods, e);
        assert ConvertedBy(w, q, e);
      }
    }
  }

  ghost predicate Shown(p: Platform, id: nat, j: nat, x: Inspection, w: Wanted, rows: seq<Entry>) {
    exists e, f :: e in rows && RowGives(p, id, j, f) && Represents(x, w, e, f)
  }

  ghost predicate Sourced(p: Platform, ids: seq<nat>, x: Inspection, w: Wanted, e: Entry) {
    exists f: Fact :: f.analysisId in ids && FromRow(p, f.analysisId, f) && Represents(x, w, e, f)
  }

  ghost predicate AllConvert(x: Inspection, w: Wanted, c: Choices) {
    forall f :: f in FactsOf(x.members) ==> Converts(x, w, c, f)
  }

  /** The rows are those the facts become. */
  lemma RowsAre(codec: Codec, x: Inspection, w: Wanted, c: Choices, e: Entry)
    requires Injective(codec.entry) && (x.simulateToPlt || Conflicting(x.partitions)) && AllConvert(x, w, c)
    ensures Rows(codec, x, c).Built?
    ensures var facts := FactsOf(x.members);
            e in Rows(codec, x, c).rows <==>
            exists f :: f in facts && RowFor(x.simulateToPlt, EltEngines(facts, x.partitions), c, f) == Row(e)
  {
    var facts := FactsOf(x.members);
    assert forall f :: f in facts ==> Converts(x, w, c, f);
    var entries := EntriesOf(x.simulateToPlt, EltEngines(facts, x.partitions), c, facts).value;
    EntryKeysInjective(codec, entries);
    SortedSetIs(entries, EntryKey(codec));
  }

  lemma FactHasRow(codec: Codec, x: Inspection, w: Wanted, c: Choices, f: Fact) returns (e: Entry)
    requires Injective(codec.entry) && (x.simulateToPlt || Conflicting(x.partitions)) && AllConvert(x, w, c)
    requires f in FactsOf(x.members)
    ensures Rows(codec, x, c).Built? && e in Rows(codec, x, c).rows && Represents(x, w, e, f)
  {
    assert Converts(x, w, c, f);
    e := RowFor(x.simulateToPlt, EltEngines(FactsOf(x.members), x.partitions), c, f).entry;
    RowsAre(codec, x, w, c, e);
  }

  lemma RowHasFact(codec: Codec, x: Inspection, w: Wanted, c: Choices, e: Entry) returns (f: Fact)
    requires Injective(codec.entry) && (x.simulateToPlt || Conflicting(x.partitions)) && AllConvert(x, w, c)
    requires Rows(codec, x, c).Built? && e in Rows(codec, x, c).rows
    ensures f in FactsOf(x.members) && Represents(x, w, e, f)
  {
    RowsAre(codec, x, w, c, e);
    f :| f in FactsOf(x.members) && RowFor(x.simulateToPlt, EltEngines(FactsOf(x.members), x.partitions), c, f) == Row(e);
    assert Converts(x, w, c, f);
  }

  lemma RowIsShown(p: Platform, codec: Codec, id: nat, j: nat, x: Inspection, w: Wanted, c: Choices)
    requires Injective(codec.entry) && (x.simulateToPlt || Conflicting(x.partitions)) && AllConvert(x, w, c)
    requires RowCovered(p, id, j, FactsOf(x.members))
    ensures Rows(codec, x, c).Built? && Shown(p, id, j, x, w, Rows(codec, x, c).rows)
  {
    var f :| f in FactsOf(x.members) && RowGives(p, id, j, f);
    var e := FactHasRow(codec, x, w, c, f);
  }

  lemma AllShown(p: Platform, codec: Codec, ids: seq<nat>, x: Inspection, w: Wanted, c: Choices, rows: seq<Entry>)
    requires Injective(codec.entry) && (x.simulateToPlt || Conflicting(x.partitions)) && AllConvert(x, w, c)
    requires Rows(codec, x, c) == Built(rows)
    requires forall id :: id in ids ==> RowsCovered(p, id, FactsOf(x.members))
    requires forall f :: f in FactsOf(x.members) ==> f.analysisId in ids && FromRow(p, f.analysisId, f)
    ensures forall id, j: nat {:trigger Shown(p, id, j, x, w, rows)} ::
              id in ids && j < |RegionRows(p, id)| ==> Shown(p, id, j, x, w, rows)
    ensures forall e :: e in rows ==> Sourced(p, ids, x, w, e)
  {
    forall id, j: nat {:trigger Shown(p, id, j, x, w, rows)} | id in ids && j < |RegionRows(p, id)|
      ensures Shown(p, id, j, x, w, rows)
    {
      assert RowsCovered(p, id, FactsOf(x.members));
      RowIsShown(p, codec, id, j, x, w, c);
    }
    forall e | e in rows ensures Sourced(p, ids, x, w, e) {
      var f := RowHasFact(codec, x, w, c, e);
      assert f.analysisId in ids && FromRow(p, f.analysisId, f);
    }
  }

  /** Once nothing blocks and the selections settle, the builder finds every key it looks up and
      skips no fact; either there is nothing to send, the group being ELT and no partition of it
      needing a choice of schemes, or every raw region row of every analysis is shown by a row, and
      every row shows such a raw row. */
  lemma NothingLost(p: Platform, codec: Codec, ids: seq<nat>, x: Inspection, w: Wanted, c: Choices)
    requires Faithful(codec) && Inspect(p, codec, ids) == Inspected(x) && x.blocking == [] && Settles(codec, x, w, c)
    ensures forall f :: f in FactsOf(x.members) ==> Converts(x, w, c, f)
    ensures Rows(codec, x, c).Built?
    ensures var rows := Rows(codec, x, c).rows;
            if !x.simulateToPlt && !exists q :: q in x.partitions && q.schemeRequired then rows == []
            else
              && (forall id, j: nat {:trigger Shown(p, id, j, x, w, rows)} ::
                    id in ids && j < |RegionRows(p, id)| ==> Shown(p, id, j, x, w, rows))
              && (forall e :: e in rows ==> Sourced(p, ids, x, w, e))
  {
    var facts := FactsOf(x.members);
    Unblocked(p, codec, ids, x);
    InspectionShape(p, codec, ids, x);
    SettledFollows(codec, x, w, c);
    forall f | f in facts ensures Converts(x, w, c, f) {
      ServedIsChosen(codec, x, w, c, f);
      ChosenConverts(x, w, c, f);
    }
    assert AllConvert(x, w, c);
    if x.simulateToPlt || Conflicting(x.partitions) {
      RowsAre(codec, x, w, c, Entry("", 0, "", "", "", "", 0, 0));
      AllShown(p, codec, ids, x, w, c, Rows(codec, x, c).rows);
    }
  }

  // ---- what an inspection warns about -------------------------------------------------------------------

  lemma {:induction false} TreatiesNormalised(codec: Codec, id: nat, rows: seq<RawTreaty>)
    ensures TreatiesOf(codec, id, rows).Some? ==> Uniform(TreatiesOf(codec, id, rows).value, TERM_FIELDS)
  {
    if rows != [] {
      TreatiesNormalised(codec, id, rows[..|rows| - 1]);
      TermFields(codec, rows[|rows| - 1].fields);
    }
  }

  lemma ExaminedNormalised(p: Platform, codec: Codec, id: nat)
    ensures Examine(p, codec, id).Examined? ==> Uniform(Examine(p, codec, id).treaties, TERM_FIELDS)
  {
    if p.analysis(id).Found? && p.treaties(id).Treaties? { TreatiesNormalised(codec, id, p.treaties(id).rows); }
  }

  lemma {:induction false} CollectedNormalised(es: seq<Examination>)
    requires forall i :: 0 <= i < |es| && es[i].Examined? ==> Uniform(es[i].treaties, TERM_FIELDS)
    ensures Collect(es).Gathered? ==> Uniform(Collect(es).treaties, TERM_FIELDS)
  {
    if es != [] { CollectedNormalised(es[..|es| - 1]); }
  }

  /** An inspection warns about a treaty number exactly when two of the treaties it read under that
      number differ in their normalised terms, and says in which fields. */
  lemma InspectionWarns(p: Platform, codec: Codec, ids: seq<nat>, x: Inspection)
    requires Faithful(codec) && Inspect(p, codec, ids) == Inspected(x)
    ensures forall number :: Inconsistent(x.treaties, number) <==> exists w :: w in x.warnings && w.number == number
    ensures forall w :: w in x.warnings ==> Describes(x.treaties, w)
  {
    var es := Examinations(p, codec, ids);
    forall i | 0 <= i < |es| && es[i].Examined? ensures Uniform(es[i].treaties, TERM_FIELDS) {
      ExaminedNormalised(p, codec, ids[i]);
    }
    CollectedNormalised(es);
    WarningsAre(codec, x.treaties, TERM_FIELDS);
  }

  // ---- submit ---------------------------------------------------------------------------------------

  /** Broken stands for an exception nobody raises on purpose: a lookup that finds nothing. */
  datatype Submission =
    | InvalidIds
    | ReadFailed
    | Refused(problems: seq<Problem>)
    | Broken
    | Request(resourceUris: seq<string>, simulate: bool, rows: seq<Entry>)

  predicate ValidIds(ids: seq<int>) {
    |ids| >= 2 && (forall i :: 0 <= i < |ids| ==> ids[i] > 0) && forall i, j :: 0 <= i < j < |ids| ==> ids[i] != ids[j]
  }

  function Naturals(ids: seq<int>): (r: seq<nat>)
    requires forall i :: 0 <= i < |ids| ==> ids[i] > 0
    ensures |r| == |ids| && forall i :: 0 <= i < |ids| ==> r[i] == ids[i]
  {
    if ids == [] then [] else [ids[0]] + Naturals(ids[1..])
  }

  /** The request an unblocked inspection and the selections lead to. */
  function Requested(codec: Codec, x: Inspection, w: Wanted): Submission
    requires Injective(codec.entry)
  {
    match EventRates(codec, x.partitions, w.rates)
    case Rejected(problems) => Refused(problems)
    case KeyMissing => Broken
    case Settled(rates) =>
      match SimulationSets(codec, x.partitions, w.sets)
      case Rejected(problems) => Refused(problems)
      case KeyMissing => Broken
      case Settled(sets) =>
        match PeriodCounts(codec, x.simulateToPlt, x.partitions, w.periods)
        case Rejected(problems) => Refused(problems)
        case KeyMissing => Broken
        case Settled(periods) =>
          match Rows(codec, x, Choices(rates, sets, periods))
          case BuildFails => Broken
          case Built(rows) => Request(x.resourceUris, x.simulateToPlt, rows)
  }

  function Changed(ids: seq<nat>): Problem { Problem(InspectionChanged, ids, None, [], [], "") }

  function Submitted(p: Platform, codec: Codec, ids: seq<int>, w: Wanted, expected: string): Submission
    requires Injective(codec.entry)
  {
    if !ValidIds(ids) then InvalidIds
    else
      match Inspect(p, codec, Naturals(ids))
      case InspectRaises => ReadFailed
      case Inspected(x) =>
        if x.fingerprint != expected then Refused([Changed(Naturals(ids))])
        else if x.blocking != [] then Refused(x.blocking)
        else Requested(codec, x, w)
  }

  /** `submit`, up to the request body. */
  method Submit(p: Platform, codec: Codec, ids: seq<int>, w: Wanted, expected: string) returns (r: Submission)
    requires Injective(codec.entry)
    ensures r == Submitted(p, codec, ids, w, expected)
  {
    if !ValidIds(ids) { return InvalidIds; }
    var outcome := InspectMembers(p, codec, Naturals(ids));
    if outcome.InspectRaises? { return ReadFailed; }
    var x := outcome.inspection;
    if x.fingerprint != expected { return Refused([Changed(Naturals(ids))]); }
    if x.blocking != [] { return Refused(x.blocking); }
    var rates := ResolveEventRates(codec, x.partitions, w.rates);
    if rates.Rejected? { return Refused(rates.problems); }
    if rates.KeyMissing? { return Broken; }
    var sets := ResolveSimulationSets(codec, x.partitions, w.sets);
    if sets.Rejected? { return Refused(sets.problems); }
    if sets.KeyMissing? { return Broken; }
    var periods := ResolvePeriods(codec, x.simulateToPlt, x.partitions, w.periods);
    if periods.Rejected? { return Refused(periods.problems); }
    if periods.KeyMissing? { return Broken; }
    var built := BuildRows(codec, x, Choices(rates.choice, sets.choice, periods.choice));
    if built.BuildFails? { return Broken; }
    r := Request(x.resourceUris, x.simulateToPlt, built.rows);
  }

  /** What the caller must have chosen. */
  ghost predicate WellChosen(x: Inspection, w: Wanted) {
    && Admissible(EventRate, TableOf(x.partitions), w.rates)
    && Admissible(SimulationSet, TableOf(x.partitions), w.sets)
    && Admissible(Periods(x.simulateToPlt), TableOf(x.partitions), w.periods)
  }

  lemma RequestedIff(p: Platform, codec: Codec, ids: seq<nat>, x: Inspection, w: Wanted)
    requires Faithful(codec) && Inspect(p, codec, ids) == Inspected(x) && x.blocking == []
    ensures if WellChosen(x, w) then Requested(codec, x, w).Request? else Requested(codec, x, w).Refused?
  {
    InspectionShape(p, codec, ids, x);
    EventRatesSettle(codec, x.partitions, w.rates);
    SimulationSetsSettle(codec, x.partitions, w.sets);
    PeriodCountsSettle(codec, x.simulateToPlt, x.partitions, w.periods);
    var rates, sets := EventRates(codec, x.partitions, w.rates), SimulationSets(codec, x.partitions, w.sets);
    var periods := PeriodCounts(codec, x.simulateToPlt, x.partitions, w.periods);
    if WellChosen(x, w) {
      NothingLost(p, codec, ids, x, w, Choices(rates.choice, sets.choice, periods.choice));
    }
  }

  /** Submission makes a request exactly when the ids are valid, the reads succeed, the fingerprint
      is the expected one, nothing blocks and the choices are admissible; it never breaks. */
  lemma SubmitsIff(p: Platform, codec: Codec, ids: seq<int>, w: Wanted, expected: string)
    requires Faithful(codec)
    ensures !Submitted(p, codec, ids, w, expected).Broken?
    ensures Submitted(p, codec, ids, w, expected).Request? <==>
              && ValidIds(ids)
              && var outcome := Inspect(p, codec, Naturals(ids));
                 && outcome.Inspected? && outcome.inspection.fingerprint == expected
                 && outcome.inspection.blocking == [] && WellChosen(outcome.inspection, w)
  {
    if ValidIds(ids) && Inspect(p, codec, Naturals(ids)).Inspected? {
      var x := Inspect(p, codec, Naturals(ids)).inspection;
      if x.blocking == [] { RequestedIff(p, codec, Naturals(ids), x, w); }
    }
  }

  // ---- what is sent, and what is said instead -------------------------------------------------------------

  /** The settled choices a request is built on. */
  lemma RequestSettles(codec: Codec, x: Inspection, w: Wanted) returns (c: Choices)
    requires Injective(codec.entry) && Requested(codec, x, w).Request?
    ensures Settles(codec, x, w, c) && Rows(codec, x, c).Built?
    ensures Requested(codec, x, w) == Request(x.resourceUris, x.simulateToPlt, Rows(codec, x, c).rows)
  {
    c := Choices(EventRates(codec, x.partitions, w.rates).choice, SimulationSets(codec, x.partitions, w.sets).choice,
                 PeriodCounts(codec, x.simulateToPlt, x.partitions, w.periods).choice);
  }

  ghost predicate TextOrdered(codec: Codec, rows: seq<Entry>) {
    forall i, j :: 0 <= i < j < |rows| ==> Precedes(codec.entry(rows[i]), codec.entry(rows[j]))
  }

  lemma RowsInTextOrder(codec: Codec, x: Inspection, c: Choices)
    requires Injective(codec.entry) && Rows(codec, x, c).Built?
    ensures TextOrdered(codec, Rows(codec, x, c).rows)
  {
    if x.simulateToPlt || Conflicting(x.partitions) {
      var facts := FactsOf(x.members);
      var entries := EntriesOf(x.simulateToPlt, EltEngines(facts, x.partitions), c, facts).value;
      EntryKeysInjective(codec, entries);
      SortedSetIs(entries, EntryKey(codec));
      SortedEntries(codec, entries, SortedSet(entries, EntryKey(codec)));
    }
  }

  lemma SortedEntries(codec: Codec, entries: set<Entry>, rows: seq<Entry>)
    requires Injective(codec.entry) && SortedForm(rows, entries, EntryKey(codec))
    ensures TextOrdered(codec, rows)
  {
    forall i, j | 0 <= i < j < |rows| ensures Precedes(codec.entry(rows[i]), codec.entry(rows[j])) {
      assert EntryKey(codec)(rows[i]) == StringKey(codec.entry(rows[i])) && EntryKey(codec)(rows[j]) == StringKey(codec.entry(rows[j]));
      TextsInOrder(codec.entry(rows[i]), codec.entry(rows[j]));
    }
  }

  /** A request names the address of every analysis, in the order given, asks for simulation exactly when
      some fact is PLT, and has its rows in the order of their texts, each once; and they show the raw
      region rows as the selections will have it, unless the group is ELT and needs no choice of schemes. */
  lemma RequestIs(p: Platform, codec: Codec, ids: seq<int>, w: Wanted, expected: string)
    requires Faithful(codec) && Submitted(p, codec, ids, w, expected).Request?
    ensures ValidIds(ids) && Inspect(p, codec, Naturals(ids)).Inspected?
    ensures var r, n, x := Submitted(p, codec, ids, w, expected), Naturals(ids), Inspect(p, codec, Naturals(ids)).inspection;
            && |r.resourceUris| == |n| && (forall i :: 0 <= i < |n| ==> r.resourceUris[i] == codec.uri(n[i]))
            && (r.simulate <==> exists f :: f in FactsOf(x.members) && f.framework == PLT)
            && TextOrdered(codec, r.rows)
            && if !r.simulate && !exists q :: q in x.partitions && q.schemeRequired then r.rows == []
               else
                 && (forall id, j: nat {:trigger Shown(p, id, j, x, w, r.rows)} ::
                       id in n && j < |RegionRows(p, id)| ==> Shown(p, id, j, x, w, r.rows))
                 && (forall e :: e in r.rows ==> Sourced(p, n, x, w, e))
  {
    var x := Inspect(p, codec, Naturals(ids)).inspection;
    InspectionIs(p, codec, Naturals(ids), x);
    var c := RequestSettles(codec, x, w);
    NothingLost(p, codec, Naturals(ids), x, w, c);
    RowsInTextOrder(codec, x, c);
  }

  /** Submission is refused for the first of these: a fingerprint that is not the expected one, problems
      that block, event-rate, simulation-set and period selections that are not admissible. */
  ghost predicate RefusedFor(codec: Codec, x: Inspection, w: Wanted, expected: string, r: Submission) {
    if x.fingerprint != expected then r == Refused([Problem(InspectionChanged, x.analysisIds, None, [], [], "")])
    else if x.blocking != [] then r == Refused(x.blocking)
    else if !Admissible(EventRate, TableOf(x.partitions), w.rates) then
      r.Refused? && Check(codec, EventRate, x.partitions, w.rates) == Err(r.problems)
    else if !Admissible(SimulationSet, TableOf(x.partitions), w.sets) then
      r.Refused? && Check(codec, SimulationSet, x.partitions, w.sets) == Err(r.problems)
    else if !Admissible(Periods(x.simulateToPlt), TableOf(x.partitions), w.periods) then
      r.Refused? && Check(codec, Periods(x.simulateToPlt), x.partitions, w.periods) == Err(r.problems)
    else r.Request?
  }

  lemma RequestedOrRefused(p: Platform, codec: Codec, ids: seq<nat>, x: Inspection, w: Wanted, expected: string)
    requires Faithful(codec) && Inspect(p, codec, ids) == Inspected(x) && x.fingerprint == expected && x.blocking == []
    ensures RefusedFor(codec, x, w, expected, Requested(codec, x, w))
  {
    InspectionShape(p, codec, ids, x);
    RequestedIff(p, codec, ids, x, w);
    AcceptedIffAdmissible(codec, EventRate, x.partitions, w.rates);
    AcceptedIffAdmissible(codec, SimulationSet, x.partitions, w.sets);
    AcceptedIffAdmissible(codec, Periods(x.simulateToPlt), x.partitions, w.periods);
    EventRatesSettle(codec, x.partitions, w.rates);
    SimulationSetsSettle(codec, x.partitions, w.sets);
  }

  lemma ValidIdsAre(ids: seq<int>)
    ensures ValidIds(ids) <==> |ids| >= 2 && (forall id :: id in ids ==> id > 0) && Distinct(ids)
  {
    if forall id :: id in ids ==> id > 0 { assert forall i :: 0 <= i < |ids| ==> ids[i] in ids; }
  }

  lemma ChangedIs(ids: seq<nat>)
    ensures Changed(ids) == Problem(InspectionChanged, ids, None, [], [], "")
  {
  }

  lemma OutcomeIs(p: Platform, codec: Codec, ids: seq<int>, x: Inspection, w: Wanted, expected: string)
    requires Faithful(codec) && ValidIds(ids) && Inspect(p, codec, Naturals(ids)) == Inspected(x)
    ensures RefusedFor(codec, x, w, expected, Submitted(p, codec, ids, w, expected))
  {
    ChangedIs(Naturals(ids));
    InspectionIs(p, codec, Naturals(ids), x);
    if x.fingerprint == expected && x.blocking == [] { RequestedOrRefused(p, codec, Naturals(ids), x, w, expected); }
  }

  /** Ids must be two or more, positive and distinct; a read that fails is passed on; and otherwise the
      request is made or refused for the first reason there is. */
  lemma SubmissionIs(p: Platform, codec: Codec, ids: seq<int>, w: Wanted, expected: string)
    requires Faithful(codec)
    ensures var r := Submitted(p, codec, ids, w, expected);
            if !(|ids| >= 2 && (forall id :: id in ids ==> id > 0) && Distinct(ids)) then r == InvalidIds
            else
              && ValidIds(ids)
              && match Inspect(p, codec, Naturals(ids))
                 case InspectRaises => r == ReadFailed
                 case Inspected(x) => RefusedFor(codec, x, w, expected, r)
  {
    ValidIdsAre(ids);
    if ValidIds(ids) && Inspect(p, codec, Naturals(ids)).Inspected? {
      OutcomeIs(p, codec, ids, Inspect(p, codec, Naturals(ids)).inspection, w, expected);
    }
  }
}
