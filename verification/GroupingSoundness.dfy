/** The fingerprint covers everything submission reads: two inspections with one fingerprint
    lead to the same verdict on every selection and to the same request rows. */
module GroupingSoundness {
  import opened Prelude
  import opened Ordering
  import opened GroupingModel
  import opened GroupingInspect
  import opened GroupingFingerprint
  import opened GroupingSelections
  import opened GroupingRequest
  import opened GroupingSubmit

  // ---- partitions seen alike ---------------------------------------------------------------

  /** The same partition, up to labels. */
  ghost predicate Alike(a: Partition, b: Partition) {
    && a.key == b.key && a.analysisIds == b.analysisIds && a.petIds == b.petIds
    && a.schemeRequired == b.schemeRequired && a.simulationRequired == b.simulationRequired
    && |a.schemeOptions| == |b.schemeOptions|
    && (forall i :: 0 <= i < |a.schemeOptions| ==> a.schemeOptions[i].id == b.schemeOptions[i].id)
    && SameSets(a.simulationOptions, b.simulationOptions)
  }

  ghost predicate SameSets(os: seq<SimulationOption>, qs: seq<SimulationOption>) {
    |os| == |qs| &&
    forall i :: 0 <= i < |os| ==> os[i].id == qs[i].id && os[i].periods == qs[i].periods && os[i].schemeId == qs[i].schemeId
  }

  lemma SameViewAlike(a: Partition, b: Partition)
    requires ViewOf(a) == ViewOf(b)
    ensures Alike(a, b)
  {
    var s, t := ViewOf(a).schemeIds, ViewOf(b).schemeIds;
    forall i | 0 <= i < |a.schemeOptions| ensures a.schemeOptions[i].id == b.schemeOptions[i].id {
      assert s[i] == t[i];
    }
    var m, n := ViewOf(a).simulations, ViewOf(b).simulations;
    forall i | 0 <= i < |a.simulationOptions|
      ensures a.simulationOptions[i].id == b.simulationOptions[i].id
      ensures a.simulationOptions[i].periods == b.simulationOptions[i].periods
      ensures a.simulationOptions[i].schemeId == b.simulationOptions[i].schemeId
    {
      assert m[i] == n[i];
    }
  }

  ghost predicate AllAlike(ps: seq<Partition>, qs: seq<Partition>) {
    |ps| == |qs| && forall i :: 0 <= i < |ps| ==> Alike(ps[i], qs[i])
  }

  lemma SameViewsAlike(ps: seq<Partition>, qs: seq<Partition>)
    requires Views(ps) == Views(qs)
    ensures AllAlike(ps, qs)
  {
    assert |Views(ps)| == |Views(qs)|;
    forall i | 0 <= i < |ps| ensures Alike(ps[i], qs[i]) {
      assert Views(ps)[i] == Views(qs)[i];
      SameViewAlike(ps[i], qs[i]);
    }
  }

  ghost predicate TablesAlike(t: Table, u: Table) {
    t.Keys == u.Keys && forall k :: k in t ==> Alike(t[k], u[k])
  }

  lemma {:induction false} SameTables(ps: seq<Partition>, qs: seq<Partition>)
    requires AllAlike(ps, qs)
    ensures TablesAlike(TableOf(ps), TableOf(qs))
  {
    if ps != [] {
      var n := |ps| - 1;
      SameTables(ps[..n], qs[..n]);
    }
  }

  // ---- selections against them ------------------------------------------------------------------

  lemma SameAnswers(kind: Kind, a: Partition, b: Partition, value: nat)
    requires Alike(a, b)
    ensures Allowed(kind, a) == Allowed(kind, b) && Mandatory(kind, a) == Mandatory(kind, b)
    ensures Offers(kind, a, value) == Offers(kind, b, value)
  {
  }

  lemma {:induction false} SameSelectionFaults(kind: Kind, t: Table, u: Table, selections: seq<Selection>)
    requires TablesAlike(t, u)
    ensures SelectionFaults(kind, t, selections) == SelectionFaults(kind, u, selections)
  {
    if selections != [] {
      var n := |selections| - 1;
      SameSelectionFaults(kind, t, u, selections[..n]);
      var s := selections[n];
      if s.partition in t { SameAnswers(kind, t[s.partition], u[s.partition], s.value); }
    }
  }

  lemma {:induction false} SameMissingFaults(kind: Kind, t: Table, u: Table, selected: set<PartitionKey>,
                                             ps: seq<Partition>, qs: seq<Partition>)
    requires TablesAlike(t, u) && AllAlike(ps, qs)
    ensures MissingFaults(kind, t, selected, ps) == MissingFaults(kind, u, selected, qs)
  {
    if ps != [] {
      var n := |ps| - 1;
      SameMissingFaults(kind, t, u, selected, ps[..n], qs[..n]);
      var key := ps[n].key;
      assert qs[n].key == key;
      if key in t { SameAnswers(kind, t[key], u[key], 0); }
    }
  }

  lemma SameCheck(codec: Codec, kind: Kind, ps: seq<Partition>, qs: seq<Partition>, selections: seq<Selection>)
    requires AllAlike(ps, qs)
    ensures Check(codec, kind, ps, selections) == Check(codec, kind, qs, selections)
  {
    SameTables(ps, qs);
    SameSelectionFaults(kind, TableOf(ps), TableOf(qs), selections);
    SameMissingFaults(kind, TableOf(ps), TableOf(qs), Selected(selections), ps, qs);
  }

  // ---- the resolvers ----------------------------------------------------------------------------------

  lemma SameRates(t: Table, u: Table, supplied: map<PartitionKey, nat>)
    requires TablesAlike(t, u)
    ensures RatesKnown(t, supplied, t.Keys) == RatesKnown(u, supplied, u.Keys)
    ensures RatesKnown(t, supplied, t.Keys) ==> RatesFor(t, supplied, t.Keys) == RatesFor(u, supplied, u.Keys)
  {
  }

  lemma SameEventRates(codec: Codec, ps: seq<Partition>, qs: seq<Partition>, selections: seq<Selection>)
    requires AllAlike(ps, qs)
    ensures EventRates(codec, ps, selections) == EventRates(codec, qs, selections)
  {
    SameCheck(codec, EventRate, ps, qs, selections);
    SameTables(ps, qs);
    if Check(codec, EventRate, ps, selections).Ok? {
      SameRates(TableOf(ps), TableOf(qs), Check(codec, EventRate, ps, selections).value);
    }
  }

  /** Simulation options that differ at most in labels. */
  ghost predicate SameOption(a: Option<SimulationOption>, b: Option<SimulationOption>) {
    a.Some? == b.Some? && (a.Some? ==> a.value.id == b.value.id && a.value.periods == b.value.periods)
  }

  lemma {:induction false} SameFirst(os: seq<SimulationOption>, qs: seq<SimulationOption>, id: nat)
    requires SameSets(os, qs)
    ensures SameOption(FirstWithId(os, id), FirstWithId(qs, id))
  {
    if os != [] && os[0].id != id { SameFirst(os[1..], qs[1..], id); }
  }

  ghost predicate SameChoice(m: map<PartitionKey, SimulationOption>, n: map<PartitionKey, SimulationOption>) {
    m.Keys == n.Keys && forall k :: k in m ==> m[k].id == n[k].id && m[k].periods == n[k].periods
  }

  lemma SamePicks(t: Table, u: Table, supplied: map<PartitionKey, nat>)
    requires TablesAlike(t, u)
    ensures SetsKnown(t, supplied, t.Keys) == SetsKnown(u, supplied, u.Keys)
    ensures SetsKnown(t, supplied, t.Keys) ==> SameChoice(SetsFor(t, supplied, t.Keys), SetsFor(u, supplied, u.Keys))
  {
    forall k | k in t && k in supplied
      ensures SameOption(FirstWithId(t[k].simulationOptions, supplied[k]), FirstWithId(u[k].simulationOptions, supplied[k]))
    {
      SameFirst(t[k].simulationOptions, u[k].simulationOptions, supplied[k]);
    }
  }

  ghost predicate SameResolution(r: Resolution<SimulationOption>, s: Resolution<SimulationOption>) {
    match r
    case Rejected(_) => r == s
    case KeyMissing => s.KeyMissing?
    case Settled(m) => s.Settled? && SameChoice(m, s.choice)
  }

  lemma SameSimulationSets(codec: Codec, ps: seq<Partition>, qs: seq<Partition>, selections: seq<Selection>)
    requires AllAlike(ps, qs)
    ensures SameResolution(SimulationSets(codec, ps, selections), SimulationSets(codec, qs, selections))
  {
    SameCheck(codec, SimulationSet, ps, qs, selections);
    SameTables(ps, qs);
    if Check(codec, SimulationSet, ps, selections).Ok? {
      SamePicks(TableOf(ps), TableOf(qs), Check(codec, SimulationSet, ps, selections).value);
    }
  }

  // ---- the builder ----------------------------------------------------------------------------------------

  ghost predicate SameChoices(c: Choices, d: Choices) {
    c.rates == d.rates && c.periods == d.periods && SameChoice(c.sets, d.sets)
  }

  lemma SameEntries(simulate: bool, engines: map<PartitionKey, string>, c: Choices, d: Choices, facts: set<Fact>)
    requires SameChoices(c, d)
    ensures EntriesOf(simulate, engines, c, facts) == EntriesOf(simulate, engines, d, facts)
  {
    forall f | f in facts ensures RowFor(simulate, engines, c, f) == RowFor(simulate, engines, d, f) {
    }
    if EntriesOf(simulate, engines, c, facts).Some? {
      assert EntriesOf(simulate, engines, c, facts).value == EntriesOf(simulate, engines, d, facts).value;
    }
  }

  lemma SameRows(codec: Codec, x: Inspection, y: Inspection, c: Choices, d: Choices)
    requires Injective(codec.entry) && AllAlike(x.partitions, y.partitions) && SameChoices(c, d)
    requires x.simulateToPlt == y.simulateToPlt && FactsOf(x.members) == FactsOf(y.members)
    ensures Rows(codec, x, c) == Rows(codec, y, d)
  {
    SameConflict(x.partitions, y.partitions);
    SameKeys(x.partitions, y.partitions);
    var facts := FactsOf(x.members);
    assert EltEngines(facts, x.partitions) == EltEngines(facts, y.partitions);
    SameEntries(x.simulateToPlt, EltEngines(facts, x.partitions), c, d, facts);
  }

  lemma SameKeys(ps: seq<Partition>, qs: seq<Partition>)
    requires AllAlike(ps, qs)
    ensures KeysIn(ps) == KeysIn(qs)
  {
  }

  lemma SameConflict(ps: seq<Partition>, qs: seq<Partition>)
    requires AllAlike(ps, qs)
    ensures Conflicting(ps) == Conflicting(qs)
  {
  }

  // ---- soundness ----------------------------------------------------------------------------------------------

  ghost predicate SameProblems(qs: seq<Problem>, rs: seq<Problem>) {
    |qs| == |rs| &&
    forall i :: 0 <= i < |qs| ==>
      && qs[i].code == rs[i].code && qs[i].analysisIds == rs[i].analysisIds
      && qs[i].partition == rs[i].partition && qs[i].petIds == rs[i].petIds
  }

  /** The same verdict: refusals with the same problems, as far as the fingerprint lists problems,
      and requests with the same rows for the same analyses, in whatever order. */
  ghost predicate SameVerdict(r: Submission, s: Submission) {
    match r
    case Refused(problems) => s.Refused? && SameProblems(problems, s.problems)
    case Request(uris, simulate, rows) =>
      s.Request? && s.simulate == simulate && s.rows == rows && multiset(s.resourceUris) == multiset(uris)
    case _ => r == s
  }

  /** Inspections that submission cannot tell apart. */
  ghost predicate SameReading(x: Inspection, y: Inspection) {
    && AllAlike(x.partitions, y.partitions)
    && x.simulateToPlt == y.simulateToPlt
    && FactsOf(x.members) == FactsOf(y.members)
    && multiset(x.resourceUris) == multiset(y.resourceUris)
  }

  /** Two inspections found the same: the same analyses, addresses, members, mappings and treaties, in
      whatever order, the same partitions up to labels, and the same problems up to where they lie. */
  ghost predicate SameFindings(x: Inspection, y: Inspection) {
    && multiset(x.analysisIds) == multiset(y.analysisIds) && multiset(x.resourceUris) == multiset(y.resourceUris)
    && multiset(x.members) == multiset(y.members)
    && multiset(x.mappings) == multiset(y.mappings) && multiset(x.treaties) == multiset(y.treaties)
    && x.simulateToPlt == y.simulateToPlt
    && AllAlike(x.partitions, y.partitions) && SameProblems(x.blocking, y.blocking)
  }

  lemma SameSorted<T>(xs: seq<T>, ys: seq<T>, key: T -> Key)
    requires StableSort(xs, key) == StableSort(ys, key)
    ensures multiset(xs) == multiset(ys)
  {
    StableSortIs(xs, key, []);
    StableSortIs(ys, key, []);
  }

  lemma SameProblemViews(qs: seq<Problem>, rs: seq<Problem>)
    requires ProblemViews(qs) == ProblemViews(rs)
    ensures SameProblems(qs, rs)
  {
    assert |ProblemViews(qs)| == |ProblemViews(rs)|;
    forall i | 0 <= i < |qs| ensures ProblemViewOf(qs[i]) == ProblemViewOf(rs[i]) {
      assert ProblemViews(qs)[i] == ProblemViews(rs)[i];
    }
  }

  lemma SamePayloadFindings(x: Inspection, y: Inspection)
    requires PayloadOf(x) == PayloadOf(y)
    ensures SameFindings(x, y)
  {
    SameSorted(x.analysisIds, y.analysisIds, NatKey);
    SameSorted(x.resourceUris, y.resourceUris, StringKey);
    SameSorted(x.members, y.members, MemberSortKey);
    SameSorted(x.mappings, y.mappings, MappingSortKey);
    SameSorted(x.treaties, y.treaties, TreatySortKey);
    SameViewsAlike(x.partitions, y.partitions);
    SameProblemViews(x.blocking, y.blocking);
  }

  lemma SameFindingsReading(x: Inspection, y: Inspection)
    requires SameFindings(x, y)
    ensures SameReading(x, y)
  {
    SameMembers(x.members, y.members);
  }

  /** What a fingerprint vouches for: whatever the Platform answered, two inspections that share one
      found the same, down to the terms of every treaty. */
  lemma FingerprintVouches(p: Platform, q: Platform, codec: Codec, ids: seq<nat>, others: seq<nat>)
    requires Faithful(codec) && Inspect(p, codec, ids).Inspected? && Inspect(q, codec, others).Inspected?
    requires Inspect(p, codec, ids).inspection.fingerprint == Inspect(q, codec, others).inspection.fingerprint
    ensures SameFindings(Inspect(p, codec, ids).inspection, Inspect(q, codec, others).inspection)
  {
    var x, y := Inspect(p, codec, ids).inspection, Inspect(q, codec, others).inspection;
    InspectionIs(p, codec, ids, x);
    InspectionIs(q, codec, others, y);
    SamePayloadFindings(x, y);
  }

  lemma SettledRequest(codec: Codec, x: Inspection, w: Wanted, c: Choices)
    requires Injective(codec.entry) && Settles(codec, x, w, c)
    ensures Requested(codec, x, w) == if Rows(codec, x, c).BuildFails? then Broken
                                      else Request(x.resourceUris, x.simulateToPlt, Rows(codec, x, c).rows)
  {
  }

  lemma SameBuilt(codec: Codec, x: Inspection, y: Inspection, w: Wanted, c: Choices, d: Choices)
    requires Injective(codec.entry) && SameReading(x, y) && Settles(codec, x, w, c) && Settles(codec, y, w, d)
    requires SameChoices(c, d)
    ensures SameVerdict(Requested(codec, x, w), Requested(codec, y, w))
  {
    SameRows(codec, x, y, c, d);
    SettledRequest(codec, x, w, c);
    SettledRequest(codec, y, w, d);
  }

  lemma SameRequested(codec: Codec, x: Inspection, y: Inspection, w: Wanted)
    requires Injective(codec.entry) && SameReading(x, y)
    ensures SameVerdict(Requested(codec, x, w), Requested(codec, y, w))
  {
    SameEventRates(codec, x.partitions, y.partitions, w.rates);
    SameSimulationSets(codec, x.partitions, y.partitions, w.sets);
    SameCheck(codec, Periods(x.simulateToPlt), x.partitions, y.partitions, w.periods);
    var rates, sets := EventRates(codec, x.partitions, w.rates), SimulationSets(codec, x.partitions, w.sets);
    var periods := PeriodCounts(codec, x.simulateToPlt, x.partitions, w.periods);
    if rates.Settled? && sets.Settled? && periods.Settled? {
      SameBuilt(codec, x, y, w, Choices(rates.choice, sets.choice, periods.choice),
                Choices(rates.choice, SimulationSets(codec, y.partitions, w.sets).choice, periods.choice));
    }
  }

  predicate HasFingerprint(r: Outcome, expected: string) { r.Inspected? && r.inspection.fingerprint == expected }

  /** Fingerprint soundness. Whatever the Platform answered, and in whatever order the analyses were
      named: when two inspections have the fingerprint the caller expects, every choice of selections
      meets the same verdict, down to the rows of the request. */
  lemma FingerprintSound(p: Platform, q: Platform, codec: Codec, ids: seq<int>, others: seq<int>, w: Wanted,
                         expected: string)
    requires Faithful(codec) && ValidIds(ids) && ValidIds(others)
    requires HasFingerprint(Inspect(p, codec, Naturals(ids)), expected)
    requires HasFingerprint(Inspect(q, codec, Naturals(others)), expected)
    ensures SameVerdict(Submitted(p, codec, ids, w, expected), Submitted(q, codec, others, w, expected))
  {
    var x, y := Inspect(p, codec, Naturals(ids)).inspection, Inspect(q, codec, Naturals(others)).inspection;
    InspectionIs(p, codec, Naturals(ids), x);
    InspectionIs(q, codec, Naturals(others), y);
    assert PayloadOf(x) == PayloadOf(y);
    SamePayloadFindings(x, y);
    SameFindingsReading(x, y);
    SameRequested(codec, x, y, w);
  }

  /** An unchanged Platform keeps the caller's fingerprint good for any order of the analyses. */
  lemma ReorderedSubmission(p: Platform, codec: Codec, ids: seq<int>, others: seq<int>, w: Wanted)
    requires Faithful(codec) && ValidIds(ids) && multiset(ids) == multiset(others)
    requires Inspect(p, codec, Naturals(ids)).Inspected?
    ensures var expected := Inspect(p, codec, Naturals(ids)).inspection.fingerprint;
            SameVerdict(Submitted(p, codec, ids, w, expected), Submitted(p, codec, others, w, expected))
  {
    ValidReordered(ids, others);
    NaturalsPermuted(ids, others);
    OrderIndependence(p, codec, Naturals(ids), Naturals(others));
    FingerprintSound(p, p, codec, ids, others, w, Inspect(p, codec, Naturals(ids)).inspection.fingerprint);
  }

  lemma ValidReordered(ids: seq<int>, others: seq<int>)
    requires ValidIds(ids) && multiset(ids) == multiset(others)
    ensures ValidIds(others)
  {
    assert |ids| == |multiset(ids)| == |others|;
    forall i | 0 <= i < |others| ensures others[i] > 0 {
      assert others[i] in multiset(ids);
    }
    forall i, j | 0 <= i < j < |others| ensures others[i] != others[j] {
      if others[i] == others[j] {
        assert others == others[..i] + [others[i]] + others[i + 1..j] + [others[j]] + others[j + 1..];
        assert multiset(others)[others[i]] >= 2;
        OncePerElement(ids, others[i]);
      }
    }
  }

  lemma {:induction false} OncePerElement(xs: seq<int>, e: int)
    requires forall i, j :: 0 <= i < j < |xs| ==> xs[i] != xs[j]
    ensures multiset(xs)[e] <= 1
  {
    if xs != [] {
      var n := |xs| - 1;
      assert xs == xs[..n] + [xs[n]];
      OncePerElement(xs[..n], e);
      if e == xs[n] { assert e !in multiset(xs[..n]); }
    }
  }

  lemma {:induction false} NaturalsPermuted(ids: seq<int>, others: seq<int>)
    requires (forall i :: 0 <= i < |ids| ==> ids[i] > 0) && (forall i :: 0 <= i < |others| ==> others[i] > 0)
    requires multiset(ids) == multiset(others)
    ensures multiset(Naturals(ids)) == multiset(Naturals(others))
  {
    assert Naturals(ids) == ids;
    assert Naturals(others) == others;
  }
}
