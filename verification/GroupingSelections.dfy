/** Validating what the caller selects for the partitions of an inspection. */
module GroupingSelections {
  import opened Prelude
  import opened Ordering
  import opened GroupingModel
  import opened GroupingProblems

  /** A scheme id, a simulation-set id or a period count chosen for a partition. */
  datatype Selection = Selection(partition: PartitionKey, value: nat)

  datatype Kind = EventRate | SimulationSet | Periods(simulate: bool)

  function Name(kind: Kind): string {
    match kind
    case EventRate => "EVENT_RATE"
    case SimulationSet => "SIMULATION_SET"
    case Periods(_) => "SIMULATION_PERIODS"
  }

  /** A selection for this partition is expected. */
  predicate Allowed(kind: Kind, x: Partition) {
    match kind
    case EventRate => x.schemeRequired
    case SimulationSet => x.simulationRequired
    case Periods(simulate) => simulate
  }

  predicate Mandatory(kind: Kind, x: Partition) { !kind.Periods? && Allowed(kind, x) }

  predicate Offers(kind: Kind, x: Partition, value: nat) {
    match kind
    case EventRate => exists o :: o in x.schemeOptions && o.id == value
    case SimulationSet => exists o :: o in x.simulationOptions && o.id == value
    case Periods(_) => true
  }

  type Table = map<PartitionKey, Partition>

  function KeysIn(ps: seq<Partition>): set<PartitionKey> { set x | x in ps :: x.key }

  /** The partitions by key; of two with one key the later counts. */
  function TableOf(ps: seq<Partition>): (t: Table)
    ensures t.Keys == KeysIn(ps)
    ensures forall k :: k in t ==> t[k] in ps && t[k].key == k
  {
    if ps == [] then map[]
    else
      var n := |ps| - 1;
      assert ps == ps[..n] + [ps[n]];
      TableOf(ps[..n])[ps[n].key := ps[n]]
  }

  function Selected(selections: seq<Selection>): set<PartitionKey> {
    set s | s in selections :: s.partition
  }

  // ---- the rule -------------------------------------------------------------------------

  /** Every selection stands alone for its partition, is expected and offered there, and no
      partition that needs one goes without. */
  ghost predicate Admissible(kind: Kind, t: Table, selections: seq<Selection>) {
    && (forall i, j :: 0 <= i < j < |selections| ==> selections[i].partition != selections[j].partition)
    && (forall s :: s in selections ==>
          s.partition in t && Allowed(kind, t[s.partition]) && Offers(kind, t[s.partition], s.value))
    && (forall k :: k in t && Mandatory(kind, t[k]) ==> k in Selected(selections))
  }

  // ---- the check as coded ------------------------------------------------------------------

  function Fault(code: ProblemCode, ids: seq<nat>, key: PartitionKey): Problem { Problem(code, ids, Some(key), [], [], "") }

  /** What is wrong with one selection, given the partitions selected before it. */
  function SelectionFault(kind: Kind, t: Table, earlier: set<PartitionKey>, s: Selection): seq<Problem> {
    var key := s.partition;
    if key in earlier then [Fault(SelectionDuplicate(Name(kind)), [], key)]
    else if key !in t then [Fault(SelectionUnknownPartition(Name(kind)), [], key)]
    else if !Allowed(kind, t[key]) then [Fault(SelectionNotRequired(Name(kind)), t[key].analysisIds, key)]
    else if !Offers(kind, t[key], s.value) then [Fault(SelectionNotOffered(Name(kind)), t[key].analysisIds, key)]
    else []
  }

  function SelectionFaults(kind: Kind, t: Table, selections: seq<Selection>): seq<Problem> {
    if selections == [] then []
    else
      var n := |selections| - 1;
      SelectionFaults(kind, t, selections[..n]) + SelectionFault(kind, t, Selected(selections[..n]), selections[n])
  }

  predicate Lacks(kind: Kind, t: Table, selected: set<PartitionKey>, key: PartitionKey) {
    key in t && Mandatory(kind, t[key]) && key !in selected
  }

  function MissingFault(kind: Kind, t: Table, key: PartitionKey): Problem
    requires key in t
  {
    Fault(SelectionMissing(Name(kind)), t[key].analysisIds, key)
  }

  function MissingFaults(kind: Kind, t: Table, selected: set<PartitionKey>, ps: seq<Partition>): seq<Problem> {
    if ps == [] then []
    else
      var n := |ps| - 1;
      var key := ps[n].key;
      MissingFaults(kind, t, selected, ps[..n]) + if Lacks(kind, t, selected, key) then [MissingFault(kind, t, key)] else []
  }

  /** The first value selected for each partition. */
  function Supplied(selections: seq<Selection>): (m: map<PartitionKey, nat>)
    ensures m.Keys == Selected(selections)
  {
    if selections == [] then map[]
    else
      var n := |selections| - 1;
      assert selections == selections[..n] + [selections[n]];
      var before := Supplied(selections[..n]);
      if selections[n].partition in before then before else before[selections[n].partition := selections[n].value]
  }

  function Faults(kind: Kind, ps: seq<Partition>, selections: seq<Selection>): seq<Problem> {
    SelectionFaults(kind, TableOf(ps), selections) + MissingFaults(kind, TableOf(ps), Selected(selections), ps)
  }

  function Check(codec: Codec, kind: Kind, ps: seq<Partition>, selections: seq<Selection>): Result<map<PartitionKey, nat>, seq<Problem>> {
    if Faults(kind, ps, selections) == [] then Ok(Supplied(selections))
    else Err(Deduplicated(codec, Faults(kind, ps, selections)))
  }

  /** This is what is wrong with the selection at this place. */
  predicate FaultAt(kind: Kind, t: Table, selections: seq<Selection>, i: int, q: Problem) {
    0 <= i < |selections| && q in SelectionFault(kind, t, Selected(selections[..i]), selections[i])
  }

  lemma FaultAtPrefix(kind: Kind, t: Table, selections: seq<Selection>, n: nat, i: int, q: Problem)
    requires n <= |selections|
    ensures FaultAt(kind, t, selections[..n], i, q) <==> i < n && FaultAt(kind, t, selections, i, q)
  {
  }

  lemma {:induction false} SelectionFaultsAre(kind: Kind, t: Table, selections: seq<Selection>, q: Problem)
    ensures q in SelectionFaults(kind, t, selections) <==> exists i :: FaultAt(kind, t, selections, i, q)
  {
    if selections != [] {
      var n := |selections| - 1;
      SelectionFaultsAre(kind, t, selections[..n], q);
      assert q in SelectionFaults(kind, t, selections) <==>
        q in SelectionFaults(kind, t, selections[..n]) || FaultAt(kind, t, selections, n, q);
      forall i ensures FaultAt(kind, t, selections[..n], i, q) <==> i < n && FaultAt(kind, t, selections, i, q) {
        FaultAtPrefix(kind, t, selections, n, i, q);
      }
    }
  }

  lemma {:induction false} MissingFaultsAre(kind: Kind, t: Table, selected: set<PartitionKey>, ps: seq<Partition>)
    ensures forall q :: q in MissingFaults(kind, t, selected, ps) <==>
              exists i :: 0 <= i < |ps| && Lacks(kind, t, selected, ps[i].key) && q == MissingFault(kind, t, ps[i].key)
  {
    if ps != [] {
      var n := |ps| - 1;
      var before := ps[..n];
      MissingFaultsAre(kind, t, selected, before);
      forall q ensures q in MissingFaults(kind, t, selected, ps) <==>
          exists i :: 0 <= i < |ps| && Lacks(kind, t, selected, ps[i].key) && q == MissingFault(kind, t, ps[i].key)
      {
        if q in MissingFaults(kind, t, selected, before) {
          var i :| 0 <= i < n && Lacks(kind, t, selected, before[i].key) && q == MissingFault(kind, t, before[i].key);
          assert Lacks(kind, t, selected, ps[i].key);
        }
        if i :| 0 <= i < |ps| && Lacks(kind, t, selected, ps[i].key) && q == MissingFault(kind, t, ps[i].key) {
          if i < n { assert Lacks(kind, t, selected, before[i].key); }
        }
      }
    }
  }

  lemma {:induction false} SuppliedIs(selections: seq<Selection>)
    requires forall i, j :: 0 <= i < j < |selections| ==> selections[i].partition != selections[j].partition
    ensures forall s :: s in selections ==> s.partition in Supplied(selections) && Supplied(selections)[s.partition] == s.value
  {
    if selections != [] {
      var n := |selections| - 1;
      SuppliedIs(selections[..n]);
      assert selections == selections[..n] + [selections[n]];
    }
  }

  lemma AdmissibleHasNoFault(kind: Kind, ps: seq<Partition>, selections: seq<Selection>)
    requires Admissible(kind, TableOf(ps), selections)
    ensures Faults(kind, ps, selections) == []
  {
    var t := TableOf(ps);
    forall q ensures q !in SelectionFaults(kind, t, selections) {
      SelectionFaultsAre(kind, t, selections, q);
      forall i ensures !FaultAt(kind, t, selections, i, q) {
        if 0 <= i < |selections| { assert selections[i] in selections; }
      }
    }
    MissingFaultsAre(kind, t, Selected(selections), ps);
    EmptyIffNoMember(SelectionFaults(kind, t, selections));
    EmptyIffNoMember(MissingFaults(kind, t, Selected(selections), ps));
  }

  lemma {:induction false} NoFaultAt(kind: Kind, t: Table, selections: seq<Selection>, i: nat)
    requires i < |selections| && SelectionFaults(kind, t, selections) == []
    ensures SelectionFault(kind, t, Selected(selections[..i]), selections[i]) == []
  {
    var n := |selections| - 1;
    if i < n {
      assert selections[..n][..i] == selections[..i];
      NoFaultAt(kind, t, selections[..n], i);
    }
  }

  lemma {:induction false} NoneLacking(kind: Kind, t: Table, selected: set<PartitionKey>, ps: seq<Partition>, x: Partition)
    requires MissingFaults(kind, t, selected, ps) == [] && x in ps
    ensures !Lacks(kind, t, selected, x.key)
  {
    var n := |ps| - 1;
    if x != ps[n] {
      assert ps == ps[..n] + [ps[n]];
      NoneLacking(kind, t, selected, ps[..n], x);
    }
  }

  lemma NoFaultIsAdmissible(kind: Kind, ps: seq<Partition>, selections: seq<Selection>)
    requires Faults(kind, ps, selections) == []
    ensures Admissible(kind, TableOf(ps), selections)
  {
    var t := TableOf(ps);
    forall i, j | 0 <= i < j < |selections| ensures selections[i].partition != selections[j].partition {
      assert selections[..j][i] in selections[..j];
      NoFaultAt(kind, t, selections, j);
    }
    forall s | s in selections
      ensures s.partition in t && Allowed(kind, t[s.partition]) && Offers(kind, t[s.partition], s.value)
    {
      var i :| 0 <= i < |selections| && selections[i] == s;
      NoFaultAt(kind, t, selections, i);
    }
    forall k | k in t && Mandatory(kind, t[k]) ensures k in Selected(selections) {
      var x :| x in ps && x.key == k;
      NoneLacking(kind, t, Selected(selections), ps, x);
    }
  }

  /** Selections are accepted exactly when they are a duplicate-free map from partitions that
      expect one to values offered there, covering every partition that needs one. */
  lemma AcceptedIffAdmissible(codec: Codec, kind: Kind, ps: seq<Partition>, selections: seq<Selection>)
    ensures Check(codec, kind, ps, selections).Ok? <==> Admissible(kind, TableOf(ps), selections)
    ensures Check(codec, kind, ps, selections).Ok? ==>
              var m := Check(codec, kind, ps, selections).value;
              m.Keys == Selected(selections) && forall s :: s in selections ==> m[s.partition] == s.value
  {
    if Admissible(kind, TableOf(ps), selections) {
      AdmissibleHasNoFault(kind, ps, selections);
    } else if Faults(kind, ps, selections) == [] {
      NoFaultIsAdmissible(kind, ps, selections);
    }
    if Check(codec, kind, ps, selections).Ok? { SuppliedIs(selections); }
  }

  ghost predicate IsFault(kind: Kind, t: Table, selections: seq<Selection>, q: Problem) {
    || (exists i :: FaultAt(kind, t, selections, i, q))
    || (exists k :: Lacks(kind, t, Selected(selections), k) && q == MissingFault(kind, t, k))
  }

  lemma FaultsAre(kind: Kind, ps: seq<Partition>, selections: seq<Selection>)
    ensures forall q :: q in Faults(kind, ps, selections) <==> IsFault(kind, TableOf(ps), selections, q)
  {
    var t := TableOf(ps);
    forall q ensures q in SelectionFaults(kind, t, selections) <==> exists i :: FaultAt(kind, t, selections, i, q) {
      SelectionFaultsAre(kind, t, selections, q);
    }
    MissingFaultsAre(kind, t, Selected(selections), ps);
    forall q | exists k :: Lacks(kind, t, Selected(selections), k) && q == MissingFault(kind, t, k)
      ensures q in MissingFaults(kind, t, Selected(selections), ps)
    {
      var k :| Lacks(kind, t, Selected(selections), k) && q == MissingFault(kind, t, k);
      var i :| 0 <= i < |ps| && ps[i].key == k;
      assert Lacks(kind, t, Selected(selections), ps[i].key);
    }
  }

  lemma FaultHasNoMessage(kind: Kind, t: Table, selections: seq<Selection>, q: Problem)
    requires IsFault(kind, t, selections, q)
    ensures q.message == ""
  {
  }

  /** A rejection lists each fault of each selection and each missing selection, once. */
  lemma RejectionListsFaults(codec: Codec, kind: Kind, ps: seq<Partition>, selections: seq<Selection>, qs: seq<Problem>)
    requires Injective(codec.problem) && Check(codec, kind, ps, selections) == Err(qs)
    ensures DistinctIdentities(qs)
    ensures forall q :: q in qs <==> IsFault(kind, TableOf(ps), selections, q)
  {
    var all := Faults(kind, ps, selections);
    FaultsAre(kind, ps, selections);
    forall q | q in all ensures q.message == "" {
      FaultHasNoMessage(kind, TableOf(ps), selections, q);
    }
    DeduplicatedOnce(codec, all);
    DeduplicatedAlike(codec, all, "");
  }

  // ---- what is admissible, and what is said of the rest ---------------------------------------

  ghost predicate OncePerPartition(selections: seq<Selection>) {
    forall i, j :: 0 <= i < j < |selections| ==> selections[i].partition != selections[j].partition
  }

  ghost predicate SelectsFor(selections: seq<Selection>, key: PartitionKey) {
    exists s :: s in selections && s.partition == key
  }

  /** Schemes are selected for the partitions that require a choice, each among those offered there;
      simulation sets likewise for the partitions to convert; period counts for any partitions of a
      simulated group and for none of another; never twice for one partition. */
  lemma AdmissibleMeans(t: Table, simulate: bool, selections: seq<Selection>)
    ensures Admissible(EventRate, t, selections) <==>
            && OncePerPartition(selections)
            && (forall s :: s in selections ==>
                  && s.partition in t && t[s.partition].schemeRequired
                  && exists o :: o in t[s.partition].schemeOptions && o.id == s.value)
            && (forall k :: k in t && t[k].schemeRequired ==> SelectsFor(selections, k))
    ensures Admissible(SimulationSet, t, selections) <==>
            && OncePerPartition(selections)
            && (forall s :: s in selections ==>
                  && s.partition in t && t[s.partition].simulationRequired
                  && exists o :: o in t[s.partition].simulationOptions && o.id == s.value)
            && (forall k :: k in t && t[k].simulationRequired ==> SelectsFor(selections, k))
    ensures Admissible(Periods(simulate), t, selections) <==>
            && OncePerPartition(selections)
            && (forall s :: s in selections ==> s.partition in t && simulate)
  {
    assert forall k :: k in Selected(selections) <==> SelectsFor(selections, k);
  }

  /** The selection that counts for a partition is the first. */
  ghost predicate FirstFor(selections: seq<Selection>, i: int, key: PartitionKey) {
    0 <= i < |selections| && selections[i].partition == key && forall j :: 0 <= j < i ==> selections[j].partition != key
  }

  lemma {:induction false} FirstExists(selections: seq<Selection>, key: PartitionKey)
    requires SelectsFor(selections, key)
    ensures exists i :: FirstFor(selections, i, key)
  {
    var n := |selections| - 1;
    if s :| s in selections[..n] && s.partition == key {
      FirstExists(selections[..n], key);
      var i :| FirstFor(selections[..n], i, key);
      assert FirstFor(selections, i, key);
    } else {
      assert forall j :: 0 <= j < n ==> selections[j] == selections[..n][j];
      assert FirstFor(selections, n, key);
    }
  }

  /** What a problem with this code says of the selections for its partition. */
  ghost predicate Told(kind: Kind, name: string, t: Table, selections: seq<Selection>, q: Problem, key: PartitionKey) {
    && q == Problem(q.code, q.analysisIds, Some(key), [], [], "")
    && if key !in t || q.code == SelectionDuplicate(name) then
         && q.analysisIds == []
         && match q.code
            case SelectionDuplicate(n) =>
              n == name && exists i, j :: 0 <= i < j < |selections| && selections[i].partition == selections[j].partition == key
            case SelectionUnknownPartition(n) => n == name && SelectsFor(selections, key)
            case _ => false
       else
         && q.analysisIds == t[key].analysisIds
         && match q.code
            case SelectionNotRequired(n) => n == name && !Allowed(kind, t[key]) && SelectsFor(selections, key)
            case SelectionNotOffered(n) =>
              && n == name && Allowed(kind, t[key])
              && exists i :: FirstFor(selections, i, key) && !Offers(kind, t[key], selections[i].value)
            case SelectionMissing(n) => n == name && Mandatory(kind, t[key]) && !SelectsFor(selections, key)
            case _ => false
  }

  lemma FaultIsTold(kind: Kind, t: Table, selections: seq<Selection>, i: nat, q: Problem)
    requires FaultAt(kind, t, selections, i, q)
    ensures Told(kind, Name(kind), t, selections, q, selections[i].partition)
  {
    var key := selections[i].partition;
    assert selections[i] in selections;
    if s :| s in selections[..i] && s.partition == key {
      var j :| 0 <= j < i && selections[j] == s;
    } else {
      assert forall j :: 0 <= j < i ==> selections[j] in selections[..i];
      assert FirstFor(selections, i, key);
    }
  }

  lemma ToldIsFault(kind: Kind, t: Table, selections: seq<Selection>, q: Problem, key: PartitionKey)
    requires Told(kind, Name(kind), t, selections, q, key)
    ensures IsFault(kind, t, selections, q)
  {
    if q.code.SelectionDuplicate? {
      var i, j :| 0 <= i < j < |selections| && selections[i].partition == selections[j].partition == key;
      assert selections[..j][i] == selections[i];
      assert FaultAt(kind, t, selections, j, q);
    } else if q.code.SelectionMissing? {
      assert Lacks(kind, t, Selected(selections), key) && q == MissingFault(kind, t, key);
    } else {
      FirstExists(selections, key);
      var i :| FirstFor(selections, i, key);
      assert key !in Selected(selections[..i]);
      assert FaultAt(kind, t, selections, i, q);
    }
  }

  ghost predicate Fits(kind: Kind, name: string, t: Table, selections: seq<Selection>, q: Problem) {
    exists key :: Told(kind, name, t, selections, q, key)
  }

  lemma FaultIffFits(kind: Kind, t: Table, selections: seq<Selection>, q: Problem)
    ensures IsFault(kind, t, selections, q) <==> Fits(kind, Name(kind), t, selections, q)
  {
    if key :| Told(kind, Name(kind), t, selections, q, key) {
      ToldIsFault(kind, t, selections, q, key);
    } else if IsFault(kind, t, selections, q) {
      if i :| FaultAt(kind, t, selections, i, q) {
        FaultIsTold(kind, t, selections, i, q);
      } else {
        var k :| Lacks(kind, t, Selected(selections), k) && q == MissingFault(kind, t, k);
        assert Told(kind, Name(kind), t, selections, q, k);
      }
    }
  }

  /** A rejection says, of each partition, whether it was selected for twice, is unknown, needs no
      selection, got one it does not offer, or goes without one it needs; and nothing else. */
  lemma RejectionTells(codec: Codec, kind: Kind, name: string, ps: seq<Partition>, selections: seq<Selection>,
                       qs: seq<Problem>, q: Problem)
    requires Injective(codec.problem) && Check(codec, kind, ps, selections) == Err(qs)
    requires match kind
             case EventRate => name == "EVENT_RATE"
             case SimulationSet => name == "SIMULATION_SET"
             case Periods(_) => name == "SIMULATION_PERIODS"
    ensures DistinctIdentities(qs)
    ensures q in qs <==> Fits(kind, name, TableOf(ps), selections, q)
  {
    assert name == Name(kind);
    RejectionListsFaults(codec, kind, ps, selections, qs);
    FaultIffFits(kind, TableOf(ps), selections, q);
  }

  // ---- the loops of the check -------------------------------------------------------------------

  /** The loop over the selections. */
  method ScanSelections(kind: Kind, t: Table, selections: seq<Selection>)
    returns (supplied: map<PartitionKey, nat>, problems: seq<Problem>)
    ensures supplied == Supplied(selections) && problems == SelectionFaults(kind, t, selections)
  {
    supplied, problems := map[], [];
    for i := 0 to |selections|
      invariant supplied == Supplied(selections[..i])
      invariant problems == SelectionFaults(kind, t, selections[..i])
    {
      assert selections[..i + 1][..i] == selections[..i];
      var s := selections[i];
      if s.partition in supplied {
        problems := problems + [Fault(SelectionDuplicate(Name(kind)), [], s.partition)];
        continue;
      }
      supplied := supplied[s.partition := s.value];
      if s.partition !in t {
        problems := problems + [Fault(SelectionUnknownPartition(Name(kind)), [], s.partition)];
        continue;
      }
      var x := t[s.partition];
      if !Allowed(kind, x) {
        problems := problems + [Fault(SelectionNotRequired(Name(kind)), x.analysisIds, s.partition)];
        continue;
      }
      if !Offers(kind, x, s.value) {
        problems := problems + [Fault(SelectionNotOffered(Name(kind)), x.analysisIds, s.partition)];
      }
    }
    assert selections[..|selections|] == selections;
  }

  /** The loop over the partitions that need a selection. */
  method ScanRequired(kind: Kind, t: Table, ps: seq<Partition>, selected: set<PartitionKey>) returns (problems: seq<Problem>)
    requires KeysIn(ps) <= t.Keys
    ensures problems == MissingFaults(kind, t, selected, ps)
  {
    problems := [];
    for i := 0 to |ps|
      invariant problems == MissingFaults(kind, t, selected, ps[..i])
    {
      assert ps[..i + 1][..i] == ps[..i];
      assert ps[i] in ps;
      if Mandatory(kind, t[ps[i].key]) && ps[i].key !in selected {
        problems := problems + [MissingFault(kind, t, ps[i].key)];
      }
    }
    assert ps[..|ps|] == ps;
  }

  /** The part the three resolvers share: selections against partitions. */
  method CheckSelections(codec: Codec, kind: Kind, ps: seq<Partition>, selections: seq<Selection>)
    returns (r: Result<map<PartitionKey, nat>, seq<Problem>>)
    ensures r == Check(codec, kind, ps, selections)
  {
    var supplied, problems := ScanSelections(kind, TableOf(ps), selections);
    var missing := ScanRequired(kind, TableOf(ps), ps, supplied.Keys);
    problems := problems + missing;
    if problems != [] {
      var listed := DeduplicateProblems(codec, problems);
      return Err(listed);
    }
    r := Ok(supplied);
  }

  // ---- what the selections settle --------------------------------------------------------------------

  /** What a resolver gives back; KeyMissing is a lookup that finds nothing. */
  datatype Resolution<T> = Rejected(problems: seq<Problem>) | Settled(choice: map<PartitionKey, T>) | KeyMissing

  /** Every partition with several schemes has one supplied. */
  predicate RatesKnown(t: Table, supplied: map<PartitionKey, nat>, keys: set<PartitionKey>) {
    forall k :: k in keys ==> k in t && (|t[k].schemeOptions| > 1 ==> k in supplied)
  }

  /** A partition with one scheme takes that one, a partition with several the one supplied. */
  function RatesFor(t: Table, supplied: map<PartitionKey, nat>, keys: set<PartitionKey>): map<PartitionKey, nat>
    requires RatesKnown(t, supplied, keys)
  {
    map k | k in keys && t[k].schemeOptions != [] ::
      if |t[k].schemeOptions| == 1 then t[k].schemeOptions[0].id else supplied[k]
  }

  function EventRates(codec: Codec, ps: seq<Partition>, selections: seq<Selection>): Resolution<nat> {
    match Check(codec, EventRate, ps, selections)
    case Err(problems) => Rejected(problems)
    case Ok(supplied) =>
      var t := TableOf(ps);
      if RatesKnown(t, supplied, t.Keys) then Settled(RatesFor(t, supplied, t.Keys)) else KeyMissing
  }

  function FirstWithId(options: seq<SimulationOption>, id: nat): Option<SimulationOption> {
    if options == [] then None
    else if options[0].id == id then Some(options[0])
    else FirstWithId(options[1..], id)
  }

  predicate SetsKnown(t: Table, supplied: map<PartitionKey, nat>, keys: set<PartitionKey>) {
    forall k | k in keys ::
      k in t && (t[k].simulationRequired ==> k in supplied && FirstWithId(t[k].simulationOptions, supplied[k]).Some?)
  }

  function SetsFor(t: Table, supplied: map<PartitionKey, nat>, keys: set<PartitionKey>): map<PartitionKey, SimulationOption>
    requires SetsKnown(t, supplied, keys)
  {
    map k | k in keys && t[k].simulationRequired :: FirstWithId(t[k].simulationOptions, supplied[k]).value
  }

  function SimulationSets(codec: Codec, ps: seq<Partition>, selections: seq<Selection>): Resolution<SimulationOption> {
    match Check(codec, SimulationSet, ps, selections)
    case Err(problems) => Rejected(problems)
    case Ok(supplied) =>
      var t := TableOf(ps);
      if SetsKnown(t, supplied, t.Keys) then Settled(SetsFor(t, supplied, t.Keys)) else KeyMissing
  }

  function PeriodCounts(codec: Codec, simulate: bool, ps: seq<Partition>, selections: seq<Selection>): Resolution<nat> {
    match Check(codec, Periods(simulate), ps, selections)
    case Err(problems) => Rejected(problems)
    case Ok(supplied) => Settled(supplied)
  }

  lemma KeysOneMore(ps: seq<Partition>, i: nat)
    requires i < |ps|
    ensures KeysIn(ps[..i + 1]) == KeysIn(ps[..i]) + {ps[i].key}
    ensures ps[i].key in KeysIn(ps)
  {
  }

  lemma RatesOneMore(t: Table, supplied: map<PartitionKey, nat>, keys: set<PartitionKey>, key: PartitionKey)
    requires RatesKnown(t, supplied, keys) && key in t && (|t[key].schemeOptions| > 1 ==> key in supplied)
    ensures RatesKnown(t, supplied, keys + {key})
    ensures var options, before := t[key].schemeOptions, RatesFor(t, supplied, keys);
            RatesFor(t, supplied, keys + {key})
            == if options == [] then before
               else before[key := if |options| == 1 then options[0].id else supplied[key]]
  {
  }

  method PickRates(t: Table, ps: seq<Partition>, supplied: map<PartitionKey, nat>) returns (r: Resolution<nat>)
    requires KeysIn(ps) == t.Keys
    ensures r == if RatesKnown(t, supplied, t.Keys) then Settled(RatesFor(t, supplied, t.Keys)) else KeyMissing
  {
    var resolved: map<PartitionKey, nat> := map[];
    for i := 0 to |ps|
      invariant RatesKnown(t, supplied, KeysIn(ps[..i])) && resolved == RatesFor(t, supplied, KeysIn(ps[..i]))
    {
      KeysOneMore(ps, i);
      var key := ps[i].key;
      var options := t[key].schemeOptions;
      if |options| > 1 && key !in supplied { return KeyMissing; }
      RatesOneMore(t, supplied, KeysIn(ps[..i]), key);
      if |options| == 1 {
        resolved := resolved[key := options[0].id];
      } else if |options| > 1 {
        resolved := resolved[key := supplied[key]];
      }
    }
    assert ps[..|ps|] == ps;
    r := Settled(resolved);
  }

  /** `_resolve_event_rate_selections`. */
  method ResolveEventRates(codec: Codec, ps: seq<Partition>, selections: seq<Selection>) returns (r: Resolution<nat>)
    ensures r == EventRates(codec, ps, selections)
  {
    var checked := CheckSelections(codec, EventRate, ps, selections);
    if checked.Err? { return Rejected(checked.error); }
    r := PickRates(TableOf(ps), ps, checked.value);
  }

  method PickSets(t: Table, ps: seq<Partition>, supplied: map<PartitionKey, nat>) returns (r: Resolution<SimulationOption>)
    requires KeysIn(ps) == t.Keys
    ensures r == if SetsKnown(t, supplied, t.Keys) then Settled(SetsFor(t, supplied, t.Keys)) else KeyMissing
  {
    var resolved: map<PartitionKey, SimulationOption> := map[];
    for i := 0 to |ps|
      invariant SetsKnown(t, supplied, KeysIn(ps[..i])) && resolved == SetsFor(t, supplied, KeysIn(ps[..i]))
    {
      KeysOneMore(ps, i);
      var key := ps[i].key;
      if t[key].simulationRequired {
        if key !in supplied { return KeyMissing; }
        var option := FirstWithId(t[key].simulationOptions, supplied[key]);
        if option.None? { return KeyMissing; }
        resolved := resolved[key := option.value];
      }
    }
    assert ps[..|ps|] == ps;
    r := Settled(resolved);
  }

  /** `_resolve_simulation_set_selections`. */
  method ResolveSimulationSets(codec: Codec, ps: seq<Partition>, selections: seq<Selection>)
    returns (r: Resolution<SimulationOption>)
    ensures r == SimulationSets(codec, ps, selections)
  {
    var checked := CheckSelections(codec, SimulationSet, ps, selections);
    if checked.Err? { return Rejected(checked.error); }
    r := PickSets(TableOf(ps), ps, checked.value);
  }

  /** `_resolve_simulation_periods_selections`. */
  method ResolvePeriods(codec: Codec, simulate: bool, ps: seq<Partition>, selections: seq<Selection>) returns (r: Resolution<nat>)
    ensures r == PeriodCounts(codec, simulate, ps, selections)
  {
    var checked := CheckSelections(codec, Periods(simulate), ps, selections);
    r := if checked.Err? then Rejected(checked.error) else Settled(checked.value);
  }

  // ---- what a settled choice is --------------------------------------------------------------------------

  /** A partition that needs no scheme selection has at most one scheme to choose from. */
  predicate LoneUnlessRequired(ps: seq<Partition>) {
    forall x :: x in ps && !x.schemeRequired ==> |x.schemeOptions| <= 1
  }

  /** The selections as a map. */
  ghost predicate IsMapOf(m: map<PartitionKey, nat>, selections: seq<Selection>) {
    m.Keys == Selected(selections) && forall s :: s in selections ==> m[s.partition] == s.value
  }

  lemma AdmissibleRatesKnown(t: Table, ps: seq<Partition>, selections: seq<Selection>, supplied: map<PartitionKey, nat>)
    requires LoneUnlessRequired(ps) && forall k :: k in t ==> t[k] in ps
    requires Admissible(EventRate, t, selections) && IsMapOf(supplied, selections)
    ensures RatesKnown(t, supplied, t.Keys)
  {
  }

  lemma RatesAreOffered(t: Table, selections: seq<Selection>, supplied: map<PartitionKey, nat>)
    requires RatesKnown(t, supplied, t.Keys)
    requires Admissible(EventRate, t, selections) && IsMapOf(supplied, selections)
    ensures var m := RatesFor(t, supplied, t.Keys);
            && (forall k :: k in m ==> Offers(EventRate, t[k], m[k]))
            && (forall s :: s in selections ==> s.partition in m && m[s.partition] == s.value)
  {
  }

  /** Given that, event-rate resolution settles exactly when the selections are admissible, and
      then gives every partition with an option one of its options: the selected one, if any. */
  lemma EventRatesSettle(codec: Codec, ps: seq<Partition>, selections: seq<Selection>)
    requires LoneUnlessRequired(ps)
    ensures var t, r := TableOf(ps), EventRates(codec, ps, selections);
            && (if Admissible(EventRate, t, selections) then r.Settled? else r.Rejected?)
            && (r.Settled? ==>
                  && (forall k :: k in r.choice <==> k in t && t[k].schemeOptions != [])
                  && (forall k :: k in r.choice ==> Offers(EventRate, t[k], r.choice[k]))
                  && (forall s :: s in selections ==> s.partition in r.choice && r.choice[s.partition] == s.value))
  {
    AcceptedIffAdmissible(codec, EventRate, ps, selections);
    if Admissible(EventRate, TableOf(ps), selections) {
      var supplied := Check(codec, EventRate, ps, selections).value;
      AdmissibleRatesKnown(TableOf(ps), ps, selections, supplied);
      RatesAreOffered(TableOf(ps), selections, supplied);
    }
  }

  lemma {:induction false} FirstWithIdIs(options: seq<SimulationOption>, id: nat)
    ensures FirstWithId(options, id).Some? <==> exists o :: o in options && o.id == id
    ensures FirstWithId(options, id).Some? ==>
              FirstWithId(options, id).value in options && FirstWithId(options, id).value.id == id
  {
    if options != [] && options[0].id != id {
      FirstWithIdIs(options[1..], id);
      assert options == [options[0]] + options[1..];
    }
  }

  /** Period-count resolution settles exactly when the selections are admissible, and then gives exactly
      the partitions selected the count selected for them. */
  lemma PeriodCountsSettle(codec: Codec, simulate: bool, ps: seq<Partition>, selections: seq<Selection>)
    ensures var r := PeriodCounts(codec, simulate, ps, selections);
            && (if Admissible(Periods(simulate), TableOf(ps), selections) then r.Settled? else r.Rejected?)
            && (r.Settled? ==>
                  && (forall k :: k in r.choice <==> exists s :: s in selections && s.partition == k)
                  && (forall s :: s in selections ==> r.choice[s.partition] == s.value))
  {
    AcceptedIffAdmissible(codec, Periods(simulate), ps, selections);
    var r, checked := PeriodCounts(codec, simulate, ps, selections), Check(codec, Periods(simulate), ps, selections);
    assert checked.Ok? ==> r == Settled(checked.value);
  }

  /** Simulation-set resolution settles exactly when the selections are admissible, and then
      gives exactly the partitions to be converted the option selected for them. */
  lemma SimulationSetsSettle(codec: Codec, ps: seq<Partition>, selections: seq<Selection>)
    ensures var t, r := TableOf(ps), SimulationSets(codec, ps, selections);
            && (if Admissible(SimulationSet, t, selections) then r.Settled? else r.Rejected?)
            && (r.Settled? ==>
                  && (forall k :: k in r.choice <==> k in t && t[k].simulationRequired)
                  && (forall k :: k in r.choice ==> r.choice[k] in t[k].simulationOptions)
                  && (forall s :: s in selections ==> s.partition in r.choice && r.choice[s.partition].id == s.value))
  {
    AcceptedIffAdmissible(codec, SimulationSet, ps, selections);
    var t, r := TableOf(ps), SimulationSets(codec, ps, selections);
    if Admissible(SimulationSet, t, selections) {
      var supplied := Check(codec, SimulationSet, ps, selections).value;
      forall k | k in t && t[k].simulationRequired
        ensures k in supplied && FirstWithId(t[k].simulationOptions, supplied[k]).Some?
      {
        assert Mandatory(SimulationSet, t[k]);
        var s :| s in selections && s.partition == k;
        FirstWithIdIs(t[k].simulationOptions, supplied[k]);
      }
      forall k | k in r.choice ensures r.choice[k] in t[k].simulationOptions && r.choice[k].id == supplied[k] {
        FirstWithIdIs(t[k].simulationOptions, supplied[k]);
      }
    }
  }
}
