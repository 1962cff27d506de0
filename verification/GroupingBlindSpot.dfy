/** What the fingerprint leaves out: the sub-regions of a problem. */
module GroupingBlindSpot {
  import opened Prelude
  import opened Ordering
  import opened GroupingModel
  import opened GroupingProblems
  import opened GroupingLookups
  import opened GroupingRegions
  import opened GroupingInspect
  import opened GroupingTreaties

  const BLANK: Detail := Detail(None, None, None, None, None, None, None, None, None, false)

  /** A row that no engine, region or peril can be told for. */
  function BareRow(sub: string): RawRegion { RawRegion(Some("ELT"), Some(sub), None, None, None, false, None, None, None) }

  const FULL_ROW: RawRegion :=
    RawRegion(Some("PLT"), None, Some("RL25"), Some("NA"), Some("WS"), false, None, Some(5), Some(100))

  const QUIET: Platform :=
    Platform(id => Found(BLANK), id => Treaties([]), id => Regions([FULL_ROW]), key => Version("25.0"), key => None,
             SchemeRows([], NoTotal), None, None)

  /** Two analyses, one of which has a row without metadata in the given sub-region. */
  function Incomplete(sub: string): Platform {
    QUIET.(regions := id => if id == 1 then Regions([BareRow(sub)]) else Regions([FULL_ROW]))
  }

  function Missing(sub: string): Problem { RowProblem(RegionRowMetadataMissing, 1, BareRow(sub)) }

  function TheFact(): Fact { FactOf(QUIET, 2, BLANK, FULL_ROW, PLT, "RL25", "NA", "WS", "25.0") }

  lemma OneRow(r: RowResult)
    requires r.RowDone?
    ensures Combine([r]) == AddRow(RegionsDone([], {}, []), r)
  {
    assert [r][..0] == [];
  }

  lemma BareRowResult(sub: string)
    ensures RowResultOf(Incomplete(sub), 1, BLANK, BareRow(sub)) == RowDone(None, Some(ELT), [Missing(sub)])
  {
    assert Upper("ELT") == "ELT";
    assert FreeCandidates(BLANK, BareRow(sub)) == [];
    assert [] + [Missing(sub)] == [Missing(sub)];
  }

  lemma FullRowResult(sub: string)
    ensures RowResultOf(Incomplete(sub), 2, BLANK, FULL_ROW) == RowDone(Some(TheFact()), Some(PLT), [])
  {
    assert Upper("PLT") == "PLT" != "ELT";
    assert FreeCandidates(BLANK, FULL_ROW) == ["WS"];
    assert PltProblems(2, FULL_ROW) == [];
  }

  lemma BareRegions(sub: string)
    ensures RegionsOf(Incomplete(sub), 1, BLANK, [BareRow(sub)]) == RegionsDone([], {ELT}, [Missing(sub)])
  {
    var p := Incomplete(sub);
    BareRowResult(sub);
    assert RowResults(p, 1, BLANK, [BareRow(sub)]) == [RowResultOf(p, 1, BLANK, BareRow(sub))];
    OneRow(RowResultOf(p, 1, BLANK, BareRow(sub)));
  }

  lemma FullRegions(sub: string)
    ensures RegionsOf(Incomplete(sub), 2, BLANK, [FULL_ROW]) == RegionsDone([TheFact()], {PLT}, [])
  {
    var p := Incomplete(sub);
    FullRowResult(sub);
    assert RowResults(p, 2, BLANK, [FULL_ROW]) == [RowResultOf(p, 2, BLANK, FULL_ROW)];
    OneRow(RowResultOf(p, 2, BLANK, FULL_ROW));
  }

  /** Examining an analysis with a blank detail and no treaties. */
  lemma BlankAnalysis(p: Platform, codec: Codec, id: nat, rows: seq<RawRegion>, facts: seq<Fact>, f: Framework, qs: seq<Problem>)
    requires p.analysis(id) == Found(BLANK) && p.treaties(id) == Treaties([]) && p.regions(id) == Regions(rows) && rows != []
    requires RegionsOf(p, id, BLANK, rows) == RegionsDone(facts, {f}, qs)
    ensures Examine(p, codec, id) == Examined(FoundMember(id, BLANK, facts, {f}), qs, [], None)
  {
    assert [] + qs + [] == qs;
  }

  lemma CollectTwo(a: Examination, b: Examination)
    requires a.Examined? && b.Examined? && a.schemeLabel.None? && b.schemeLabel.None?
    ensures Collect([a, b]) == Gathered([a.member, b.member], a.problems + b.problems, a.treaties + b.treaties, map[])
  {
    assert [a, b][..1] == [a] && [a][..0] == [];
    assert Collect([a]) == Gathered([a.member], a.problems, a.treaties, map[]) by {
      assert [] + a.problems == a.problems && [] + a.treaties == a.treaties;
    }
  }

  function Bare(): Member { FoundMember(1, BLANK, [], {ELT}) }

  function Full(): Member { FoundMember(2, BLANK, [TheFact()], {PLT}) }

  lemma Gathers(codec: Codec, sub: string)
    ensures Gather(Incomplete(sub), codec, [1, 2]) == Gathered([Bare(), Full()], [Missing(sub)], [], map[])
  {
    var p := Incomplete(sub);
    BareRegions(sub);
    FullRegions(sub);
    BlankAnalysis(p, codec, 1, [BareRow(sub)], [], ELT, [Missing(sub)]);
    BlankAnalysis(p, codec, 2, [FULL_ROW], [TheFact()], PLT, []);
    assert Examinations(p, codec, [1, 2]) == [Examine(p, codec, 1), Examine(p, codec, 2)];
    CollectTwo(Examine(p, codec, 1), Examine(p, codec, 2));
    assert [Missing(sub)] + [] == [Missing(sub)];
  }

  lemma FactsAre()
    ensures FactsOf([Bare(), Full()]) == {TheFact()}
  {
    assert StableSort([TheFact()], FactSortKey) == [TheFact()];
    assert Full() in [Bare(), Full()] && TheFact() in Full().regions;
  }

  lemma {:induction false} CombineQuiet(rs: seq<PartitionResult>)
    requires forall i :: 0 <= i < |rs| ==> rs[i].PartitionDone? && rs[i].problems == []
    ensures CombineParts(rs).PartitionsDone? && CombineParts(rs).problems == []
  {
    if rs != [] { CombineQuiet(rs[..|rs| - 1]); }
  }

  /** A group of PLT facts only has partitions without problems. */
  lemma PltOnly(c: Context, facts: set<Fact>, keys: seq<PartitionKey>)
    requires forall f :: f in facts ==> f.framework == PLT
    ensures PartitionsOf(c, facts, keys).PartitionsDone? && PartitionsOf(c, facts, keys).problems == []
  {
    var rs := PartResults(c, facts, keys);
    forall i | 0 <= i < |keys| ensures rs[i].PartitionDone? && rs[i].problems == [] {
      var own := FactsWith(facts, keys[i]);
      assert SchemesIn(own) == {} && EltFacts(own) == {};
    }
    CombineQuiet(rs);
  }

  /** The partitions found, which do not depend on the sub-region. */
  function Parts(): PartitionsResult {
    PartitionsOf(ContextOf(QUIET, Gathered([Bare(), Full()], [], [], map[])), {TheFact()}, SortedPartitions(KeysOf({TheFact()})))
  }

  lemma SummaryIs(codec: Codec, sub: string)
    ensures ContextOf(Incomplete(sub), Gathered([Bare(), Full()], [Missing(sub)], [], map[]))
         == ContextOf(QUIET, Gathered([Bare(), Full()], [], [], map[]))
    ensures Parts().PartitionsDone? && Parts().problems == []
    ensures !NeedsSimulations({TheFact()}) && AnyPlt({TheFact()})
  {
    FactsAre();
    assert EltFacts({TheFact()}) == {} && TheFact() in {TheFact()};
    PltOnly(ContextOf(QUIET, Gathered([Bare(), Full()], [], [], map[])), {TheFact()}, SortedPartitions(KeysOf({TheFact()})));
  }

  /** What is found, apart from the fingerprint. */
  function Found12(codec: Codec, sub: string): Inspection
    requires Parts().PartitionsDone?
  {
    Inspection([1, 2], Uris(codec, [1, 2]), "", [Bare(), Full()], true, Parts().partitions, Parts().mappings, [],
               RequiredInputs(Parts().partitions), Warnings(codec, []), [Missing(sub)])
  }

  lemma InspectsTo(codec: Codec, sub: string)
    ensures Parts().PartitionsDone?
    ensures var x := Found12(codec, sub);
            Inspect(Incomplete(sub), codec, [1, 2]) == Inspected(x.(fingerprint := codec.digest(PayloadOf(x))))
  {
    Gathers(codec, sub);
    FactsAre();
    SummaryIs(codec, sub);
    assert [Missing(sub)] + [] == [Missing(sub)];
    OnlyOne(codec, Missing(sub));
  }

  lemma OnlyOne(codec: Codec, q: Problem)
    ensures Deduplicated(codec, [q]) == [q]
  {
    var texts := Texts(codec, [q]);
    assert texts == {codec.problem(IdOf(q))};
    StringKeysInjective(texts);
    SortedSetLength(texts, StringKey);
    DeduplicatedAt(codec, [q], 0);
  }

  /** Two inspections of the same analyses with one fingerprint whose blocking problems lie in
      different sub-regions: the fingerprint vouches for what blocks, not for where. */
  lemma SubRegionsNotCovered(codec: Codec)
    ensures var r, s := Inspect(Incomplete("FL"), codec, [1, 2]), Inspect(Incomplete("TX"), codec, [1, 2]);
            && r.Inspected? && s.Inspected?
            && r.inspection.fingerprint == s.inspection.fingerprint
            && r.inspection.blocking == [Missing("FL")] && s.inspection.blocking == [Missing("TX")]
            && Missing("FL").subRegions == ["FL"] && Missing("TX").subRegions == ["TX"]
  {
    InspectsTo(codec, "FL");
    InspectsTo(codec, "TX");
    SameExceptWhere(codec);
  }

  lemma SameExceptWhere(codec: Codec)
    requires Parts().PartitionsDone?
    ensures PayloadOf(Found12(codec, "FL")) == PayloadOf(Found12(codec, "TX"))
  {
    assert ProblemViews([Missing("FL")]) == ProblemViews([Missing("TX")]);
  }
}
