/** What an inspection finds, told from what the Platform answers: members, problems, treaties,
    warnings, partitions and mappings, and when it raises. */
module GroupingFindings {
  import opened Prelude
  import opened Ordering
  import opened GroupingModel
  import opened GroupingProblems
  import opened GroupingLookups
  import opened GroupingRegions
  import opened GroupingTreaties
  import opened GroupingInspect
  import opened GroupingSelections
  import opened GroupingSubmit

  // ---- one member ------------------------------------------------------------------------

  /** Some row of the analysis is classified like this. */
  ghost predicate Observed(p: Platform, id: nat, d: Detail, framework: Framework) {
    exists raw :: raw in RegionRows(p, id) && raw.RawRegion? && RowFramework(d, raw) == Some(framework)
  }

  ghost predicate RowFact(p: Platform, id: nat, d: Detail, f: Fact) {
    exists raw :: raw in RegionRows(p, id) && RowResultOf(p, id, d, raw).RowDone? && RowResultOf(p, id, d, raw).fact == Some(f)
  }

  ghost predicate RowProblemFound(p: Platform, id: nat, d: Detail, q: Problem) {
    exists raw :: raw in RegionRows(p, id) && RowResultOf(p, id, d, raw).RowDone? && q in RowResultOf(p, id, d, raw).problems
  }

  lemma ClassifiedRow(p: Platform, id: nat, d: Detail, raw: RawRegion)
    requires RowResultOf(p, id, d, raw).RowDone?
    ensures RowResultOf(p, id, d, raw).framework == if raw.Malformed? then None else RowFramework(d, raw)
  {
    if raw.RawRegion? && RowFramework(d, raw).Some? { RowProblemsLocated(p, id, d, raw); }
  }

  lemma RowsGive(p: Platform, id: nat, d: Detail)
    ensures var r := RegionsOf(p, id, d, RegionRows(p, id));
            && (r.RegionsRaise? <==> exists raw :: raw in RegionRows(p, id) && RowResultOf(p, id, d, raw).RowRaises?)
            && (r.RegionsDone? ==>
                  && (forall f :: f in r.facts <==> RowFact(p, id, d, f))
                  && (forall w :: w in r.frameworks <==> Observed(p, id, d, w))
                  && (forall q :: q in r.problems <==> RowProblemFound(p, id, d, q)))
  {
    var rows, rs := RegionRows(p, id), RowResults(p, id, d, RegionRows(p, id));
    CombinedIs(rs);
    forall r ensures r in rs <==> exists raw :: raw in rows && r == RowResultOf(p, id, d, raw) {
      if raw :| raw in rows && r == RowResultOf(p, id, d, raw) {
        var i :| 0 <= i < |rows| && rows[i] == raw;
        assert rs[i] == r;
      }
    }
    forall raw | raw in rows && RowResultOf(p, id, d, raw).RowDone?
      ensures RowResultOf(p, id, d, raw).framework == if raw.Malformed? then None else RowFramework(d, raw)
    {
      ClassifiedRow(p, id, d, raw);
    }
  }

  /** The framework of a member is the detail's, or else the one all its rows are classified by. */
  ghost predicate FrameworkIs(p: Platform, id: nat, d: Detail, text: Option<string>) {
    if d.framework != None then text == d.framework
    else if Observed(p, id, d, ELT) && !Observed(p, id, d, PLT) then text == Some("ELT")
    else if Observed(p, id, d, PLT) && !Observed(p, id, d, ELT) then text == Some("PLT")
    else text == None
  }

  /** The version of a member is the one all its facts have. */
  ghost predicate VersionIs(facts: seq<Fact>, version: Option<string>) {
    match version
    case Some(v) => facts != [] && forall f :: f in facts ==> f.version == v
    case None => facts == [] || exists f, g :: f in facts && g in facts && f.version != g.version
  }

  ghost predicate FactsInOrder(facts: seq<Fact>) {
    forall i, j :: 0 <= i < j < |facts| ==> FactPrecedes(facts[i], facts[j])
  }

  /** A member that was found shows what its detail says and the facts of its rows, in order. */
  ghost predicate Shows(p: Platform, id: nat, d: Detail, m: Member) {
    && m == Member(id, true, d.isGroup, m.framework, d.engineType, d.engine, d.peril, d.region, m.version, m.regions)
    && (forall f :: f in m.regions <==> RowFact(p, id, d, f)) && FactsInOrder(m.regions)
    && FrameworkIs(p, id, d, m.framework) && VersionIs(m.regions, m.version)
  }

  lemma SortedFactsInOrder(facts: seq<Fact>)
    ensures var r := StableSort(facts, FactSortKey);
            FactsInOrder(r) && forall f :: f in r <==> f in facts
  {
    var r := StableSort(facts, FactSortKey);
    SameElements(facts, FactSortKey);
    StableSortIs(facts, FactSortKey, []);
    forall i, j | 0 <= i < j < |r| ensures FactPrecedes(r[i], r[j]) {
      FactOrder(r[i], r[j]);
    }
  }

  lemma SoleVersionIs(facts: seq<Fact>, sorted: seq<Fact>)
    requires forall f :: f in sorted <==> f in facts
    ensures VersionIs(sorted, SoleVersion(facts))
  {
    var versions := set f | f in facts :: f.version;
    var r := SoleVersion(facts);
    if r.Some? {
      assert r.value in versions && versions == {r.value};
      assert forall f :: f in sorted ==> f.version in versions;
    } else {
      if sorted != [] {
        var f := sorted[0];
        assert f in facts && f.version in versions;
        var v :| v in versions && v != f.version;
        var g :| g in facts && g.version == v;
      }
    }
  }

  lemma MemberFrameworkIs(p: Platform, id: nat, d: Detail, observed: set<Framework>)
    requires forall w :: w in observed <==> Observed(p, id, d, w)
    ensures FrameworkIs(p, id, d, MemberFramework(d, observed))
  {
    assert observed == {ELT} <==> Observed(p, id, d, ELT) && !Observed(p, id, d, PLT);
    assert observed == {PLT} <==> Observed(p, id, d, PLT) && !Observed(p, id, d, ELT);
  }

  /** What examining an analysis makes of it. */
  lemma MemberIs(p: Platform, codec: Codec, id: nat)
    requires Examine(p, codec, id).Examined?
    ensures var m := Examine(p, codec, id).member;
            match p.analysis(id)
            case Found(d) => Shows(p, id, d, m)
            case _ => m == Member(id, false, false, None, None, None, None, None, None, [])
  {
    if p.analysis(id).Found? {
      var d := p.analysis(id).detail;
      var regions := RegionsOf(p, id, d, RegionRows(p, id));
      RowsGive(p, id, d);
      SortedFactsInOrder(regions.facts);
      SoleVersionIs(regions.facts, StableSort(regions.facts, FactSortKey));
      MemberFrameworkIs(p, id, d, regions.frameworks);
    }
  }

  /** The rows of a classified analysis are not all classified as it is. */
  ghost predicate Misclassified(p: Platform, id: nat, d: Detail) {
    && d.framework != None && d.framework != Some("")
    && ((Observed(p, id, d, ELT) && d.framework != Some("ELT")) || (Observed(p, id, d, PLT) && d.framework != Some("PLT")))
  }

  lemma ConflictIs(p: Platform, id: nat, d: Detail, observed: set<Framework>)
    requires forall w :: w in observed <==> Observed(p, id, d, w)
    ensures FrameworksConflict(d, observed) <==> Misclassified(p, id, d)
  {
    if Has(d.framework) {
      var names := set w | w in observed :: FrameworkName(w);
      assert ELT in observed ==> "ELT" in names;
      assert PLT in observed ==> "PLT" in names;
      assert forall name :: name in names ==> (name == "ELT" && ELT in observed) || (name == "PLT" && PLT in observed);
    }
  }

  /** The problems of one analysis: not found; or no rows, what its rows report, and rows not classified
      as the analysis is. */
  ghost predicate AnalysisProblem(p: Platform, id: nat, q: Problem) {
    match p.analysis(id)
    case ReadFails => false
    case NotFound => q == Problem(MemberNotFound, [id], None, [], [], "")
    case Found(d) =>
      || (RegionRows(p, id) == [] && q == Problem(MemberRegionDataMissing, [id], None, [], [], ""))
      || RowProblemFound(p, id, d, q)
      || (Misclassified(p, id, d) && q == Problem(MemberClassificationConflict, [id], None, [], [], ""))
  }

  lemma AnalysisProblemsAre(p: Platform, codec: Codec, id: nat, q: Problem)
    requires Examine(p, codec, id).Examined?
    ensures q in Examine(p, codec, id).problems <==> AnalysisProblem(p, id, q)
  {
    if p.analysis(id).Found? {
      var d := p.analysis(id).detail;
      RowsGive(p, id, d);
      ConflictIs(p, id, d, RegionsOf(p, id, d, RegionRows(p, id)).frameworks);
    }
  }

  // ---- when examining raises -----------------------------------------------------------------

  lemma {:induction false} TreatyRows(codec: Codec, id: nat, rows: seq<RawTreaty>)
    ensures TreatiesOf(codec, id, rows).None? <==> exists row :: row in rows && (row.number.None? || TermsOf(codec, row.fields).None?)
    ensures TreatiesOf(codec, id, rows).Some? ==>
              var ts := TreatiesOf(codec, id, rows).value;
              && |ts| == |rows|
              && forall i :: 0 <= i < |rows| ==>
                   && rows[i].number.Some? && TermsOf(codec, rows[i].fields).Some?
                   && ts[i] == Treaty(id, rows[i].id, rows[i].number.value, TermsOf(codec, rows[i].fields).value)
  {
    if rows != [] {
      var n := |rows| - 1;
      TreatyRows(codec, id, rows[..n]);
      assert rows == rows[..n] + [rows[n]];
    }
  }

  /** Examining raises exactly when the analysis cannot be read, or was found and its treaties or rows
      cannot be read, a treaty has no number or no terms, or a row raises. */
  lemma ExamineRaisesIff(p: Platform, codec: Codec, id: nat)
    ensures Examine(p, codec, id).ExamineRaises? <==>
            match p.analysis(id)
            case ReadFails => true
            case NotFound => false
            case Found(d) =>
              || p.treaties(id).TreatiesFail? || p.regions(id).RegionsFail?
              || (exists row :: row in p.treaties(id).rows && (row.number.None? || TermsOf(codec, row.fields).None?))
              || (exists raw :: raw in RegionRows(p, id) && RowResultOf(p, id, d, raw).RowRaises?)
  {
    if p.analysis(id).Found? {
      RowsGive(p, id, p.analysis(id).detail);
      if p.treaties(id).Treaties? { TreatyRows(codec, id, p.treaties(id).rows); }
    }
  }

  // ---- all analyses ----------------------------------------------------------------------------

  lemma InspectedGathering(p: Platform, codec: Codec, ids: seq<nat>, x: Inspection)
    requires Inspect(p, codec, ids) == Inspected(x)
    ensures var g := Gather(p, codec, ids); g.Gathered? && x.members == g.members && x.treaties == g.treaties
  {
    InspectionIs(p, codec, ids, x);
  }

  lemma ExaminedAt(p: Platform, codec: Codec, ids: seq<nat>, i: nat)
    requires Gather(p, codec, ids).Gathered? && i < |ids|
    ensures Examine(p, codec, ids[i]).Examined?
    ensures var g := Gather(p, codec, ids); |g.members| == |ids| && g.members[i] == Examine(p, codec, ids[i]).member
  {
    CollectIs(Examinations(p, codec, ids));
    assert Examinations(p, codec, ids)[i] == Examine(p, codec, ids[i]);
  }

  /** An inspection shows the analyses in the order they were named, each with its address and as its
      detail and rows describe it. */
  lemma MembersAre(p: Platform, codec: Codec, ids: seq<nat>, x: Inspection, i: nat)
    requires Inspect(p, codec, ids) == Inspected(x) && i < |ids|
    ensures x.analysisIds == ids && |x.members| == |x.resourceUris| == |ids| && x.resourceUris[i] == codec.uri(ids[i])
    ensures match p.analysis(ids[i])
            case Found(d) => Shows(p, ids[i], d, x.members[i])
            case _ => x.members[i] == Member(ids[i], false, false, None, None, None, None, None, None, [])
  {
    InspectionIs(p, codec, ids, x);
    ExaminedAt(p, codec, ids, i);
    MemberIs(p, codec, ids[i]);
  }

  // ---- treaties and what is warned about ------------------------------------------------------------

  lemma {:induction false} CollectTreaties(es: seq<Examination>, t: Treaty)
    requires Collect(es).Gathered?
    ensures t in Collect(es).treaties <==> exists e :: e in es && e.Examined? && t in e.treaties
  {
    if es != [] {
      var n := |es| - 1;
      CollectTreaties(es[..n], t);
      assert es == es[..n] + [es[n]];
    }
  }

  /** The treaty a row of this analysis is read as. */
  ghost predicate ReadsAs(p: Platform, codec: Codec, id: nat, row: RawTreaty, t: Treaty) {
    && p.analysis(id).Found? && p.treaties(id).Treaties? && row in p.treaties(id).rows
    && t == Treaty(id, row.id, t.number, t.terms) && row.number == Some(t.number)
    && TermsOf(codec, row.fields) == Some(t.terms)
  }

  ghost predicate ReadFrom(p: Platform, codec: Codec, id: nat, t: Treaty) { exists row :: ReadsAs(p, codec, id, row, t) }

  lemma RowsReadAs(p: Platform, codec: Codec, id: nat, t: Treaty)
    requires p.analysis(id).Found? && p.treaties(id).Treaties? && TreatiesOf(codec, id, p.treaties(id).rows).Some?
    ensures t in TreatiesOf(codec, id, p.treaties(id).rows).value <==> ReadFrom(p, codec, id, t)
  {
    var rows, ts := p.treaties(id).rows, TreatiesOf(codec, id, p.treaties(id).rows).value;
    TreatyRows(codec, id, rows);
    if t in ts {
      var i :| 0 <= i < |ts| && ts[i] == t;
      assert ReadsAs(p, codec, id, rows[i], t);
    }
    if row :| ReadsAs(p, codec, id, row, t) {
      var i :| 0 <= i < |rows| && rows[i] == row;
      assert ts[i] == t;
    }
  }

  lemma ExaminedTreaties(p: Platform, codec: Codec, id: nat, t: Treaty)
    requires Examine(p, codec, id).Examined?
    ensures t in Examine(p, codec, id).treaties <==> ReadFrom(p, codec, id, t)
  {
    if p.analysis(id).Found? { RowsReadAs(p, codec, id, t); }
  }

  lemma CollectedFrom(p: Platform, codec: Codec, ids: seq<nat>, es: seq<Examination>, t: Treaty)
    requires |es| == |ids| && Collect(es).Gathered?
    requires forall i :: 0 <= i < |es| ==> es[i].Examined? && (t in es[i].treaties <==> ReadFrom(p, codec, ids[i], t))
    ensures t in Collect(es).treaties <==> exists id :: id in ids && ReadFrom(p, codec, id, t)
  {
    CollectTreaties(es, t);
    if e :| e in es && e.Examined? && t in e.treaties {
      var i :| 0 <= i < |es| && es[i] == e;
      assert ids[i] in ids;
    }
    if id :| id in ids && ReadFrom(p, codec, id, t) {
      var i :| 0 <= i < |ids| && ids[i] == id;
      assert es[i] in es;
    }
  }

  lemma GatheredTreaties(p: Platform, codec: Codec, ids: seq<nat>, es: seq<Examination>, t: Treaty)
    requires es == Examinations(p, codec, ids) && Collect(es).Gathered?
    ensures t in Collect(es).treaties <==> exists id :: id in ids && ReadFrom(p, codec, id, t)
  {
    CollectIs(es);
    forall i | 0 <= i < |ids| ensures t in es[i].treaties <==> ReadFrom(p, codec, ids[i], t) {
      assert es[i] == Examine(p, codec, ids[i]);
      ExaminedTreaties(p, codec, ids[i], t);
    }
    CollectedFrom(p, codec, ids, es, t);
  }

  /** The treaties of an inspection are what the rows of its analyses are read as, all and only. */
  lemma TreatiesAre(p: Platform, codec: Codec, ids: seq<nat>, x: Inspection, t: Treaty)
    requires Inspect(p, codec, ids) == Inspected(x)
    ensures t in x.treaties <==> exists id :: id in ids && ReadFrom(p, codec, id, t)
  {
    InspectedGathering(p, codec, ids, x);
    GatheredTreaties(p, codec, ids, Examinations(p, codec, ids), t);
  }

  /** A treaty row of an inspected analysis with this number. */
  ghost predicate HasTreaty(p: Platform, ids: seq<nat>, number: string, row: RawTreaty) {
    exists id :: id in ids && p.analysis(id).Found? && p.treaties(id).Treaties? && row in p.treaties(id).rows
                 && row.number == Some(number)
  }

  ghost predicate ValueOf(row: RawTreaty, field: string, value: Json) {
    value == if field in row.fields then row.fields[field] else JNull
  }

  /** Two treaty rows of the number have different values of the field. */
  ghost predicate ValuesDiffer(p: Platform, ids: seq<nat>, number: string, field: string) {
    exists r, s, v, w :: HasTreaty(p, ids, number, r) && HasTreaty(p, ids, number, s)
                         && ValueOf(r, field, v) && ValueOf(s, field, w) && v != w
  }

  lemma ExaminedRow(p: Platform, codec: Codec, id: nat, row: RawTreaty)
    requires p.analysis(id).Found? && p.treaties(id).Treaties? && row in p.treaties(id).rows && Examine(p, codec, id).Examined?
    ensures row.number.Some? && TermsOf(codec, row.fields).Some?
  {
    TreatyRows(codec, id, p.treaties(id).rows);
  }

  lemma RowIsRead(p: Platform, codec: Codec, ids: seq<nat>, x: Inspection, number: string, row: RawTreaty) returns (t: Treaty)
    requires Inspect(p, codec, ids) == Inspected(x) && HasTreaty(p, ids, number, row)
    ensures t in x.treaties && t.number == number && AreTerms(codec, row.fields, t.terms)
  {
    var id :| id in ids && p.analysis(id).Found? && p.treaties(id).Treaties? && row in p.treaties(id).rows
              && row.number == Some(number);
    var i :| 0 <= i < |ids| && ids[i] == id;
    InspectedGathering(p, codec, ids, x);
    ExaminedAt(p, codec, ids, i);
    ExaminedRow(p, codec, id, row);
    TermsAre(codec, row.fields);
    t := Treaty(id, row.id, number, TermsOf(codec, row.fields).value);
    assert ReadsAs(p, codec, id, row, t);
    assert ReadFrom(p, codec, id, t);
    TreatiesAre(p, codec, ids, x, t);
  }

  lemma TreatyIsRead(p: Platform, codec: Codec, ids: seq<nat>, x: Inspection, t: Treaty) returns (row: RawTreaty)
    requires Inspect(p, codec, ids) == Inspected(x) && t in x.treaties
    ensures HasTreaty(p, ids, t.number, row) && AreTerms(codec, row.fields, t.terms)
  {
    TreatiesAre(p, codec, ids, x, t);
    var id :| id in ids && ReadFrom(p, codec, id, t);
    row :| ReadsAs(p, codec, id, row, t);
    TermsAre(codec, row.fields);
  }

  /** For the fields compared as they are: two rows of a number differ exactly when two treaties do. */
  lemma DiffersAsRead(p: Platform, codec: Codec, ids: seq<nat>, x: Inspection, number: string, field: string)
    requires Inspect(p, codec, ids) == Inspected(x) && Compared(field)
    ensures DiffersIn(x.treaties, number, field) <==> ValuesDiffer(p, ids, number, field)
  {
    if r, s, v, w :| HasTreaty(p, ids, number, r) && HasTreaty(p, ids, number, s)
                     && ValueOf(r, field, v) && ValueOf(s, field, w) && v != w {
      var t := RowIsRead(p, codec, ids, x, number, r);
      var u := RowIsRead(p, codec, ids, x, number, s);
      assert t.terms[field] == v && u.terms[field] == w;
    }
    if t, u :| t in x.treaties && u in x.treaties && t.number == number == u.number && Get(t.terms, field) != Get(u.terms, field) {
      var r := TreatyIsRead(p, codec, ids, x, t);
      var s := TreatyIsRead(p, codec, ids, x, u);
      assert ValueOf(r, field, t.terms[field]) && ValueOf(s, field, u.terms[field]);
    }
  }

  /** Two treaties of one number, of whichever inspected analyses, whose values of a plain field differ
      are warned about with that field named, and a plain field is named for nothing else. */
  lemma DifferenceIsWarned(p: Platform, codec: Codec, ids: seq<nat>, x: Inspection, number: string, field: string)
    requires Faithful(codec) && Inspect(p, codec, ids) == Inspected(x) && Compared(field)
    ensures (exists w :: w in x.warnings && w.number == number && field in w.differingFields) <==>
            ValuesDiffer(p, ids, number, field)
  {
    InspectionWarns(p, codec, ids, x);
    DiffersAsRead(p, codec, ids, x, number, field);
    if DiffersIn(x.treaties, number, field) {
      assert Inconsistent(x.treaties, number);
      var w :| w in x.warnings && w.number == number;
      assert Describes(x.treaties, w);
    }
    if w :| w in x.warnings && w.number == number && field in w.differingFields {
      assert Describes(x.treaties, w);
    }
  }

  // ---- one partition, worked out from its facts ---------------------------------------------------------

  ghost predicate WorkedOut(c: Context, facts: set<Fact>, q: Partition) {
    PartitionOf(c, facts, q.key).PartitionDone? && PartitionOf(c, facts, q.key).partition == q
  }

  /** An ELT fact goes by this scheme. */
  ghost predicate InUse(facts: set<Fact>, scheme: nat) {
    exists f :: f in facts && f.framework == ELT && f.schemeId == Some(scheme)
  }

  lemma SchemesInUse(facts: set<Fact>)
    ensures forall id :: id in SchemesIn(facts) <==> InUse(facts, id)
  {
  }

  lemma SeveralSchemes(facts: set<Fact>)
    ensures |SchemesIn(facts)| > 1 <==> exists i, j :: InUse(facts, i) && InUse(facts, j) && i != j
  {
    SchemesInUse(facts);
    SeveralElements(SchemesIn(facts));
  }

  /** Who takes part in a partition, with which PETs, and whether schemes or sets are to be chosen. */
  lemma PartitionLists(c: Context, facts: set<Fact>, q: Partition)
    requires WorkedOut(c, facts, q)
    ensures Increasing(q.analysisIds) && forall id :: id in q.analysisIds <==> exists f :: f in facts && f.analysisId == id
    ensures Increasing(q.petIds) && forall id :: id in q.petIds <==> exists f :: f in facts && f.framework == PLT && f.petId == Some(id)
    ensures q.schemeRequired <==> exists i, j :: InUse(facts, i) && InUse(facts, j) && i != j
    ensures q.simulationRequired <==> q.simulationOptions != []
  {
    SortedNatsIncrease(AnalysesIn(facts));
    SortedNatsIncrease(PetsIn(facts));
    SeveralSchemes(facts);
    forall id ensures id in PetsIn(facts) <==> exists f :: f in facts && f.framework == PLT && f.petId == Some(id) {
      if f :| f in facts && f.framework == PLT && f.petId == Some(id) { assert f.petId.value == id; }
    }
  }

  /** An active row that applies its scheme to the partition. */
  ghost predicate AppliesTo(row: SchemeRow, key: PartitionKey, sameVersion: bool, id: nat) {
    && row.id == Some(id) && row.peril == Some(key.peril) && row.modelRegion == Some(key.region + key.peril)
    && (sameVersion ==> row.modelVersion == Some(key.version))
  }

  /** A row of the reference table that converts the partition, under a scheme that is active. */
  ghost predicate ConvertsTo(row: SimulationRow, key: PartitionKey, schemes: seq<SchemeRow>, id: nat) {
    && row.id == Some(id) && row.periods.Some? && row.peril == Some(key.peril)
    && row.modelRegion == Some(key.region + key.peril) && row.modelVersion == Some(key.version)
    && (row.source == None || row.source == Some("SYSTEM"))
    && exists s :: s in schemes && row.scheme.Some? && s.id == row.scheme
  }

  ghost function SchemesOf(c: Context): seq<SchemeRow> { if c.schemes.Some? then c.schemes.value else [] }

  ghost predicate AllDlm(facts: set<Fact>, dlm: set<nat>) {
    forall f :: f in facts && f.framework == ELT ==> f.analysisId in dlm
  }

  lemma AppliesIff(row: SchemeRow, key: PartitionKey, sameVersion: bool, id: nat)
    ensures AppliesTo(row, key, sameVersion, id) <==> Applicable(row, key, sameVersion) && row.id == Some(id)
  {
  }

  lemma ConvertsIff(c: Context, row: SimulationRow, key: PartitionKey, id: nat)
    ensures ConvertsTo(row, key, SchemesOf(c), id) <==> Convertible(row, key, ActiveIds(c)) && row.id == Some(id)
  {
    if row.scheme.Some? {
      assert row.scheme.value in ActiveIds(c) <==> exists s :: s in SchemesOf(c) && s.id == row.scheme;
    }
  }

  /** The last of the rows that apply a scheme names it. */
  ghost predicate LastApplies(rows: seq<SchemeRow>, k: int, key: PartitionKey, sameVersion: bool, o: SchemeOption) {
    && 0 <= k < |rows| && AppliesTo(rows[k], key, sameVersion, o.id) && o.schemeLabel == rows[k].name
    && forall j :: k < j < |rows| ==> !AppliesTo(rows[j], key, sameVersion, o.id)
  }

  /** The last of the rows that convert with a set describes it. */
  ghost predicate LastConverts(rows: seq<SimulationRow>, k: int, key: PartitionKey, schemes: seq<SchemeRow>, o: SimulationOption) {
    && 0 <= k < |rows| && ConvertsTo(rows[k], key, schemes, o.id)
    && o == SimulationOption(o.id, rows[k].periods.value, rows[k].scheme, rows[k].name)
    && forall j :: k < j < |rows| ==> !ConvertsTo(rows[j], key, schemes, o.id)
  }

  lemma {:induction false} SchemeTableHolds(rows: seq<SchemeRow>, key: PartitionKey, sameVersion: bool, o: SchemeOption)
    ensures o.id in SchemeTable(rows, key, sameVersion) && SchemeTable(rows, key, sameVersion)[o.id] == o.schemeLabel <==>
            exists k :: LastApplies(rows, k, key, sameVersion, o)
  {
    if rows != [] {
      var n := |rows| - 1;
      var before := rows[..n];
      SchemeTableHolds(before, key, sameVersion, o);
      AppliesIff(rows[n], key, sameVersion, o.id);
      if AppliesTo(rows[n], key, sameVersion, o.id) {
        if o.schemeLabel == rows[n].name { assert LastApplies(rows, n, key, sameVersion, o); }
      } else {
        if k :| LastApplies(before, k, key, sameVersion, o) { assert LastApplies(rows, k, key, sameVersion, o); }
        if k :| LastApplies(rows, k, key, sameVersion, o) { assert LastApplies(before, k, key, sameVersion, o); }
      }
    }
  }

  lemma {:induction false} SimulationTableHolds(c: Context, rows: seq<SimulationRow>, key: PartitionKey, o: SimulationOption)
    ensures var table := SimulationTable(rows, key, ActiveIds(c));
            o.id in table && table[o.id] == o <==> exists k :: LastConverts(rows, k, key, SchemesOf(c), o)
  {
    if rows != [] {
      var n := |rows| - 1;
      var before := rows[..n];
      SimulationTableHolds(c, before, key, o);
      ConvertsIff(c, rows[n], key, o.id);
      if ConvertsTo(rows[n], key, SchemesOf(c), o.id) {
        if o == SimulationOption(o.id, rows[n].periods.value, rows[n].scheme, rows[n].name) {
          assert LastConverts(rows, n, key, SchemesOf(c), o);
        }
      } else {
        if k :| LastConverts(before, k, key, SchemesOf(c), o) { assert LastConverts(rows, k, key, SchemesOf(c), o); }
        if k :| LastConverts(rows, k, key, SchemesOf(c), o) { assert LastConverts(before, k, key, SchemesOf(c), o); }
      }
    }
  }

  /** Options in the order of their ids. */
  ghost predicate SchemesInOrder(options: seq<SchemeOption>) {
    forall i, j :: 0 <= i < j < |options| ==> options[i].id < options[j].id
  }

  ghost predicate SetsInOrder(options: seq<SimulationOption>) {
    forall i, j :: 0 <= i < j < |options| ==> options[i].id < options[j].id
  }

  lemma SetsListed(table: map<nat, SimulationOption>, options: seq<SimulationOption>, o: SimulationOption, any: bool)
    requires forall id :: id in table ==> table[id].id == id
    requires any ==>
               var ids := SortedNats(table.Keys);
               |options| == |ids| && forall i :: 0 <= i < |ids| ==> ids[i] in table && options[i] == table[ids[i]]
    requires !any ==> options == []
    ensures o in options <==> any && o.id in table && table[o.id] == o
    ensures SetsInOrder(options)
  {
    var ids := SortedNats(table.Keys);
    SortedNatsIncrease(table.Keys);
    if any && o.id in table && table[o.id] == o {
      var i :| 0 <= i < |ids| && ids[i] == o.id;
      assert options[i] == o;
    }
  }

  lemma AnyElt(facts: set<Fact>)
    ensures EltFacts(facts) != {} <==> exists f :: f in facts && f.framework == ELT
  {
    if f :| f in facts && f.framework == ELT { assert f in EltFacts(facts); }
  }

  lemma SetOptionsAre(c: Context, facts: set<Fact>, key: PartitionKey, o: SimulationOption)
    ensures o in SimulationOptions(c, facts, key) <==>
            && c.simulate && EltFacts(facts) != {}
            && exists k :: LastConverts(c.simulations, k, key, SchemesOf(c), o)
    ensures SetsInOrder(SimulationOptions(c, facts, key))
  {
    var table := SimulationTable(c.simulations, key, ActiveIds(c));
    SimulationTableKeys(c.simulations, key, ActiveIds(c));
    SimulationTableHolds(c, c.simulations, key, o);
    SortedNatsIs(table.Keys);
    SetsListed(table, SimulationOptions(c, facts, key), o, c.simulate && EltFacts(facts) != {});
  }

  /** The sets offered are those the reference rows convert with, if the group is simulated and the
      partition has ELT facts. */
  lemma SetsAre(c: Context, facts: set<Fact>, q: Partition, o: SimulationOption)
    requires WorkedOut(c, facts, q)
    ensures o in q.simulationOptions <==>
            && c.simulate && (exists f :: f in facts && f.framework == ELT)
            && exists k :: LastConverts(c.simulations, k, q.key, SchemesOf(c), o)
    ensures SetsInOrder(q.simulationOptions)
  {
    AnyElt(facts);
    SetOptionsAre(c, facts, q.key, o);
  }

  ghost predicate FirstRow(rows: seq<SchemeRow>, k: int, id: nat) {
    0 <= k < |rows| && rows[k].id == Some(id) && forall j :: 0 <= j < k ==> rows[j].id != Some(id)
  }

  /** A scheme is labelled by the first row with its id, or else as the details of the analyses label it. */
  ghost predicate Labelled(rows: seq<SchemeRow>, labels: map<nat, Option<string>>, o: SchemeOption) {
    if exists k :: FirstRow(rows, k, o.id) && rows[k].name != None && rows[k].name != Some("")
    then exists k :: FirstRow(rows, k, o.id) && o.schemeLabel == rows[k].name
    else o.schemeLabel == if o.id in labels then labels[o.id] else None
  }

  lemma {:induction false} SchemeNameIs(rows: seq<SchemeRow>, id: nat)
    ensures forall k :: FirstRow(rows, k, id) ==> SchemeName(rows, id) == rows[k].name
    ensures SchemeName(rows, id) != None ==> exists k :: FirstRow(rows, k, id)
  {
    if rows != [] {
      var rest := rows[1..];
      SchemeNameIs(rest, id);
      if rows[0].id == Some(id) {
        assert FirstRow(rows, 0, id);
      } else {
        forall k | FirstRow(rows, k, id) ensures SchemeName(rows, id) == rows[k].name {
          assert rest[k - 1] == rows[k] && forall j :: 0 <= j < k - 1 ==> rest[j] == rows[j + 1];
          assert FirstRow(rest, k - 1, id);
        }
        if k :| FirstRow(rest, k, id) {
          assert rows[k + 1] == rest[k] && forall j :: 1 <= j < k + 1 ==> rows[j] == rest[j - 1];
          assert FirstRow(rows, k + 1, id);
        }
      }
    }
  }

  lemma LabelledIs(rows: seq<SchemeRow>, labels: map<nat, Option<string>>, o: SchemeOption)
    ensures Labelled(rows, labels, o) <==>
            o.schemeLabel == if Has(SchemeName(rows, o.id)) then SchemeName(rows, o.id)
                             else if o.id in labels then labels[o.id] else None
  {
    SchemeNameIs(rows, o.id);
  }

  lemma SchemesListed(ids: seq<nat>, options: seq<SchemeOption>, o: SchemeOption)
    requires |options| == |ids| && forall i :: 0 <= i < |ids| ==> options[i].id == ids[i]
    requires forall i, j :: 0 <= i < j < |ids| ==> ids[i] < ids[j]
    ensures o in options <==> exists i :: 0 <= i < |ids| && ids[i] == o.id && options[i] == o
    ensures SchemesInOrder(options)
  {
  }

  lemma TableListed(table: map<nat, Option<string>>, options: seq<SchemeOption>, o: SchemeOption)
    requires var ids := SortedNats(table.Keys);
             |options| == |ids| && forall i :: 0 <= i < |ids| ==> ids[i] in table && options[i] == SchemeOption(ids[i], table[ids[i]])
    ensures o in options <==> o.id in table && table[o.id] == o.schemeLabel
    ensures SchemesInOrder(options)
  {
    var ids := SortedNats(table.Keys);
    SortedNatsIncrease(table.Keys);
    SchemesListed(ids, options, o);
    if o.id in table {
      var i :| 0 <= i < |ids| && ids[i] == o.id;
      assert options[i] == SchemeOption(o.id, table[o.id]);
    }
  }

  lemma ConflictOptions(c: Context, facts: set<Fact>, key: PartitionKey, o: SchemeOption)
    requires |SchemesIn(facts)| > 1 && c.schemes.Some?
    ensures o in SchemeOptions(c, facts, key) <==> exists k :: LastApplies(SchemesOf(c), k, key, AllDlm(facts, c.dlm), o)
    ensures SchemesInOrder(SchemeOptions(c, facts, key))
  {
    var same := forall f :: f in EltFacts(facts) ==> f.analysisId in c.dlm;
    assert same == AllDlm(facts, c.dlm);
    SortedNatsIs(SchemeTable(c.schemes.value, key, same).Keys);
    TableListed(SchemeTable(c.schemes.value, key, same), SchemeOptions(c, facts, key), o);
    SchemeTableHolds(c.schemes.value, key, same, o);
    var table := SchemeTable(c.schemes.value, key, same);
    assert o in SchemeOptions(c, facts, key) <==> o.id in table && table[o.id] == o.schemeLabel;
    assert o.id in table && table[o.id] == o.schemeLabel <==> exists k :: LastApplies(c.schemes.value, k, key, same, o);
    assert SchemesOf(c) == c.schemes.value;
  }

  lemma SoleOption(c: Context, facts: set<Fact>, key: PartitionKey, o: SchemeOption)
    requires |SchemesIn(facts)| <= 1 && (SchemesIn(facts) != {} ==> c.schemes.Some?)
    ensures o in SchemeOptions(c, facts, key) <==> o.id in SchemesIn(facts) && Labelled(SchemesOf(c), c.labels, o)
    ensures SchemesInOrder(SchemeOptions(c, facts, key))
  {
    var ids, options := SortedNats(SchemesIn(facts)), SchemeOptions(c, facts, key);
    SortedNatsIncrease(SchemesIn(facts));
    SchemesListed(ids, options, o);
    LabelledIs(SchemesOf(c), c.labels, o);
    if o.id in ids {
      var i :| 0 <= i < |ids| && ids[i] == o.id;
    }
  }

  /** The schemes offered are, in a conflict, those the active rows apply to the partition, under its
      version if all its ELT facts are of DLM analyses; and else the one in use. */
  lemma SchemesAre(c: Context, facts: set<Fact>, q: Partition, o: SchemeOption)
    requires WorkedOut(c, facts, q)
    ensures o in q.schemeOptions <==>
            if q.schemeRequired then exists k :: LastApplies(SchemesOf(c), k, q.key, AllDlm(facts, c.dlm), o)
            else InUse(facts, o.id) && Labelled(SchemesOf(c), c.labels, o)
    ensures SchemesInOrder(q.schemeOptions)
  {
    SchemesInUse(facts);
    if |SchemesIn(facts)| > 1 {
      ConflictOptions(c, facts, q.key, o);
    } else {
      SoleOption(c, facts, q.key, o);
    }
  }

  /** The analyses whose ELT facts are in a partition, in order. */
  ghost predicate EltAnalyses(facts: set<Fact>, ids: seq<nat>) {
    Increasing(ids) && forall id :: id in ids <==> exists f :: f in facts && f.framework == ELT && f.analysisId == id
  }

  /** The engines of the ELT facts, each once, in order, put together with commas. */
  ghost predicate EnginesAre(facts: set<Fact>, engines: string) {
    (forall f :: f in facts && f.framework == ELT ==> ',' !in f.engine) && (exists f :: f in facts && f.framework == ELT) ==>
      var parts := Split(engines, ',');
      && (forall e :: e in parts <==> exists f :: f in facts && f.framework == ELT && f.engine == e)
      && forall i, j :: 0 <= i < j < |parts| ==> Precedes(parts[i], parts[j])
  }

  lemma EnginesInAre(facts: set<Fact>)
    ensures EnginesAre(facts, EnginesIn(facts))
  {
    var engines := set f | f in facts && f.framework == ELT :: f.engine;
    var parts := SortedStrings(engines);
    SortedStringsIs(engines);
    if (forall f :: f in facts && f.framework == ELT ==> ',' !in f.engine) && exists f :: f in facts && f.framework == ELT {
      var f :| f in facts && f.framework == ELT;
      assert f.engine in engines;
      assert "," == [','];
      SplitJoined(parts, ',');
      forall i, j | 0 <= i < j < |parts| ensures Precedes(parts[i], parts[j]) {
        TextsInOrder(parts[i], parts[j]);
      }
    }
  }

  lemma EltAnalysesAre(facts: set<Fact>)
    ensures EltAnalyses(facts, SortedNats(AnalysesIn(EltFacts(facts))))
  {
    SortedNatsIncrease(AnalysesIn(EltFacts(facts)));
    forall id ensures id in AnalysesIn(EltFacts(facts)) <==> exists f :: f in facts && f.framework == ELT && f.analysisId == id {
      if f :| f in facts && f.framework == ELT && f.analysisId == id { assert f in EltFacts(facts); }
    }
  }

  /** What one offered set maps a partition's ELT analyses to. */
  ghost predicate MapsWith(facts: set<Fact>, key: PartitionKey, o: SimulationOption, m: Mapping) {
    && EltAnalyses(facts, m.analysisIds) && EnginesAre(facts, m.engines)
    && m == Mapping(key, m.analysisIds, m.engines, key.region + key.peril,
                    if o.schemeId.Some? then o.schemeId.value else 0, o.id, o.periods)
  }

  /** The mappings of a partition: one for each set offered, in the same order. */
  lemma MappingsAre(c: Context, facts: set<Fact>, q: Partition)
    requires WorkedOut(c, facts, q)
    ensures var ms := PartitionOf(c, facts, q.key).mappings;
            |ms| == |q.simulationOptions| && forall i :: 0 <= i < |ms| ==> MapsWith(facts, q.key, q.simulationOptions[i], ms[i])
  {
    EltAnalysesAre(facts);
    EnginesInAre(facts);
  }

  /** What can be wrong with a partition: schemes in conflict and none to choose, or ELT facts in a
      simulated group and no set to convert them with. */
  ghost predicate PartitionProblem(simulate: bool, facts: set<Fact>, q: Partition, problem: Problem) {
    && problem == Problem(problem.code, problem.analysisIds, Some(q.key), [], [], "") && EltAnalyses(facts, problem.analysisIds)
    && match problem.code
       case EventRateSchemeMappingMissing => q.schemeRequired && q.schemeOptions == []
       case SimulationSetMappingMissing =>
         simulate && (exists f :: f in facts && f.framework == ELT) && q.simulationOptions == []
       case _ => false
  }

  lemma SameIds(facts: set<Fact>, ids: seq<nat>, others: seq<nat>)
    requires EltAnalyses(facts, ids) && EltAnalyses(facts, others)
    ensures ids == others
  {
    IncreasingSame(ids, others);
  }

  lemma {:induction false} IncreasingSame(ids: seq<nat>, others: seq<nat>)
    requires Increasing(ids) && Increasing(others) && forall id :: id in ids <==> id in others
    ensures ids == others
  {
    if ids == [] {
      EmptyIffNoMember(others);
    } else {
      var n := |ids| - 1;
      assert ids[n] in others;
      var m := |others| - 1;
      assert others[m] in ids;
      assert ids[n] == others[m];
      forall id ensures id in ids[..n] <==> id in others[..m] {
        assert id in ids[..n] <==> id in ids && id != ids[n] by { assert ids == ids[..n] + [ids[n]]; }
        assert id in others[..m] <==> id in others && id != others[m] by { assert others == others[..m] + [others[m]]; }
      }
      IncreasingSame(ids[..n], others[..m]);
      assert ids == ids[..n] + [ids[n]] && others == others[..m] + [others[m]];
    }
  }

  lemma PartitionProblemsAre(c: Context, facts: set<Fact>, q: Partition, problem: Problem)
    requires WorkedOut(c, facts, q)
    ensures problem in PartitionOf(c, facts, q.key).problems <==> PartitionProblem(c.simulate, facts, q, problem)
  {
    var eltIds := SortedNats(AnalysesIn(EltFacts(facts)));
    EltAnalysesAre(facts);
    AnyElt(facts);
    if EltAnalyses(facts, problem.analysisIds) { SameIds(facts, eltIds, problem.analysisIds); }
  }

  // ---- the partitions of an inspection --------------------------------------------------------------------

  /** A fact of some member belongs to the partition of this key. */
  ghost predicate InPartition(x: Inspection, key: PartitionKey, f: Fact) {
    && (exists m :: m in x.members && f in m.regions)
    && f.peril == key.peril && f.region == key.region && f.version == key.version
  }

  /** The facts of the partition, and what all partitions are worked out from. */
  ghost predicate Basis(p: Platform, codec: Codec, ids: seq<nat>, x: Inspection, key: PartitionKey, c: Context, facts: set<Fact>) {
    && Gather(p, codec, ids).Gathered? && c == ContextOf(p, Gather(p, codec, ids))
    && facts == FactsWith(FactsOf(x.members), key)
  }

  lemma {:induction false} CombinedPartsAre(rs: seq<PartitionResult>)
    requires CombineParts(rs).PartitionsDone?
    ensures forall r :: r in rs ==> r.PartitionDone?
    ensures var parts := CombineParts(rs);
            && (forall m :: m in parts.mappings <==> exists r :: r in rs && m in r.mappings)
            && (forall q :: q in parts.problems <==> exists r :: r in rs && q in r.problems)
  {
    if rs != [] {
      var n := |rs| - 1;
      CombinedPartsAre(rs[..n]);
      assert rs == rs[..n] + [rs[n]];
    }
  }

  /** Each partition is worked out from its own facts. */
  lemma PartitionAt(c: Context, all: set<Fact>, keys: seq<PartitionKey>, i: nat)
    requires PartitionsOf(c, all, keys).PartitionsDone? && i < |keys|
    ensures |PartitionsOf(c, all, keys).partitions| == |keys|
    ensures var q := PartitionsOf(c, all, keys).partitions[i];
            q.key == keys[i] && WorkedOut(c, FactsWith(all, q.key), q)
  {
    PartitionsHaveKeys(c, all, keys);
    CombinedAt(PartResults(c, all, keys), i);
  }

  lemma PartitionWorkedOut(p: Platform, codec: Codec, ids: seq<nat>, x: Inspection, q: Partition, c: Context, facts: set<Fact>)
    requires Inspect(p, codec, ids) == Inspected(x) && q in x.partitions && Basis(p, codec, ids, x, q.key, c, facts)
    ensures WorkedOut(c, facts, q)
  {
    InspectionIs(p, codec, ids, x);
    var i :| 0 <= i < |x.partitions| && x.partitions[i] == q;
    var keys := SortedPartitions(KeysOf(FactsOf(x.members)));
    PartitionsHaveKeys(c, FactsOf(x.members), keys);
    PartitionAt(c, FactsOf(x.members), keys, i);
  }

  /** Partitions are listed by peril, then region, then version, one for each combination that a fact has. */
  lemma PartitionsAre(p: Platform, codec: Codec, ids: seq<nat>, x: Inspection, key: PartitionKey)
    requires Inspect(p, codec, ids) == Inspected(x)
    ensures forall i, j :: 0 <= i < j < |x.partitions| ==> KeyPrecedes(x.partitions[i].key, x.partitions[j].key)
    ensures (exists q :: q in x.partitions && q.key == key) <==> exists f :: InPartition(x, key, f)
  {
    InspectionIs(p, codec, ids, x);
    var all := FactsOf(x.members);
    var keys := SortedPartitions(KeysOf(all));
    SortedPartitionsIs(KeysOf(all));
    PartitionsHaveKeys(ContextOf(p, Gather(p, codec, ids)), all, keys);
    KeysAscend(x.partitions, keys);
    KeyOccurs(x, keys, key);
  }

  lemma KeysAscend(ps: seq<Partition>, keys: seq<PartitionKey>)
    requires HaveKeys(ps, keys) && Ascending(keys, PartitionSortKey) && Distinct(keys)
    ensures forall i, j :: 0 <= i < j < |ps| ==> KeyPrecedes(ps[i].key, ps[j].key)
  {
    forall i, j | 0 <= i < j < |ps| ensures KeyPrecedes(ps[i].key, ps[j].key) {
      PartitionOrder(keys[i], [], keys[j], []);
      assert PartitionSortKey(keys[i]) + [] == PartitionSortKey(keys[i]);
      assert PartitionSortKey(keys[j]) + [] == PartitionSortKey(keys[j]);
    }
  }

  lemma KeyOccurs(x: Inspection, keys: seq<PartitionKey>, key: PartitionKey)
    requires HaveKeys(x.partitions, keys) && forall k :: k in keys <==> k in KeysOf(FactsOf(x.members))
    ensures (exists q :: q in x.partitions && q.key == key) <==> exists f :: InPartition(x, key, f)
  {
    if q :| q in x.partitions && q.key == key {
      var i :| 0 <= i < |x.partitions| && x.partitions[i] == q;
      assert keys[i] in keys;
      var f :| f in FactsOf(x.members) && KeyOf(f) == key;
      assert InPartition(x, key, f);
    }
    if f :| InPartition(x, key, f) {
      assert f in FactsOf(x.members) && KeyOf(f) in KeysOf(FactsOf(x.members));
      var i :| 0 <= i < |keys| && keys[i] == key;
      assert x.partitions[i] in x.partitions;
    }
  }

  ghost predicate OfPartition(x: Inspection, key: PartitionKey, facts: set<Fact>) {
    forall f :: f in facts <==> InPartition(x, key, f)
  }

  ghost predicate HasFramework(x: Inspection, framework: Framework) {
    exists m, f :: m in x.members && f in m.regions && f.framework == framework
  }

  /** The analysis runs a DLM engine. */
  ghost predicate IsDlm(x: Inspection, id: nat) {
    exists m, t :: m in x.members && m.analysisId == id && m.found && m.engineType == Some(t) && SameFolded(t, "DLM")
  }

  ghost predicate OnlyDlm(x: Inspection, facts: set<Fact>) {
    forall f :: f in facts && f.framework == ELT ==> IsDlm(x, f.analysisId)
  }

  lemma DlmIs(x: Inspection, id: nat)
    ensures id in DlmIds(x.members) <==> IsDlm(x, id)
  {
    assert Upper("DLM") == "DLM";
    forall m | m in x.members && m.engineType.Some?
      ensures UpperIs(m.engineType, "DLM") <==> SameFolded(m.engineType.value, "DLM")
    {
      SameUpper(m.engineType.value, "DLM");
    }
  }

  lemma FrameworksIn(x: Inspection)
    ensures var all := FactsOf(x.members);
            && (AnyPlt(all) <==> HasFramework(x, PLT))
            && (EltFacts(all) != {} <==> HasFramework(x, ELT))
  {
    var all := FactsOf(x.members);
    AnyElt(all);
    if m, f :| m in x.members && f in m.regions && f.framework == PLT { assert f in all; }
    if m, f :| m in x.members && f in m.regions && f.framework == ELT { assert f in all; }
  }

  /** The scheme rows inspection works with. */
  ghost function ReadableSchemes(p: Platform): seq<SchemeRow> { if SchemesUnreadable(p) then [] else p.schemes.rows }

  lemma ReadableIs(p: Platform)
    ensures ActiveSchemes(p) == if SchemesUnreadable(p) then None else Some(p.schemes.rows)
  {
  }

  lemma SetsWereRead(p: Platform, codec: Codec, ids: seq<nat>, x: Inspection)
    requires Inspect(p, codec, ids) == Inspected(x)
    ensures NeedsSimulations(FactsOf(x.members)) ==> p.simulationSets.Some? && ActiveSchemes(p).Some?
  {
  }

  /** The context is what the Platform answers, as far as inspection asked. */
  ghost predicate ContextFor(p: Platform, x: Inspection, labels: map<nat, Option<string>>, c: Context) {
    && SchemesOf(c) == ReadableSchemes(p) && (c.schemes.Some? <==> !SchemesUnreadable(p))
    && (c.simulate <==> HasFramework(x, PLT)) && x.simulateToPlt == c.simulate
    && (c.simulate && HasFramework(x, ELT) ==>
          p.simulationSets.Some? && !SchemesUnreadable(p) && c.simulations == p.simulationSets.value)
    && c.dlm == DlmIds(x.members) && c.labels == labels
  }

  lemma ContextIs(p: Platform, codec: Codec, ids: seq<nat>, x: Inspection)
    requires Inspect(p, codec, ids) == Inspected(x)
    ensures var g := Gather(p, codec, ids);
            g.Gathered? && g.members == x.members && ContextFor(p, x, g.labels, ContextOf(p, g))
  {
    InspectionIs(p, codec, ids, x);
    SetsWereRead(p, codec, ids, x);
    ContextBuilt(p, x, Gather(p, codec, ids));
  }

  lemma ContextBuilt(p: Platform, x: Inspection, g: Gathering)
    requires g.Gathered? && g.members == x.members && x.simulateToPlt == AnyPlt(FactsOf(x.members))
    requires NeedsSimulations(FactsOf(x.members)) ==> p.simulationSets.Some? && ActiveSchemes(p).Some?
    ensures ContextFor(p, x, g.labels, ContextOf(p, g))
  {
    ReadableIs(p);
    FrameworksIn(x);
  }

  /** A group is simulated to PLT exactly when it has a PLT fact. */
  lemma SimulatesIff(p: Platform, codec: Codec, ids: seq<nat>, x: Inspection)
    requires Inspect(p, codec, ids) == Inspected(x)
    ensures x.simulateToPlt <==> HasFramework(x, PLT)
  {
    ContextIs(p, codec, ids, x);
  }

  lemma FactsOfPartition(x: Inspection, key: PartitionKey, facts: set<Fact>)
    requires OfPartition(x, key, facts)
    ensures facts == FactsWith(FactsOf(x.members), key)
  {
  }

  /** Who takes part in a partition of an inspection, with which PETs, and what is to be chosen. */
  lemma PartitionShows(p: Platform, codec: Codec, ids: seq<nat>, x: Inspection, q: Partition, facts: set<Fact>)
    requires Inspect(p, codec, ids) == Inspected(x) && q in x.partitions && OfPartition(x, q.key, facts)
    ensures Increasing(q.analysisIds) && forall id :: id in q.analysisIds <==> exists f :: f in facts && f.analysisId == id
    ensures Increasing(q.petIds) && forall id :: id in q.petIds <==> exists f :: f in facts && f.framework == PLT && f.petId == Some(id)
    ensures q.schemeRequired <==> exists i, j :: InUse(facts, i) && InUse(facts, j) && i != j
    ensures q.simulationRequired <==> q.simulationOptions != []
  {
    FactsOfPartition(x, q.key, facts);
    ContextIs(p, codec, ids, x);
    var c := ContextOf(p, Gather(p, codec, ids));
    PartitionWorkedOut(p, codec, ids, x, q, c, facts);
    PartitionLists(c, facts, q);
  }

  lemma SameDlm(x: Inspection, facts: set<Fact>)
    ensures AllDlm(facts, DlmIds(x.members)) == OnlyDlm(x, facts)
  {
    forall f | f in facts ensures f.analysisId in DlmIds(x.members) <==> IsDlm(x, f.analysisId) {
      DlmIs(x, f.analysisId);
    }
  }

  lemma EltInGroup(x: Inspection, key: PartitionKey, facts: set<Fact>)
    requires OfPartition(x, key, facts) && exists f :: f in facts && f.framework == ELT
    ensures HasFramework(x, ELT)
  {
    var f :| f in facts && f.framework == ELT;
    assert InPartition(x, key, f);
  }

  /** The schemes a partition of an inspection offers: in a conflict those the active rows apply to it,
      under its version if all its ELT facts are of DLM analyses, and else the one in use. */
  lemma SchemesShown(p: Platform, codec: Codec, ids: seq<nat>, x: Inspection, q: Partition, facts: set<Fact>, o: SchemeOption)
    requires Inspect(p, codec, ids) == Inspected(x) && q in x.partitions && OfPartition(x, q.key, facts)
    ensures Gather(p, codec, ids).Gathered? && SchemesInOrder(q.schemeOptions)
    ensures o in q.schemeOptions <==>
            if q.schemeRequired then exists k :: LastApplies(ReadableSchemes(p), k, q.key, OnlyDlm(x, facts), o)
            else InUse(facts, o.id) && Labelled(ReadableSchemes(p), Gather(p, codec, ids).labels, o)
  {
    FactsOfPartition(x, q.key, facts);
    ContextIs(p, codec, ids, x);
    var c := ContextOf(p, Gather(p, codec, ids));
    PartitionWorkedOut(p, codec, ids, x, q, c, facts);
    SchemesAre(c, facts, q, o);
    SameDlm(x, facts);
  }

  /** The simulation sets it offers: what the rows of the reference table convert it with, under an active
      scheme, if the group is simulated and the partition has ELT facts. */
  lemma SetsShown(p: Platform, codec: Codec, ids: seq<nat>, x: Inspection, q: Partition, facts: set<Fact>, o: SimulationOption)
    requires Inspect(p, codec, ids) == Inspected(x) && q in x.partitions && OfPartition(x, q.key, facts)
    ensures SetsInOrder(q.simulationOptions)
    ensures o in q.simulationOptions <==>
            && x.simulateToPlt && (exists f :: f in facts && f.framework == ELT)
            && p.simulationSets.Some?
            && exists k :: LastConverts(p.simulationSets.value, k, q.key, ReadableSchemes(p), o)
  {
    FactsOfPartition(x, q.key, facts);
    ContextIs(p, codec, ids, x);
    var c := ContextOf(p, Gather(p, codec, ids));
    PartitionWorkedOut(p, codec, ids, x, q, c, facts);
    SetsAre(c, facts, q, o);
    if exists f :: f in facts && f.framework == ELT { EltInGroup(x, q.key, facts); }
  }

  /** The last of the analyses whose detail names the scheme labels it. */
  ghost predicate LabelledBy(p: Platform, ids: seq<nat>, i: int, scheme: nat, name: Option<string>) {
    && 0 <= i < |ids| && p.analysis(ids[i]).Found?
    && p.analysis(ids[i]).detail.scheme == Some(scheme) && p.analysis(ids[i]).detail.schemeLabel == name
    && forall j :: i < j < |ids| && p.analysis(ids[j]).Found? ==> p.analysis(ids[j]).detail.scheme != Some(scheme)
  }

  lemma ExaminedLabel(p: Platform, codec: Codec, id: nat)
    requires Examine(p, codec, id).Examined?
    ensures Examine(p, codec, id).schemeLabel ==
            if p.analysis(id).Found? && p.analysis(id).detail.scheme.Some?
            then Some((p.analysis(id).detail.scheme.value, p.analysis(id).detail.schemeLabel)) else None
  {
  }

  ghost predicate LabelsScheme(e: Examination, scheme: nat) {
    e.Examined? && e.schemeLabel.Some? && e.schemeLabel.value.0 == scheme
  }

  /** The last of the examinations that labels the scheme. */
  ghost predicate LastLabel(es: seq<Examination>, i: int, scheme: nat, name: Option<string>) {
    && 0 <= i < |es| && LabelsScheme(es[i], scheme) && es[i].schemeLabel.value.1 == name
    && forall j :: i < j < |es| ==> !LabelsScheme(es[j], scheme)
  }

  lemma {:induction false} CollectLabels(es: seq<Examination>, scheme: nat, name: Option<string>)
    requires Collect(es).Gathered?
    ensures scheme in Collect(es).labels && Collect(es).labels[scheme] == name <==> exists i :: LastLabel(es, i, scheme, name)
  {
    if es != [] {
      var n := |es| - 1;
      var before := es[..n];
      CollectLabels(before, scheme, name);
      if LabelsScheme(es[n], scheme) {
        if es[n].schemeLabel.value.1 == name { assert LastLabel(es, n, scheme, name); }
      } else {
        if i :| LastLabel(before, i, scheme, name) { assert LastLabel(es, i, scheme, name); }
        if i :| LastLabel(es, i, scheme, name) { assert LastLabel(before, i, scheme, name); }
      }
    }
  }

  lemma LabelAt(p: Platform, codec: Codec, ids: seq<nat>, es: seq<Examination>, i: nat, scheme: nat)
    requires es == Examinations(p, codec, ids) && i < |ids| && es[i].Examined?
    ensures LabelsScheme(es[i], scheme) <==> p.analysis(ids[i]).Found? && p.analysis(ids[i]).detail.scheme == Some(scheme)
    ensures LabelsScheme(es[i], scheme) ==> es[i].schemeLabel.value.1 == p.analysis(ids[i]).detail.schemeLabel
  {
    ExaminedLabel(p, codec, ids[i]);
  }

  lemma LabelsAre(p: Platform, codec: Codec, ids: seq<nat>, scheme: nat, name: Option<string>)
    requires Gather(p, codec, ids).Gathered?
    ensures var labels := Gather(p, codec, ids).labels;
            scheme in labels && labels[scheme] == name <==> exists i :: LabelledBy(p, ids, i, scheme, name)
  {
    var es := Examinations(p, codec, ids);
    CollectIs(es);
    CollectLabels(es, scheme, name);
    SameLabels(p, codec, ids, es, scheme, name);
  }

  lemma SameLabels(p: Platform, codec: Codec, ids: seq<nat>, es: seq<Examination>, scheme: nat, name: Option<string>)
    requires es == Examinations(p, codec, ids) && forall i :: 0 <= i < |es| ==> es[i].Examined?
    ensures forall i :: LastLabel(es, i, scheme, name) <==> LabelledBy(p, ids, i, scheme, name)
  {
    forall i | 0 <= i < |ids|
      ensures LabelsScheme(es[i], scheme) <==> p.analysis(ids[i]).Found? && p.analysis(ids[i]).detail.scheme == Some(scheme)
      ensures LabelsScheme(es[i], scheme) ==> es[i].schemeLabel.value.1 == p.analysis(ids[i]).detail.schemeLabel
    {
      LabelAt(p, codec, ids, es, i, scheme);
    }
  }

  ghost predicate MappedIn(x: Inspection, q: Partition, m: Mapping) {
    exists o :: o in q.simulationOptions && MapsWith(FactsWith(FactsOf(x.members), q.key), q.key, o, m)
  }

  /** The mappings of an inspection come from the sets its partitions offer, and each set offered gives one. */
  lemma MappingsShown(p: Platform, codec: Codec, ids: seq<nat>, x: Inspection)
    requires Inspect(p, codec, ids) == Inspected(x)
    ensures forall m :: m in x.mappings ==> exists q :: q in x.partitions && MappedIn(x, q, m)
    ensures forall q, o :: q in x.partitions && o in q.simulationOptions ==>
              exists m :: m in x.mappings && MapsWith(FactsWith(FactsOf(x.members), q.key), q.key, o, m)
  {
    InspectionIs(p, codec, ids, x);
    var c := ContextOf(p, Gather(p, codec, ids));
    var all, keys := FactsOf(x.members), SortedPartitions(KeysOf(FactsOf(x.members)));
    MappingsCombined(c, x, all, keys);
  }

  lemma MappingsCombined(c: Context, x: Inspection, all: set<Fact>, keys: seq<PartitionKey>)
    requires all == FactsOf(x.members) && PartitionsOf(c, all, keys).PartitionsDone?
    requires x.partitions == PartitionsOf(c, all, keys).partitions && x.mappings == PartitionsOf(c, all, keys).mappings
    ensures forall m :: m in x.mappings ==> exists q :: q in x.partitions && MappedIn(x, q, m)
    ensures forall q, o :: q in x.partitions && o in q.simulationOptions ==>
              exists m :: m in x.mappings && MapsWith(FactsWith(all, q.key), q.key, o, m)
  {
    var rs := PartResults(c, all, keys);
    CombinedPartsAre(rs);
    forall m | m in x.mappings ensures exists q :: q in x.partitions && MappedIn(x, q, m) {
      var r :| r in rs && m in r.mappings;
      var i :| 0 <= i < |rs| && rs[i] == r;
      PartitionAt(c, all, keys, i);
      MappingsAre(c, FactsWith(all, keys[i]), x.partitions[i]);
      var k :| 0 <= k < |r.mappings| && r.mappings[k] == m;
      assert x.partitions[i].simulationOptions[k] in x.partitions[i].simulationOptions;
      assert MappedIn(x, x.partitions[i], m);
    }
    forall q, o | q in x.partitions && o in q.simulationOptions
      ensures exists m :: m in x.mappings && MapsWith(FactsWith(all, q.key), q.key, o, m)
    {
      PartitionsHaveKeys(c, all, keys);
      var i :| 0 <= i < |x.partitions| && x.partitions[i] == q;
      PartitionAt(c, all, keys, i);
      MappingsAre(c, FactsWith(all, keys[i]), q);
      var k :| 0 <= k < |q.simulationOptions| && q.simulationOptions[k] == o;
      assert rs[i] in rs && rs[i].mappings[k] in rs[i].mappings;
    }
  }

  // ---- what blocks ------------------------------------------------------------------------------------

  ghost predicate Troubled(simulate: bool, all: set<Fact>, part: Partition, q: Problem) {
    PartitionProblem(simulate, FactsWith(all, part.key), part, q)
  }

  /** Something is wrong with an analysis or with a partition. */
  ghost predicate Reported(p: Platform, ids: seq<nat>, x: Inspection, q: Problem) {
    || (exists id :: id in ids && AnalysisProblem(p, id, q))
    || (exists part :: part in x.partitions && Troubled(x.simulateToPlt, FactsOf(x.members), part, q))
  }

  lemma GatheredProblems(p: Platform, codec: Codec, ids: seq<nat>, es: seq<Examination>, q: Problem)
    requires es == Examinations(p, codec, ids) && Collect(es).Gathered?
    ensures q in Collect(es).problems <==> exists id :: id in ids && AnalysisProblem(p, id, q)
  {
    CollectIs(es);
    forall i | 0 <= i < |ids| ensures ProblemIn(es[i], q) <==> AnalysisProblem(p, ids[i], q) {
      assert es[i] == Examine(p, codec, ids[i]);
      AnalysisProblemsAre(p, codec, ids[i], q);
    }
    if i :| 0 <= i < |es| && ProblemIn(es[i], q) { assert ids[i] in ids; }
    if id :| id in ids && AnalysisProblem(p, id, q) {
      var i :| 0 <= i < |ids| && ids[i] == id;
      assert ProblemIn(es[i], q);
    }
  }

  lemma ProblemAt(c: Context, all: set<Fact>, keys: seq<PartitionKey>, i: nat, q: Problem)
    requires PartitionsOf(c, all, keys).PartitionsDone? && i < |keys| && PartResults(c, all, keys)[i].PartitionDone?
    ensures |PartitionsOf(c, all, keys).partitions| == |keys|
    ensures var part := PartitionsOf(c, all, keys).partitions[i];
            q in PartResults(c, all, keys)[i].problems <==> Troubled(c.simulate, all, part, q)
  {
    PartitionAt(c, all, keys, i);
    PartitionProblemsAre(c, FactsWith(all, keys[i]), PartitionsOf(c, all, keys).partitions[i], q);
  }

  lemma ProblemsPaired(rs: seq<PartitionResult>, parts: seq<Partition>, simulate: bool, all: set<Fact>, q: Problem)
    requires |parts| == |rs| && forall r :: r in rs ==> r.PartitionDone?
    requires forall i :: 0 <= i < |rs| ==> (q in rs[i].problems <==> Troubled(simulate, all, parts[i], q))
    ensures (exists r :: r in rs && q in r.problems) <==> exists part :: part in parts && Troubled(simulate, all, part, q)
  {
    if r :| r in rs && q in r.problems {
      var i :| 0 <= i < |rs| && rs[i] == r;
      assert parts[i] in parts;
    }
    if part :| part in parts && Troubled(simulate, all, part, q) {
      var i :| 0 <= i < |parts| && parts[i] == part;
      assert rs[i] in rs;
    }
  }

  lemma CombinedProblems(c: Context, all: set<Fact>, keys: seq<PartitionKey>, q: Problem)
    requires PartitionsOf(c, all, keys).PartitionsDone?
    ensures q in PartitionsOf(c, all, keys).problems <==>
            exists part :: part in PartitionsOf(c, all, keys).partitions && Troubled(c.simulate, all, part, q)
  {
    var rs, parts := PartResults(c, all, keys), PartitionsOf(c, all, keys).partitions;
    CombinedPartsAre(rs);
    PartitionsHaveKeys(c, all, keys);
    forall i | 0 <= i < |rs| ensures q in rs[i].problems <==> Troubled(c.simulate, all, parts[i], q) {
      assert rs[i] in rs;
      ProblemAt(c, all, keys, i, q);
    }
    ProblemsPaired(rs, parts, c.simulate, all, q);
  }

  lemma ReportedIs(p: Platform, codec: Codec, ids: seq<nat>, x: Inspection, q: Problem) returns (all: seq<Problem>)
    requires Inspect(p, codec, ids) == Inspected(x)
    ensures x.blocking == Deduplicated(codec, all) && (q in all <==> Reported(p, ids, x, q))
  {
    InspectionIs(p, codec, ids, x);
    var g := Gather(p, codec, ids);
    var c, facts := ContextOf(p, g), FactsOf(x.members);
    var keys := SortedPartitions(KeysOf(facts));
    GatheredProblems(p, codec, ids, Examinations(p, codec, ids), q);
    CombinedProblems(c, facts, keys, q);
    all := g.problems + PartitionsOf(c, facts, keys).problems;
  }

  /** What blocks a group is what is wrong with its analyses and partitions: everything that is, up to
      wording, and nothing else. */
  lemma BlockingIs(p: Platform, codec: Codec, ids: seq<nat>, x: Inspection, q: Problem)
    requires Faithful(codec) && Inspect(p, codec, ids) == Inspected(x)
    ensures Reported(p, ids, x, q) ==> exists b :: b in x.blocking && CountAsOne(b, q)
    ensures q in x.blocking ==> Reported(p, ids, x, q)
  {
    var all := ReportedIs(p, codec, ids, x, q);
    if q in all { var k := CounterpartKept(codec, all, q); }
    if q in x.blocking { KeptWasThere(codec, all, q); }
  }

  // ---- when inspection raises ------------------------------------------------------------------------------

  ghost predicate AnyScheme(members: seq<Member>) {
    exists m, f :: m in members && f in m.regions && f.framework == ELT && f.schemeId != None
  }

  ghost predicate Mixed(members: seq<Member>) {
    && (exists m, f :: m in members && f in m.regions && f.framework == ELT)
    && (exists m, f :: m in members && f in m.regions && f.framework == PLT)
  }

  lemma {:induction false} CombineRaisesIff(rs: seq<PartitionResult>)
    ensures CombineParts(rs).PartitionsRaise? <==> exists r :: r in rs && r.PartitionRaises?
  {
    if rs != [] {
      var n := |rs| - 1;
      CombineRaisesIff(rs[..n]);
      assert rs == rs[..n] + [rs[n]];
    }
  }

  lemma PartitionsRaiseIff(c: Context, members: seq<Member>)
    ensures PartitionsOf(c, FactsOf(members), SortedPartitions(KeysOf(FactsOf(members)))).PartitionsRaise? <==>
            c.schemes.None? && AnyScheme(members)
  {
    var all := FactsOf(members);
    var keys := SortedPartitions(KeysOf(all));
    var rs := PartResults(c, all, keys);
    SortedPartitionsIs(KeysOf(all));
    CombineRaisesIff(rs);
    if r :| r in rs && r.PartitionRaises? {
      var i :| 0 <= i < |rs| && rs[i] == r;
      RaisingPartition(c, FactsWith(all, keys[i]), keys[i]);
    }
    if m, f :| c.schemes.None? && m in members && f in m.regions && f.framework == ELT && f.schemeId != None {
      assert f in all && KeyOf(f) in KeysOf(all);
      var i :| 0 <= i < |keys| && keys[i] == KeyOf(f);
      assert f in FactsWith(all, keys[i]);
      RaisingPartition(c, FactsWith(all, keys[i]), keys[i]);
      assert rs[i] in rs;
    }
  }

  lemma RaisingPartition(c: Context, facts: set<Fact>, key: PartitionKey)
    ensures PartitionOf(c, facts, key).PartitionRaises? <==>
            c.schemes.None? && exists f :: f in facts && f.framework == ELT && f.schemeId != None
  {
    if f :| f in facts && f.framework == ELT && f.schemeId != None { assert f.schemeId.value in SchemesIn(facts); }
  }

  lemma MixedIs(members: seq<Member>)
    ensures NeedsSimulations(FactsOf(members)) <==> Mixed(members)
  {
    var all := FactsOf(members);
    AnyElt(all);
    if m, f :| m in members && f in m.regions && f.framework == PLT { assert f in all; }
    if m, f :| m in members && f in m.regions && f.framework == ELT { assert f in all; }
  }

  /** Inspection raises exactly when examining an analysis does, when some ELT fact has a scheme and the
      scheme rows cannot be read, or when ELT and PLT facts meet and they or the simulation sets cannot. */
  lemma InspectRaisesIff(p: Platform, codec: Codec, ids: seq<nat>)
    ensures var g := Gather(p, codec, ids);
            && (g.GatherRaises? <==> exists id :: id in ids && Examine(p, codec, id).ExamineRaises?)
            && (Inspect(p, codec, ids).InspectRaises? <==>
                  || g.GatherRaises?
                  || (AnyScheme(g.members) && SchemesUnreadable(p))
                  || (Mixed(g.members) && (p.simulationSets == None || SchemesUnreadable(p))))
  {
    var g := Gather(p, codec, ids);
    GatherRaisesIff(p, codec, ids);
    if g.Gathered? { SummaryRaisesIff(p, codec, ids, g); }
  }

  lemma GatherRaisesIff(p: Platform, codec: Codec, ids: seq<nat>)
    ensures Gather(p, codec, ids).GatherRaises? <==> exists id :: id in ids && Examine(p, codec, id).ExamineRaises?
  {
    var es := Examinations(p, codec, ids);
    CollectIs(es);
    if id :| id in ids && Examine(p, codec, id).ExamineRaises? {
      var i :| 0 <= i < |ids| && ids[i] == id;
      assert es[i].ExamineRaises?;
    }
    if i :| 0 <= i < |es| && es[i].ExamineRaises? { assert ids[i] in ids; }
  }

  lemma SummaryRaisesIff(p: Platform, codec: Codec, ids: seq<nat>, g: Gathering)
    requires g.Gathered?
    ensures Summarised(p, codec, ids, g).InspectRaises? <==>
            || (AnyScheme(g.members) && SchemesUnreadable(p))
            || (Mixed(g.members) && (p.simulationSets == None || SchemesUnreadable(p)))
  {
    ReadableIs(p);
    MixedIs(g.members);
    PartitionsRaiseIff(ContextOf(p, g), g.members);
  }
}
