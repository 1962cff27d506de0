/** Normalising the region rows of one analysis: a row becomes a fact, or a reported problem. */
module GroupingRegions {
  import opened Prelude
  import opened GroupingModel
  import opened GroupingLookups

  predicate Has(o: Option<string>) { o.Some? && o.value != "" }

  function Or(a: Option<string>, b: Option<string>): Option<string> { if Has(a) then a else b }

  /** A row's text as a code: the detail's display name stands for the detail's code. */
  function ResolveCode(text: Option<string>, code: Option<string>, name: Option<string>): Option<string> {
    if text.Some? && name.Some? && SameFolded(text.value, name.value) then code else text
  }

  function RowRegion(d: Detail, raw: RawRegion): Option<string>
    requires raw.RawRegion?
  {
    Or(ResolveCode(raw.regionText, d.region, d.regionName), d.region)
  }

  function RowPeril(d: Detail, raw: RawRegion): Option<string>
    requires raw.RawRegion?
  {
    ResolveCode(raw.perilText, d.peril, d.perilName)
  }

  function RowFramework(d: Detail, raw: RawRegion): Option<Framework>
    requires raw.RawRegion?
  {
    var text := if Has(raw.framework) then raw.framework else d.framework;
    if text.None? then None
    else if Upper(text.value) == "ELT" then Some(ELT)
    else if Upper(text.value) == "PLT" then Some(PLT)
    else None
  }

  function SubRegion(raw: RawRegion): string
    requires raw.RawRegion?
  {
    if raw.subRegion.Some? then raw.subRegion.value else ""
  }

  function SubRegions(raw: RawRegion): seq<string>
    requires raw.RawRegion?
  {
    if SubRegion(raw) == "" then [] else [SubRegion(raw)]
  }

  function RowProblem(code: ProblemCode, id: nat, raw: RawRegion): Problem
    requires raw.RawRegion?
  {
    Problem(code, [id], None, [], SubRegions(raw), "")
  }

  /** What a PLT row must carry and must not carry. */
  function PltProblems(id: nat, raw: RawRegion): seq<Problem>
    requires raw.RawRegion?
  {
    (if raw.pet.None? then [RowProblem(PetIdMissing, id, raw)] else [])
    + (if raw.periods.None?
       then [RowProblem(PetPeriodsMissing, id, raw).(petIds := if raw.pet.Some? then [raw.pet.value] else [])] else [])
    + (if raw.applyContract then [RowProblem(ApplyContractFlagUnsupported, id, raw)] else [])
  }

  function SchemeOf(d: Detail, raw: RawRegion): Option<nat>
    requires raw.RawRegion?
  {
    if raw.scheme.Some? then raw.scheme else d.scheme
  }

  function FactOf(p: Platform, id: nat, d: Detail, raw: RawRegion, framework: Framework,
                  engine: string, region: string, peril: string, version: string): Fact
    requires raw.RawRegion?
  {
    Fact(id, framework, peril, region, version, engine, SubRegion(raw),
         (if SubRegion(raw) == "" then region else SubRegion(raw)) + peril,
         if framework == ELT then SchemeOf(d, raw) else None,
         if framework == PLT then raw.pet else None,
         if framework == PLT && raw.pet.Some? then p.petName(PetKey(raw.pet.value, version, region + peril)) else None,
         if framework == PLT then raw.periods else None,
         raw.applyContract)
  }

  datatype RowResult = RowRaises | RowDone(fact: Option<Fact>, framework: Option<Framework>, problems: seq<Problem>)

  function FreeCandidates(d: Detail, raw: RawRegion): seq<string>
    requires raw.RawRegion?
  {
    AddCandidate(AddCandidate([], RowPeril(d, raw)), d.peril)
  }

  /** A row whose peril and model version are resolved. */
  function ResolvedRow(p: Platform, id: nat, d: Detail, raw: RawRegion, framework: Framework,
                       engine: string, region: string, peril: string, version: string, reported: seq<Problem>): RowResult
    requires raw.RawRegion?
  {
    RowDone(Some(FactOf(p, id, d, raw, framework, engine, region, peril, version)),
            Some(framework),
            reported + if framework == ELT && SchemeOf(d, raw).None?
                       then [RowProblem(EventRateSchemeMissing, id, raw).(partition := Some(PartitionKey(peril, region, version)))]
                       else [])
  }

  /** One region row, normalised. */
  function RowResultOf(p: Platform, id: nat, d: Detail, raw: RawRegion): RowResult {
    if raw.Malformed? then RowDone(None, None, [Problem(RegionRowMetadataMissing, [id], None, [], [], "malformed")])
    else
      match RowFramework(d, raw)
      case None => RowDone(None, None, [Problem(RegionRowMetadataMissing, [id], None, [], [], "classification")])
      case Some(framework) =>
        var engine := Or(raw.engine, d.engine);
        var region := RowRegion(d, raw);
        var early := if FreeCandidates(d, raw) == [] then DerivedPeril(p, raw, region) else Answer(None);
        if early.Raised? then RowRaises
        else
          var reported := if framework == PLT then PltProblems(id, raw) else [];
          if !Has(engine) || !Has(region) || (FreeCandidates(d, raw) == [] && !Has(early.value)) then
            RowDone(None, Some(framework), reported + [RowProblem(RegionRowMetadataMissing, id, raw)])
          else
            match LazyResolution(p, engine.value, region.value, raw, RowPeril(d, raw), d.peril)
            case Raised => RowRaises
            case Answer(Unresolved(multiple)) =>
              RowDone(None, Some(framework), reported + [RowProblem(
                if multiple then ModelVersionMappingAmbiguous else ModelVersionMappingMissing, id, raw)
                .(message := engine.value + region.value)])
            case Answer(Resolved(peril, version)) =>
              ResolvedRow(p, id, d, raw, framework, engine.value, region.value, peril, version, reported)
  }

  datatype RegionsResult = RegionsRaise
                         | RegionsDone(facts: seq<Fact>, frameworks: set<Framework>, problems: seq<Problem>)

  function AddRow(r: RegionsResult, row: RowResult): RegionsResult {
    if r.RegionsRaise? || row.RowRaises? then RegionsRaise
    else
      RegionsDone(if row.fact.Some? then r.facts + [row.fact.value] else r.facts,
                  if row.framework.Some? then r.frameworks + {row.framework.value} else r.frameworks,
                  r.problems + row.problems)
  }

  /** The results of the rows put together, in row order; a row that raises ends it all. */
  function Combine(rs: seq<RowResult>): RegionsResult {
    if rs == [] then RegionsDone([], {}, []) else AddRow(Combine(rs[..|rs| - 1]), rs[|rs| - 1])
  }

  lemma CombineMore(rs: seq<RowResult>, i: nat)
    requires i < |rs|
    ensures Combine(rs[..i + 1]) == AddRow(Combine(rs[..i]), rs[i])
  {
    assert rs[..i + 1][..i] == rs[..i];
  }

  function RowResults(p: Platform, id: nat, d: Detail, rows: seq<RawRegion>): (rs: seq<RowResult>)
    ensures |rs| == |rows|
  {
    seq(|rows|, i requires 0 <= i < |rows| => RowResultOf(p, id, d, rows[i]))
  }

  /** All rows of one analysis. */
  function RegionsOf(p: Platform, id: nat, d: Detail, rows: seq<RawRegion>): RegionsResult {
    Combine(RowResults(p, id, d, rows))
  }

  /** Facts the request can use. */
  predicate Usable(f: Fact) {
    && (f.framework == PLT ==> f.petId.Some? && f.periods.Some?)
    && (f.framework == ELT ==> f.schemeId.Some?)
  }

  /** A row gives this fact and no problem. */
  predicate Gives(r: RowResult, f: Fact) { r.RowDone? && r.problems == [] && r.fact == Some(f) }

  /** Whatever a row of this analysis does not report, it gives as a usable fact. */
  predicate Reporting(id: nat, r: RowResult) {
    r.RowDone? && r.problems == [] ==> r.fact.Some? && r.fact.value.analysisId == id && Usable(r.fact.value)
  }

  /** A row that is dropped is reported, and so is a fact the request could not use. */
  lemma RowReports(p: Platform, id: nat, d: Detail, raw: RawRegion)
    ensures Reporting(id, RowResultOf(p, id, d, raw))
  {
  }

  /** The codes of rows that are dropped. */
  predicate Drops(code: ProblemCode) {
    code in {RegionRowMetadataMissing, ModelVersionMappingMissing, ModelVersionMappingAmbiguous}
  }

  ghost predicate HasCode(qs: seq<Problem>, code: ProblemCode) { exists q :: q in qs && q.code == code }

  ghost predicate Names(qs: seq<Problem>, id: nat, raw: RawRegion)
    requires raw.RawRegion?
  {
    forall q :: q in qs ==> q.analysisIds == [id] && q.subRegions == SubRegions(raw)
  }

  predicate SchemeMissing(d: Detail, raw: RawRegion, framework: Framework, r: RowResult)
    requires raw.RawRegion? && r.RowDone?
  {
    r.fact.Some? && framework == ELT && raw.scheme.None? && d.scheme.None?
  }

  /** What becomes of a row, told from the codes it can go by. */
  datatype Fate = BecomesFact | NoMetadata | NoVersion | SeveralVersions

  function DerivedCode(p: Platform, raw: RawRegion, region: Option<string>): Option<string>
    requires raw.RawRegion?
  {
    if DerivedPeril(p, raw, region).Answer? then DerivedPeril(p, raw, region).value else None
  }

  /** A row lacks metadata when engine, region or all three peril codes are missing; it has no version
      when none of the codes resolves one, and several when the first of them matched several. */
  function FateOf(p: Platform, d: Detail, raw: RawRegion): Fate
    requires raw.RawRegion?
  {
    var engine, region, row := Or(raw.engine, d.engine), RowRegion(d, raw), RowPeril(d, raw);
    var derived := DerivedCode(p, raw, region);
    if !Has(engine) || !Has(region) || !(Has(row) || Has(d.peril) || Has(derived)) then NoMetadata
    else if Resolves(p, engine.value, region.value, row) || Resolves(p, engine.value, region.value, d.peril)
            || Resolves(p, engine.value, region.value, derived) then BecomesFact
    else
      var first := Or(row, Or(d.peril, derived)).value;
      if p.version(VersionKey(engine.value, region.value, first)).multiple then SeveralVersions else NoVersion
  }

  function FateCode(fate: Fate): ProblemCode
    requires fate != BecomesFact
  {
    match fate
    case NoMetadata => RegionRowMetadataMissing
    case NoVersion => ModelVersionMappingMissing
    case SeveralVersions => ModelVersionMappingAmbiguous
  }

  /** Each kind of problem is reported for its own cause and for no other, under the row's name. */
  ghost predicate Explained(id: nat, d: Detail, raw: RawRegion, framework: Framework, fate: Fate, r: RowResult)
    requires raw.RawRegion? && r.RowDone?
  {
    && (HasCode(r.problems, PetIdMissing) <==> framework == PLT && raw.pet.None?)
    && (HasCode(r.problems, PetPeriodsMissing) <==> framework == PLT && raw.periods.None?)
    && (HasCode(r.problems, ApplyContractFlagUnsupported) <==> framework == PLT && raw.applyContract)
    && (HasCode(r.problems, EventRateSchemeMissing) <==> SchemeMissing(d, raw, framework, r))
    && (HasCode(r.problems, RegionRowMetadataMissing) <==> fate == NoMetadata)
    && (HasCode(r.problems, ModelVersionMappingMissing) <==> fate == NoVersion)
    && (HasCode(r.problems, ModelVersionMappingAmbiguous) <==> fate == SeveralVersions)
    && (r.fact.Some? <==> fate == BecomesFact)
    && Names(r.problems, id, raw)
  }

  /** What the PLT fields of a row report. */
  ghost predicate PltExplained(id: nat, raw: RawRegion, framework: Framework, early: seq<Problem>)
    requires raw.RawRegion?
  {
    && (HasCode(early, PetIdMissing) <==> framework == PLT && raw.pet.None?)
    && (HasCode(early, PetPeriodsMissing) <==> framework == PLT && raw.periods.None?)
    && (HasCode(early, ApplyContractFlagUnsupported) <==> framework == PLT && raw.applyContract)
    && !HasCode(early, EventRateSchemeMissing) && (forall code :: Drops(code) ==> !HasCode(early, code))
    && Names(early, id, raw)
  }

  lemma CodesOfBoth(early: seq<Problem>, tail: seq<Problem>, code: ProblemCode)
    requires |tail| <= 1
    ensures HasCode(early + tail, code) <==> HasCode(early, code) || (tail != [] && tail[0].code == code)
  {
    if tail != [] { assert tail[0] in early + tail; }
  }

  lemma CodesOfThree(a: seq<Problem>, b: seq<Problem>, c: seq<Problem>, code: ProblemCode)
    requires |a| <= 1 && |b| <= 1 && |c| <= 1
    ensures HasCode(a + b + c, code) <==>
            (a != [] && a[0].code == code) || (b != [] && b[0].code == code) || (c != [] && c[0].code == code)
  {
    CodesOfBoth([], a, code);
    assert [] + a == a;
    CodesOfBoth(a, b, code);
    CodesOfBoth(a + b, c, code);
  }

  lemma PltCodeIs(id: nat, raw: RawRegion, code: ProblemCode)
    requires raw.RawRegion?
    ensures HasCode(PltProblems(id, raw), code) <==>
            || (code == PetIdMissing && raw.pet.None?)
            || (code == PetPeriodsMissing && raw.periods.None?)
            || (code == ApplyContractFlagUnsupported && raw.applyContract)
  {
    CodesOfThree(if raw.pet.None? then [RowProblem(PetIdMissing, id, raw)] else [],
                 if raw.periods.None?
                 then [RowProblem(PetPeriodsMissing, id, raw).(petIds := if raw.pet.Some? then [raw.pet.value] else [])] else [],
                 if raw.applyContract then [RowProblem(ApplyContractFlagUnsupported, id, raw)] else [], code);
  }

  lemma PltProblemsAre(id: nat, raw: RawRegion)
    requires raw.RawRegion?
    ensures PltExplained(id, raw, PLT, PltProblems(id, raw))
  {
    forall code ensures HasCode(PltProblems(id, raw), code) <==>
      || (code == PetIdMissing && raw.pet.None?)
      || (code == PetPeriodsMissing && raw.periods.None?)
      || (code == ApplyContractFlagUnsupported && raw.applyContract)
    {
      PltCodeIs(id, raw, code);
    }
  }

  /** After the problems of its PLT fields a row reports at most one more. */
  ghost predicate EndsIn(id: nat, d: Detail, raw: RawRegion, framework: Framework, fate: Fate, r: RowResult, tail: seq<Problem>)
    requires raw.RawRegion? && r.RowDone?
  {
    && |tail| <= 1
    && (r.fact.Some? <==> fate == BecomesFact)
    && (fate != BecomesFact ==> tail != [] && tail[0].code == FateCode(fate))
    && (SchemeMissing(d, raw, framework, r) <==> tail != [] && tail[0].code == EventRateSchemeMissing)
    && (fate == BecomesFact && tail != [] ==> tail[0].code == EventRateSchemeMissing)
    && Names(tail, id, raw)
  }

  lemma EndsExplained(id: nat, d: Detail, raw: RawRegion, framework: Framework, fate: Fate, r: RowResult,
                      early: seq<Problem>, tail: seq<Problem>)
    requires raw.RawRegion? && r.RowDone? && r.problems == early + tail
    requires PltExplained(id, raw, framework, early) && EndsIn(id, d, raw, framework, fate, r, tail)
    ensures Explained(id, d, raw, framework, fate, r)
  {
    forall code ensures HasCode(r.problems, code) <==> HasCode(early, code) || (tail != [] && tail[0].code == code) {
      CodesOfBoth(early, tail, code);
    }
  }

  lemma {:induction false} UnresolvedByFirst(p: Platform, engine: string, region: string, cs: seq<string>)
    ensures FirstResolved(p, engine, region, cs).Unresolved? <==>
              forall c :: c in cs ==> p.version(VersionKey(engine, region, c)).VersionError?
    ensures cs != [] && FirstResolved(p, engine, region, cs).Unresolved? ==>
              FirstResolved(p, engine, region, cs).multiple == p.version(VersionKey(engine, region, cs[0])).multiple
  {
    if cs != [] {
      UnresolvedByFirst(p, engine, region, cs[1..]);
      assert cs == [cs[0]] + cs[1..];
    }
  }

  /** Where lazy resolution answers, it resolves exactly when one of the codes does, and else reports
      what the first of them met. */
  lemma LazyFate(p: Platform, engine: string, region: string, d: Detail, raw: RawRegion)
    requires raw.RawRegion?
    ensures var row, derived := RowPeril(d, raw), DerivedCode(p, raw, Some(region));
            var r := LazyResolution(p, engine, region, raw, row, d.peril);
            r.Answer? && (Has(row) || Has(d.peril) || Has(derived)) ==>
              && (r.value.Resolved? <==> Resolves(p, engine, region, row) || Resolves(p, engine, region, d.peril)
                                         || Resolves(p, engine, region, derived))
              && (r.value.Unresolved? ==>
                    r.value.multiple == p.version(VersionKey(engine, region, Or(row, Or(d.peril, derived)).value)).multiple)
  {
    var row, derived := RowPeril(d, raw), DerivedCode(p, raw, Some(region));
    var free := AddCandidate(AddCandidate([], row), d.peril);
    UnresolvedByFirst(p, engine, region, free);
    UnresolvedByFirst(p, engine, region, AddCandidate(free, derived));
  }

  lemma RowTail(p: Platform, id: nat, d: Detail, raw: RawRegion, early: seq<Problem>) returns (tail: seq<Problem>)
    requires raw.RawRegion? && RowFramework(d, raw).Some? && RowResultOf(p, id, d, raw).RowDone?
    requires early == if RowFramework(d, raw).value == PLT then PltProblems(id, raw) else []
    ensures RowResultOf(p, id, d, raw).problems == early + tail
    ensures EndsIn(id, d, raw, RowFramework(d, raw).value, FateOf(p, d, raw), RowResultOf(p, id, d, raw), tail)
  {
    var engine, region := Or(raw.engine, d.engine), RowRegion(d, raw);
    if Has(engine) && Has(region) { LazyFate(p, engine.value, region.value, d, raw); }
    tail := RowResultOf(p, id, d, raw).problems[|early|..];
  }

  /** What one row reports is explained by the row. */
  lemma RowProblemsAre(p: Platform, id: nat, d: Detail, raw: RawRegion)
    requires raw.RawRegion? && RowFramework(d, raw).Some? && RowResultOf(p, id, d, raw).RowDone?
    ensures Explained(id, d, raw, RowFramework(d, raw).value, FateOf(p, d, raw), RowResultOf(p, id, d, raw))
  {
    var framework := RowFramework(d, raw).value;
    var early := if framework == PLT then PltProblems(id, raw) else [];
    if framework == PLT { PltProblemsAre(id, raw); }
    var tail := RowTail(p, id, d, raw, early);
    EndsExplained(id, d, raw, framework, FateOf(p, d, raw), RowResultOf(p, id, d, raw), early, tail);
  }

  /** A problem names the PET only where it lacks the period count, and a partition, that of the fact,
      only where the fact lacks a scheme. */
  ghost predicate Located(raw: RawRegion, fact: Option<Fact>, q: Problem)
    requires raw.RawRegion?
  {
    && q.petIds == (if q.code == PetPeriodsMissing && raw.pet.Some? then [raw.pet.value] else [])
    && q.partition == (if q.code == EventRateSchemeMissing && fact.Some?
                       then Some(PartitionKey(fact.value.peril, fact.value.region, fact.value.version)) else None)
  }

  /** What a row comes to beyond the problems of its PLT fields. */
  ghost predicate TailIs(id: nat, raw: RawRegion, fact: Option<Fact>, tail: seq<Problem>)
    requires raw.RawRegion?
  {
    |tail| <= 1 && forall q :: q in tail ==> Located(raw, fact, q)
  }

  lemma ResolvedTail(p: Platform, id: nat, d: Detail, raw: RawRegion, framework: Framework,
                     engine: string, region: string, peril: string, version: string, early: seq<Problem>)
    requires raw.RawRegion?
    ensures var r := ResolvedRow(p, id, d, raw, framework, engine, region, peril, version, early);
            r.framework == Some(framework) && early <= r.problems && TailIs(id, raw, r.fact, r.problems[|early|..])
  {
  }

  lemma TailLocated(p: Platform, id: nat, d: Detail, raw: RawRegion, early: seq<Problem>)
    requires raw.RawRegion? && RowFramework(d, raw).Some? && RowResultOf(p, id, d, raw).RowDone?
    requires early == if RowFramework(d, raw).value == PLT then PltProblems(id, raw) else []
    ensures var r := RowResultOf(p, id, d, raw);
            r.framework == RowFramework(d, raw) && early <= r.problems && TailIs(id, raw, r.fact, r.problems[|early|..])
  {
    var engine, region, framework := Or(raw.engine, d.engine), RowRegion(d, raw), RowFramework(d, raw).value;
    var r := RowResultOf(p, id, d, raw);
    if r.fact.Some? {
      var resolved := LazyResolution(p, engine.value, region.value, raw, RowPeril(d, raw), d.peril).value;
      ResolvedTail(p, id, d, raw, framework, engine.value, region.value, resolved.peril, resolved.version, early);
    } else {
      assert |r.problems| == |early| + 1;
      var q := r.problems[|early|];
      assert r.problems == early + [q] && q == RowProblem(q.code, id, raw).(message := q.message) && Drops(q.code);
    }
  }

  lemma PltLocated(id: nat, raw: RawRegion, fact: Option<Fact>)
    requires raw.RawRegion?
    ensures forall q :: q in PltProblems(id, raw) ==> Located(raw, fact, q)
  {
  }

  lemma RowProblemsLocated(p: Platform, id: nat, d: Detail, raw: RawRegion)
    requires raw.RawRegion? && RowFramework(d, raw).Some? && RowResultOf(p, id, d, raw).RowDone?
    ensures var r := RowResultOf(p, id, d, raw);
            r.framework == RowFramework(d, raw) && forall q :: q in r.problems ==> Located(raw, r.fact, q)
  {
    var r := RowResultOf(p, id, d, raw);
    var early := if RowFramework(d, raw).value == PLT then PltProblems(id, raw) else [];
    TailLocated(p, id, d, raw, early);
    PltLocated(id, raw, r.fact);
    assert r.problems == early + r.problems[|early|..];
  }

  lemma ResolvedIsFirst(p: Platform, engine: string, region: string, raw: RawRegion, row: Option<string>, detail: Option<string>)
    requires raw.RawRegion? && LazyResolution(p, engine, region, raw, row, detail).Answer?
    requires LazyResolution(p, engine, region, raw, row, detail).value.Resolved?
    ensures var r := LazyResolution(p, engine, region, raw, row, detail).value;
            && p.version(VersionKey(engine, region, r.peril)) == Version(r.version)
            && if Resolves(p, engine, region, row) then r.peril == row.value
               else if Resolves(p, engine, region, detail) then r.peril == detail.value
               else DerivedPeril(p, raw, Some(region)) == Answer(Some(r.peril))
  {
    EagerIsFirst(p, engine, region, row, detail, None);
    if DerivedPeril(p, raw, Some(region)).Answer? {
      LazyIsEager(p, engine, region, raw, row, detail);
      EagerIsFirst(p, engine, region, row, detail, DerivedPeril(p, raw, Some(region)).value);
    }
  }

  // ---- what a row is read as -------------------------------------------------------------

  /** A text that is the detail's name, in either case of letters, stands for the detail's code, and
      any other text for itself. */
  ghost predicate ReadAs(text: Option<string>, name: Option<string>, code: Option<string>, r: Option<string>) {
    match text
    case None => r == None
    case Some(t) => if exists n :: name == Some(n) && SameFolded(t, n) then r == code else r == Some(t)
  }

  /** The peril code of a row is read from its text; the region code too, and is the detail's where
      that leaves nothing. */
  lemma RowCodesAre(d: Detail, raw: RawRegion)
    requires raw.RawRegion?
    ensures ReadAs(raw.perilText, d.perilName, d.peril, RowPeril(d, raw))
    ensures exists own :: ReadAs(raw.regionText, d.regionName, d.region, own) &&
                          RowRegion(d, raw) == if own == None || own == Some("") then d.region else own
  {
    assert ReadAs(raw.regionText, d.regionName, d.region, ResolveCode(raw.regionText, d.region, d.regionName));
  }

  /** A row is classified by its own text, or by the detail's where it has none. */
  lemma RowFrameworkIs(d: Detail, raw: RawRegion, framework: Framework)
    requires raw.RawRegion?
    ensures var text := if raw.framework == None || raw.framework == Some("") then d.framework else raw.framework;
            RowFramework(d, raw) == Some(framework) <==>
            exists t :: text == Some(t) && SameFolded(t, if framework == ELT then "ELT" else "PLT")
  {
    var text := if Has(raw.framework) then raw.framework else d.framework;
    assert Upper("ELT") == "ELT" && Upper("PLT") == "PLT" != "ELT";
    if text.Some? {
      SameUpper(text.value, "ELT");
      SameUpper(text.value, "PLT");
    }
  }

  /** A row that is no mapping, or has no classification, is dropped and reported, whatever else it says. */
  lemma UnclassifiedRow(p: Platform, id: nat, d: Detail, raw: RawRegion)
    requires raw.Malformed? || RowFramework(d, raw) == None
    ensures var r := RowResultOf(p, id, d, raw);
            && r.RowDone? && r.fact == None && r.framework == None && |r.problems| == 1
            && r.problems[0] == Problem(RegionRowMetadataMissing, [id], None, [], [], r.problems[0].message)
  {
  }

  /** A row raises exactly when the read it needs does: one without a code of its own or of the detail
      needs the derived code, and so does one whose engine and region are known, but none of whose codes
      has a model version. */
  lemma RowRaisesIff(p: Platform, id: nat, d: Detail, raw: RawRegion)
    requires raw.RawRegion?
    ensures var engine, region, row := Or(raw.engine, d.engine), RowRegion(d, raw), RowPeril(d, raw);
            RowResultOf(p, id, d, raw).RowRaises? <==>
            && RowFramework(d, raw).Some? && DerivedPeril(p, raw, region).Raised?
            && if !Has(row) && !Has(d.peril) then true
               else Has(engine) && !Resolves(p, engine.value, region.value, row) && !Resolves(p, engine.value, region.value, d.peril)
  {
    var engine, region, row := Or(raw.engine, d.engine), RowRegion(d, raw), RowPeril(d, raw);
    if Has(engine) && Has(region) {
      UnresolvedByFirst(p, engine.value, region.value, FreeCandidates(d, raw));
      RaisesUnresolved(p, engine.value, region.value, raw, row, d.peril);
    }
  }

  lemma RaisesUnresolved(p: Platform, engine: string, region: string, raw: RawRegion, row: Option<string>, detail: Option<string>)
    requires raw.RawRegion?
    ensures LazyResolution(p, engine, region, raw, row, detail).Raised? <==>
            && DerivedPeril(p, raw, Some(region)).Raised?
            && !Resolves(p, engine, region, row) && !Resolves(p, engine, region, detail)
  {
    UnresolvedByFirst(p, engine, region, AddCandidate(AddCandidate([], row), detail));
  }

  /** What rows give together: their facts, their frameworks and their problems, unless one raises. */
  lemma {:induction false} CombinedIs(rs: seq<RowResult>)
    ensures Combine(rs).RegionsRaise? <==> exists r :: r in rs && r.RowRaises?
    ensures Combine(rs).RegionsDone? ==>
              && (forall f :: f in Combine(rs).facts <==> exists r :: r in rs && r.RowDone? && r.fact == Some(f))
              && (forall w :: w in Combine(rs).frameworks <==> exists r :: r in rs && r.RowDone? && r.framework == Some(w))
              && (forall q :: q in Combine(rs).problems <==> exists r :: r in rs && r.RowDone? && q in r.problems)
  {
    if rs != [] {
      var n := |rs| - 1;
      CombinedIs(rs[..n]);
      assert rs == rs[..n] + [rs[n]];
    }
  }

  /** Where a fact comes from: the row's values before the detail's, the model version the Platform
      gives for its engine, region and peril, and the peril that is the first of row code, detail
      code and derived code with such a version. */
  lemma FactGrounded(p: Platform, id: nat, d: Detail, raw: RawRegion, f: Fact)
    requires raw.RawRegion? && RowResultOf(p, id, d, raw).RowDone? && RowResultOf(p, id, d, raw).fact == Some(f)
    ensures f.analysisId == id && Or(raw.engine, d.engine) == Some(f.engine) && RowRegion(d, raw) == Some(f.region)
    ensures p.version(VersionKey(f.engine, f.region, f.peril)) == Version(f.version)
    ensures if Resolves(p, f.engine, f.region, RowPeril(d, raw)) then RowPeril(d, raw) == Some(f.peril)
            else if Resolves(p, f.engine, f.region, d.peril) then d.peril == Some(f.peril)
            else DerivedPeril(p, raw, Some(f.region)) == Answer(Some(f.peril))
    ensures RowFramework(d, raw) == Some(f.framework) && f.applyContract == raw.applyContract
    ensures if raw.subRegion == None then f.subRegion == "" else raw.subRegion == Some(f.subRegion)
    ensures f.modelRegion == (if f.subRegion != "" then f.subRegion else f.region) + f.peril
    ensures f.framework == ELT ==>
              && f.schemeId == (if raw.scheme.Some? then raw.scheme else d.scheme)
              && f.petId.None? && f.periods.None? && f.petName.None?
    ensures f.framework == PLT ==>
              && f.schemeId.None? && f.petId == raw.pet && f.periods == raw.periods
              && f.petName == if raw.pet.None? then None else p.petName(PetKey(raw.pet.value, f.version, f.region + f.peril))
  {
    ResolvedIsFirst(p, f.engine, f.region, raw, RowPeril(d, raw), d.peril);
  }

  lemma RowsReport(p: Platform, id: nat, d: Detail, rows: seq<RawRegion>)
    ensures forall i :: 0 <= i < |rows| ==> Reporting(id, RowResults(p, id, d, rows)[i])
  {
  }

  /** Rows that together report nothing each give a usable fact, and there is no other fact. */
  lemma {:induction false} CombinedClean(id: nat, rs: seq<RowResult>)
    requires Combine(rs).RegionsDone? && Combine(rs).problems == []
    requires forall i :: 0 <= i < |rs| ==> Reporting(id, rs[i])
    ensures forall i :: 0 <= i < |rs| ==> exists f :: f in Combine(rs).facts && Gives(rs[i], f)
    ensures forall f :: f in Combine(rs).facts ==> Usable(f) && f.analysisId == id && exists i :: 0 <= i < |rs| && Gives(rs[i], f)
  {
    if rs != [] {
      var n := |rs| - 1;
      CombinedClean(id, rs[..n]);
      var facts, before := Combine(rs).facts, Combine(rs[..n]).facts;
      assert Reporting(id, rs[n]);
      var last := rs[n].fact.value;
      assert facts == before + [last];
      assert Gives(rs[n], last);
      forall i | 0 <= i < |rs| ensures exists f :: f in facts && Gives(rs[i], f) {
        if i < n {
          var f :| f in before && Gives(rs[..n][i], f);
          assert f in facts && Gives(rs[i], f);
        } else {
          assert last in facts;
        }
      }
      forall f | f in facts ensures Usable(f) && f.analysisId == id && exists i :: 0 <= i < |rs| && Gives(rs[i], f) {
        if f in before {
          var i :| 0 <= i < n && Gives(rs[..n][i], f);
          assert Gives(rs[i], f);
        }
      }
    }
  }

  // ---- the loop over the rows ---------------------------------------------------------

  /** The end of a turn: the PET's name is looked up and the fact put together. */
  method FinishRow(id: nat, d: Detail, raw: RawRegion, framework: Framework, engine: string, region: string,
                   peril: string, version: string, reported: seq<Problem>, lookups: ReferenceLookups) returns (r: RowResult)
    requires lookups.Valid() && raw.RawRegion?
    modifies lookups
    ensures lookups.Valid()
    ensures r == ResolvedRow(lookups.platform, id, d, raw, framework, engine, region, peril, version, reported)
    ensures lookups.calls[SchemesCall] == old(lookups.calls[SchemesCall])
    ensures lookups.calls[AllPetsCall] == old(lookups.calls[AllPetsCall])
  {
    var problems := reported;
    var petName: Option<string> := None;
    if framework == PLT && raw.pet.Some? {
      petName := lookups.PetName(raw.pet.value, version, region + peril);
    }
    if framework == ELT && SchemeOf(d, raw).None? {
      problems := problems + [RowProblem(EventRateSchemeMissing, id, raw)
                              .(partition := Some(PartitionKey(peril, region, version)))];
    }
    r := RowDone(Some(Fact(id, framework, peril, region, version, engine, SubRegion(raw),
                           (if SubRegion(raw) == "" then region else SubRegion(raw)) + peril,
                           if framework == ELT then SchemeOf(d, raw) else None,
                           if framework == PLT then raw.pet else None,
                           petName,
                           if framework == PLT then raw.periods else None,
                           raw.applyContract)),
                 Some(framework), problems);
  }

  /** One turn of the loop in `_region_facts`. A row settled by a free candidate, or by none
      for want of an engine or a region, reads neither the schemes nor all PET metadata. */
  method NormaliseRow(id: nat, d: Detail, raw: RawRegion, lookups: ReferenceLookups) returns (r: RowResult)
    requires lookups.Valid()
    modifies lookups
    ensures lookups.Valid() && r == RowResultOf(lookups.platform, id, d, raw)
    ensures raw.RawRegion? && FreeCandidates(d, raw) != []
            && (Has(Or(raw.engine, d.engine)) && Has(RowRegion(d, raw)) ==>
                  FirstResolved(lookups.platform, Or(raw.engine, d.engine).value, RowRegion(d, raw).value,
                                FreeCandidates(d, raw)).Resolved?) ==>
              lookups.calls[SchemesCall] == old(lookups.calls[SchemesCall])
              && lookups.calls[AllPetsCall] == old(lookups.calls[AllPetsCall])
  {
    if raw.Malformed? {
      return RowDone(None, None, [Problem(RegionRowMetadataMissing, [id], None, [], [], "malformed")]);
    }
    var framework := RowFramework(d, raw);
    if framework.None? {
      return RowDone(None, None, [Problem(RegionRowMetadataMissing, [id], None, [], [], "classification")]);
    }
    var engine := Or(raw.engine, d.engine);
    var region := RowRegion(d, raw);
    var free := FreeCandidates(d, raw);
    var perilKnown := true;
    if free == [] {
      var derived := lookups.PerilCodeForRow(raw, region);
      if derived.Raised? { return RowRaises; }
      perilKnown := Has(derived.value);
    }
    var problems: seq<Problem> := [];
    if framework.value == PLT { problems := PltProblems(id, raw); }
    if !Has(engine) || !perilKnown || !Has(region) {
      return RowDone(None, framework, problems + [RowProblem(RegionRowMetadataMissing, id, raw)]);
    }
    var resolution := lookups.ResolvePeril(engine.value, region.value, raw, RowPeril(d, raw), d.peril);
    if resolution.Raised? { return RowRaises; }
    if resolution.value.Unresolved? {
      var code := if resolution.value.multiple then ModelVersionMappingAmbiguous else ModelVersionMappingMissing;
      return RowDone(None, framework,
                     problems + [RowProblem(code, id, raw).(message := engine.value + region.value)]);
    }
    r := FinishRow(id, d, raw, framework.value, engine.value, region.value, resolution.value.peril,
                   resolution.value.version, problems, lookups);
  }

  /** `_region_facts`. */
  method RegionFacts(id: nat, d: Detail, rows: seq<RawRegion>, lookups: ReferenceLookups) returns (r: RegionsResult)
    requires lookups.Valid()
    modifies lookups
    ensures lookups.Valid() && r == RegionsOf(lookups.platform, id, d, rows)
  {
    var facts: seq<Fact> := [];
    var frameworks: set<Framework> := {};
    var problems: seq<Problem> := [];
    ghost var results := RowResults(lookups.platform, id, d, rows);
    for i := 0 to |rows|
      invariant lookups.Valid()
      invariant Combine(results[..i]) == RegionsDone(facts, frameworks, problems)
    {
      CombineMore(results, i);
      var row := NormaliseRow(id, d, rows[i], lookups);
      assert row == results[i];
      if row.RowRaises? {
        RaiseStays(results, i + 1);
        return RegionsRaise;
      }
      if row.fact.Some? { facts := facts + [row.fact.value]; }
      if row.framework.Some? { frameworks := frameworks + {row.framework.value}; }
      problems := problems + row.problems;
    }
    assert results[..|rows|] == results;
    r := RegionsDone(facts, frameworks, problems);
  }

  lemma {:induction false} RaiseStays(rs: seq<RowResult>, n: nat)
    requires n <= |rs| && Combine(rs[..n]).RegionsRaise?
    ensures Combine(rs).RegionsRaise?
    decreases |rs|
  {
    if n == |rs| {
      assert rs[..n] == rs;
    } else {
      assert rs[..|rs| - 1][..n] == rs[..n];
      RaiseStays(rs[..|rs| - 1], n);
    }
  }
}
