/** Reference-data reads of one inspection, each made at most once, and the resolution of the
    peril and model version of one region row, which reads as little as it can. */
module GroupingLookups {
  import opened Prelude
  import opened GroupingModel

  // ---- reads as pure functions of the Platform --------------------------------------

  /** The model region codes the rows of one id carry. */
  function CodesOf(rows: seq<RegionRef>, id: nat): set<string> {
    set r | r in rows && r.id == Some(id) && r.modelRegion.Some? :: r.modelRegion.value
  }

  function TheOnly(s: set<string>): Option<string> {
    if exists c :: c in s && s == {c} then
      var c :| c in s && s == {c};
      Some(c)
    else None
  }

  /** The model region an id names, unless its rows disagree. */
  function ModelRegionOf(rows: seq<RegionRef>, id: nat): Option<string> { TheOnly(CodesOf(rows, id)) }

  function SchemeRefs(rows: seq<SchemeRow>): (r: seq<RegionRef>)
    ensures |r| == |rows|
  {
    seq(|rows|, i requires 0 <= i < |rows| => RegionRef(rows[i].id, rows[i].modelRegion))
  }

  /** What a read that may raise answers. */
  datatype Read<T> = Raised | Answer(value: T)

  function RowModelRegion(p: Platform, raw: RawRegion): Read<Option<string>>
    requires raw.RawRegion?
  {
    if raw.scheme.Some? && ActiveSchemes(p).None? then Raised
    else if raw.scheme.Some? && ModelRegionOf(SchemeRefs(ActiveSchemes(p).value), raw.scheme.value).Some? then
      Answer(ModelRegionOf(SchemeRefs(ActiveSchemes(p).value), raw.scheme.value))
    else if raw.pet.None? || p.allPets.None? then Answer(None)
    else Answer(ModelRegionOf(p.allPets.value, raw.pet.value))
  }

  function StripRegion(modelRegion: string, region: string): Option<string> {
    if |modelRegion| > |region| && StartsWith(Upper(modelRegion), Upper(region))
    then Some(Upper(modelRegion[|region|..])) else None
  }

  /** A peril is derived exactly from a longer model region that begins with the region code, in
      either case of letters, and putting the region back in front of it gives the model region. */
  lemma StripsRegion(modelRegion: string, region: string)
    ensures StripRegion(modelRegion, region).Some? <==>
              |modelRegion| > |region| && Upper(modelRegion[..|region|]) == Upper(region)
    ensures StripRegion(modelRegion, region).Some? ==>
              Upper(modelRegion) == Upper(region) + StripRegion(modelRegion, region).value
  {
    if |modelRegion| > |region| {
      assert Upper(modelRegion)[..|region|] == Upper(modelRegion[..|region|]);
      assert Upper(modelRegion)[|region|..] == Upper(modelRegion[|region|..]);
    }
  }

  /** The peril code a row's ids resolve to. */
  function DerivedPeril(p: Platform, raw: RawRegion, region: Option<string>): Read<Option<string>>
    requires raw.RawRegion?
  {
    if region.None? || region.value == "" then Answer(None)
    else
      match RowModelRegion(p, raw)
      case Raised => Raised
      case Answer(m) => Answer(if m.None? then None else StripRegion(m.value, region.value))
  }

  /** The rows of a scheme id carry this model region code and no other. */
  ghost predicate SchemeNames(rows: seq<SchemeRow>, id: nat, code: string) {
    && (exists r :: r in rows && r.id == Some(id) && r.modelRegion == Some(code))
    && (forall r :: r in rows && r.id == Some(id) ==> r.modelRegion == None || r.modelRegion == Some(code))
  }

  ghost predicate PetNames(rows: seq<RegionRef>, id: nat, code: string) {
    && (exists r :: r in rows && r.id == Some(id) && r.modelRegion == Some(code))
    && (forall r :: r in rows && r.id == Some(id) ==> r.modelRegion == None || r.modelRegion == Some(code))
  }

  lemma ModelRegionIs(rows: seq<RegionRef>, id: nat, code: string)
    ensures ModelRegionOf(rows, id) == Some(code) <==> PetNames(rows, id, code)
  {
    var codes := CodesOf(rows, id);
    if PetNames(rows, id, code) {
      assert codes == {code};
    } else if codes == {code} {
      assert code in codes;
      forall r | r in rows && r.id == Some(id) ensures r.modelRegion == None || r.modelRegion == Some(code) {
        if r.modelRegion.Some? { assert r.modelRegion.value in codes; }
      }
    }
  }

  lemma SchemeRegionIs(rows: seq<SchemeRow>, id: nat, code: string)
    ensures ModelRegionOf(SchemeRefs(rows), id) == Some(code) <==> SchemeNames(rows, id, code)
  {
    var refs := SchemeRefs(rows);
    ModelRegionIs(refs, id, code);
    if SchemeNames(rows, id, code) {
      var r :| r in rows && r.id == Some(id) && r.modelRegion == Some(code);
      var i :| 0 <= i < |rows| && rows[i] == r;
      assert refs[i] in refs && refs[i] == RegionRef(Some(id), Some(code));
    }
    if PetNames(refs, id, code) {
      forall r | r in rows && r.id == Some(id) ensures r.modelRegion == None || r.modelRegion == Some(code) {
        var i :| 0 <= i < |rows| && rows[i] == r;
        assert refs[i] in refs;
      }
    }
  }

  /** The scheme rows cannot be read: no list, a count that is none, or fewer rows than counted. */
  predicate SchemesUnreadable(p: Platform) {
    match p.schemes
    case NotAList => true
    case SchemeRows(rows, total) => match total case NoTotal => false case NotACount => true case Total(n) => |rows| < n
  }

  /** A row's model region is the one its scheme names, or else the one its PET names. */
  lemma RowRegionIs(p: Platform, raw: RawRegion, code: string)
    requires raw.RawRegion?
    ensures RowModelRegion(p, raw).Raised? <==> raw.scheme.Some? && SchemesUnreadable(p)
    ensures RowModelRegion(p, raw) == Answer(Some(code)) <==>
            if raw.scheme.Some? && SchemesUnreadable(p) then false
            else if exists c :: raw.scheme.Some? && SchemeNames(p.schemes.rows, raw.scheme.value, c)
            then SchemeNames(p.schemes.rows, raw.scheme.value, code)
            else raw.pet.Some? && p.allPets.Some? && PetNames(p.allPets.value, raw.pet.value, code)
  {
    if raw.scheme.Some? && !SchemesUnreadable(p) {
      var rows, id := p.schemes.rows, raw.scheme.value;
      var named := ModelRegionOf(SchemeRefs(rows), id);
      assert ActiveSchemes(p) == Some(rows);
      SchemeRegionIs(rows, id, code);
      if named.Some? { SchemeRegionIs(rows, id, named.value); }
      if c :| SchemeNames(rows, id, c) { SchemeRegionIs(rows, id, c); }
    }
    if raw.pet.Some? && p.allPets.Some? { ModelRegionIs(p.allPets.value, raw.pet.value, code); }
  }

  /** A peril is derived from a row whose region is known: what its model region has after the region,
      in capitals. */
  lemma DerivedIs(p: Platform, raw: RawRegion, region: Option<string>, peril: string)
    requires raw.RawRegion?
    ensures DerivedPeril(p, raw, region).Raised? <==>
            region != None && region != Some("") && raw.scheme.Some? && SchemesUnreadable(p)
    ensures DerivedPeril(p, raw, region) == Answer(Some(peril)) <==>
            exists r, m :: region == Some(r) && r != "" && RowModelRegion(p, raw) == Answer(Some(m))
                           && |m| > |r| && Upper(m) == Upper(r) + peril
  {
    RowRegionIs(p, raw, "");
    if region.Some? && RowModelRegion(p, raw).Answer? && RowModelRegion(p, raw).value.Some? {
      var r, m := region.value, RowModelRegion(p, raw).value.value;
      StripsRegion(m, r);
      if |m| > |r| && Upper(m) == Upper(r) + peril {
        assert Upper(m[..|r|]) == Upper(m)[..|r|] == Upper(r);
        assert peril == Upper(m)[|r|..];
      }
    }
  }

  // ---- peril resolution -----------------------------------------------------------------

  datatype Resolution = Resolved(peril: string, version: string) | Unresolved(multiple: bool)

  /** The first candidate that resolves a model version; otherwise the first error. */
  function FirstResolved(p: Platform, engine: string, region: string, candidates: seq<string>): Resolution {
    if candidates == [] then Unresolved(false)
    else
      match p.version(VersionKey(engine, region, candidates[0]))
      case Version(code) => Resolved(candidates[0], code)
      case VersionError(multiple) =>
        var rest := FirstResolved(p, engine, region, candidates[1..]);
        if rest.Resolved? then rest else Unresolved(multiple)
  }

  function AddCandidate(cs: seq<string>, c: Option<string>): seq<string> {
    if c.Some? && c.value != "" && c.value !in cs then cs + [c.value] else cs
  }

  /** The eager rule: row code, detail code and derived code, tried in this order. */
  function EagerResolution(p: Platform, engine: string, region: string, row: Option<string>, detail: Option<string>,
                           derived: Option<string>): Resolution
  {
    FirstResolved(p, engine, region, AddCandidate(AddCandidate(AddCandidate([], row), detail), derived))
  }

  /** The rule as coded: the derived code is read only when no free candidate resolves. */
  function LazyResolution(p: Platform, engine: string, region: string, raw: RawRegion,
                          row: Option<string>, detail: Option<string>): Read<Resolution>
    requires raw.RawRegion?
  {
    var free := AddCandidate(AddCandidate([], row), detail);
    var first := FirstResolved(p, engine, region, free);
    if first.Resolved? then Answer(first)
    else
      match DerivedPeril(p, raw, Some(region))
      case Raised => Raised
      case Answer(derived) => Answer(FirstResolved(p, engine, region, AddCandidate(free, derived)))
  }

  lemma {:induction false} FirstResolvedPrefix(p: Platform, engine: string, region: string, cs: seq<string>, c: string)
    ensures FirstResolved(p, engine, region, cs).Resolved? ==>
              FirstResolved(p, engine, region, cs + [c]) == FirstResolved(p, engine, region, cs)
    ensures FirstResolved(p, engine, region, cs).Unresolved? && p.version(VersionKey(engine, region, c)).Version? ==>
              FirstResolved(p, engine, region, cs + [c]) == Resolved(c, p.version(VersionKey(engine, region, c)).code)
    ensures cs != [] && FirstResolved(p, engine, region, cs).Unresolved? && p.version(VersionKey(engine, region, c)).VersionError? ==>
              FirstResolved(p, engine, region, cs + [c]) == FirstResolved(p, engine, region, cs)
    ensures cs == [] && p.version(VersionKey(engine, region, c)).VersionError? ==>
              FirstResolved(p, engine, region, cs + [c]) == Unresolved(p.version(VersionKey(engine, region, c)).multiple)
  {
    if cs == [] {
      assert [c][1..] == [];
      assert cs + [c] == [c];
    } else {
      assert (cs + [c])[1..] == cs[1..] + [c];
      FirstResolvedPrefix(p, engine, region, cs[1..], c);
    }
  }

  /** Lazy resolution is the eager rule, whenever the derived read it may skip does not raise. */
  lemma LazyIsEager(p: Platform, engine: string, region: string, raw: RawRegion, row: Option<string>, detail: Option<string>)
    requires raw.RawRegion? && DerivedPeril(p, raw, Some(region)).Answer?
    ensures LazyResolution(p, engine, region, raw, row, detail)
         == Answer(EagerResolution(p, engine, region, row, detail, DerivedPeril(p, raw, Some(region)).value))
  {
    var free := AddCandidate(AddCandidate([], row), detail);
    var derived := DerivedPeril(p, raw, Some(region)).value;
    if derived.Some? { FirstResolvedPrefix(p, engine, region, free, derived.value); }
  }

  predicate Resolves(p: Platform, engine: string, region: string, c: Option<string>) {
    c.Some? && c.value != "" && p.version(VersionKey(engine, region, c.value)).Version?
  }

  /** Stated without a list: the answer is the first of the three codes that resolves. */
  lemma EagerIsFirst(p: Platform, engine: string, region: string, row: Option<string>, detail: Option<string>, derived: Option<string>)
    ensures var r := EagerResolution(p, engine, region, row, detail, derived);
            if Resolves(p, engine, region, row) then
              r == Resolved(row.value, p.version(VersionKey(engine, region, row.value)).code)
            else if Resolves(p, engine, region, detail) then
              r == Resolved(detail.value, p.version(VersionKey(engine, region, detail.value)).code)
            else if Resolves(p, engine, region, derived) then
              r == Resolved(derived.value, p.version(VersionKey(engine, region, derived.value)).code)
            else r.Unresolved?
  {
    var one := AddCandidate([], row);
    var two := AddCandidate(one, detail);
    if row.Some? { FirstResolvedPrefix(p, engine, region, [], row.value); }
    if detail.Some? { FirstResolvedPrefix(p, engine, region, one, detail.value); }
    if derived.Some? { FirstResolvedPrefix(p, engine, region, two, derived.value); }
    assert [] + one == one;
    NotTriedTwice(p, engine, region, one, detail);
    NotTriedTwice(p, engine, region, two, derived);
  }

  /** A code left out because it is listed already would not have resolved either. */
  lemma {:induction false} NotTriedTwice(p: Platform, engine: string, region: string, cs: seq<string>, c: Option<string>)
    ensures c.Some? && c.value in cs && p.version(VersionKey(engine, region, c.value)).Version? ==>
              FirstResolved(p, engine, region, cs).Resolved?
  {
    if c.Some? && c.value in cs && cs[0] != c.value { NotTriedTwice(p, engine, region, cs[1..], c); }
  }

  // ---- the caches -------------------------------------------------------------------------

  datatype Call = VersionCall(version: VersionKey) | PetCall(pet: PetKey) | SchemesCall | AllPetsCall

  /** `_unambiguous_model_regions`. */
  method UnambiguousModelRegions(rows: seq<RegionRef>) returns (m: map<nat, string>)
    ensures forall id :: id in m <==> ModelRegionOf(rows, id).Some?
    ensures forall id :: id in m ==> ModelRegionOf(rows, id) == Some(m[id])
  {
    var codes: map<nat, set<string>> := map[];
    for i := 0 to |rows|
      invariant forall id :: id in codes <==> CodesOf(rows[..i], id) != {}
      invariant forall id :: id in codes ==> codes[id] == CodesOf(rows[..i], id)
    {
      assert rows[..i + 1] == rows[..i] + [rows[i]];
      var row := rows[i];
      assert forall id: nat :: CodesOf(rows[..i + 1], id) ==
               CodesOf(rows[..i], id) + (if row.id == Some(id) && row.modelRegion.Some? then {row.modelRegion.value} else {});
      if row.id.Some? && row.modelRegion.Some? {
        var old_ := if row.id.value in codes then codes[row.id.value] else {};
        codes := codes[row.id.value := old_ + {row.modelRegion.value}];
      }
    }
    assert rows[..|rows|] == rows;
    m := map id | id in codes && TheOnly(codes[id]).Some? :: TheOnly(codes[id]).value;
  }

  class ReferenceLookups {
    const platform: Platform
    var versions: map<VersionKey, VersionAnswer>
    var petNames: map<PetKey, Option<string>>
    var schemeRows: Option<seq<SchemeRow>>
    var schemeRegions: Option<map<nat, string>>
    var petRegions: Option<map<nat, string>>
    ghost var calls: multiset<Call>

    constructor (p: Platform)
      ensures platform == p && Valid() && calls == multiset{}
    {
      platform := p;
      versions, petNames := map[], map[];
      schemeRows, schemeRegions, petRegions := None, None, None;
      calls := multiset{};
    }

    /** Every cached answer is the Platform's, and every answer was read at most once. */
    ghost predicate Valid() reads this {
      && (forall k :: k in versions ==> versions[k] == platform.version(k))
      && (forall k :: k in petNames ==> petNames[k] == platform.petName(k))
      && (schemeRows.Some? ==> schemeRows == ActiveSchemes(platform))
      && (schemeRegions.Some? ==> ActiveSchemes(platform).Some? && Regions(schemeRegions.value, SchemeRefs(ActiveSchemes(platform).value)))
      && (petRegions.Some? ==>
            if platform.allPets.Some? then Regions(petRegions.value, platform.allPets.value) else petRegions.value == map[])
      && (forall k :: calls[VersionCall(k)] == if k in versions then 1 else 0)
      && (forall k :: calls[PetCall(k)] == if k in petNames then 1 else 0)
      && (ActiveSchemes(platform).Some? ==> calls[SchemesCall] == if schemeRows.Some? then 1 else 0)
      && calls[AllPetsCall] == if petRegions.Some? then 1 else 0
    }

    ghost predicate Regions(m: map<nat, string>, rows: seq<RegionRef>) {
      && (forall id :: id in m <==> ModelRegionOf(rows, id).Some?)
      && (forall id :: id in m ==> ModelRegionOf(rows, id) == Some(m[id]))
    }

    method ModelVersion(engine: string, region: string, peril: string) returns (v: VersionAnswer)
      requires Valid()
      modifies this
      ensures Valid() && v == platform.version(VersionKey(engine, region, peril))
      ensures calls[SchemesCall] == old(calls[SchemesCall]) && calls[AllPetsCall] == old(calls[AllPetsCall])
    {
      var key := VersionKey(engine, region, peril);
      if key !in versions {
        calls := calls + multiset{VersionCall(key)};
        versions := versions[key := platform.version(key)];
      }
      v := versions[key];
    }

    method PetName(pet: nat, version: string, modelRegion: string) returns (name: Option<string>)
      requires Valid()
      modifies this
      ensures Valid() && name == platform.petName(PetKey(pet, version, modelRegion))
      ensures calls[SchemesCall] == old(calls[SchemesCall]) && calls[AllPetsCall] == old(calls[AllPetsCall])
    {
      var key := PetKey(pet, version, modelRegion);
      if key !in petNames {
        calls := calls + multiset{PetCall(key)};
        petNames := petNames[key := platform.petName(key)];
      }
      name := petNames[key];
    }

    /** None where the read raises. */
    method EventRateSchemeRows() returns (rows: Option<seq<SchemeRow>>)
      requires Valid()
      modifies this
      ensures Valid() && rows == ActiveSchemes(platform)
      ensures rows == if SchemesUnreadable(platform) then None else Some(platform.schemes.rows)
      ensures calls[AllPetsCall] == old(calls[AllPetsCall])
    {
      if schemeRows.None? {
        calls := calls + multiset{SchemesCall};
        schemeRows := ActiveSchemes(platform);
      }
      rows := schemeRows;
    }

    method ModelRegionForRow(raw: RawRegion) returns (r: Read<Option<string>>)
      requires Valid() && raw.RawRegion?
      modifies this
      ensures Valid() && r == RowModelRegion(platform, raw)
    {
      if raw.scheme.Some? {
        if schemeRegions.None? {
          var rows := EventRateSchemeRows();
          if rows.None? { return Raised; }
          var m := UnambiguousModelRegions(SchemeRefs(rows.value));
          schemeRegions := Some(m);
        }
        if raw.scheme.value in schemeRegions.value {
          return Answer(Some(schemeRegions.value[raw.scheme.value]));
        }
      }
      if raw.pet.None? { return Answer(None); }
      if petRegions.None? {
        calls := calls + multiset{AllPetsCall};
        if platform.allPets.None? {
          petRegions := Some(map[]);
          return Answer(None);
        }
        var m := UnambiguousModelRegions(platform.allPets.value);
        petRegions := Some(m);
      }
      r := Answer(if raw.pet.value in petRegions.value then Some(petRegions.value[raw.pet.value]) else None);
    }

    method PerilCodeForRow(raw: RawRegion, region: Option<string>) returns (r: Read<Option<string>>)
      requires Valid() && raw.RawRegion?
      modifies this
      ensures Valid() && r == DerivedPeril(platform, raw, region)
    {
      if region.None? || region.value == "" { return Answer(None); }
      var m := ModelRegionForRow(raw);
      if m.Raised? { return Raised; }
      if m.value.None? { return Answer(None); }
      r := Answer(StripRegion(m.value.value, region.value));
    }

    /** The candidates of one list, tried in order. */
    method TryCandidates(engine: string, region: string, candidates: seq<string>) returns (r: Resolution)
      requires Valid()
      modifies this
      ensures Valid() && r == FirstResolved(platform, engine, region, candidates)
      ensures calls[SchemesCall] == old(calls[SchemesCall]) && calls[AllPetsCall] == old(calls[AllPetsCall])
    {
      var multiple := false;
      for i := 0 to |candidates|
        invariant Valid() && FirstResolved(platform, engine, region, candidates[..i]) == Unresolved(multiple)
        invariant calls[SchemesCall] == old(calls[SchemesCall]) && calls[AllPetsCall] == old(calls[AllPetsCall])
      {
        assert candidates[..i + 1] == candidates[..i] + [candidates[i]];
        FirstResolvedPrefix(platform, engine, region, candidates[..i], candidates[i]);
        var v := ModelVersion(engine, region, candidates[i]);
        if v.Version? {
          FirstStaysFirst(platform, engine, region, candidates, i + 1);
          return Resolved(candidates[i], v.code);
        }
        if i == 0 { multiple := v.multiple; }
      }
      assert candidates[..|candidates|] == candidates;
      r := Unresolved(multiple);
    }

    /** The lazy rule; the derived code is read only after the free candidates failed. */
    method ResolvePeril(engine: string, region: string, raw: RawRegion, row: Option<string>, detail: Option<string>)
      returns (r: Read<Resolution>)
      requires Valid() && raw.RawRegion?
      modifies this
      ensures Valid() && r == LazyResolution(platform, engine, region, raw, row, detail)
      ensures FirstResolved(platform, engine, region, AddCandidate(AddCandidate([], row), detail)).Resolved? ==>
                calls[SchemesCall] == old(calls[SchemesCall]) && calls[AllPetsCall] == old(calls[AllPetsCall])
    {
      var free := AddCandidate(AddCandidate([], row), detail);
      var first := TryCandidates(engine, region, free);
      if first.Resolved? { return Answer(first); }
      var derived := PerilCodeForRow(raw, Some(region));
      if derived.Raised? { return Raised; }
      if derived.value.Some? && derived.value.value != "" && derived.value.value !in free {
        FirstResolvedPrefix(platform, engine, region, free, derived.value.value);
        var v := ModelVersion(engine, region, derived.value.value);
        if v.Version? { return Answer(Resolved(derived.value.value, v.code)); }
        if free == [] { return Answer(Unresolved(v.multiple)); }
      }
      r := Answer(first);
    }
  }

  lemma {:induction false} FirstStaysFirst(p: Platform, engine: string, region: string, cs: seq<string>, n: nat)
    requires n <= |cs| && FirstResolved(p, engine, region, cs[..n]).Resolved?
    ensures FirstResolved(p, engine, region, cs) == FirstResolved(p, engine, region, cs[..n])
  {
    if n > 0 && p.version(VersionKey(engine, region, cs[0])).VersionError? {
      assert cs[..n][1..] == cs[1..][..n - 1];
      FirstStaysFirst(p, engine, region, cs[1..], n - 1);
    }
  }
}
