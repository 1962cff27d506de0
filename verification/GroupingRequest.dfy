/** The region-peril simulation set of a grouping request, built from an inspection and the
    choices the selections settle. */
module GroupingRequest {
  import opened Prelude
  import opened Ordering
  import opened GroupingModel
  import opened GroupingInspect
  import opened GroupingSelections

  datatype Choices = Choices(rates: map<PartitionKey, nat>, sets: map<PartitionKey, SimulationOption>,
                             periods: map<PartitionKey, nat>)

  /** What a fact becomes: a row, nothing, or a lookup of a key that is not there. */
  datatype RowOutcome = Skipped | NoSuchKey | Row(entry: Entry)

  function GivenOr(m: map<PartitionKey, nat>, key: PartitionKey, n: nat): nat { if key in m then m[key] else n }

  function RowFor(simulate: bool, engines: map<PartitionKey, string>, c: Choices, f: Fact): RowOutcome {
    var key := KeyOf(f);
    if f.framework == PLT then
      if f.petId.None? || f.periods.None? then Skipped
      else Row(Entry(f.engine, 0, f.modelRegion, f.version, f.peril, f.region,
                     GivenOr(c.periods, key, f.periods.value), f.petId.value))
    else if key !in c.rates then Skipped
    else if (simulate && key !in c.sets) || key !in engines then NoSuchKey
    else Row(Entry(engines[key], c.rates[key], f.modelRegion, f.version, f.peril, f.region,
                   if simulate then GivenOr(c.periods, key, c.sets[key].periods) else 0,
                   if simulate then c.sets[key].id else 0))
  }

  /** `elt_engines`: the engines of each partition's ELT facts. */
  function EltEngines(facts: set<Fact>, ps: seq<Partition>): map<PartitionKey, string> {
    map k | k in KeysIn(ps) :: EnginesIn(FactsWith(facts, k))
  }

  predicate Conflicting(ps: seq<Partition>) { exists x :: x in ps && x.schemeRequired }

  function EntryKey(codec: Codec): Entry -> Key { e => StringKey(codec.entry(e)) }

  lemma EntryKeysInjective(codec: Codec, s: set<Entry>)
    requires Injective(codec.entry)
    ensures InjectiveOn(s, EntryKey(codec))
  {
    forall x, y | x in s && y in s && EntryKey(codec)(x) == EntryKey(codec)(y) ensures x == y {
      StringKeyInjective(codec.entry(x), codec.entry(y));
    }
  }

  datatype Build = BuildFails | Built(rows: seq<Entry>)

  /** The rows facts become; none where a fact looks up a missing key. */
  function EntriesOf(simulate: bool, engines: map<PartitionKey, string>, c: Choices, facts: set<Fact>): Option<set<Entry>> {
    if exists f :: f in facts && RowFor(simulate, engines, c, f) == NoSuchKey then None
    else Some(set f | f in facts && RowFor(simulate, engines, c, f).Row? :: RowFor(simulate, engines, c, f).entry)
  }

  /** The rows of a request: each entry once, in the order of their texts. */
  function Rows(codec: Codec, x: Inspection, c: Choices): Build
    requires Injective(codec.entry)
  {
    if !x.simulateToPlt && !Conflicting(x.partitions) then Built([])
    else
      var facts := FactsOf(x.members);
      match EntriesOf(x.simulateToPlt, EltEngines(facts, x.partitions), c, facts)
      case None => BuildFails
      case Some(entries) =>
        EntryKeysInjective(codec, entries);
        Built(SortedSet(entries, EntryKey(codec)))
  }

  // ---- the loops of the builder -----------------------------------------------------------

  /** Entries by their text. */
  ghost predicate Indexed(codec: Codec, index: map<string, Entry>, entries: set<Entry>) {
    && (forall e :: e in entries ==> codec.entry(e) in index && index[codec.entry(e)] == e)
    && (forall t :: t in index ==> index[t] in entries && codec.entry(index[t]) == t)
  }

  lemma IndexOneMore(codec: Codec, index: map<string, Entry>, entries: set<Entry>, e: Entry)
    requires Injective(codec.entry) && Indexed(codec, index, entries)
    ensures Indexed(codec, index[codec.entry(e) := e], entries + {e})
  {
  }

  lemma EntriesOneMore(simulate: bool, engines: map<PartitionKey, string>, c: Choices, facts: set<Fact>, f: Fact)
    requires EntriesOf(simulate, engines, c, facts).Some? && RowFor(simulate, engines, c, f) != NoSuchKey
    ensures EntriesOf(simulate, engines, c, facts + {f})
         == Some(EntriesOf(simulate, engines, c, facts).value
                 + if RowFor(simulate, engines, c, f).Row? then {RowFor(simulate, engines, c, f).entry} else {})
  {
    var more, before := EntriesOf(simulate, engines, c, facts + {f}).value, EntriesOf(simulate, engines, c, facts).value;
    var own := if RowFor(simulate, engines, c, f).Row? then {RowFor(simulate, engines, c, f).entry} else {};
    forall e ensures e in more <==> e in before + own {
      if e in before {
        var g :| g in facts && RowFor(simulate, engines, c, g) == Row(e);
        assert g in facts + {f};
      }
    }
    assert more == before + own;
  }

  /** The facts of one member added to the rows. */
  method AddRows(codec: Codec, simulate: bool, engines: map<PartitionKey, string>, c: Choices, facts: seq<Fact>,
                 index: map<string, Entry>, ghost before: set<Fact>) returns (r: Option<map<string, Entry>>)
    requires Injective(codec.entry)
    requires EntriesOf(simulate, engines, c, before).Some?
    requires Indexed(codec, index, EntriesOf(simulate, engines, c, before).value)
    ensures match EntriesOf(simulate, engines, c, before + ListSet(facts))
            case None => r.None?
            case Some(entries) => r.Some? && Indexed(codec, r.value, entries)
  {
    var entries := index;
    assert before + ListSet(facts[..0]) == before;
    for i := 0 to |facts|
      invariant EntriesOf(simulate, engines, c, before + ListSet(facts[..i])).Some?
      invariant Indexed(codec, entries, EntriesOf(simulate, engines, c, before + ListSet(facts[..i])).value)
    {
      assert facts[..i + 1] == facts[..i] + [facts[i]];
      assert before + ListSet(facts[..i + 1]) == before + ListSet(facts[..i]) + {facts[i]};
      var row := RowFor(simulate, engines, c, facts[i]);
      if row.NoSuchKey? {
        assert facts[i] in before + ListSet(facts);
        return None;
      }
      EntriesOneMore(simulate, engines, c, before + ListSet(facts[..i]), facts[i]);
      if row.Skipped? { continue; }
      IndexOneMore(codec, entries, EntriesOf(simulate, engines, c, before + ListSet(facts[..i])).value, row.entry);
      entries := entries[codec.entry(row.entry) := row.entry];
    }
    assert facts[..|facts|] == facts;
    r := Some(entries);
  }

  /** `[entries[key] for key in sorted(entries)]`. */
  method InTextOrder(codec: Codec, index: map<string, Entry>, ghost entries: set<Entry>) returns (rows: seq<Entry>)
    requires Injective(codec.entry) && Indexed(codec, index, entries)
    ensures InjectiveOn(entries, EntryKey(codec)) && rows == SortedSet(entries, EntryKey(codec))
  {
    var texts := SortedStrings(index.Keys);
    SortedStringsIs(index.Keys);
    rows := [];
    for i := 0 to |texts|
      invariant |rows| == i
      invariant forall k :: 0 <= k < i ==> texts[k] in index && rows[k] == index[texts[k]]
    {
      assert texts[i] in texts;
      rows := rows + [index[texts[i]]];
    }
    EntryKeysInjective(codec, entries);
    forall e | e in entries ensures e in rows {
      var i :| 0 <= i < |texts| && texts[i] == codec.entry(e);
      assert rows[i] == e;
    }
    forall i, j | 0 <= i < j < |rows|
      ensures Leq(EntryKey(codec)(rows[i]), EntryKey(codec)(rows[j])) && rows[i] != rows[j]
    {
      assert codec.entry(rows[i]) == texts[i] && codec.entry(rows[j]) == texts[j];
    }
    AscendingIsSortedSet(rows, entries, EntryKey(codec));
  }

  lemma FactsOneMore(members: seq<Member>, i: nat)
    requires i < |members|
    ensures FactsOf(members[..i + 1]) == FactsOf(members[..i]) + ListSet(members[i].regions)
  {
  }

  lemma MissingStays(simulate: bool, engines: map<PartitionKey, string>, c: Choices, some: set<Fact>, all: set<Fact>)
    requires some <= all && EntriesOf(simulate, engines, c, some).None?
    ensures EntriesOf(simulate, engines, c, all).None?
  {
  }

  /** `_build_region_peril_simulation_set`. */
  method BuildRows(codec: Codec, x: Inspection, c: Choices) returns (r: Build)
    requires Injective(codec.entry)
    ensures r == Rows(codec, x, c)
  {
    if !x.simulateToPlt && !Conflicting(x.partitions) { return Built([]); }
    var engines := EltEngines(FactsOf(x.members), x.partitions);
    var index: map<string, Entry> := map[];
    for i := 0 to |x.members|
      invariant EntriesOf(x.simulateToPlt, engines, c, FactsOf(x.members[..i])).Some?
      invariant Indexed(codec, index, EntriesOf(x.simulateToPlt, engines, c, FactsOf(x.members[..i])).value)
    {
      FactsOneMore(x.members, i);
      var more := AddRows(codec, x.simulateToPlt, engines, c, x.members[i].regions, index, FactsOf(x.members[..i]));
      if more.None? {
        MissingStays(x.simulateToPlt, engines, c, FactsOf(x.members[..i + 1]), FactsOf(x.members));
        return BuildFails;
      }
      index := more.value;
    }
    assert x.members[..|x.members|] == x.members;
    var rows := InTextOrder(codec, index, EntriesOf(x.simulateToPlt, engines, c, FactsOf(x.members)).value);
    r := Built(rows);
  }
}
