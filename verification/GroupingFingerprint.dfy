/** The fingerprint does not depend on the order in which the analyses are named. */
module GroupingFingerprint {
  import opened Ordering
  import opened GroupingModel
  import opened GroupingProblems
  import opened GroupingInspect

  // ---- gathering, as a function of each id --------------------------------------------------

  function MemberOf(p: Platform, codec: Codec, id: nat): Member {
    if Examine(p, codec, id).ExamineRaises? then AbsentMember(id) else Examine(p, codec, id).member
  }

  function TreatiesFor(p: Platform, codec: Codec, id: nat): seq<Treaty> {
    if Examine(p, codec, id).ExamineRaises? then [] else Examine(p, codec, id).treaties
  }

  function AllTreaties(p: Platform, codec: Codec, ids: seq<nat>): seq<Treaty> {
    Concatenated(ids, id => TreatiesFor(p, codec, id))
  }

  /** Gathering raises for an id that raises; else it lists what each id gives. */
  lemma {:induction false} GatherIs(p: Platform, codec: Codec, ids: seq<nat>)
    ensures Gather(p, codec, ids).GatherRaises? <==> exists id :: id in ids && Examine(p, codec, id).ExamineRaises?
    ensures Gather(p, codec, ids).Gathered? ==>
              && Gather(p, codec, ids).members == Mapped(ids, id => MemberOf(p, codec, id))
              && Gather(p, codec, ids).treaties == AllTreaties(p, codec, ids)
              && (forall q :: q in Gather(p, codec, ids).problems <==> exists id :: id in ids && ProblemIn(Examine(p, codec, id), q))
  {
    if ids != [] {
      var n := |ids| - 1;
      var before, last := ids[..n], ids[n];
      assert ids == before + [last];
      assert Examinations(p, codec, ids)[..n] == Examinations(p, codec, before);
      GatherIs(p, codec, before);
      assert last in ids;
      if Gather(p, codec, ids).Gathered? {
        assert Mapped(ids, id => MemberOf(p, codec, id)) == Mapped(before, id => MemberOf(p, codec, id)) + [MemberOf(p, codec, last)];
      }
    }
  }

  lemma MemberOfId(p: Platform, codec: Codec, id: nat)
    ensures MemberOf(p, codec, id).analysisId == id
  {
  }

  lemma {:induction false} TreatiesOfId(codec: Codec, id: nat, rows: seq<RawTreaty>)
    ensures TreatiesOf(codec, id, rows).Some? ==> forall t :: t in TreatiesOf(codec, id, rows).value ==> t.analysisId == id
  {
    if rows != [] { TreatiesOfId(codec, id, rows[..|rows| - 1]); }
  }

  lemma TreatiesForId(p: Platform, codec: Codec, id: nat)
    ensures forall t :: t in TreatiesFor(p, codec, id) ==> t.analysisId == id
  {
    if p.analysis(id).Found? && p.treaties(id).Treaties? { TreatiesOfId(codec, id, p.treaties(id).rows); }
  }

  // ---- treaties keep their order within an analysis ---------------------------------------------

  lemma ForeignKey(ts: seq<Treaty>, id: nat, k: Key)
    requires forall t :: t in ts ==> t.analysisId == id
    requires k == [] || k[0] != id
    ensures WithKey(ts, TreatySortKey, k) == []
  {
  }

  lemma SameTreatySort(p: Platform, codec: Codec, ids: seq<nat>, others: seq<nat>)
    requires multiset(ids) == multiset(others)
    ensures StableSort(AllTreaties(p, codec, ids), TreatySortKey) == StableSort(AllTreaties(p, codec, others), TreatySortKey)
  {
    var block := id => TreatiesFor(p, codec, id);
    forall k, x, y | x in ids && y in ids && x != y
      ensures WithKey(block(x), TreatySortKey, k) == [] || WithKey(block(y), TreatySortKey, k) == []
    {
      TreatiesForId(p, codec, x);
      TreatiesForId(p, codec, y);
      if k == [] || k[0] != x { ForeignKey(block(x), x, k); } else { ForeignKey(block(y), y, k); }
    }
    PermutedBlocks(ids, others, block, TreatySortKey);
  }

  // ---- ids, addresses and members sort to the same lists ----------------------------------------------

  lemma SameIdSort(ids: seq<nat>, others: seq<nat>)
    requires multiset(ids) == multiset(others)
    ensures StableSort(ids, NatKey) == StableSort(others, NatKey)
  {
    assert forall m: nat :: NatKey(m)[0] == m;
    PermutedSort(ids, others, NatKey);
  }

  lemma SameUriSort(codec: Codec, ids: seq<nat>, others: seq<nat>)
    requires multiset(ids) == multiset(others)
    ensures StableSort(Uris(codec, ids), StringKey) == StableSort(Uris(codec, others), StringKey)
  {
    assert Uris(codec, ids) == Mapped(ids, codec.uri);
    assert Uris(codec, others) == Mapped(others, codec.uri);
    MappedPermuted(ids, others, codec.uri);
    forall s, t | s in Uris(codec, ids) && t in Uris(codec, ids) && StringKey(s) == StringKey(t) ensures s == t {
      StringKeyInjective(s, t);
    }
    PermutedSort(Uris(codec, ids), Uris(codec, others), StringKey);
  }

  lemma SameMemberSort(p: Platform, codec: Codec, ids: seq<nat>, others: seq<nat>)
    requires multiset(ids) == multiset(others)
    ensures var f := id => MemberOf(p, codec, id);
            && StableSort(Mapped(ids, f), MemberSortKey) == StableSort(Mapped(others, f), MemberSortKey)
            && (forall m :: m in Mapped(ids, f) <==> m in Mapped(others, f))
  {
    var f := id => MemberOf(p, codec, id);
    MappedPermuted(ids, others, f);
    SameMembers(Mapped(ids, f), Mapped(others, f));
    forall m, n | m in Mapped(ids, f) && n in Mapped(ids, f) && MemberSortKey(m) == MemberSortKey(n) ensures m == n {
      var i :| 0 <= i < |ids| && m == MemberOf(p, codec, ids[i]);
      var j :| 0 <= j < |ids| && n == MemberOf(p, codec, ids[j]);
      MemberOfId(p, codec, ids[i]);
      MemberOfId(p, codec, ids[j]);
      assert MemberSortKey(m)[0] == ids[i] && MemberSortKey(n)[0] == ids[j];
    }
    PermutedSort(Mapped(ids, f), Mapped(others, f), MemberSortKey);
  }

  // ---- partitions do not see the labels -------------------------------------------------------------------

  ghost predicate SameBut(c: Context, d: Context) { d == c.(labels := d.labels) }

  lemma PartitionIgnoresLabels(c: Context, d: Context, facts: set<Fact>, key: PartitionKey)
    requires SameBut(c, d)
    ensures PartitionOf(c, facts, key).PartitionRaises? <==> PartitionOf(d, facts, key).PartitionRaises?
    ensures PartitionOf(c, facts, key).PartitionDone? ==>
              var x, y := PartitionOf(c, facts, key), PartitionOf(d, facts, key);
              ViewOf(x.partition) == ViewOf(y.partition) && x.problems == y.problems && x.mappings == y.mappings
  {
  }

  /** Partition results that differ at most in labels. */
  ghost predicate SamePart(r: PartitionResult, s: PartitionResult) {
    if r.PartitionRaises? then s.PartitionRaises?
    else
      s.PartitionDone? && ViewOf(r.partition) == ViewOf(s.partition) && r.problems == s.problems && r.mappings == s.mappings
  }

  ghost predicate SameParts(r: PartitionsResult, s: PartitionsResult) {
    if r.PartitionsRaise? then s.PartitionsRaise?
    else
      s.PartitionsDone? && Views(r.partitions) == Views(s.partitions) && r.problems == s.problems && r.mappings == s.mappings
  }

  lemma {:induction false} CombineAlike(rs: seq<PartitionResult>, ss: seq<PartitionResult>)
    requires |rs| == |ss| && forall i :: 0 <= i < |rs| ==> SamePart(rs[i], ss[i])
    ensures SameParts(CombineParts(rs), CombineParts(ss))
  {
    if rs != [] {
      var n := |rs| - 1;
      CombineAlike(rs[..n], ss[..n]);
      assert SamePart(rs[n], ss[n]);
      if CombineParts(rs).PartitionsDone? {
        ViewsOneMore(CombineParts(rs[..n]).partitions, rs[n].partition);
        ViewsOneMore(CombineParts(ss[..n]).partitions, ss[n].partition);
      }
    }
  }

  lemma PartitionsIgnoreLabels(c: Context, d: Context, facts: set<Fact>, keys: seq<PartitionKey>)
    requires SameBut(c, d)
    ensures SameParts(PartitionsOf(c, facts, keys), PartitionsOf(d, facts, keys))
  {
    var rs, ss := PartResults(c, facts, keys), PartResults(d, facts, keys);
    forall i | 0 <= i < |rs| ensures SamePart(rs[i], ss[i]) {
      PartitionIgnoresLabels(c, d, FactsWith(facts, keys[i]), keys[i]);
    }
    CombineAlike(rs, ss);
  }

  lemma ViewsOneMore(ps: seq<Partition>, x: Partition)
    ensures Views(ps + [x]) == Views(ps) + [ViewOf(x)]
  {
  }

  // ---- the result ---------------------------------------------------------------------------------------

  /** Outcomes a fingerprint cannot tell apart. */
  ghost predicate SameFinding(r: Outcome, s: Outcome) {
    if r.InspectRaises? then s.InspectRaises?
    else
      && s.Inspected?
      && PayloadOf(r.inspection) == PayloadOf(s.inspection)
      && r.inspection.fingerprint == s.inspection.fingerprint
  }

  lemma SameGathering(p: Platform, codec: Codec, ids: seq<nat>, others: seq<nat>)
    requires multiset(ids) == multiset(others)
    ensures Gather(p, codec, ids).GatherRaises? <==> Gather(p, codec, others).GatherRaises?
    ensures Gather(p, codec, ids).Gathered? ==>
              var g, h := Gather(p, codec, ids), Gather(p, codec, others);
              && StableSort(g.members, MemberSortKey) == StableSort(h.members, MemberSortKey)
              && (forall m :: m in g.members <==> m in h.members)
              && StableSort(g.treaties, TreatySortKey) == StableSort(h.treaties, TreatySortKey)
              && (forall q :: q in g.problems <==> q in h.problems)
  {
    SameMembers(ids, others);
    GatherIs(p, codec, ids);
    GatherIs(p, codec, others);
    SameTreatySort(p, codec, ids, others);
    SameMemberSort(p, codec, ids, others);
  }

  lemma SameTexts(codec: Codec, qs: seq<Problem>, rs: seq<Problem>, more: seq<Problem>)
    requires forall q :: q in qs <==> q in rs
    ensures Texts(codec, qs + more) == Texts(codec, rs + more)
  {
  }

  lemma SameSummary(p: Platform, codec: Codec, ids: seq<nat>, others: seq<nat>, g: Gathering, h: Gathering)
    requires Injective(codec.problem) && multiset(ids) == multiset(others) && g.Gathered? && h.Gathered?
    requires StableSort(g.members, MemberSortKey) == StableSort(h.members, MemberSortKey)
    requires forall m :: m in g.members <==> m in h.members
    requires StableSort(g.treaties, TreatySortKey) == StableSort(h.treaties, TreatySortKey)
    requires forall q :: q in g.problems <==> q in h.problems
    ensures SameFinding(Summarised(p, codec, ids, g), Summarised(p, codec, others, h))
  {
    var facts := FactsOf(g.members);
    assert facts == FactsOf(h.members);
    assert DlmIds(g.members) == DlmIds(h.members);
    assert SameBut(ContextOf(p, g), ContextOf(p, h));
    var keys := SortedPartitions(KeysOf(facts));
    PartitionsIgnoreLabels(ContextOf(p, g), ContextOf(p, h), facts, keys);
    var x, y := Summarised(p, codec, ids, g), Summarised(p, codec, others, h);
    if x.Inspected? {
      var more := PartitionsOf(ContextOf(p, g), facts, keys).problems;
      SameTexts(codec, g.problems, h.problems, more);
      SameDeduplicated(codec, g.problems + more, h.problems + more);
      assert ProblemViews(x.inspection.blocking) == ProblemViews(y.inspection.blocking);
      SameIdSort(ids, others);
      SameUriSort(codec, ids, others);
    }
  }

  /** Inspecting the same analyses in another order, against the same Platform, finds the same:
      it raises alike, and otherwise has the same canonical payload and the same fingerprint. */
  lemma OrderIndependence(p: Platform, codec: Codec, ids: seq<nat>, others: seq<nat>)
    requires Faithful(codec) && multiset(ids) == multiset(others)
    ensures SameFinding(Inspect(p, codec, ids), Inspect(p, codec, others))
  {
    SameGathering(p, codec, ids, others);
    if Gather(p, codec, ids).Gathered? {
      SameSummary(p, codec, ids, others, Gather(p, codec, ids), Gather(p, codec, others));
    }
  }

  // ---- lists the Platform may answer in another order ---------------------------------------------------

  lemma TreatyKeyIs(s: Treaty, t: Treaty)
    requires TreatySortKey(s) == TreatySortKey(t)
    ensures s.analysisId == t.analysisId && s.number == t.number && OrZero(s.treatyId) == OrZero(t.treatyId)
  {
    var a, b := StringKey(s.number) + [OrZero(s.treatyId)], StringKey(t.number) + [OrZero(t.treatyId)];
    assert TreatySortKey(s)[0] == s.analysisId && TreatySortKey(t)[0] == t.analysisId;
    assert TreatySortKey(s)[1..] == a && TreatySortKey(t)[1..] == b;
    StringKeyPrefixFree(s.number, t.number, [OrZero(s.treatyId)], [OrZero(t.treatyId)]);
    assert [OrZero(s.treatyId)][0] == [OrZero(t.treatyId)][0];
  }

  /** The order in which treaties are listed does not matter to the payload, unless two of one analysis
      share number and id. */
  lemma TreatyOrderIgnored(x: Inspection, y: Inspection)
    requires y == x.(treaties := y.treaties) && multiset(x.treaties) == multiset(y.treaties)
    requires forall s, t | s in x.treaties && t in x.treaties ::
               s.analysisId == t.analysisId && s.number == t.number && OrZero(s.treatyId) == OrZero(t.treatyId) ==> s == t
    ensures PayloadOf(x) == PayloadOf(y)
  {
    forall s, t | s in x.treaties && t in x.treaties && TreatySortKey(s) == TreatySortKey(t) ensures s == t {
      TreatyKeyIs(s, t);
    }
    PermutedSort(x.treaties, y.treaties, TreatySortKey);
  }

  /** The order of the region rows does not matter to the facts a member shows, unless two facts differ
      only in what the order leaves out. */
  lemma RowOrderIgnored(facts: seq<Fact>, others: seq<Fact>)
    requires multiset(facts) == multiset(others)
    requires forall f, g :: f in facts && g in facts && FactPrecedes(f, g) && FactPrecedes(g, f) ==> f == g
    ensures StableSort(facts, FactSortKey) == StableSort(others, FactSortKey)
  {
    forall f, g | f in facts && g in facts && FactSortKey(f) == FactSortKey(g) ensures f == g {
      FactOrder(f, g);
      FactOrder(g, f);
      LeqTotal(FactSortKey(f), FactSortKey(g));
    }
    PermutedSort(facts, others, FactSortKey);
  }
}
