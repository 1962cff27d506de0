/** Keeping one problem per identity. */
module GroupingProblems {
  import opened Ordering
  import opened GroupingModel

  /** The texts under which problems are kept. */
  function Texts(codec: Codec, problems: seq<Problem>): set<string> {
    set q | q in problems :: codec.problem(IdOf(q))
  }

  /** The last problem with a text. */
  function LastWith(codec: Codec, problems: seq<Problem>, text: string): (r: Problem)
    requires text in Texts(codec, problems)
    ensures r in problems && codec.problem(IdOf(r)) == text
  {
    var n := |problems| - 1;
    if codec.problem(IdOf(problems[n])) == text then problems[n]
    else
      TextsSplit(codec, problems);
      LastWith(codec, problems[..n], text)
  }

  lemma TextsSplit(codec: Codec, problems: seq<Problem>)
    requires problems != []
    ensures var n := |problems| - 1;
            Texts(codec, problems) == Texts(codec, problems[..n]) + {codec.problem(IdOf(problems[n]))}
  {
  }

  /** One problem per identity, in the order of the identities' texts. */
  function Deduplicated(codec: Codec, problems: seq<Problem>): (r: seq<Problem>)
    ensures |r| == |SortedStrings(Texts(codec, problems))|
  {
    var texts := SortedStrings(Texts(codec, problems));
    SortedStringsIs(Texts(codec, problems));
    seq(|texts|, i requires 0 <= i < |texts| => LastWith(codec, problems, texts[i]))
  }

  lemma DeduplicatedAt(codec: Codec, problems: seq<Problem>, i: nat)
    requires i < |Deduplicated(codec, problems)|
    ensures Deduplicated(codec, problems)[i] in problems
    ensures codec.problem(IdOf(Deduplicated(codec, problems)[i])) == SortedStrings(Texts(codec, problems))[i]
  {
  }

  ghost predicate SameIdentities(qs: seq<Problem>, rs: seq<Problem>) {
    && (forall q :: q in qs ==> exists k :: k in rs && IdOf(k) == IdOf(q))
    && (forall k :: k in rs ==> exists q :: q in qs && IdOf(k) == IdOf(q))
  }

  ghost predicate DistinctIdentities(qs: seq<Problem>) {
    forall i, j :: 0 <= i < j < |qs| ==> IdOf(qs[i]) != IdOf(qs[j])
  }

  lemma DeduplicatedKeeps(codec: Codec, problems: seq<Problem>)
    requires Injective(codec.problem)
    ensures SameIdentities(problems, Deduplicated(codec, problems))
  {
    var texts := SortedStrings(Texts(codec, problems));
    SortedStringsIs(Texts(codec, problems));
    var r := Deduplicated(codec, problems);
    forall q | q in problems ensures exists k :: k in r && IdOf(k) == IdOf(q) {
      assert codec.problem(IdOf(q)) in texts;
      var i :| 0 <= i < |texts| && texts[i] == codec.problem(IdOf(q));
      DeduplicatedAt(codec, problems, i);
      assert r[i] in r;
    }
    forall k | k in r ensures exists q :: q in problems && IdOf(k) == IdOf(q) {
      var i :| 0 <= i < |r| && r[i] == k;
      DeduplicatedAt(codec, problems, i);
    }
  }

  lemma DeduplicatedOnce(codec: Codec, problems: seq<Problem>)
    ensures DistinctIdentities(Deduplicated(codec, problems))
  {
    var r := Deduplicated(codec, problems);
    SortedStringsIs(Texts(codec, problems));
    forall i, j | 0 <= i < j < |r| ensures IdOf(r[i]) != IdOf(r[j]) {
      DeduplicatedAt(codec, problems, i);
      DeduplicatedAt(codec, problems, j);
    }
  }

  /** Deduplication keeps every identity, each once, and invents none. */
  lemma DeduplicatedIs(codec: Codec, problems: seq<Problem>)
    requires Injective(codec.problem)
    ensures SameIdentities(problems, Deduplicated(codec, problems))
    ensures DistinctIdentities(Deduplicated(codec, problems))
    ensures Deduplicated(codec, problems) == [] <==> problems == []
  {
    DeduplicatedKeeps(codec, problems);
    DeduplicatedOnce(codec, problems);
    var r := Deduplicated(codec, problems);
    if problems != [] { assert problems[0] in problems; }
    if r != [] { assert r[0] in r; }
  }

  /** Problems that differ in nothing but their identity are all kept as they are. */
  lemma DeduplicatedAlike(codec: Codec, problems: seq<Problem>, message: string)
    requires Injective(codec.problem) && forall q :: q in problems ==> q.message == message
    ensures forall q :: q in Deduplicated(codec, problems) <==> q in problems
  {
    var r := Deduplicated(codec, problems);
    forall k | k in r ensures k in problems {
      var i :| 0 <= i < |r| && r[i] == k;
      DeduplicatedAt(codec, problems, i);
    }
    DeduplicatedKeeps(codec, problems);
    forall q | q in problems ensures q in r {
      var k :| k in r && IdOf(k) == IdOf(q);
    }
  }

  /** Two problems count as one when they agree in all of this. */
  ghost predicate CountAsOne(p: Problem, q: Problem) {
    && p.code == q.code && p.analysisIds == q.analysisIds && p.partition == q.partition
    && p.petIds == q.petIds && p.subRegions == q.subRegions
  }

  lemma {:induction false} LastWithIs(codec: Codec, problems: seq<Problem>, i: nat)
    requires Injective(codec.problem) && i < |problems|
    requires forall j :: i < j < |problems| ==> !CountAsOne(problems[i], problems[j])
    ensures codec.problem(IdOf(problems[i])) in Texts(codec, problems)
    ensures LastWith(codec, problems, codec.problem(IdOf(problems[i]))) == problems[i]
  {
    var n := |problems| - 1;
    if i < n { LastWithIs(codec, problems[..n], i); }
    TextsSplit(codec, problems);
  }

  /** Of the problems that count as one the last is kept, and the kept ones are in the order of their texts. */
  lemma LastIsKept(codec: Codec, problems: seq<Problem>, i: nat)
    requires Injective(codec.problem) && i < |problems|
    requires forall j :: i < j < |problems| ==> !CountAsOne(problems[i], problems[j])
    ensures problems[i] in Deduplicated(codec, problems)
    ensures var r := Deduplicated(codec, problems);
            forall a, b :: 0 <= a < b < |r| ==> !CountAsOne(r[a], r[b]) && Precedes(codec.problem(IdOf(r[a])), codec.problem(IdOf(r[b])))
  {
    var r, texts := Deduplicated(codec, problems), SortedStrings(Texts(codec, problems));
    SortedStringsIs(Texts(codec, problems));
    LastWithIs(codec, problems, i);
    var k :| 0 <= k < |texts| && texts[k] == codec.problem(IdOf(problems[i]));
    assert r[k] == problems[i];
    forall a, b | 0 <= a < b < |r|
      ensures !CountAsOne(r[a], r[b]) && Precedes(codec.problem(IdOf(r[a])), codec.problem(IdOf(r[b])))
    {
      DeduplicatedAt(codec, problems, a);
      DeduplicatedAt(codec, problems, b);
      TextsInOrder(texts[a], texts[b]);
    }
  }

  lemma KeptWasThere(codec: Codec, problems: seq<Problem>, q: Problem)
    requires q in Deduplicated(codec, problems)
    ensures q in problems
  {
    var i :| 0 <= i < |Deduplicated(codec, problems)| && Deduplicated(codec, problems)[i] == q;
    DeduplicatedAt(codec, problems, i);
  }

  /** For every problem one that counts the same is kept. */
  lemma CounterpartKept(codec: Codec, problems: seq<Problem>, q: Problem) returns (k: Problem)
    requires Injective(codec.problem) && q in problems
    ensures k in Deduplicated(codec, problems) && CountAsOne(k, q)
  {
    var texts := SortedStrings(Texts(codec, problems));
    SortedStringsIs(Texts(codec, problems));
    assert codec.problem(IdOf(q)) in texts;
    var i :| 0 <= i < |texts| && texts[i] == codec.problem(IdOf(q));
    DeduplicatedAt(codec, problems, i);
    k := Deduplicated(codec, problems)[i];
    assert IdOf(k) == IdOf(q);
  }

  /** The identities kept, and their order, depend only on which identities were reported. */
  lemma SameDeduplicated(codec: Codec, qs: seq<Problem>, rs: seq<Problem>)
    requires Injective(codec.problem) && Texts(codec, qs) == Texts(codec, rs)
    ensures |Deduplicated(codec, qs)| == |Deduplicated(codec, rs)|
    ensures forall i :: 0 <= i < |Deduplicated(codec, qs)| ==>
              IdOf(Deduplicated(codec, qs)[i]) == IdOf(Deduplicated(codec, rs)[i])
  {
  }

  lemma LastOfMore(codec: Codec, problems: seq<Problem>, q: Problem)
    ensures Texts(codec, problems + [q]) == Texts(codec, problems) + {codec.problem(IdOf(q))}
    ensures LastWith(codec, problems + [q], codec.problem(IdOf(q))) == q
    ensures forall t | t in Texts(codec, problems) && t != codec.problem(IdOf(q)) ::
              LastWith(codec, problems + [q], t) == LastWith(codec, problems, t)
  {
  }

  /** `_deduplicate_problems`. */
  method DeduplicateProblems(codec: Codec, problems: seq<Problem>) returns (r: seq<Problem>)
    ensures r == Deduplicated(codec, problems)
  {
    var unique: map<string, Problem> := map[];
    for i := 0 to |problems|
      invariant unique.Keys == Texts(codec, problems[..i])
      invariant forall t :: t in unique ==> unique[t] == LastWith(codec, problems[..i], t)
    {
      assert problems[..i + 1] == problems[..i] + [problems[i]];
      LastOfMore(codec, problems[..i], problems[i]);
      unique := unique[codec.problem(IdOf(problems[i])) := problems[i]];
    }
    assert problems[..|problems|] == problems;
    var texts := SortedStrings(unique.Keys);
    SortedStringsIs(unique.Keys);
    r := [];
    for i := 0 to |texts|
      invariant |r| == i && forall k :: 0 <= k < i ==> texts[k] in unique && r[k] == unique[texts[k]]
    {
      assert texts[i] in texts;
      r := r + [unique[texts[i]]];
    }
  }
}
