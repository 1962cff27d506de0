/** The work queue: workers claim a row by compare-and-set and keep a heartbeat from a
    second thread; a reconciler returns running rows whose heartbeat went stale. */
module JobQueue {
  import opened Prelude

  type JobId = nat
  type WorkerId = nat

  datatype Status = Pending | Running | Succeeded | Failed

  datatype Job = Job(requestKey: string, status: Status, claimedBy: Option<WorkerId>)

  datatype Beat = Beat(worker: WorkerId, at: int)

  datatype Tables = Tables(jobs: map<JobId, Job>, beats: map<JobId, Beat>)

  // ---- statements ---------------------------------------------------------------

  function EnqueueTx(db: Tables, id: JobId, key: string): (Tables, bool) {
    if id in db.jobs || exists i :: i in db.jobs && db.jobs[i].requestKey == key then (db, false)
    else (db.(jobs := db.jobs[id := Job(key, Pending, None)]), true)
  }

  function ClaimTx(db: Tables, id: JobId, w: WorkerId): (Tables, bool) {
    if id in db.jobs && db.jobs[id].status == Pending
    then (db.(jobs := db.jobs[id := db.jobs[id].(status := Running, claimedBy := Some(w))]), true)
    else (db, false)
  }

  /** `finish` carries no guard on the status it overwrites. */
  function FinishTx(db: Tables, id: JobId, ok: bool): Tables {
    if id in db.jobs
    then db.(jobs := db.jobs[id := db.jobs[id].(status := if ok then Succeeded else Failed)])
    else db
  }

  function StampTx(db: Tables, id: JobId, w: WorkerId, now: int): Tables {
    db.(beats := db.beats[id := Beat(w, now)])
  }

  predicate StaleRow(db: Tables, id: JobId, now: int, stale: nat) {
    id in db.jobs && db.jobs[id].status == Running && (id in db.beats ==> now - db.beats[id].at > stale)
  }

  function ResetTx(db: Tables, id: JobId): (Tables, bool) {
    if id in db.jobs && db.jobs[id].status == Running
    then (db.(jobs := db.jobs[id := db.jobs[id].(status := Pending, claimedBy := None)]), true)
    else (db, false)
  }

  // ---- workers and one reconciler as a step system -----------------------------------

  datatype Reconciler = Idle | Resetting(todo: seq<JobId>)

  /** `holding` maps each live worker to the job it claimed, `stamped` to its last stamp. */
  datatype State = State(db: Tables, clock: int, holding: map<WorkerId, JobId>, stamped: map<WorkerId, int>,
                         recon: Reconciler, claims: map<JobId, nat>, resets: map<JobId, nat>)

  datatype Event =
    | Enqueue(id: JobId, key: string)
    | Claim(id: JobId, w: WorkerId)
    | Stamp(t: int, id: JobId, w: WorkerId)
    | Finish(w: WorkerId, ok: bool)
    | Die(w: WorkerId)
    | ReadStale(t: int, rows: seq<JobId>)
    | ResetNext
    | ReconcilerStops

  function Count(m: map<JobId, nat>, id: JobId): nat { if id in m then m[id] else 0 }

  ghost predicate IsStaleList(db: Tables, now: int, stale: nat, rows: seq<JobId>) {
    && (forall i, j :: 0 <= i < j < |rows| ==> rows[i] != rows[j])
    && (forall id :: id in rows <==> StaleRow(db, id, now, stale))
  }

  /** A wake-up is only a claim attempt: it may come for any job, any number of times.
      A heartbeat thread that outlives its worker may still stamp. */
  ghost predicate Enabled(stale: nat, s: State, e: Event) {
    match e
    case Enqueue(_, _) => true
    case Claim(_, w) => w !in s.holding
    case Stamp(t, _, _) => t >= s.clock
    case Finish(w, _) => w in s.holding
    case Die(w) => w in s.holding
    case ReadStale(t, rows) => t >= s.clock && s.recon.Idle? && IsStaleList(s.db, t, stale, rows)
    case ResetNext => s.recon.Resetting? && s.recon.todo != []
    case ReconcilerStops => true
  }

  function Next(s: State, e: Event): State {
    match e
    case Enqueue(id, key) => s.(db := EnqueueTx(s.db, id, key).0)
    case Claim(id, w) =>
      var (db, got) := ClaimTx(s.db, id, w);
      if got then
        s.(db := db, holding := s.holding[w := id], stamped := s.stamped - {w},
           claims := s.claims[id := Count(s.claims, id) + 1])
      else s
    case Stamp(t, id, w) =>
      s.(db := StampTx(s.db, id, w, t), clock := t,
         stamped := if w in s.holding && s.holding[w] == id then s.stamped[w := t] else s.stamped)
    case Finish(w, ok) =>
      if w in s.holding
      then s.(db := FinishTx(s.db, s.holding[w], ok), holding := s.holding - {w})
      else s
    case Die(w) => s.(holding := s.holding - {w})
    case ReadStale(t, rows) => s.(clock := t, recon := Resetting(rows))
    case ResetNext =>
      if s.recon.Resetting? && s.recon.todo != [] then
        var id := s.recon.todo[0];
        var (db, done) := ResetTx(s.db, id);
        s.(db := db, recon := Resetting(s.recon.todo[1..]),
           resets := if done then s.resets[id := Count(s.resets, id) + 1] else s.resets)
      else s
    case ReconcilerStops => s.(recon := Idle)
  }

  function Run(s: State, es: seq<Event>): State
    decreases |es|
  {
    if es == [] then s else Run(Next(s, es[0]), es[1..])
  }

  ghost predicate Feasible(stale: nat, s: State, es: seq<Event>)
    decreases |es|
  {
    es == [] || (Enabled(stale, s, es[0]) && Feasible(stale, Next(s, es[0]), es[1..]))
  }

  const EMPTY: State := State(Tables(map[], map[]), 0, map[], map[], Idle, map[], map[])

  // ---- claims against resets ---------------------------------------------------------

  ghost predicate JobBalanced(s: State, id: JobId) {
    var c, r := Count(s.claims, id), Count(s.resets, id);
    if id !in s.db.jobs then c == 0 && r == 0
    else
      match s.db.jobs[id].status
      case Pending => c == r
      case Running => c == r + 1
      case _ => c == r || c == r + 1
  }

  ghost predicate Balanced(s: State) {
    && (forall w :: w in s.holding ==> s.holding[w] in s.db.jobs)
    && (forall id :: JobBalanced(s, id))
  }

  lemma JobStaysBalanced(s: State, e: Event, id: JobId)
    requires Balanced(s)
    ensures JobBalanced(Next(s, e), id)
  {
    assert JobBalanced(s, id);
  }

  lemma StepKeepsBalance(s: State, e: Event)
    requires Balanced(s)
    ensures Balanced(Next(s, e))
  {
    forall id ensures JobBalanced(Next(s, e), id) {
      JobStaysBalanced(s, e, id);
    }
  }

  /** Whatever wake-ups are lost or repeated and whoever dies, a pending job was claimed as
      often as it was reset, a running one once more, a finished one either of the two. */
  lemma {:induction false} ClaimsMatchResets(s: State, es: seq<Event>)
    requires Balanced(s)
    ensures Balanced(Run(s, es))
    decreases |es|
  {
    if es != [] {
      StepKeepsBalance(s, es[0]);
      ClaimsMatchResets(Next(s, es[0]), es[1..]);
    }
  }

  // ---- mutual exclusion ----------------------------------------------------------------

  /** When the reconciler reads, no job in the hands of a live worker reads as stale. */
  ghost predicate SafeRead(stale: nat, s: State, e: Event) {
    e.ReadStale? ==> forall w :: w in s.holding ==> !StaleRow(s.db, s.holding[w], e.t, stale)
  }

  ghost predicate SafeRun(stale: nat, s: State, es: seq<Event>)
    decreases |es|
  {
    es == [] || (SafeRead(stale, s, es[0]) && SafeRun(stale, Next(s, es[0]), es[1..]))
  }

  /** When the reconciler reads, every live worker has stamped within the stale window. */
  ghost predicate Timely(stale: nat, s: State, e: Event) {
    e.ReadStale? ==> forall w :: w in s.holding ==> w in s.stamped && e.t - s.stamped[w] <= stale
  }

  ghost predicate TimelyRun(stale: nat, s: State, es: seq<Event>)
    decreases |es|
  {
    es == [] || (Timely(stale, s, es[0]) && TimelyRun(stale, Next(s, es[0]), es[1..]))
  }

  ghost predicate OneHolder(s: State) {
    forall v, w :: v in s.holding && w in s.holding && s.holding[v] == s.holding[w] ==> v == w
  }

  /** Every live worker works on a job that is running in its name. */
  ghost predicate HoldersRun(s: State) {
    forall w :: w in s.holding ==>
      && s.holding[w] in s.db.jobs
      && s.db.jobs[s.holding[w]].status == Running
      && s.db.jobs[s.holding[w]].claimedBy == Some(w)
  }

  ghost predicate StampsStored(s: State) {
    && (forall w :: w in s.holding && w in s.stamped ==>
          s.holding[w] in s.db.beats && s.db.beats[s.holding[w]].at >= s.stamped[w])
    && (forall id :: id in s.db.beats ==> s.db.beats[id].at <= s.clock)
    && (forall w :: w in s.stamped ==> s.stamped[w] <= s.clock)
  }

  /** A running job that no live worker holds. */
  ghost predicate Abandoned(s: State, id: JobId) {
    id in s.db.jobs && s.db.jobs[id].status == Running && forall w :: w in s.holding ==> s.holding[w] != id
  }

  ghost predicate ResetsAbandoned(s: State) {
    s.recon.Resetting? ==>
      && (forall i, j :: 0 <= i < j < |s.recon.todo| ==> s.recon.todo[i] != s.recon.todo[j])
      && (forall i :: 0 <= i < |s.recon.todo| ==> Abandoned(s, s.recon.todo[i]))
  }

  ghost predicate Exclusive(s: State) {
    OneHolder(s) && HoldersRun(s) && StampsStored(s) && ResetsAbandoned(s)
  }

  lemma ReadKeepsExclusion(stale: nat, s: State, t: int, rows: seq<JobId>)
    requires Exclusive(s) && Enabled(stale, s, ReadStale(t, rows)) && SafeRead(stale, s, ReadStale(t, rows))
    ensures Exclusive(Next(s, ReadStale(t, rows)))
  {
    var s' := Next(s, ReadStale(t, rows));
    forall i | 0 <= i < |rows| ensures Abandoned(s', rows[i]) {
      assert rows[i] in rows;
    }
    assert StampsStored(s');
  }

  lemma ClaimKeepsExclusion(s: State, id: JobId, w: WorkerId)
    requires Exclusive(s) && w !in s.holding
    ensures Exclusive(Next(s, Claim(id, w)))
  {
  }

  lemma ResetKeepsExclusion(s: State)
    requires Exclusive(s) && s.recon.Resetting? && s.recon.todo != []
    ensures Exclusive(Next(s, ResetNext))
  {
    var s' := Next(s, ResetNext);
    assert Abandoned(s, s.recon.todo[0]);
    forall i | 0 <= i < |s'.recon.todo| ensures Abandoned(s', s'.recon.todo[i]) {
      assert Abandoned(s, s.recon.todo[i + 1]);
    }
  }

  lemma LeaveKeepsExclusion(s: State, e: Event)
    requires Exclusive(s) && (e.Finish? || e.Die?) && e.w in s.holding
    ensures Exclusive(Next(s, e))
  {
  }

  lemma EnqueueKeepsExclusion(s: State, id: JobId, key: string)
    requires Exclusive(s)
    ensures Exclusive(Next(s, Enqueue(id, key)))
  {
  }

  lemma StampKeepsExclusion(s: State, t: int, id: JobId, w: WorkerId)
    requires Exclusive(s) && t >= s.clock
    ensures Exclusive(Next(s, Stamp(t, id, w)))
  {
  }

  lemma StepKeepsExclusion(stale: nat, s: State, e: Event)
    requires Exclusive(s) && Enabled(stale, s, e) && SafeRead(stale, s, e)
    ensures Exclusive(Next(s, e))
  {
    match e
    case ReadStale(t, rows) => ReadKeepsExclusion(stale, s, t, rows);
    case Claim(id, w) => ClaimKeepsExclusion(s, id, w);
    case ResetNext => ResetKeepsExclusion(s);
    case Finish(_, _) => LeaveKeepsExclusion(s, e);
    case Die(_) => LeaveKeepsExclusion(s, e);
    case Enqueue(id, key) => EnqueueKeepsExclusion(s, id, key);
    case Stamp(t, id, w) => StampKeepsExclusion(s, t, id, w);
    case ReconcilerStops =>
  }

  /** While no held job reads as stale, at most one live worker holds a job, in every run. */
  lemma {:induction false} AtMostOneHolder(stale: nat, s: State, es: seq<Event>)
    requires Exclusive(s) && Feasible(stale, s, es) && SafeRun(stale, s, es)
    ensures Exclusive(Run(s, es))
    decreases |es|
  {
    if es != [] {
      StepKeepsExclusion(stale, s, es[0]);
      AtMostOneHolder(stale, Next(s, es[0]), es[1..]);
    }
  }

  /** Timely stamps make every read safe, since a live worker's stamp is never newer than its row's. */
  lemma {:induction false} TimelyIsSafe(stale: nat, s: State, es: seq<Event>)
    requires Exclusive(s) && Feasible(stale, s, es) && TimelyRun(stale, s, es)
    ensures SafeRun(stale, s, es)
    decreases |es|
  {
    if es != [] {
      assert SafeRead(stale, s, es[0]);
      StepKeepsExclusion(stale, s, es[0]);
      TimelyIsSafe(stale, Next(s, es[0]), es[1..]);
    }
  }

  /** So with timely stamps at most one live worker holds a job. */
  lemma TimelyMeansOneHolder(stale: nat, s: State, es: seq<Event>)
    requires Exclusive(s) && Feasible(stale, s, es) && TimelyRun(stale, s, es)
    ensures Exclusive(Run(s, es))
  {
    TimelyIsSafe(stale, s, es);
    AtMostOneHolder(stale, s, es);
  }

  /** Both invariants hold where every run begins. */
  lemma EmptyQueueIsFine()
    ensures Balanced(EMPTY) && Exclusive(EMPTY)
  {
  }

  function Resets(n: nat): (es: seq<Event>)
    ensures |es| == n && forall i :: 0 <= i < n ==> es[i] == ResetNext
  {
    if n == 0 then [] else [ResetNext] + Resets(n - 1)
  }

  lemma {:induction false} RunConcat(stale: nat, s: State, es: seq<Event>, fs: seq<Event>)
    ensures Run(s, es + fs) == Run(Run(s, es), fs)
    ensures Feasible(stale, s, es + fs) == (Feasible(stale, s, es) && Feasible(stale, Run(s, es), fs))
    decreases |es|
  {
    if es == [] {
      assert es + fs == fs;
    } else {
      assert (es + fs)[1..] == es[1..] + fs;
      RunConcat(stale, Next(s, es[0]), es[1..], fs);
    }
  }

  lemma {:induction false} ResetsReach(stale: nat, s: State, id: JobId)
    requires s.recon.Resetting? && id in s.db.jobs && s.db.jobs[id].status in {Running, Pending}
    requires id in s.recon.todo || s.db.jobs[id].status == Pending
    ensures var r := Run(s, Resets(|s.recon.todo|));
            && Feasible(stale, s, Resets(|s.recon.todo|))
            && id in r.db.jobs && r.db.jobs[id].status == Pending && r.holding == s.holding
    decreases |s.recon.todo|
  {
    if s.recon.todo != [] {
      var s' := Next(s, ResetNext);
      assert Resets(|s.recon.todo|)[1..] == Resets(|s.recon.todo| - 1);
      ResetsReach(stale, s', id);
    }
  }

  /** An unsafe read breaks exclusion: the reconciler goes on and one more claim puts a second live
      worker on the job, without another read. */
  lemma UnsafeReadBreaks(stale: nat, s: State, w: WorkerId, w': WorkerId, t: int, rows: seq<JobId>) returns (es: seq<Event>)
    requires Exclusive(s) && w in s.holding && w' !in s.holding
    requires Enabled(stale, s, ReadStale(t, rows)) && StaleRow(s.db, s.holding[w], t, stale)
    ensures NoReads(es) && Feasible(stale, Next(s, ReadStale(t, rows)), es)
    ensures !OneHolder(Run(Next(s, ReadStale(t, rows)), es))
  {
    var id := s.holding[w];
    var s1 := Next(s, ReadStale(t, rows));
    var resets := Resets(|rows|);
    ResetsReach(stale, s1, id);
    var s2 := Run(s1, resets);
    var last := [Claim(id, w')];
    assert last[1..] == [];
    assert Run(s2, last) == Next(s2, last[0]);
    RunConcat(stale, s1, resets, last);
    es := resets + last;
    var r := Run(s1, es);
    assert w in r.holding && w' in r.holding && r.holding[w] == id == r.holding[w'];
  }

  predicate NoReads(es: seq<Event>) { forall i :: 0 <= i < |es| ==> !es[i].ReadStale? }

  lemma {:induction false} NoReadsIsSafe(stale: nat, s: State, es: seq<Event>)
    requires NoReads(es)
    ensures SafeRun(stale, s, es)
    decreases |es|
  {
    if es != [] { NoReadsIsSafe(stale, Next(s, es[0]), es[1..]); }
  }

  /** Some worker is free. */
  lemma {:induction false} FreeWorker(held: set<WorkerId>) returns (w: WorkerId)
    ensures forall v :: v in held ==> v < w
    decreases |held|
  {
    if held == {} {
      w := 0;
    } else {
      var v :| v in held;
      var above := FreeWorker(held - {v});
      w := if above <= v then v + 1 else above;
      assert held == (held - {v}) + {v};
    }
  }

  /** Nothing that follows this state without another read puts two live workers on one job. */
  ghost predicate Harmless(stale: nat, s: State) {
    forall es :: NoReads(es) && Feasible(stale, s, es) ==> OneHolder(Run(s, es))
  }

  /** The guard is exact: a read is harmless if and only if no held job reads as stale. */
  lemma ReadHarmlessIffSafe(stale: nat, s: State, t: int, rows: seq<JobId>)
    requires Exclusive(s) && Enabled(stale, s, ReadStale(t, rows))
    ensures Harmless(stale, Next(s, ReadStale(t, rows))) <==> SafeRead(stale, s, ReadStale(t, rows))
  {
    var read := ReadStale(t, rows);
    var s' := Next(s, read);
    if SafeRead(stale, s, read) {
      ReadKeepsExclusion(stale, s, t, rows);
      forall es | NoReads(es) && Feasible(stale, s', es) ensures OneHolder(Run(s', es)) {
        NoReadsIsSafe(stale, s', es);
        AtMostOneHolder(stale, s', es);
      }
    } else {
      var w :| w in s.holding && StaleRow(s.db, s.holding[w], t, stale);
      var w' := FreeWorker(s.holding.Keys);
      var es := UnsafeReadBreaks(stale, s, w, w', t, rows);
      assert NoReads(es) && Feasible(stale, s', es) && !OneHolder(Run(s', es));
    }
  }

  const TWICE_HELD: seq<Event> := [Enqueue(0, "k"), Claim(0, 1), ReadStale(1, [0]), ResetNext, Claim(0, 2)]

  /** A run from the empty queue that gets there: the first claimant has not stamped yet when the
      reconciler reads, its job is reset, and a second worker claims it. */
  lemma TwoHoldersReached(stale: nat)
    ensures Feasible(stale, EMPTY, TWICE_HELD)
    ensures var r := Run(EMPTY, TWICE_HELD); 1 in r.holding && 2 in r.holding && r.holding[1] == r.holding[2]
  {
    var s1 := Next(EMPTY, TWICE_HELD[0]);
    var s2 := Next(s1, TWICE_HELD[1]);
    var s3 := Next(s2, TWICE_HELD[2]);
    var s4 := Next(s3, TWICE_HELD[3]);
    var s5 := Next(s4, TWICE_HELD[4]);
    var tail := TWICE_HELD[1..];
    assert tail[1..][1..][1..][1..] == [];
    assert Run(s4, [Claim(0, 2)]) == s5;
  }

  /** Timely stamps are more than is needed: a heartbeat thread that outlives its worker may keep
      fresh the row of a live worker that has not stamped at all. */
  lemma UntimelyButSafe(stale: nat)
    ensures var es := [Enqueue(0, "k"), Claim(0, 1), Stamp(0, 0, 7), ReadStale(0, [])];
            Feasible(stale, EMPTY, es) && SafeRun(stale, EMPTY, es) && !TimelyRun(stale, EMPTY, es)
  {
    var es := [Enqueue(0, "k"), Claim(0, 1), Stamp(0, 0, 7), ReadStale(0, [])];
    var s1 := Next(EMPTY, es[0]);
    var s2 := Next(s1, es[1]);
    var s3 := Next(s2, es[2]);
    assert es[1..][1..][1..] == [ReadStale(0, [])] && [ReadStale(0, [])][1..] == [];
    assert 1 in s3.holding && 1 !in s3.stamped;
    assert !TimelyRun(stale, s3, [ReadStale(0, [])]);
    assert !TimelyRun(stale, s2, es[1..][1..]);
    assert !TimelyRun(stale, s1, es[1..]);
  }

  // ---- the tables, updated in place -------------------------------------------------------

  class QueueDb {
    var jobs: map<JobId, Job>
    var beats: map<JobId, Beat>

    function Rows(): Tables reads this { Tables(jobs, beats) }

    /** `inserted` is false where the source raises on the unique request key. */
    method Enqueue(id: JobId, key: string) returns (inserted: bool)
      modifies this
      ensures (Rows(), inserted) == EnqueueTx(old(Rows()), id, key)
      ensures inserted <==> id !in old(jobs) && forall i :: i in old(jobs) ==> old(jobs)[i].requestKey != key
      ensures jobs == if inserted then old(jobs)[id := Job(key, Pending, None)] else old(jobs)
    {
      inserted := id !in jobs && !(exists i :: i in jobs && jobs[i].requestKey == key);
      if inserted { jobs := jobs[id := Job(key, Pending, None)]; }
    }

    method ClaimJob(id: JobId, w: WorkerId) returns (got: bool)
      modifies this
      ensures (Rows(), got) == ClaimTx(old(Rows()), id, w)
      ensures got <==> id in old(jobs) && old(jobs)[id].status == Pending
      ensures jobs == if got then old(jobs)[id := Job(old(jobs)[id].requestKey, Running, Some(w))] else old(jobs)
    {
      got := id in jobs && jobs[id].status == Pending;
      if got { jobs := jobs[id := jobs[id].(status := Running, claimedBy := Some(w))]; }
    }

    method FinishJob(id: JobId, ok: bool)
      modifies this
      ensures Rows() == FinishTx(old(Rows()), id, ok)
      ensures jobs == if id !in old(jobs) then old(jobs)
                      else var j := old(jobs)[id];
                           old(jobs)[id := Job(j.requestKey, if ok then Succeeded else Failed, j.claimedBy)]
    {
      if id in jobs { jobs := jobs[id := jobs[id].(status := if ok then Succeeded else Failed)]; }
    }

    /** `cmd_reconcile --reset` over the running rows its query returned. */
    method Reconcile(running: seq<JobId>, now: int, stale: nat) returns (abandoned: seq<JobId>)
      requires forall i, j :: 0 <= i < j < |running| ==> running[i] != running[j]
      requires forall id :: id in running <==> id in jobs && jobs[id].status == Running
      modifies this
      ensures IsStaleList(old(Rows()), now, stale, abandoned)
      ensures beats == old(beats) && jobs.Keys == old(jobs).Keys
      ensures forall id :: id in jobs ==>
                jobs[id] == if old(jobs)[id].status == Running
                               && (id !in old(beats) || old(beats)[id].at + stale < now)
                            then Job(old(jobs)[id].requestKey, Pending, None) else old(jobs)[id]
    {
      abandoned := [];
      for i := 0 to |running|
        invariant Rows() == old(Rows())
        invariant forall k, l :: 0 <= k < l < |abandoned| ==> abandoned[k] != abandoned[l]
        invariant forall id :: id in abandoned <==> id in running[..i] && StaleRow(Rows(), id, now, stale)
      {
        var id := running[i];
        assert id !in running[..i];
        if id !in beats || now - beats[id].at > stale { abandoned := abandoned + [id]; }
      }
      assert running[..|running|] == running;
      for i := 0 to |abandoned|
        invariant beats == old(beats) && jobs.Keys == old(jobs).Keys
        invariant forall id :: id in jobs ==>
                    jobs[id] == if id in abandoned[..i]
                                then old(jobs)[id].(status := Pending, claimedBy := None) else old(jobs)[id]
      {
        var id := abandoned[i];
        if id in jobs && jobs[id].status == Running {
          jobs := jobs[id := jobs[id].(status := Pending, claimedBy := None)];
        }
      }
      assert abandoned[..|abandoned|] == abandoned;
    }
  }

  /** One turn of the heartbeat loop: when it runs and whether its write raises. */
  datatype Tick = Tick(now: int, writeFails: bool)

  /** The last stamp a series of ticks leaves, on top of what was there. */
  function LastStamp(before: Option<Beat>, w: WorkerId, ticks: seq<Tick>): Option<Beat> {
    if ticks == [] then before
    else if !ticks[|ticks| - 1].writeFails then Some(Beat(w, ticks[|ticks| - 1].now))
    else LastStamp(before, w, ticks[..|ticks| - 1])
  }

  /** That is the stamp of the last tick whose write did not fail, or what was there if all failed. */
  lemma {:induction false} LastStampIs(before: Option<Beat>, w: WorkerId, ticks: seq<Tick>, i: int)
    requires -1 <= i < |ticks| && (i >= 0 ==> !ticks[i].writeFails)
    requires forall k :: i < k < |ticks| ==> ticks[k].writeFails
    ensures LastStamp(before, w, ticks) == if i < 0 then before else Some(Beat(w, ticks[i].now))
  {
    if i < |ticks| - 1 { LastStampIs(before, w, ticks[..|ticks| - 1], i); }
  }

  class Heartbeat {
    const db: QueueDb
    const job: JobId
    const worker: WorkerId
    var count: nat

    constructor (db: QueueDb, job: JobId, worker: WorkerId)
      ensures this.db == db && this.job == job && this.worker == worker && count == 0
    {
      this.db := db;
      this.job := job;
      this.worker := worker;
      count := 0;
    }

    function JobBeat(): Option<Beat> reads this, db {
      if job in db.beats then Some(db.beats[job]) else None
    }

    /** `_run` until the stop event is set after the last tick; failed writes are retried
        at the next tick and never end the loop. */
    method RunUntilStopped(ticks: seq<Tick>)
      requires ticks != []
      modifies this`count, db`beats
      ensures count == old(count) + |ticks|
      ensures JobBeat() == LastStamp(old(JobBeat()), worker, ticks)
      ensures forall id :: id != job ==> (id in db.beats <==> id in old(db.beats))
                                         && (id in db.beats ==> db.beats[id] == old(db.beats)[id])
    {
      var i := 0;
      while true
        invariant 0 <= i < |ticks|
        invariant count == old(count) + i
        invariant JobBeat() == LastStamp(old(JobBeat()), worker, ticks[..i])
        invariant forall id :: id != job ==> (id in db.beats <==> id in old(db.beats))
                                             && (id in db.beats ==> db.beats[id] == old(db.beats)[id])
        decreases |ticks| - i
      {
        count := count + 1;
        assert ticks[..i + 1][..i] == ticks[..i];
        if !ticks[i].writeFails {
          db.beats := db.beats[job := Beat(worker, ticks[i].now)];
        }
        i := i + 1;
        if i == |ticks| {
          assert ticks[..i] == ticks;
          return;
        }
      }
    }
  }
}
