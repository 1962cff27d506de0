/** The submission-retry loop of the poller: claim a failed row by compare-and-set,
    resubmit it, write success or failure, reclaim claims a dead poller left behind. */
module RetryLoop {
  import opened Prelude

  type JobId = nat
  type AnalysisId = nat

  datatype JobStatus = SubmissionFailed | SubmissionRetrying | Queued | Mirrored(platform: string)

  datatype Job = Job(isAnalysis: bool, analysis: Option<AnalysisId>, status: JobStatus, attempts: nat,
                     completedAt: Option<int>, updatedAt: int, insertedAt: int, remoteId: Option<string>)

  datatype AnalysisStatus = Pending | Error | OtherStatus

  datatype Analysis = Analysis(status: AnalysisStatus, deleted: bool, failureReason: Option<string>)

  datatype Config = Config(maxRetries: nat, base: nat, stale: nat)

  datatype Db = Db(jobs: map<JobId, Job>, analyses: map<AnalysisId, Analysis>)

  /** What the candidate query returns about a row. */
  datatype Row = Row(id: JobId, analysis: AnalysisId, attempts: nat, completedAt: Option<int>)

  function Pow2(n: nat): (r: nat)
    ensures r >= 1
  {
    if n == 0 then 1 else 2 * Pow2(n - 1)
  }

  // ---- the candidate query ----------------------------------------------------

  predicate Failed(db: Db, id: JobId) {
    id in db.jobs && db.jobs[id].isAnalysis && db.jobs[id].status == SubmissionFailed && db.jobs[id].analysis.Some?
  }

  predicate Newer(j: Job, id: JobId, j': Job, id': JobId) {
    j.insertedAt > j'.insertedAt || (j.insertedAt == j'.insertedAt && id > id')
  }

  /** First among the rows of its analysis that are still SUBMISSION FAILED. */
  ghost predicate RankedFirst(db: Db, id: JobId) {
    Failed(db, id) &&
    forall id' | Failed(db, id') && db.jobs[id'].analysis == db.jobs[id].analysis && id' != id ::
      Newer(db.jobs[id], id, db.jobs[id'], id')
  }

  ghost predicate Candidate(cfg: Config, db: Db, id: JobId) {
    && RankedFirst(db, id)
    && db.jobs[id].analysis.value in db.analyses
    && !db.analyses[db.jobs[id].analysis.value].deleted
    && db.analyses[db.jobs[id].analysis.value].status == Pending
    && db.jobs[id].attempts < cfg.maxRetries
  }

  ghost predicate IsCandidateList(cfg: Config, db: Db, rows: seq<Row>) {
    && (forall i, j :: 0 <= i < j < |rows| ==> rows[i].id != rows[j].id)
    && (forall i :: 0 <= i < |rows| ==>
          Candidate(cfg, db, rows[i].id) && rows[i] == RowOf(rows[i].id, db.jobs[rows[i].id]))
    && (forall id :: Candidate(cfg, db, id) ==> exists i :: 0 <= i < |rows| && rows[i].id == id)
  }

  function RowOf(id: JobId, j: Job): Row
    requires j.analysis.Some?
  {
    Row(id, j.analysis.value, j.attempts, j.completedAt)
  }

  predicate Eligible(cfg: Config, r: Row, now: int) {
    r.completedAt.Some? && now >= r.completedAt.value + cfg.base * Pow2(r.attempts)
  }

  // ---- transactions -------------------------------------------------------------

  function ClaimTx(db: Db, r: Row, now: int): (Db, bool) {
    if r.id in db.jobs && db.jobs[r.id].status == SubmissionFailed
       && r.analysis in db.analyses && !db.analyses[r.analysis].deleted
    then (db.(jobs := db.jobs[r.id := db.jobs[r.id].(status := SubmissionRetrying, updatedAt := now)]), true)
    else (db, false)
  }

  predicate Exhausted(cfg: Config, attempts: nat, permanent: bool) {
    attempts >= cfg.maxRetries || permanent
  }

  /** The failure write: the new count comes from the row as read, not from the table. */
  function FailTx(cfg: Config, db: Db, r: Row, now: int, permanent: bool, reason: string): Db {
    var jobs :=
      if r.id in db.jobs && db.jobs[r.id].status == SubmissionRetrying then
        db.jobs[r.id := db.jobs[r.id].(status := SubmissionFailed, attempts := r.attempts + 1,
                                       completedAt := Some(now), updatedAt := now)]
      else db.jobs;
    var analyses :=
      if r.analysis in db.analyses then
        var a := db.analyses[r.analysis].(failureReason := Some(reason));
        db.analyses[r.analysis := if Exhausted(cfg, r.attempts + 1, permanent) then a.(status := Error) else a]
      else db.analyses;
    Db(jobs, analyses)
  }

  function AcceptTx(db: Db, r: Row, now: int, remoteId: string): Db {
    var jobs :=
      if r.id in db.jobs && db.jobs[r.id].status == SubmissionRetrying then
        var j := db.jobs[r.id];
        db.jobs[r.id := j.(status := Queued, attempts := j.attempts + 1, completedAt := None,
                           updatedAt := now, remoteId := Some(remoteId))]
      else db.jobs;
    var analyses :=
      if r.analysis in db.analyses then
        db.analyses[r.analysis := db.analyses[r.analysis].(failureReason := None)]
      else db.analyses;
    Db(jobs, analyses)
  }

  predicate Stale(cfg: Config, j: Job, now: int) {
    j.isAnalysis && j.status == SubmissionRetrying && j.updatedAt < now - cfg.stale
  }

  function Reclaimed(j: Job, now: int): Job {
    j.(status := SubmissionFailed, attempts := j.attempts + 1, completedAt := Some(now), updatedAt := now)
  }

  function ReclaimTx(cfg: Config, db: Db, now: int): Db {
    db.(jobs := map id | id in db.jobs ::
          if Stale(cfg, db.jobs[id], now) then Reclaimed(db.jobs[id], now) else db.jobs[id])
  }

  // ---- one poller as a step system ------------------------------------------------

  datatype Poller =
    | Idle
    | Batch(now: int, rest: seq<Row>)
    | Working(row: Row, now: int, rest: seq<Row>)

  /** What the run remembers of a row: its first failure time and count, the claims
      that succeeded on it, and the increments of its count. */
  datatype History = History(firstFailed: Option<int>, firstCount: nat, claims: nat, increments: nat)

  datatype State = State(db: Db, poller: Poller, clock: int, history: map<JobId, History>)

  datatype Event =
    | Insert(id: JobId, job: Job)
    | External(after: Db)
    | BeginBatch(t: int, rows: seq<Row>)
    | SkipRow
    | TryClaim(t: int)
    | Accepted(t: int, remoteId: string)
    | Rejected(t: int, permanent: bool, reason: string)
    | WriteLost
    | EndBatch
    | Reclaim(t: int)
    | Crash

  predicate InLoop(s: JobStatus) { s == SubmissionFailed || s == SubmissionRetrying }

  /** A row loses its analysis or keeps it. */
  predicate KeepsOrLoses(before: Option<AnalysisId>, after: Option<AnalysisId>) { after == before || after.None? }

  /** What other processes may do. Deleting a submission clears the analysis of its rows; deleting an
      analysis stamps its failed row. Otherwise they leave alone the rows of this loop, and of no row
      do they write the count or a status of this loop. */
  ghost predicate Outside(before: Db, after: Db) {
    && before.jobs.Keys == after.jobs.Keys
    && forall id :: id in before.jobs ==>
         var j, j' := before.jobs[id], after.jobs[id];
         if j.status == SubmissionRetrying then KeepsOrLoses(j.analysis, j'.analysis) && j' == j.(analysis := j'.analysis)
         else if j.status == SubmissionFailed then
           KeepsOrLoses(j.analysis, j'.analysis) && j' == j.(analysis := j'.analysis, updatedAt := j'.updatedAt)
         else !InLoop(j'.status) && j'.attempts == j.attempts
  }

  ghost predicate Enabled(cfg: Config, s: State, e: Event) {
    match e
    case Insert(id, job) => id !in s.db.jobs && job.status != SubmissionRetrying
    case External(after) => Outside(s.db, after)
    case BeginBatch(t, rows) => s.poller.Idle? && t >= s.clock && IsCandidateList(cfg, s.db, rows)
    case SkipRow => s.poller.Batch? && s.poller.rest != [] && !Eligible(cfg, s.poller.rest[0], s.poller.now)
    case TryClaim(t) =>
      s.poller.Batch? && s.poller.rest != [] && Eligible(cfg, s.poller.rest[0], s.poller.now) && t >= s.clock
    case Accepted(t, _) => s.poller.Working? && t >= s.clock
    case Rejected(t, _, _) => s.poller.Working? && t >= s.clock
    case WriteLost => s.poller.Working?
    case EndBatch => s.poller.Batch? && s.poller.rest == []
    case Reclaim(t) => s.poller.Idle? && t >= s.clock
    case Crash => true
  }

  function Claimed(h: map<JobId, History>, id: JobId): map<JobId, History> {
    if id in h then h[id := h[id].(claims := h[id].claims + 1)] else h
  }

  function Incremented(h: map<JobId, History>, id: JobId): map<JobId, History> {
    if id in h then h[id := h[id].(increments := h[id].increments + 1)] else h
  }

  function Next(cfg: Config, s: State, e: Event): State {
    match e
    case Insert(id, job) =>
      s.(db := s.db.(jobs := s.db.jobs[id := job]),
         history := s.history[id := History(job.completedAt, job.attempts, 0, 0)])
    case External(after) => s.(db := after)
    case BeginBatch(t, rows) => s.(poller := Batch(t, rows), clock := t)
    case SkipRow =>
      if s.poller.Batch? && s.poller.rest != [] then s.(poller := Batch(s.poller.now, s.poller.rest[1..])) else s
    case TryClaim(t) =>
      if s.poller.Batch? && s.poller.rest != [] then
        var r, rest := s.poller.rest[0], s.poller.rest[1..];
        var (db, won) := ClaimTx(s.db, r, t);
        if won then State(db, Working(r, s.poller.now, rest), t, Claimed(s.history, r.id))
        else s.(poller := Batch(s.poller.now, rest), clock := t)
      else s
    case Accepted(t, remoteId) =>
      if s.poller.Working? then
        State(AcceptTx(s.db, s.poller.row, t, remoteId), Batch(s.poller.now, s.poller.rest), t,
              Incremented(s.history, s.poller.row.id))
      else s
    case Rejected(t, permanent, reason) =>
      if s.poller.Working? then
        State(FailTx(cfg, s.db, s.poller.row, t, permanent, reason), Batch(s.poller.now, s.poller.rest), t,
              Incremented(s.history, s.poller.row.id))
      else s
    case WriteLost =>
      if s.poller.Working? then s.(poller := Batch(s.poller.now, s.poller.rest)) else s
    case EndBatch => s.(poller := Idle)
    case Reclaim(t) =>
      State(ReclaimTx(cfg, s.db, t), s.poller, t,
            map id | id in s.history ::
              if id in s.db.jobs && Stale(cfg, s.db.jobs[id], t)
              then s.history[id].(increments := s.history[id].increments + 1)
              else s.history[id])
    case Crash => s.(poller := Idle)
  }

  ghost predicate Feasible(cfg: Config, s: State, es: seq<Event>)
    decreases |es|
  {
    es == [] || (Enabled(cfg, s, es[0]) && Feasible(cfg, Next(cfg, s, es[0]), es[1..]))
  }

  function Run(cfg: Config, s: State, es: seq<Event>): State
    decreases |es|
  {
    if es == [] then s else Run(cfg, Next(cfg, s, es[0]), es[1..])
  }

  /** A poller that is not running, over a table without claims. */
  ghost predicate Initial(s: State) {
    && s.poller == Idle
    && s.history.Keys == s.db.jobs.Keys
    && forall id :: id in s.db.jobs ==>
         s.db.jobs[id].status != SubmissionRetrying &&
         s.history[id] == History(s.db.jobs[id].completedAt, s.db.jobs[id].attempts, 0, 0)
  }

  // ---- invariant -------------------------------------------------------------------

  /** The earliest time of the k-th claim of a row that first failed at c0 with a0 attempts. */
  function EarliestClaim(cfg: Config, c0: int, a0: nat, k: nat): int {
    c0 + cfg.base * Pow2(a0) * (Pow2(k) - 1)
  }

  ghost predicate JobInv(cfg: Config, clock: int, j: Job, h: History) {
    if j.status == SubmissionRetrying then
      && h.claims >= 1 && h.increments == h.claims - 1
      && j.attempts == h.firstCount + h.increments && j.attempts < cfg.maxRetries
      && h.firstFailed.Some?
      && EarliestClaim(cfg, h.firstFailed.value, h.firstCount, h.claims) <= j.updatedAt <= clock
    else
      && h.increments == h.claims
      && j.attempts == h.firstCount + h.increments
      && (h.claims > 0 ==> j.attempts <= cfg.maxRetries)
      && (j.status == SubmissionFailed ==> FailedInv(cfg, j.completedAt, h))
  }

  ghost predicate FailedInv(cfg: Config, completedAt: Option<int>, h: History) {
    if h.claims == 0 then completedAt == h.firstFailed
    else
      && completedAt.Some? && h.firstFailed.Some?
      && EarliestClaim(cfg, h.firstFailed.value, h.firstCount, h.claims) <= completedAt.value
  }

  ghost predicate RestInv(cfg: Config, db: Db, rest: seq<Row>) {
    && (forall i, j :: 0 <= i < j < |rest| ==> rest[i].id != rest[j].id)
    && (forall i :: 0 <= i < |rest| ==>
          && rest[i].id in db.jobs
          && db.jobs[rest[i].id].status == SubmissionFailed
          && db.jobs[rest[i].id].attempts == rest[i].attempts < cfg.maxRetries
          && db.jobs[rest[i].id].completedAt == rest[i].completedAt
          && KeepsOrLoses(Some(rest[i].analysis), db.jobs[rest[i].id].analysis))
  }

  ghost predicate PollerInv(cfg: Config, s: State) {
    match s.poller
    case Idle => true
    case Batch(now, rest) => now <= s.clock && RestInv(cfg, s.db, rest)
    case Working(row, now, rest) =>
      && now <= s.clock && RestInv(cfg, s.db, rest)
      && (forall i :: 0 <= i < |rest| ==> rest[i].id != row.id)
      && row.id in s.db.jobs
      && s.db.jobs[row.id].status == SubmissionRetrying
      && s.db.jobs[row.id].attempts == row.attempts
      && KeepsOrLoses(Some(row.analysis), s.db.jobs[row.id].analysis)
  }

  ghost predicate Inv(cfg: Config, s: State) {
    && s.history.Keys == s.db.jobs.Keys
    && (forall id :: id in s.db.jobs ==> JobInv(cfg, s.clock, s.db.jobs[id], s.history[id]))
    && PollerInv(cfg, s)
  }

  lemma {:induction false} Pow2Add(m: nat, n: nat)
    ensures Pow2(m + n) == Pow2(m) * Pow2(n)
  {
    if m > 0 { Pow2Add(m - 1, n); }
  }

  /** One more backoff period takes the k-th bound to the next one. */
  lemma BackoffAdds(cfg: Config, c0: int, a0: nat, k: nat)
    ensures EarliestClaim(cfg, c0, a0, k) + cfg.base * Pow2(a0 + k) == EarliestClaim(cfg, c0, a0, k + 1)
  {
    Pow2Add(a0, k);
    DoubleMinusOne(cfg.base, Pow2(a0), Pow2(k));
  }

  lemma DoubleMinusOne(b: int, p: int, q: int)
    ensures b * p * (q - 1) + b * (p * q) == b * p * (2 * q - 1)
  {
  }

  /** The row a claim is tried on next is as it was read, and its claim keeps what is known of it. */
  lemma ClaimedJob(cfg: Config, s: State, t: int)
    requires Inv(cfg, s) && Enabled(cfg, s, TryClaim(t)) && ClaimTx(s.db, s.poller.rest[0], t).1
    ensures var id := s.poller.rest[0].id;
            var s' := Next(cfg, s, TryClaim(t));
            JobInv(cfg, t, s'.db.jobs[id], s'.history[id])
  {
    var h := s.history[s.poller.rest[0].id];
    BackoffAdds(cfg, h.firstFailed.value, h.firstCount, h.claims);
  }

  lemma LaterJob(cfg: Config, clock: int, t: int, j: Job, h: History)
    requires JobInv(cfg, clock, j, h) && clock <= t
    ensures JobInv(cfg, t, j, h)
  {
  }

  lemma RestAfterClaim(cfg: Config, db: Db, db': Db, rest: seq<Row>)
    requires rest != [] && RestInv(cfg, db, rest)
    requires forall id :: id in db.jobs && id != rest[0].id ==> id in db'.jobs && db'.jobs[id] == db.jobs[id]
    ensures RestInv(cfg, db', rest[1..])
  {
  }

  lemma ClaimStep(cfg: Config, s: State, t: int)
    requires Inv(cfg, s) && Enabled(cfg, s, TryClaim(t))
    ensures Inv(cfg, Next(cfg, s, TryClaim(t)))
  {
    var s' := Next(cfg, s, TryClaim(t));
    RestAfterClaim(cfg, s.db, s'.db, s.poller.rest);
    if ClaimTx(s.db, s.poller.rest[0], t).1 { ClaimedJob(cfg, s, t); }
    forall id | id in s'.db.jobs ensures JobInv(cfg, t, s'.db.jobs[id], s'.history[id]) {
      if s'.db.jobs[id] == s.db.jobs[id] { LaterJob(cfg, s.clock, t, s.db.jobs[id], s.history[id]); }
    }
  }

  lemma WriteStep(cfg: Config, s: State, e: Event)
    requires Inv(cfg, s) && Enabled(cfg, s, e)
    requires e.Accepted? || e.Rejected? || e.WriteLost?
    ensures Inv(cfg, Next(cfg, s, e))
  {
  }

  lemma ReclaimStep(cfg: Config, s: State, t: int)
    requires Inv(cfg, s) && Enabled(cfg, s, Reclaim(t))
    ensures Inv(cfg, Next(cfg, s, Reclaim(t)))
  {
  }

  lemma InsertStep(cfg: Config, s: State, id: JobId, job: Job)
    requires Inv(cfg, s) && Enabled(cfg, s, Insert(id, job))
    ensures Inv(cfg, Next(cfg, s, Insert(id, job)))
  {
  }

  lemma ExternalRest(cfg: Config, before: Db, after: Db, rest: seq<Row>)
    requires Outside(before, after) && RestInv(cfg, before, rest)
    ensures RestInv(cfg, after, rest)
  {
  }

  lemma ExternalStep(cfg: Config, s: State, after: Db)
    requires Inv(cfg, s) && Outside(s.db, after)
    ensures Inv(cfg, Next(cfg, s, External(after)))
  {
    if !s.poller.Idle? { ExternalRest(cfg, s.db, after, s.poller.rest); }
    forall id | id in after.jobs ensures JobInv(cfg, s.clock, after.jobs[id], s.history[id]) {
      assert JobInv(cfg, s.clock, s.db.jobs[id], s.history[id]);
    }
  }

  lemma StepKeepsInv(cfg: Config, s: State, e: Event)
    requires Inv(cfg, s) && Enabled(cfg, s, e)
    ensures Inv(cfg, Next(cfg, s, e))
  {
    if e.TryClaim? {
      ClaimStep(cfg, s, e.t);
    } else if e.Accepted? || e.Rejected? || e.WriteLost? {
      WriteStep(cfg, s, e);
    } else if e.Reclaim? {
      ReclaimStep(cfg, s, e.t);
    } else if e.Insert? {
      InsertStep(cfg, s, e.id, e.job);
    } else if e.External? {
      ExternalStep(cfg, s, e.after);
    } else if e.BeginBatch? {
      assert RestInv(cfg, s.db, e.rows);
    }
  }

  lemma {:induction false} RunKeepsInv(cfg: Config, s: State, es: seq<Event>)
    requires Inv(cfg, s) && Feasible(cfg, s, es)
    ensures Inv(cfg, Run(cfg, s, es))
    decreases |es|
  {
    if es != [] {
      StepKeepsInv(cfg, s, es[0]);
      RunKeepsInv(cfg, Next(cfg, s, es[0]), es[1..]);
    }
  }

  /** Over every run with crashes and restarts: a claimed row is below the maximum, a claim
      is matched by one increment unless it is still open, and the claims on a row are
      bounded by the attempts it had left. */
  lemma RetryBudget(cfg: Config, s: State, es: seq<Event>, id: JobId)
    requires Initial(s) && Feasible(cfg, s, es)
    requires id in Run(cfg, s, es).db.jobs
    ensures var r := Run(cfg, s, es);
            && id in r.history
            && var j, h := r.db.jobs[id], r.history[id];
            && (j.status == SubmissionRetrying ==> j.attempts < cfg.maxRetries)
            && h.claims - h.increments == (if j.status == SubmissionRetrying then 1 else 0)
            && j.attempts == h.firstCount + h.increments
            && (h.claims > 0 ==> h.claims <= cfg.maxRetries - h.firstCount)
  {
    RunKeepsInv(cfg, s, es);
  }

  lemma {:induction false} RunSplit(cfg: Config, s: State, es: seq<Event>, e: Event)
    ensures Run(cfg, s, es + [e]) == Next(cfg, Run(cfg, s, es), e)
    ensures Feasible(cfg, s, es + [e]) == (Feasible(cfg, s, es) && Enabled(cfg, Run(cfg, s, es), e))
    decreases |es|
  {
    if es == [] {
      assert Run(cfg, Next(cfg, s, e), []) == Next(cfg, s, e);
    } else {
      assert (es + [e])[1..] == es[1..] + [e];
      RunSplit(cfg, Next(cfg, s, es[0]), es[1..], e);
    }
  }

  lemma ClaimWaits(cfg: Config, s: State, t: int, id: JobId)
    requires Inv(cfg, s) && Enabled(cfg, s, TryClaim(t)) && id in s.history && id in Next(cfg, s, TryClaim(t)).history
    requires Next(cfg, s, TryClaim(t)).history[id].claims > s.history[id].claims
    ensures var h := Next(cfg, s, TryClaim(t)).history[id];
            h.firstFailed.Some? && t >= EarliestClaim(cfg, h.firstFailed.value, h.firstCount, h.claims)
  {
    var h := s.history[id];
    BackoffAdds(cfg, h.firstFailed.value, h.firstCount, h.claims);
  }

  /** Exponential backoff: the k-th successful claim of a row comes no earlier than
      base * 2^a0 * (2^k - 1) after its first failure, whatever ended the claims between. */
  lemma BackoffBound(cfg: Config, s: State, es: seq<Event>, t: int, id: JobId)
    requires Initial(s) && Feasible(cfg, s, es + [TryClaim(t)])
    requires id in Run(cfg, s, es).history && id in Run(cfg, s, es + [TryClaim(t)]).history
    requires Run(cfg, s, es + [TryClaim(t)]).history[id].claims > Run(cfg, s, es).history[id].claims
    ensures var h := Run(cfg, s, es + [TryClaim(t)]).history[id];
            && h.firstFailed.Some?
            && t >= h.firstFailed.value + cfg.base * Pow2(h.firstCount) * (Pow2(h.claims) - 1)
  {
    RunSplit(cfg, s, es, TryClaim(t));
    RunKeepsInv(cfg, s, es);
    ClaimWaits(cfg, Run(cfg, s, es), t, id);
  }

  predicate UsedUp(cfg: Config, db: Db, id: JobId) {
    id in db.jobs && db.jobs[id].status == SubmissionFailed && db.jobs[id].attempts >= cfg.maxRetries
  }

  /** A failed row without attempts left stays one in every run, and is never a candidate again. */
  lemma {:induction false} UsedUpForGood(cfg: Config, s: State, es: seq<Event>, id: JobId)
    requires Inv(cfg, s) && Feasible(cfg, s, es) && UsedUp(cfg, s.db, id)
    ensures UsedUp(cfg, Run(cfg, s, es).db, id) && !Candidate(cfg, Run(cfg, s, es).db, id)
    decreases |es|
  {
    if es != [] {
      StepKeepsInv(cfg, s, es[0]);
      UsedUpForGood(cfg, Next(cfg, s, es[0]), es[1..], id);
    }
  }

  predicate LoopOnly(es: seq<Event>) { forall i :: 0 <= i < |es| ==> !es[i].Insert? && !es[i].External? }

  /** No row to retry, none claimed, and a poller with nothing at hand. */
  ghost predicate AtRest(cfg: Config, s: State) {
    && (s.poller == Idle || (s.poller.Batch? && s.poller.rest == []))
    && forall id :: id in s.db.jobs ==> !Candidate(cfg, s.db, id) && s.db.jobs[id].status != SubmissionRetrying
  }

  /** Left to itself such a loop writes nothing any more, to rows or to analyses. */
  lemma {:induction false} RestIsFinal(cfg: Config, s: State, es: seq<Event>)
    requires AtRest(cfg, s) && Feasible(cfg, s, es) && LoopOnly(es)
    ensures Run(cfg, s, es).db == s.db
    decreases |es|
  {
    if es != [] {
      var e := es[0];
      if e.BeginBatch? { assert e.rows == [] || Candidate(cfg, s.db, e.rows[0].id); }
      assert Next(cfg, s, e).db.jobs == s.db.jobs;
      RestIsFinal(cfg, Next(cfg, s, e), es[1..]);
    }
  }

  const PENDING_ANALYSIS: Analysis := Analysis(Pending, false, None)

  const WAITING: State := State(Db(map[], map[7 := PENDING_ANALYSIS]), Idle, 0, map[])

  /** The row of a submission that failed once, as a worker inserts it. */
  const FAILED_ONCE: Job := Job(true, Some(7), SubmissionFailed, 1, Some(0), 0, 0, None)

  /** One failed row of one pending analysis, and an idle poller. */
  ghost predicate Lone(s: State) {
    && s.poller == Idle
    && s.db.jobs.Keys == {1} && s.db.analyses == map[7 := PENDING_ANALYSIS]
    && var j := s.db.jobs[1];
       j.isAnalysis && j.analysis == Some(7) && j.status == SubmissionFailed && j.completedAt.Some?
  }

  lemma LoneIsCandidate(cfg: Config, s: State)
    requires Lone(s) && s.db.jobs[1].attempts < cfg.maxRetries
    ensures IsCandidateList(cfg, s.db, [RowOf(1, s.db.jobs[1])])
  {
    assert RankedFirst(s.db, 1);
    assert [RowOf(1, s.db.jobs[1])][0].id == 1;
  }

  lemma FirstStep(cfg: Config, s: State, e: Event, es: seq<Event>)
    ensures Run(cfg, s, [e] + es) == Run(cfg, Next(cfg, s, e), es)
    ensures Feasible(cfg, s, [e] + es) <==> Enabled(cfg, s, e) && Feasible(cfg, Next(cfg, s, e), es)
  {
    assert ([e] + es)[1..] == es;
  }

  /** The row is read once eligible, claimed, dropped by a crash, and reclaimed when stale. */
  lemma DroppedClaim(cfg: Config, s: State) returns (es: seq<Event>)
    requires Lone(s) && s.db.jobs[1].attempts < cfg.maxRetries
    ensures Feasible(cfg, s, es) && Lone(Run(cfg, s, es))
    ensures Run(cfg, s, es).db.jobs[1].attempts == s.db.jobs[1].attempts + 1
  {
    var j := s.db.jobs[1];
    var due := j.completedAt.value + cfg.base * Pow2(j.attempts);
    var t := if s.clock >= due then s.clock else due;
    var row := RowOf(1, j);
    LoneIsCandidate(cfg, s);
    var a, b, c, d := BeginBatch(t, [row]), TryClaim(t), Crash, Reclaim(t + cfg.stale + 1);
    var s1 := Next(cfg, s, a);
    var s2 := Next(cfg, s1, b);
    var s3 := Next(cfg, s2, c);
    es := [a] + ([b] + ([c] + ([d] + [])));
    FirstStep(cfg, s3, d, []);
    FirstStep(cfg, s2, c, [d] + []);
    FirstStep(cfg, s1, b, [c] + ([d] + []));
    FirstStep(cfg, s, a, [b] + ([c] + ([d] + [])));
  }

  lemma {:induction false} DroppedToTheLast(cfg: Config, s: State) returns (es: seq<Event>)
    requires Lone(s) && s.db.jobs[1].attempts <= cfg.maxRetries
    ensures Feasible(cfg, s, es) && Lone(Run(cfg, s, es)) && Run(cfg, s, es).db.jobs[1].attempts == cfg.maxRetries
    decreases cfg.maxRetries - s.db.jobs[1].attempts
  {
    if s.db.jobs[1].attempts == cfg.maxRetries {
      es := [];
    } else {
      var first := DroppedClaim(cfg, s);
      var rest := DroppedToTheLast(cfg, Run(cfg, s, first));
      RunConcat(cfg, s, first, rest);
      es := first + rest;
    }
  }

  /** Reclaims alone exhaust a row and tell nobody: whatever the configuration, a run from a single
      failed submission, of which the poller drops every claim, ends with the row out of attempts and
      its analysis still pending. The row is never a candidate again, and as long as only the loop
      runs nothing changes any more. */
  lemma ReclaimExhaustsSilently(cfg: Config) returns (es: seq<Event>)
    requires cfg.maxRetries >= 1
    ensures Initial(WAITING) && Feasible(cfg, WAITING, [Insert(1, FAILED_ONCE)] + es)
    ensures var r := Run(cfg, WAITING, [Insert(1, FAILED_ONCE)] + es);
            && UsedUp(cfg, r.db, 1) && r.db.jobs[1].analysis == Some(7)
            && r.db.analyses == map[7 := PENDING_ANALYSIS]
            && (forall later :: Feasible(cfg, r, later) ==> !Candidate(cfg, Run(cfg, r, later).db, 1))
            && (forall later :: Feasible(cfg, r, later) && LoopOnly(later) ==> Run(cfg, r, later).db == r.db)
  {
    var s := Next(cfg, WAITING, Insert(1, FAILED_ONCE));
    es := DroppedToTheLast(cfg, s);
    FirstStep(cfg, WAITING, Insert(1, FAILED_ONCE), es);
    RunKeepsInv(cfg, WAITING, [Insert(1, FAILED_ONCE)] + es);
    var r := Run(cfg, s, es);
    forall later | Feasible(cfg, r, later) ensures !Candidate(cfg, Run(cfg, r, later).db, 1) {
      UsedUpForGood(cfg, r, later, 1);
    }
    forall later | Feasible(cfg, r, later) && LoopOnly(later) ensures Run(cfg, r, later).db == r.db {
      RestIsFinal(cfg, r, later);
    }
  }

  /** A step of the loop that takes a row to the maximum marks its analysis as failed
      if and only if that step is a refused resubmission. */
  lemma ExhaustionTold(cfg: Config, s: State, e: Event, id: JobId)
    requires Inv(cfg, s) && Enabled(cfg, s, e) && !e.Insert? && !e.External?
    requires id in s.db.jobs && s.db.jobs[id].attempts < cfg.maxRetries
    requires s.db.jobs[id].analysis.Some? && s.db.jobs[id].analysis.value in s.db.analyses
    requires s.db.analyses[s.db.jobs[id].analysis.value].status == Pending
    requires Failed(Next(cfg, s, e).db, id) && Next(cfg, s, e).db.jobs[id].attempts >= cfg.maxRetries
    ensures Next(cfg, s, e).db.analyses[s.db.jobs[id].analysis.value].status == Error <==> e.Rejected?
  {
    assert JobInv(cfg, s.clock, s.db.jobs[id], s.history[id]);
    if e.TryClaim? { assert s.poller.rest[0].id in s.db.jobs; }
  }

  /** Two pollers that read the same row lose an attempt: two failed tries, one increment. */
  lemma TwoPollersLoseACount(cfg: Config, db: Db, r: Row, t: int)
    requires ClaimTx(db, r, t).1 && r.attempts == db.jobs[r.id].attempts
    ensures var first := FailTx(cfg, ClaimTx(db, r, t).0, r, t, false, "");
            var second := FailTx(cfg, ClaimTx(first, r, t).0, r, t, false, "");
            && ClaimTx(first, r, t).1
            && second.jobs[r.id].attempts == db.jobs[r.id].attempts + 1
  {
  }

  // ---- the batch over the tables ---------------------------------------------------

  datatype Outcome = Submitted(remoteId: string) | Refused(permanent: bool, reason: string) | NotWritten

  /** What the world answers for one candidate: the clock at the claim and at the try. */
  datatype Answer = Answer(claimAt: int, tryAt: int, outcome: Outcome)

  function AfterTry(cfg: Config, db: Db, r: Row, a: Answer): Db {
    match a.outcome
    case Submitted(remoteId) => AcceptTx(db, r, a.tryAt, remoteId)
    case Refused(permanent, reason) => FailTx(cfg, db, r, a.tryAt, permanent, reason)
    case NotWritten => db
  }

  function AfterRow(cfg: Config, db: Db, r: Row, now: int, a: Answer): Db {
    if !Eligible(cfg, r, now) then db
    else
      var (claimed, won) := ClaimTx(db, r, a.claimAt);
      if won then AfterTry(cfg, claimed, r, a) else db
  }

  function AfterRows(cfg: Config, db: Db, rows: seq<Row>, now: int, answers: seq<Answer>): Db
    requires |answers| == |rows|
    decreases |rows|
  {
    if rows == [] then db
    else AfterRows(cfg, AfterRow(cfg, db, rows[0], now, answers[0]), rows[1..], now, answers[1..])
  }

  lemma {:induction false} AfterRowsSnoc(cfg: Config, db: Db, rows: seq<Row>, now: int, answers: seq<Answer>, r: Row, a: Answer)
    requires |answers| == |rows|
    ensures AfterRows(cfg, db, rows + [r], now, answers + [a])
         == AfterRow(cfg, AfterRows(cfg, db, rows, now, answers), r, now, a)
    decreases |rows|
  {
    if rows == [] {
      assert AfterRows(cfg, AfterRow(cfg, db, r, now, a), [], now, []) == AfterRow(cfg, db, r, now, a);
    } else {
      assert (rows + [r])[1..] == rows[1..] + [r];
      assert (answers + [a])[1..] == answers[1..] + [a];
      AfterRowsSnoc(cfg, AfterRow(cfg, db, rows[0], now, answers[0]), rows[1..], now, answers[1..], r, a);
    }
  }

  /** The clock never runs backwards over the answers of a batch. */
  ghost predicate Clocked(clock: int, answers: seq<Answer>)
    decreases |answers|
  {
    answers == [] || (clock <= answers[0].claimAt <= answers[0].tryAt && Clocked(answers[0].tryAt, answers[1..]))
  }

  function TryEvent(a: Answer): Event {
    match a.outcome
    case Submitted(remoteId) => Accepted(a.tryAt, remoteId)
    case Refused(permanent, reason) => Rejected(a.tryAt, permanent, reason)
    case NotWritten => WriteLost
  }

  /** The events one candidate gives rise to. */
  function RowEvents(cfg: Config, db: Db, r: Row, now: int, a: Answer): seq<Event> {
    if !Eligible(cfg, r, now) then [SkipRow]
    else if ClaimTx(db, r, a.claimAt).1 then [TryClaim(a.claimAt), TryEvent(a)]
    else [TryClaim(a.claimAt)]
  }

  lemma {:induction false} RunConcat(cfg: Config, s: State, es: seq<Event>, fs: seq<Event>)
    ensures Run(cfg, s, es + fs) == Run(cfg, Run(cfg, s, es), fs)
    ensures Feasible(cfg, s, es + fs) == (Feasible(cfg, s, es) && Feasible(cfg, Run(cfg, s, es), fs))
    decreases |es|
  {
    if es == [] {
      assert es + fs == fs;
    } else {
      assert (es + fs)[1..] == es[1..] + fs;
      RunConcat(cfg, Next(cfg, s, es[0]), es[1..], fs);
    }
  }

  lemma RowIsRun(cfg: Config, s: State, a: Answer)
    requires s.poller.Batch? && s.poller.rest != []
    requires s.clock <= a.claimAt <= a.tryAt
    ensures var r, now := s.poller.rest[0], s.poller.now;
            var es := RowEvents(cfg, s.db, r, now, a);
            && Feasible(cfg, s, es)
            && Run(cfg, s, es).db == AfterRow(cfg, s.db, r, now, a)
            && Run(cfg, s, es).poller == Batch(now, s.poller.rest[1..])
            && Run(cfg, s, es).clock <= a.tryAt
  {
    var r, now := s.poller.rest[0], s.poller.now;
    var es := RowEvents(cfg, s.db, r, now, a);
    assert Feasible(cfg, Next(cfg, s, es[0]), es[1..]) by {
      if |es| == 2 { assert es[1..][0] == TryEvent(a) && es[1..][1..] == []; }
    }
    if |es| == 1 {
      assert es[1..] == [];
      assert Run(cfg, s, es) == Next(cfg, s, es[0]);
    } else {
      assert es[1..] == [TryEvent(a)] && [TryEvent(a)][1..] == [];
      var s1 := Next(cfg, s, es[0]);
      assert Run(cfg, s, es) == Run(cfg, s1, [TryEvent(a)]) == Run(cfg, Next(cfg, s1, TryEvent(a)), []);
    }
  }

  lemma ClockedLater(c: int, c': int, answers: seq<Answer>)
    requires Clocked(c, answers) && c' <= c
    ensures Clocked(c', answers)
  {
  }

  /** The batch, as the code runs it over the tables, is a run of the step system. */
  lemma {:induction false} BatchIsRun(cfg: Config, s: State, answers: seq<Answer>) returns (es: seq<Event>)
    requires s.poller.Batch? && |answers| == |s.poller.rest| && Clocked(s.clock, answers)
    ensures Feasible(cfg, s, es)
    ensures Run(cfg, s, es).db == AfterRows(cfg, s.db, s.poller.rest, s.poller.now, answers)
    ensures Run(cfg, s, es).poller == Idle
    decreases |answers|
  {
    if answers == [] {
      es := [EndBatch];
      assert es[1..] == [];
      assert Run(cfg, s, es) == Next(cfg, s, EndBatch);
    } else {
      var first := RowEvents(cfg, s.db, s.poller.rest[0], s.poller.now, answers[0]);
      RowIsRun(cfg, s, answers[0]);
      var s' := Run(cfg, s, first);
      ClockedLater(answers[0].tryAt, s'.clock, answers[1..]);
      var later := BatchIsRun(cfg, s', answers[1..]);
      es := first + later;
      RunConcat(cfg, s, first, later);
    }
  }

  // ---- what the writes do -----------------------------------------------------------

  /** No other row and no other analysis is touched. */
  ghost predicate OnlyAt(db: Db, db': Db, id: JobId, a: AnalysisId) {
    && db'.jobs.Keys == db.jobs.Keys && db'.analyses.Keys == db.analyses.Keys
    && (forall i :: i in db.jobs && i != id ==> db'.jobs[i] == db.jobs[i])
    && (forall b :: b in db.analyses && b != a ==> db'.analyses[b] == db.analyses[b])
  }

  /** A claim takes a failed row of an analysis that is not deleted, and stamps it. */
  lemma ClaimIs(db: Db, r: Row, now: int)
    ensures var (db', won) := ClaimTx(db, r, now);
            && (won <==> r.id in db.jobs && db.jobs[r.id].status == SubmissionFailed
                         && exists a :: a in db.analyses && a == r.analysis && !db.analyses[a].deleted)
            && OnlyAt(db, db', r.id, r.analysis) && db'.analyses == db.analyses
            && (won ==> db'.jobs[r.id] == db.jobs[r.id].(status := SubmissionRetrying, updatedAt := now))
            && (!won ==> db' == db)
  {
  }

  /** A refusal puts a claimed row back among the failed, one attempt on, and records the reason; it
      fails the analysis when no attempt is left or the refusal is permanent, and only then. */
  lemma RefusalIs(cfg: Config, db: Db, r: Row, now: int, permanent: bool, reason: string)
    ensures var db' := FailTx(cfg, db, r, now, permanent, reason);
            && OnlyAt(db, db', r.id, r.analysis)
            && (forall j :: r.id in db.jobs && db.jobs[r.id] == j ==>
                  db'.jobs[r.id] ==
                  if j.status != SubmissionRetrying then j
                  else Job(j.isAnalysis, j.analysis, SubmissionFailed, r.attempts + 1, Some(now), now, j.insertedAt, j.remoteId))
            && (forall n :: r.analysis in db.analyses && db.analyses[r.analysis] == n ==>
                  db'.analyses[r.analysis] ==
                  Analysis(if permanent || r.attempts + 1 >= cfg.maxRetries then Error else n.status, n.deleted, Some(reason)))
  {
  }

  /** An accepted resubmission queues a claimed row under its remote id, one attempt on, and clears the
      reason of its analysis, whose status stays. */
  lemma AcceptanceIs(db: Db, r: Row, now: int, remoteId: string)
    ensures var db' := AcceptTx(db, r, now, remoteId);
            && OnlyAt(db, db', r.id, r.analysis)
            && (forall j :: r.id in db.jobs && db.jobs[r.id] == j ==>
                  db'.jobs[r.id] ==
                  if j.status != SubmissionRetrying then j
                  else Job(j.isAnalysis, j.analysis, Queued, j.attempts + 1, None, now, j.insertedAt, Some(remoteId)))
            && (forall n :: r.analysis in db.analyses && db.analyses[r.analysis] == n ==>
                  db'.analyses[r.analysis] == Analysis(n.status, n.deleted, None))
  {
  }

  /** Claims of analysis rows older than the stale window become failures, one attempt on. */
  lemma ReclaimIs(cfg: Config, db: Db, now: int)
    ensures var db' := ReclaimTx(cfg, db, now);
            && db'.analyses == db.analyses && db'.jobs.Keys == db.jobs.Keys
            && forall id :: id in db.jobs ==>
                 var j := db.jobs[id];
                 db'.jobs[id] ==
                 if j.isAnalysis && j.status == SubmissionRetrying && now - j.updatedAt > cfg.stale
                 then Job(true, j.analysis, SubmissionFailed, j.attempts + 1, Some(now), now, j.insertedAt, j.remoteId)
                 else j
  {
  }

  /** A row is tried once its backoff is over and it can still be claimed: the claim is written and
      then what the try comes to. Otherwise nothing is written for it. */
  lemma DueRowIsTried(cfg: Config, db: Db, r: Row, now: int, a: Answer)
    ensures var due := exists c :: r.completedAt == Some(c) && now - c >= cfg.base * Pow2(r.attempts);
            var (claimed, won) := ClaimTx(db, r, a.claimAt);
            AfterRow(cfg, db, r, now, a) ==
            if !due || !won then db
            else
              match a.outcome
              case Submitted(remoteId) => AcceptTx(claimed, r, a.tryAt, remoteId)
              case Refused(permanent, reason) => FailTx(cfg, claimed, r, a.tryAt, permanent, reason)
              case NotWritten => claimed
  {
  }

  /** No other failed row of the analysis came in later, or at the same time with a higher id. */
  ghost predicate Latest(db: Db, id: JobId, a: AnalysisId)
    requires id in db.jobs
  {
    forall i :: i in db.jobs && i != id && db.jobs[i].isAnalysis && db.jobs[i].analysis == Some(a)
                && db.jobs[i].status == SubmissionFailed ==>
      db.jobs[i].insertedAt < db.jobs[id].insertedAt || (db.jobs[i].insertedAt == db.jobs[id].insertedAt && i < id)
  }

  /** A refused row is a candidate again exactly when the refusal is not permanent and leaves an attempt,
      the analysis was pending and not deleted, and no failed row of it came in later. Its next turn comes
      after the backoff of its new count. */
  lemma RefusedTriesAgain(cfg: Config, s: State, t: int, permanent: bool, reason: string, now: int)
    requires Inv(cfg, s) && Enabled(cfg, s, Rejected(t, permanent, reason))
    requires var r := s.poller.row;
             && r.analysis in s.db.analyses
             && s.db.jobs[r.id].isAnalysis && s.db.jobs[r.id].analysis == Some(r.analysis)
    ensures var r, db' := s.poller.row, Next(cfg, s, Rejected(t, permanent, reason)).db;
            var n := s.db.analyses[r.analysis];
            && (Candidate(cfg, db', r.id) <==>
                  && !permanent && r.attempts + 1 < cfg.maxRetries
                  && n.status == Pending && !n.deleted && Latest(s.db, r.id, r.analysis))
            && (!permanent && r.attempts + 1 < cfg.maxRetries ==> db'.analyses[r.analysis].status == n.status)
            && r.id in db'.jobs && db'.jobs[r.id].attempts == r.attempts + 1
            && (Eligible(cfg, RowOf(r.id, db'.jobs[r.id]), now) <==> now >= t + cfg.base * Pow2(r.attempts + 1))
  {
    var r, db' := s.poller.row, Next(cfg, s, Rejected(t, permanent, reason)).db;
    RefusalIs(cfg, s.db, r, t, permanent, reason);
    StandsAgain(cfg, s.db, db', r.id, r.analysis);
  }

  /** Being a candidate, said without the query. */
  lemma StandsAgain(cfg: Config, db: Db, db': Db, id: JobId, a: AnalysisId)
    requires OnlyAt(db, db', id, a) && id in db.jobs && a in db.analyses
    requires var j := db'.jobs[id];
             j.isAnalysis && j.analysis == Some(a) && j.status == SubmissionFailed && j.insertedAt == db.jobs[id].insertedAt
    ensures Candidate(cfg, db', id) <==>
            && Latest(db, id, a) && db'.jobs[id].attempts < cfg.maxRetries
            && db'.analyses[a].status == Pending && !db'.analyses[a].deleted
  {
  }

  class RetryStore {
    var jobs: map<JobId, Job>
    var analyses: map<AnalysisId, Analysis>

    function Tables(): Db reads this { Db(jobs, analyses) }

    method ClaimSubmissionRetry(r: Row, now: int) returns (claimed: bool)
      modifies this
      ensures (Tables(), claimed) == ClaimTx(old(Tables()), r, now)
    {
      claimed := r.id in jobs && jobs[r.id].status == SubmissionFailed
                 && r.analysis in analyses && !analyses[r.analysis].deleted;
      if claimed {
        jobs := jobs[r.id := jobs[r.id].(status := SubmissionRetrying, updatedAt := now)];
      }
    }

    method RetrySubmission(cfg: Config, r: Row, a: Answer)
      modifies this
      ensures Tables() == AfterTry(cfg, old(Tables()), r, a)
    {
      match a.outcome {
        case NotWritten =>
        case Refused(permanent, reason) =>
          var attempts := r.attempts + 1;
          var exhausted := attempts >= cfg.maxRetries || permanent;
          if r.id in jobs && jobs[r.id].status == SubmissionRetrying {
            jobs := jobs[r.id := jobs[r.id].(status := SubmissionFailed, attempts := attempts,
                                             completedAt := Some(a.tryAt), updatedAt := a.tryAt)];
          }
          if r.analysis in analyses {
            var n := analyses[r.analysis].(failureReason := Some(reason));
            if exhausted { n := n.(status := Error); }
            analyses := analyses[r.analysis := n];
          }
        case Submitted(remoteId) =>
          if r.id in jobs && jobs[r.id].status == SubmissionRetrying {
            jobs := jobs[r.id := jobs[r.id].(status := Queued, attempts := jobs[r.id].attempts + 1,
                                             completedAt := None, updatedAt := a.tryAt,
                                             remoteId := Some(remoteId))];
          }
          if r.analysis in analyses {
            analyses := analyses[r.analysis := analyses[r.analysis].(failureReason := None)];
          }
      }
    }

    method ReclaimStaleRetrying(cfg: Config, now: int) returns (count: nat)
      modifies this
      ensures Tables() == ReclaimTx(cfg, old(Tables()), now)
      ensures count == |set id | id in old(jobs) && Stale(cfg, old(jobs)[id], now)|
    {
      var stale := set id | id in jobs && Stale(cfg, jobs[id], now);
      count := |stale|;
      jobs := map id | id in jobs :: if id in stale then Reclaimed(jobs[id], now) else jobs[id];
    }

    /** `_submission_retry` over the rows its query returned. */
    method SubmissionRetry(cfg: Config, candidates: seq<Row>, now: int, answers: seq<Answer>)
      requires IsCandidateList(cfg, Tables(), candidates) && |answers| == |candidates|
      modifies this
      ensures Tables() == AfterRows(cfg, old(Tables()), candidates, now, answers)
    {
      ghost var db0 := Tables();
      for i := 0 to |candidates|
        invariant Tables() == AfterRows(cfg, db0, candidates[..i], now, answers[..i])
      {
        var row := candidates[i];
        assert candidates[..i + 1] == candidates[..i] + [row];
        assert answers[..i + 1] == answers[..i] + [answers[i]];
        AfterRowsSnoc(cfg, db0, candidates[..i], now, answers[..i], row, answers[i]);
        if row.completedAt.None? { continue; }
        if now < row.completedAt.value + cfg.base * Pow2(row.attempts) { continue; }
        var claimed := ClaimSubmissionRetry(row, answers[i].claimAt);
        if !claimed { continue; }
        RetrySubmission(cfg, row, answers[i]);
      }
      assert candidates[..|candidates|] == candidates && answers[..|answers|] == answers;
    }
  }
}
