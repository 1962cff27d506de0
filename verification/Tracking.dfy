/** The tracking pass of the poller: one transaction per job mirrors the platform's status
    and, on a terminal status, updates the entity and queues the dependent head. */
module Tracking {
  import opened Prelude

  type JobId = nat
  type EntityId = nat

  datatype Kind = ImportEdm | ImportRdm | Analysis | Geohaz | Export | Grouping | UnknownKind

  datatype Status = Finished | Failed | Cancelled | SubmissionFailed | InFlight(text: string)

  predicate Terminal(s: Status) { !s.InFlight? }

  datatype Job = Job(kind: Kind, status: Status, remoteId: Option<string>, edm: Option<EntityId>, rdm: Option<EntityId>,
                     portfolio: Option<EntityId>, analysis: Option<EntityId>)

  datatype HeadKind = BackfillEdmDetail | BackfillRdmAnalyses | FinalizeAnalysis | RefreshPortfolios
                    | StageResultsExport | OtherHead(name: string)

  datatype HeadStatus = Pending | Running | Succeeded | HeadFailed | HeadCancelled

  /** The unique key of a queue row requested by a tracked job. */
  datatype Key = Key(requestor: JobId, kind: HeadKind)

  datatype Head = Head(key: Key, subject: Option<EntityId>, status: HeadStatus)

  datatype EdmState = EdmImporting | EdmReady(irpId: Option<string>) | EdmError

  datatype Portfolio = Portfolio(irpId: Option<string>, deleted: bool)

  datatype AnalysisRow = AnalysisRow(failureReason: Option<string>, failed: bool)

  datatype Db = Db(jobs: map<JobId, Job>, edms: map<EntityId, EdmState>, failedRdms: set<EntityId>,
                   portfolios: map<EntityId, Portfolio>, analyses: map<EntityId, AnalysisRow>, heads: seq<Head>)

  /** Every submitted job the mirror does not show as terminal. */
  predicate Tracked(db: Db, id: JobId) {
    id in db.jobs && db.jobs[id].remoteId.Some? && !Terminal(db.jobs[id].status)
  }

  // ---- statements of one tracking transaction ---------------------------------------

  datatype Stmt =
    | Mirror(id: JobId, status: Status)
    | SetEdm(edm: Option<EntityId>, state: EdmState)
    | SetRdmFailed(rdm: Option<EntityId>)
    | SetAnalysisError(analysis: Option<EntityId>, reason: string)
    | InsertHead(key: Key, subject: Option<EntityId>)

  predicate HasHead(db: Db, key: Key) {
    exists i :: 0 <= i < |db.heads| && db.heads[i].key == key
  }

  function Exec(db: Db, st: Stmt): Db {
    match st
    case Mirror(id, status) =>
      if id in db.jobs then db.(jobs := db.jobs[id := db.jobs[id].(status := status)]) else db
    case SetEdm(edm, state) =>
      if edm.Some? && edm.value in db.edms then db.(edms := db.edms[edm.value := state]) else db
    case SetRdmFailed(rdm) =>
      if rdm.Some? then db.(failedRdms := db.failedRdms + {rdm.value}) else db
    case SetAnalysisError(a, reason) =>
      if a.Some? && a.value in db.analyses
      then db.(analyses := db.analyses[a.value := AnalysisRow(Some(reason), true)]) else db
    case InsertHead(key, subject) =>
      if HasHead(db, key) then db else db.(heads := db.heads + [Head(key, subject, Pending)])
  }

  function ExecAll(db: Db, sts: seq<Stmt>): Db
    decreases |sts|
  {
    if sts == [] then db else ExecAll(Exec(db, sts[0]), sts[1..])
  }

  /** What the platform answered about a terminal job, beyond its status. */
  datatype Resolved = Resolved(exposureId: Option<string>, failure: string)

  /** The portfolio a finished or failed hazard lookup must refresh, if it is still live. */
  predicate RefreshDue(db: Db, j: Job, s: Status) {
    s != Cancelled && j.portfolio.Some? && j.portfolio.value in db.portfolios
    && !db.portfolios[j.portfolio.value].deleted && db.portfolios[j.portfolio.value].irpId.Some?
  }

  /** The statements of the terminal handler; None where the handler itself raises. */
  function HandlerStmts(db: Db, id: JobId, j: Job, s: Status, r: Resolved): Option<seq<Stmt>> {
    match j.kind
    case ImportEdm =>
      if s == Finished
      then Some([SetEdm(j.edm, EdmReady(r.exposureId)), InsertHead(Key(id, BackfillEdmDetail), j.edm)])
      else Some([SetEdm(j.edm, EdmError)])
    case ImportRdm =>
      if s == Finished then Some([InsertHead(Key(id, BackfillRdmAnalyses), j.rdm)])
      else Some([SetRdmFailed(j.rdm)])
    case Analysis =>
      if s == Finished then Some([InsertHead(Key(id, FinalizeAnalysis), j.analysis)])
      else Some([SetAnalysisError(j.analysis, r.failure)])
    case Grouping =>
      if s == Finished then Some([InsertHead(Key(id, FinalizeAnalysis), j.analysis)])
      else Some([SetAnalysisError(j.analysis, r.failure)])
    case Geohaz =>
      if RefreshDue(db, j, s) then Some([InsertHead(Key(id, RefreshPortfolios), j.portfolio)]) else Some([])
    case Export =>
      if j.analysis.Some? && j.analysis.value in db.analyses
      then Some([InsertHead(Key(id, StageResultsExport), j.analysis)]) else None
    case UnknownKind => Some([])
  }

  /** One reply of the platform; `failAt` is the statement of the transaction that raises,
      counted from the mirror, with the commit counted last. */
  datatype Reply = NoReply | Reply(status: Status, resolved: Resolved, failAt: Option<nat>)

  function TrackStmts(db: Db, id: JobId, s: Status, r: Resolved): Option<seq<Stmt>>
    requires id in db.jobs
  {
    if !Terminal(s) then Some([Mirror(id, s)])
    else
      match HandlerStmts(Exec(db, Mirror(id, s)), id, db.jobs[id], s, r)
      case None => None
      case Some(rest) => Some([Mirror(id, s)] + rest)
  }

  predicate Commits(db: Db, id: JobId, reply: Reply) {
    && reply.Reply? && id in db.jobs && db.jobs[id].kind != UnknownKind
    && var sts := TrackStmts(db, id, reply.status, reply.resolved);
       sts.Some? && (reply.failAt.Some? ==> reply.failAt.value > |sts.value|)
  }

  /** A tracking transaction: all of its statements, or none of them. */
  function Track(db: Db, id: JobId, reply: Reply): Db {
    if Commits(db, id, reply) then ExecAll(db, TrackStmts(db, id, reply.status, reply.resolved).value) else db
  }

  // ---- what a transaction leaves ------------------------------------------------------

  /** The EDM of an import is ready under the answered id once it finished, and in error after any
      other terminal status; every other EDM is as before. */
  ghost predicate EdmsAfter(db: Db, j: Job, s: Status, r: Resolved, db': Db) {
    && db'.edms.Keys == db.edms.Keys
    && forall e :: e in db.edms ==>
         db'.edms[e] ==
         if j.kind != ImportEdm || j.edm != Some(e) then db.edms[e]
         else match s case Finished => EdmReady(r.exposureId) case InFlight(_) => db.edms[e] case _ => EdmError
  }

  /** A terminal RDM import that did not finish adds its RDM to the failed ones. */
  ghost predicate RdmsAfter(db: Db, j: Job, s: Status, db': Db) {
    forall d :: d in db'.failedRdms <==>
      d in db.failedRdms || (j.kind == ImportRdm && j.rdm == Some(d) && s in {Failed, Cancelled, SubmissionFailed})
  }

  /** A terminal analysis or grouping job that did not finish fails its analysis with the answered reason. */
  ghost predicate AnalysesAfter(db: Db, j: Job, s: Status, r: Resolved, db': Db) {
    && db'.analyses.Keys == db.analyses.Keys
    && forall a :: a in db.analyses ==>
         db'.analyses[a] ==
         if (j.kind == Analysis || j.kind == Grouping) && j.analysis == Some(a) && s in {Failed, Cancelled, SubmissionFailed}
         then AnalysisRow(Some(r.failure), true) else db.analyses[a]
  }

  /** The job's portfolio is live and has an id on the platform. */
  ghost predicate HasLivePortfolio(db: Db, j: Job) {
    exists p :: p in db.portfolios && j.portfolio == Some(p) && !db.portfolios[p].deleted && db.portfolios[p].irpId != None
  }

  /** The head a terminal status calls for: a pending one of the job's own, about the job's own
      entity; for a hazard lookup that was not cancelled, only if its portfolio is live and known. */
  ghost function HeadDue(db: Db, id: JobId, j: Job, s: Status): Option<Head> {
    match j.kind
    case ImportEdm => if s == Finished then Some(Head(Key(id, BackfillEdmDetail), j.edm, Pending)) else None
    case ImportRdm => if s == Finished then Some(Head(Key(id, BackfillRdmAnalyses), j.rdm, Pending)) else None
    case Analysis => if s == Finished then Some(Head(Key(id, FinalizeAnalysis), j.analysis, Pending)) else None
    case Grouping => if s == Finished then Some(Head(Key(id, FinalizeAnalysis), j.analysis, Pending)) else None
    case Geohaz =>
      if s in {Finished, Failed, SubmissionFailed} && HasLivePortfolio(db, j)
      then Some(Head(Key(id, RefreshPortfolios), j.portfolio, Pending)) else None
    case Export => if s.InFlight? then None else Some(Head(Key(id, StageResultsExport), j.analysis, Pending))
    case UnknownKind => None
  }

  /** That head is added, unless a queue row has its key, and no other row is touched. */
  ghost predicate HeadsAfter(db: Db, id: JobId, j: Job, s: Status, db': Db) {
    match HeadDue(db, id, j, s)
    case None => db'.heads == db.heads
    case Some(h) =>
      db'.heads == if exists i :: 0 <= i < |db.heads| && db.heads[i].key == h.key then db.heads else db.heads + [h]
  }

  ghost predicate EntitiesAfter(db: Db, id: JobId, j: Job, s: Status, r: Resolved, db': Db) {
    && EdmsAfter(db, j, s, r, db') && RdmsAfter(db, j, s, db') && AnalysesAfter(db, j, s, r, db')
    && HeadsAfter(db, id, j, s, db') && db'.portfolios == db.portfolios
  }

  lemma OneStatement(db: Db, a: Stmt)
    ensures ExecAll(db, [a]) == Exec(db, a)
  {
    assert [a][1..] == [];
  }

  lemma FirstStatement(db: Db, a: Stmt, rest: seq<Stmt>)
    ensures ExecAll(db, [a] + rest) == ExecAll(Exec(db, a), rest)
  {
    assert ([a] + rest)[1..] == rest;
  }

  lemma FewStatements(db: Db, sts: seq<Stmt>)
    requires |sts| <= 2
    ensures ExecAll(db, sts) ==
            if sts == [] then db else if |sts| == 1 then Exec(db, sts[0]) else Exec(Exec(db, sts[0]), sts[1])
  {
    if sts != [] {
      FirstStatement(db, sts[0], sts[1..]);
      if |sts| == 2 { assert sts[1..] == [sts[1]]; }
    }
  }

  ghost predicate HandlerDoes(db: Db, id: JobId, j: Job, s: Status, r: Resolved)
    requires HandlerStmts(db, id, j, s, r).Some?
  {
    var db' := ExecAll(db, HandlerStmts(db, id, j, s, r).value);
    EntitiesAfter(db, id, j, s, r, db') && db'.jobs == db.jobs
  }

  lemma EdmImportDoes(db: Db, id: JobId, j: Job, s: Status, r: Resolved)
    requires j.kind == ImportEdm && Terminal(s) && HandlerStmts(db, id, j, s, r).Some?
    ensures HandlerDoes(db, id, j, s, r)
  {
    FewStatements(db, HandlerStmts(db, id, j, s, r).value);
  }

  lemma RdmImportDoes(db: Db, id: JobId, j: Job, s: Status, r: Resolved)
    requires j.kind == ImportRdm && Terminal(s) && HandlerStmts(db, id, j, s, r).Some?
    ensures HandlerDoes(db, id, j, s, r)
  {
    FewStatements(db, HandlerStmts(db, id, j, s, r).value);
  }

  lemma AnalysisDoes(db: Db, id: JobId, j: Job, s: Status, r: Resolved)
    requires (j.kind == Analysis || j.kind == Grouping) && Terminal(s) && HandlerStmts(db, id, j, s, r).Some?
    ensures HandlerDoes(db, id, j, s, r)
  {
    FewStatements(db, HandlerStmts(db, id, j, s, r).value);
  }

  lemma LookupDoes(db: Db, id: JobId, j: Job, s: Status, r: Resolved)
    requires j.kind == Geohaz && Terminal(s) && HandlerStmts(db, id, j, s, r).Some?
    ensures HandlerDoes(db, id, j, s, r)
  {
    FewStatements(db, HandlerStmts(db, id, j, s, r).value);
  }

  lemma ExportDoes(db: Db, id: JobId, j: Job, s: Status, r: Resolved)
    requires j.kind == Export && Terminal(s) && HandlerStmts(db, id, j, s, r).Some?
    ensures HandlerDoes(db, id, j, s, r)
  {
    FewStatements(db, HandlerStmts(db, id, j, s, r).value);
  }

  lemma HandlerEffect(db: Db, id: JobId, j: Job, s: Status, r: Resolved)
    requires j.kind != UnknownKind && Terminal(s) && HandlerStmts(db, id, j, s, r).Some?
    ensures HandlerDoes(db, id, j, s, r)
  {
    match j.kind
    case ImportEdm => EdmImportDoes(db, id, j, s, r);
    case ImportRdm => RdmImportDoes(db, id, j, s, r);
    case Geohaz => LookupDoes(db, id, j, s, r);
    case Export => ExportDoes(db, id, j, s, r);
    case _ => AnalysisDoes(db, id, j, s, r);
  }

  /** A committed transaction mirrors the status and updates the job's own entity and queue row, by
      the type of the job and the status; everything else stays as it was. */
  lemma CommitEffect(db: Db, id: JobId, reply: Reply)
    requires Commits(db, id, reply)
    ensures var db' := Track(db, id, reply);
            && EntitiesAfter(db, id, db.jobs[id], reply.status, reply.resolved, db')
            && db'.jobs == db.jobs[id := db.jobs[id].(status := reply.status)]
  {
    var s, mid := reply.status, Exec(db, Mirror(id, reply.status));
    if Terminal(s) {
      FirstStatement(db, Mirror(id, s), HandlerStmts(mid, id, db.jobs[id], s, reply.resolved).value);
      HandlerEffect(mid, id, db.jobs[id], s, reply.resolved);
    } else {
      OneStatement(db, Mirror(id, s));
    }
  }

  /** How many statements a transaction runs: the mirror, a new state of the entity, a head. */
  ghost function StatementCount(db: Db, j: Job, s: Status): nat {
    if s.InFlight? then 1
    else if j.kind == ImportEdm && s == Finished then 3
    else if j.kind == Geohaz && (s == Cancelled || !HasLivePortfolio(db, j)) then 1
    else 2
  }

  /** A transaction commits exactly when there is a reply for a job of a known type, an export that is
      over has its analysis, and neither a statement nor the commit raises. */
  lemma CommitsIff(db: Db, id: JobId, reply: Reply)
    ensures Commits(db, id, reply) <==>
            && reply.Reply? && id in db.jobs
            && var j := db.jobs[id];
               && j.kind != UnknownKind
               && (j.kind == Export && !reply.status.InFlight? ==> exists a :: a in db.analyses && j.analysis == Some(a))
               && (reply.failAt == None || reply.failAt.value > StatementCount(db, j, reply.status))
  {
  }

  // ---- reachable states -----------------------------------------------------------------

  datatype Event =
    | TrackJob(id: JobId, reply: Reply)
    | NewJob(id: JobId, job: Job)
    | Resubmitted(id: JobId, remoteId: string)
    | MoveHead(key: Key, status: HeadStatus)
    | Request(key: Key, subject: Option<EntityId>)
    | Entities(after: Db)

  /** A row may be tracked from a list read earlier, so also after it became terminal.
      Jobs are inserted in flight or as failed submissions; queue rows are never deleted. */
  predicate Enabled(db: Db, e: Event) {
    match e
    case TrackJob(id, _) => id in db.jobs && db.jobs[id].remoteId.Some?
    case NewJob(id, job) => id !in db.jobs && (job.status.InFlight? || job.status == SubmissionFailed)
    case Resubmitted(id, _) => id in db.jobs && db.jobs[id].status == SubmissionFailed
    case MoveHead(_, _) => true
    case Request(_, _) => true
    case Entities(after) => after.jobs == db.jobs && after.heads == db.heads
  }

  function MoveHeads(heads: seq<Head>, key: Key, status: HeadStatus): (r: seq<Head>)
    ensures |r| == |heads|
  {
    seq(|heads|, i requires 0 <= i < |heads| =>
      if heads[i].key == key then heads[i].(status := status) else heads[i])
  }

  function Next(db: Db, e: Event): Db {
    match e
    case TrackJob(id, reply) => Track(db, id, reply)
    case NewJob(id, job) => db.(jobs := db.jobs[id := job])
    case Resubmitted(id, remoteId) =>
      if id in db.jobs
      then db.(jobs := db.jobs[id := db.jobs[id].(status := InFlight("QUEUED"), remoteId := Some(remoteId))])
      else db
    case MoveHead(key, status) => db.(heads := MoveHeads(db.heads, key, status))
    case Request(key, subject) => Exec(db, InsertHead(key, subject))
    case Entities(after) => after
  }

  function Run(db: Db, es: seq<Event>): Db
    decreases |es|
  {
    if es == [] then db else Run(Next(db, es[0]), es[1..])
  }

  predicate Feasible(db: Db, es: seq<Event>)
    decreases |es|
  {
    es == [] || (Enabled(db, es[0]) && Feasible(Next(db, es[0]), es[1..]))
  }

  ghost predicate UniqueHeads(heads: seq<Head>) {
    forall i, j :: 0 <= i < |heads| && 0 <= j < |heads| && heads[i].key == heads[j].key ==> i == j
  }

  /** Exactly one queue row has the key. */
  ghost predicate QueuedOnce(db: Db, key: Key) {
    exists i :: 0 <= i < |db.heads| && db.heads[i].key == key
                && forall j :: 0 <= j < |db.heads| && db.heads[j].key == key ==> j == i
  }

  /** The head owed by a mirrored status, for the job types where the type decides it. */
  function OwedByType(j: Job): Option<HeadKind> {
    match j.kind
    case ImportEdm => if j.status == Finished then Some(BackfillEdmDetail) else None
    case ImportRdm => if j.status == Finished then Some(BackfillRdmAnalyses) else None
    case Analysis => if j.status == Finished then Some(FinalizeAnalysis) else None
    case Grouping => if j.status == Finished then Some(FinalizeAnalysis) else None
    case Export => if j.status in {Finished, Failed, Cancelled} then Some(StageResultsExport) else None
    case _ => None
  }

  ghost predicate Inv(db: Db) {
    && UniqueHeads(db.heads)
    && forall id :: id in db.jobs && OwedByType(db.jobs[id]).Some? ==>
         HasHead(db, Key(id, OwedByType(db.jobs[id]).value))
  }

  /** A statement keeps the jobs of others, keeps every queue row, and keeps keys unique. */
  lemma ExecFrame(db: Db, st: Stmt, key: Key)
    requires UniqueHeads(db.heads)
    ensures var db' := Exec(db, st);
            && UniqueHeads(db'.heads)
            && (HasHead(db, key) ==> HasHead(db', key))
            && (st.InsertHead? ==> HasHead(db', st.key))
            && db'.jobs.Keys == db.jobs.Keys
            && db'.portfolios == db.portfolios && db'.analyses.Keys == db.analyses.Keys
            && (!st.Mirror? ==> db'.jobs == db.jobs)
            && (st.Mirror? ==> db'.heads == db.heads
                               && forall id :: id in db.jobs && id != st.id ==> db'.jobs[id] == db.jobs[id])
  {
    var db' := Exec(db, st);
    if HasHead(db, key) {
      var i :| 0 <= i < |db.heads| && db.heads[i].key == key;
      assert db'.heads[i].key == key;
    }
    if st.InsertHead? && !HasHead(db, st.key) {
      assert db'.heads[|db.heads|].key == st.key;
    }
  }

  lemma {:induction false} ExecAllFrame(db: Db, sts: seq<Stmt>, key: Key)
    requires UniqueHeads(db.heads)
    requires forall i :: 0 <= i < |sts| ==> !sts[i].Mirror?
    ensures var db' := ExecAll(db, sts);
            && UniqueHeads(db'.heads) && db'.jobs == db.jobs
            && db'.portfolios == db.portfolios && db'.analyses.Keys == db.analyses.Keys
            && (HasHead(db, key) ==> HasHead(db', key))
            && (forall i :: 0 <= i < |sts| && sts[i].InsertHead? && sts[i].key == key ==> HasHead(db', key))
    decreases |sts|
  {
    if sts != [] {
      ExecFrame(db, sts[0], key);
      ExecAllFrame(Exec(db, sts[0]), sts[1..], key);
      forall i | 0 <= i < |sts| && sts[i].InsertHead? && sts[i].key == key
        ensures HasHead(ExecAll(db, sts), key)
      {
        if i > 0 { assert sts[1..][i - 1] == sts[i]; }
      }
    }
  }

  /** What one tracking transaction leaves, committed or rolled back. */
  lemma TrackEffect(db: Db, id: JobId, reply: Reply, key: Key)
    requires UniqueHeads(db.heads) && id in db.jobs
    ensures var db' := Track(db, id, reply);
            && UniqueHeads(db'.heads)
            && (HasHead(db, key) ==> HasHead(db', key))
            && db'.portfolios == db.portfolios && db'.analyses.Keys == db.analyses.Keys
            && db'.jobs == (if Commits(db, id, reply)
                            then db.jobs[id := db.jobs[id].(status := reply.status)] else db.jobs)
            && (Commits(db, id, reply) ==>
                  match HeadDue(db, id, db.jobs[id], reply.status) case None => true case Some(h) => HasHead(db', h.key))
  {
    if Commits(db, id, reply) {
      var s := reply.status;
      var mid := Exec(db, Mirror(id, s));
      var sts := TrackStmts(db, id, s, reply.resolved).value;
      assert ExecAll(db, sts) == ExecAll(mid, sts[1..]);
      assert HasHead(db, key) ==> HasHead(mid, key);
      ExecAllFrame(mid, sts[1..], key);
      if HeadDue(db, id, db.jobs[id], s).Some? {
        var owed := HeadDue(db, id, db.jobs[id], s).value.key;
        assert sts[1..][|sts| - 2].InsertHead? && sts[1..][|sts| - 2].key == owed;
        ExecAllFrame(mid, sts[1..], owed);
      }
    }
  }

  lemma StepKeepsInv(db: Db, e: Event)
    requires Inv(db) && Enabled(db, e)
    ensures Inv(Next(db, e))
  {
    var db' := Next(db, e);
    match e
    case TrackJob(id, reply) =>
      TrackEffect(db, id, reply, Key(id, BackfillEdmDetail));
      forall i | i in db'.jobs && OwedByType(db'.jobs[i]).Some?
        ensures HasHead(db', Key(i, OwedByType(db'.jobs[i]).value))
      {
        TrackEffect(db, id, reply, Key(i, OwedByType(db'.jobs[i]).value));
      }
    case Request(key, subject) =>
      ExecFrame(db, InsertHead(key, subject), key);
      forall i | i in db'.jobs && OwedByType(db'.jobs[i]).Some?
        ensures HasHead(db', Key(i, OwedByType(db'.jobs[i]).value))
      {
        ExecFrame(db, InsertHead(key, subject), Key(i, OwedByType(db'.jobs[i]).value));
      }
    case MoveHead(key, status) =>
      forall k | HasHead(db, k) ensures HasHead(db', k) {
        MoveKeeps(db, key, status, k);
      }
    case _ =>
      forall k | HasHead(db, k) ensures HasHead(db', k) {
        HeadCarried(db, db', k);
      }
  }

  lemma HeadCarried(db: Db, db': Db, k: Key)
    requires HasHead(db, k) && |db'.heads| == |db.heads|
    requires forall i :: 0 <= i < |db.heads| ==> db'.heads[i].key == db.heads[i].key
    ensures HasHead(db', k)
  {
  }

  lemma MoveKeeps(db: Db, key: Key, status: HeadStatus, k: Key)
    requires HasHead(db, k)
    ensures HasHead(Next(db, MoveHead(key, status)), k)
  {
    HeadCarried(db, Next(db, MoveHead(key, status)), k);
  }

  lemma {:induction false} RunKeepsInv(db: Db, es: seq<Event>)
    requires Inv(db) && Feasible(db, es)
    ensures Inv(Run(db, es))
    decreases |es|
  {
    if es != [] {
      StepKeepsInv(db, es[0]);
      RunKeepsInv(Next(db, es[0]), es[1..]);
    }
  }

  lemma OnceIfUnique(db: Db, key: Key)
    requires UniqueHeads(db.heads) && HasHead(db, key)
    ensures QueuedOnce(db, key)
  {
  }

  /** In every reachable state, a mirrored terminal status has its head queued exactly once. */
  lemma MirroredMeansQueued(db: Db, es: seq<Event>, id: JobId)
    requires Inv(db) && Feasible(db, es)
    requires id in Run(db, es).jobs && OwedByType(Run(db, es).jobs[id]).Some?
    ensures QueuedOnce(Run(db, es), Key(id, OwedByType(Run(db, es).jobs[id]).value))
  {
    RunKeepsInv(db, es);
    OnceIfUnique(Run(db, es), Key(id, OwedByType(Run(db, es).jobs[id]).value));
  }

  lemma {:induction false} HeadsStay(db: Db, es: seq<Event>, key: Key)
    requires Inv(db) && Feasible(db, es) && HasHead(db, key)
    ensures HasHead(Run(db, es), key)
    decreases |es|
  {
    if es != [] {
      var e := es[0];
      StepKeepsInv(db, e);
      match e {
        case TrackJob(id, reply) => TrackEffect(db, id, reply, key);
        case Request(k, subject) => ExecFrame(db, InsertHead(k, subject), key);
        case MoveHead(k, status) => MoveKeeps(db, k, status, key);
        case _ => HeadCarried(db, Next(db, e), key);
      }
      HeadsStay(Next(db, e), es[1..], key);
    }
  }

  lemma {:induction false} RunConcat(db: Db, es: seq<Event>, fs: seq<Event>)
    ensures Run(db, es + fs) == Run(Run(db, es), fs)
    ensures Feasible(db, es + fs) == (Feasible(db, es) && Feasible(Run(db, es), fs))
    decreases |es|
  {
    if es == [] {
      assert es + fs == fs;
    } else {
      assert (es + fs)[1..] == es[1..] + fs;
      RunConcat(Next(db, es[0]), es[1..], fs);
    }
  }

  /** Once a terminal status is committed that owes a head, of any type, the head is in the
      queue exactly once for ever, however often the job is tracked again. */
  lemma CommittedMeansQueued(db: Db, before: seq<Event>, id: JobId, reply: Reply, rest: seq<Event>)
    requires Inv(db) && Feasible(db, before + ([TrackJob(id, reply)] + rest))
    requires var mid := Run(db, before);
             Commits(mid, id, reply) && HeadDue(mid, id, mid.jobs[id], reply.status).Some?
    ensures var mid := Run(db, before);
            QueuedOnce(Run(db, before + ([TrackJob(id, reply)] + rest)),
                       HeadDue(mid, id, mid.jobs[id], reply.status).value.key)
  {
    RunConcat(db, before, [TrackJob(id, reply)] + rest);
    RunKeepsInv(db, before);
    var mid := Run(db, before);
    var key := HeadDue(mid, id, mid.jobs[id], reply.status).value.key;
    assert ([TrackJob(id, reply)] + rest)[1..] == rest;
    TrackEffect(mid, id, reply, key);
    StepKeepsInv(mid, TrackJob(id, reply));
    HeadsStay(Track(mid, id, reply), rest, key);
    RunKeepsInv(db, before + ([TrackJob(id, reply)] + rest));
    OnceIfUnique(Run(db, before + ([TrackJob(id, reply)] + rest)), key);
  }

  // ---- the pass ----------------------------------------------------------------------------

  function TrackAll(db: Db, ids: seq<JobId>, replies: seq<Reply>): Db
    requires |ids| == |replies|
  {
    if ids == [] then db
    else Track(TrackAll(db, ids[..|ids| - 1], replies[..|ids| - 1]), ids[|ids| - 1], replies[|ids| - 1])
  }

  /** Whether a transaction commits depends on its own job and on rows no other job writes. */
  lemma CommitsStable(db: Db, db': Db, id: JobId, reply: Reply)
    requires id in db.jobs && id in db'.jobs && db'.jobs[id] == db.jobs[id]
    requires db'.portfolios == db.portfolios && db'.analyses.Keys == db.analyses.Keys
    ensures Commits(db', id, reply) == Commits(db, id, reply)
  {
  }

  /** Jobs are isolated from each other: over a pass a job shows the status it was answered
      with exactly when its own transaction, alone on the tables before the pass, commits. */
  lemma {:induction false} PassPerJob(db: Db, ids: seq<JobId>, replies: seq<Reply>, id: JobId)
    requires |ids| == |replies| && UniqueHeads(db.heads) && id in db.jobs
    requires forall i, j :: 0 <= i < j < |ids| ==> ids[i] != ids[j]
    requires forall i :: 0 <= i < |ids| ==> ids[i] in db.jobs
    ensures var db' := TrackAll(db, ids, replies);
            && UniqueHeads(db'.heads) && db'.jobs.Keys == db.jobs.Keys
            && db'.portfolios == db.portfolios && db'.analyses.Keys == db.analyses.Keys
            && (id !in ids ==> db'.jobs[id] == db.jobs[id])
            && (forall i :: 0 <= i < |ids| && ids[i] == id ==>
                  db'.jobs[id] == if Commits(db, id, replies[i])
                                  then db.jobs[id].(status := replies[i].status) else db.jobs[id])
    decreases |ids|
  {
    if ids != [] {
      var n := |ids| - 1;
      assert ids[n] !in ids[..n];
      PassPerJob(db, ids[..n], replies[..n], id);
      PassPerJob(db, ids[..n], replies[..n], ids[n]);
      var mid := TrackAll(db, ids[..n], replies[..n]);
      CommitsStable(db, mid, ids[n], replies[n]);
      TrackEffect(mid, ids[n], replies[n], Key(id, BackfillEdmDetail));
      forall i | 0 <= i < n && ids[i] == id ensures ids[..n][i] == id && id != ids[n] {}
    }
  }

  /** No transaction of this job commits in the run, whatever happens to the other jobs. */
  predicate NeverCommits(db: Db, es: seq<Event>, id: JobId)
    decreases |es|
  {
    es == [] ||
    ((es[0].TrackJob? && es[0].id == id ==> !Commits(db, id, es[0].reply)) && NeverCommits(Next(db, es[0]), es[1..], id))
  }

  /** Over every run in which each transaction of a job raises somewhere, or gets no reply, the job
      stays as it was and is tracked again; and the first reply that commits is then mirrored. */
  lemma {:induction false} RaisedIsTrackedAgain(db: Db, es: seq<Event>, id: JobId, reply: Reply)
    requires Inv(db) && Feasible(db, es) && Tracked(db, id) && NeverCommits(db, es, id)
    ensures var r := Run(db, es);
            && Tracked(r, id) && r.jobs[id] == db.jobs[id]
            && (Commits(r, id, reply) ==>
                  id in Track(r, id, reply).jobs && Track(r, id, reply).jobs[id] == db.jobs[id].(status := reply.status))
    decreases |es|
  {
    if es == [] {
      TrackEffect(db, id, reply, Key(id, BackfillEdmDetail));
    } else {
      StepKeepsInv(db, es[0]);
      if es[0].TrackJob? {
        TrackEffect(db, es[0].id, es[0].reply, Key(id, BackfillEdmDetail));
      }
      RaisedIsTrackedAgain(Next(db, es[0]), es[1..], id, reply);
    }
  }

  // ---- waking the workers ----------------------------------------------------------------

  /** The keys of the pending rows, in table order. */
  function PendingKeys(heads: seq<Head>): seq<Key> {
    if heads == [] then []
    else
      var last := heads[|heads| - 1];
      PendingKeys(heads[..|heads| - 1]) + if last.status == Pending then [last.key] else []
  }

  lemma PendingMore(heads: seq<Head>, i: nat)
    requires i < |heads|
    ensures PendingKeys(heads[..i + 1])
         == PendingKeys(heads[..i]) + if heads[i].status == Pending then [heads[i].key] else []
  {
    assert heads[..i + 1][..i] == heads[..i];
  }

  lemma {:induction false} PendingPrefix(heads: seq<Head>, n: nat)
    requires n <= |heads|
    ensures PendingKeys(heads[..n]) <= PendingKeys(heads)
    decreases |heads|
  {
    if n == |heads| {
      assert heads[..n] == heads;
    } else {
      assert heads[..|heads| - 1][..n] == heads[..n];
      PendingPrefix(heads[..|heads| - 1], n);
    }
  }

  /** Row by row, in table order. */
  lemma {:induction false} PendingSplit(before: seq<Head>, h: Head, after: seq<Head>)
    ensures PendingKeys(before + [h] + after)
         == PendingKeys(before) + (if h.status == Pending then [h.key] else []) + PendingKeys(after)
  {
    var heads, n := before + [h] + after, |after| - 1;
    if after == [] {
      assert heads[..|heads| - 1] == before;
    } else {
      assert heads[..|heads| - 1] == before + [h] + after[..n];
      PendingSplit(before, h, after[..n]);
    }
  }

  /** Every pending row is due a wake-up and no other, each once when keys are unique. */
  lemma {:induction false} PendingKeysAre(heads: seq<Head>)
    ensures forall k :: k in PendingKeys(heads) <==> exists i :: 0 <= i < |heads| && heads[i].key == k && heads[i].status == Pending
    ensures UniqueHeads(heads) ==> forall i, j :: 0 <= i < j < |PendingKeys(heads)| ==> PendingKeys(heads)[i] != PendingKeys(heads)[j]
  {
    if heads != [] {
      var n := |heads| - 1;
      var before := heads[..n];
      PendingKeysAre(before);
      forall k ensures k in PendingKeys(heads) <==> exists i :: 0 <= i < |heads| && heads[i].key == k && heads[i].status == Pending {
        if i :| 0 <= i < n && before[i].key == k && before[i].status == Pending { assert heads[i].key == k; }
        if i :| 0 <= i < |heads| && heads[i].key == k && heads[i].status == Pending {
          if i < n { assert before[i].key == k; }
        }
      }
      if UniqueHeads(heads) { assert heads[n].key !in PendingKeys(before); }
    }
  }

  class TrackingStore {
    var jobs: map<JobId, Job>
    var edms: map<EntityId, EdmState>
    var failedRdms: set<EntityId>
    var portfolios: map<EntityId, Portfolio>
    var analyses: map<EntityId, AnalysisRow>
    var heads: seq<Head>

    function Tables(): Db reads this { Db(jobs, edms, failedRdms, portfolios, analyses, heads) }

    /** `enqueue_rwb_job` on the caller's transaction: insert where no row has the key. */
    method EnqueueHead(key: Key, subject: Option<EntityId>) returns (inserted: bool)
      modifies this
      ensures inserted <==> forall i :: 0 <= i < |old(heads)| ==> old(heads)[i].key != key
      ensures heads == if inserted then old(heads) + [Head(key, subject, Pending)] else old(heads)
      ensures Tables() == Exec(old(Tables()), InsertHead(key, subject))
    {
      var i := 0;
      while i < |heads|
        invariant 0 <= i <= |heads|
        invariant forall k :: 0 <= k < i ==> heads[k].key != key
      {
        if heads[i].key == key { return false; }
        i := i + 1;
      }
      heads := heads + [Head(key, subject, Pending)];
      inserted := true;
    }

    method Execute(st: Stmt)
      modifies this
      ensures Tables() == Exec(old(Tables()), st)
    {
      match st {
        case Mirror(id, status) =>
          if id in jobs { jobs := jobs[id := jobs[id].(status := status)]; }
        case SetEdm(edm, state) =>
          if edm.Some? && edm.value in edms { edms := edms[edm.value := state]; }
        case SetRdmFailed(rdm) =>
          if rdm.Some? { failedRdms := failedRdms + {rdm.value}; }
        case SetAnalysisError(a, reason) =>
          if a.Some? && a.value in analyses {
            analyses := analyses[a.value := AnalysisRow(Some(reason), true)];
          }
        case InsertHead(key, subject) =>
          var _ := EnqueueHead(key, subject);
      }
    }

    method Restore(db: Db)
      modifies this
      ensures Tables() == db
    {
      jobs, edms, failedRdms, portfolios, analyses, heads :=
        db.jobs, db.edms, db.failedRdms, db.portfolios, db.analyses, db.heads;
    }

    /** One transaction: the statements run in place, and are undone if one raises. */
    method TrackOne(id: JobId, reply: Reply)
      requires id in jobs
      modifies this
      ensures Tables() == Track(old(Tables()), id, reply)
    {
      if reply.NoReply? || jobs[id].kind == UnknownKind { return; }
      var saved := Tables();
      var failAt := reply.failAt;
      if failAt == Some(0) { return; }
      Execute(Mirror(id, reply.status));
      if Terminal(reply.status) {
        var rest := HandlerStmts(Tables(), id, saved.jobs[id], reply.status, reply.resolved);
        if rest.None? { Restore(saved); return; }
        var sts := rest.value;
        ghost var all := [Mirror(id, reply.status)] + sts;
        var k := 0;
        while k < |sts|
          invariant 0 <= k <= |sts|
          invariant ExecAll(Tables(), sts[k..]) == ExecAll(saved, all)
          invariant failAt.Some? ==> failAt.value > k
        {
          if failAt == Some(k + 1) { Restore(saved); return; }
          assert sts[k..][1..] == sts[k + 1..];
          Execute(sts[k]);
          k := k + 1;
        }
        if failAt == Some(|sts| + 1) { Restore(saved); return; }
      } else {
        assert [Mirror(id, reply.status)][1..] == [];
        assert ExecAll(saved, [Mirror(id, reply.status)]) == ExecAll(Tables(), []);
        if failAt == Some(1) { Restore(saved); }
      }
    }

    /** `_track_irp_jobs`: every listed job is tracked, whatever happened to the others. */
    method TrackIrpJobs(ids: seq<JobId>, replies: seq<Reply>)
      requires |ids| == |replies| && UniqueHeads(heads)
      requires forall i :: 0 <= i < |ids| ==> Tracked(Tables(), ids[i])
      modifies this
      ensures Tables() == TrackAll(old(Tables()), ids, replies)
    {
      for i := 0 to |ids|
        invariant Tables() == TrackAll(old(Tables()), ids[..i], replies[..i])
        invariant UniqueHeads(heads) && jobs.Keys == old(jobs).Keys
      {
        assert ids[..i + 1][..i] == ids[..i] && replies[..i + 1][..i] == replies[..i];
        TrackEffect(Tables(), ids[i], replies[i], Key(0, BackfillEdmDetail));
        TrackOne(ids[i], replies[i]);
      }
      assert ids[..|ids|] == ids && replies[..|replies|] == replies;
    }

    /** `_dispatch_pending`: a wake-up for each pending row, in table order. A dispatch that raises,
        `failAt` saying which, ends the sweep. */
    method DispatchPending(failAt: Option<nat>) returns (sent: seq<Key>, raised: bool)
      ensures var due := PendingKeys(heads);
              && raised == (failAt.Some? && failAt.value < |due|)
              && sent == if raised then due[..failAt.value] else due
    {
      sent, raised := [], false;
      for i := 0 to |heads|
        invariant sent == PendingKeys(heads[..i])
        invariant failAt.Some? ==> failAt.value >= |sent|
      {
        PendingMore(heads, i);
        if heads[i].status == Pending {
          if failAt == Some(|sent|) {
            PendingPrefix(heads, i + 1);
            return sent, true;
          }
          sent := sent + [heads[i].key];
        }
      }
      assert heads[..|heads|] == heads;
    }
  }
}
