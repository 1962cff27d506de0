/** The workflow run engine: a cursor over stages, moved by projecting elapsed
    wall-clock time, parked at human gates, credited for automatic completion. */
module RunEngine {
  import opened Prelude

  const STAGE_SECS: real := 3.0
  const RESULT_FILE: string := "result.bin"

  datatype TaskStatus = TaskNotStarted | TaskRunning | TaskCompleted | TaskFailed

  datatype Task = Task(id: nat, status: TaskStatus, output: string, error: string)

  datatype ExecStatus = NotStarted | Blocked | Running | Review | Complete | Canceled

  datatype Stage = Stage(name: string, autoComplete: bool, exec: ExecStatus,
                         decidedAt: Option<real>, tasks: seq<Task>)

  datatype FlowStatus = Draft | Active | Done | Halted

  datatype Cursor = Cursor(idx: nat, started: real)

  /** One workflow dictionary; `finished` is its `_done` marker. */
  datatype Flow = Flow(status: FlowStatus, currentStage: string, stages: seq<Stage>,
                       run: Option<Cursor>, finished: bool)

  predicate IsGate(e: ExecStatus) { e == Review || e == Blocked }

  // ---- task projection -------------------------------------------------------

  /** Python's round: to the nearest integer, a tie to the even neighbour. */
  function RoundHalfEven(x: real): int {
    var f := x.Floor;
    var d := x - f as real;
    if d < 0.5 then f
    else if d > 0.5 then f + 1
    else if f % 2 == 0 then f else f + 1
  }

  function FinishTask(t: Task): Task {
    t.(status := TaskCompleted, output := if t.output == "" then RESULT_FILE else t.output)
  }

  function ProjectTask(t: Task, j: nat, k: int): Task {
    if j < k then FinishTask(t)
    else if j == k then t.(status := TaskRunning)
    else t.(status := TaskNotStarted)
  }

  /** The tasks of a stage of which the first k are done. */
  function ProjectTasks(tasks: seq<Task>, k: int): (r: seq<Task>)
    ensures |r| == |tasks|
  {
    seq(|tasks|, j requires 0 <= j < |tasks| => ProjectTask(tasks[j], j, k))
  }

  /** The part of n tasks due after a time, as an unrounded number. */
  function Due(n: real, elapsed: real): real {
    n * elapsed / STAGE_SECS
  }

  function Positive(x: real): real { if x > 0.0 then x else 0.0 }

  function TasksDone(n: nat, elapsed: real): int {
    RoundHalfEven(Due(n as real, Positive(elapsed)))
  }

  // ---- advance ---------------------------------------------------------------

  /** One pass of the loop in `advance`; the flag asks for another pass. */
  function Pass(w: Flow, now: real): (Flow, bool)
    requires |w.stages| > 0 && w.run.Some?
  {
    var i := w.run.value.idx;
    var started := w.run.value.started;
    if i >= |w.stages| then
      (w.(status := Done, currentStage := w.stages[|w.stages| - 1].name, run := None, finished := true), false)
    else
      var st := w.stages[i];
      if st.exec == Complete then
        (w.(run := Some(Cursor(i + 1, now))), true)
      else if IsGate(st.exec) then
        (w.(status := Active, currentStage := st.name), false)
      else if |st.tasks| == 0 || now - started >= STAGE_SECS then
        var finished := st.(tasks := ProjectTasks(st.tasks, |st.tasks|));
        if st.autoComplete then
          (w.(stages := w.stages[i := finished.(exec := Complete)],
              run := Some(Cursor(i + 1, started + STAGE_SECS))), true)
        else
          (w.(stages := w.stages[i := finished.(exec := Review)],
              status := Active, currentStage := st.name), false)
      else
        var k := TasksDone(|st.tasks|, now - started);
        (w.(stages := w.stages[i := st.(tasks := ProjectTasks(st.tasks, k), exec := Running)],
            status := Active, currentStage := st.name), false)
  }

  function StagesLeft(w: Flow): nat {
    if w.run.None? || w.run.value.idx >= |w.stages| then 0 else |w.stages| - w.run.value.idx
  }

  /** `advance`: passes until one of them stops. */
  function Settle(w: Flow, now: real): (r: Flow)
    requires |w.stages| > 0
    ensures |r.stages| == |w.stages|
    decreases StagesLeft(w)
  {
    if w.run.None? then w
    else
      var (next, again) := Pass(w, now);
      if again then Settle(next, now) else next
  }

  // ---- polling independence ---------------------------------------------------

  /** No stage at or after the cursor has been completed yet. */
  ghost predicate Ahead(w: Flow) {
    w.run.Some? ==> forall j :: w.run.value.idx <= j < |w.stages| ==> w.stages[j].exec != Complete
  }

  lemma RoundMonotone(x: real, y: real)
    requires x <= y
    ensures RoundHalfEven(x) <= RoundHalfEven(y)
  {
  }

  /** A nearest integer to a number, and the even one of two. */
  ghost predicate Nearest(k: int, x: real) {
    && k as real - 0.5 <= x <= k as real + 0.5
    && (x - k as real == 0.5 || k as real - x == 0.5 ==> k % 2 == 0)
  }

  lemma RoundNearest(x: real)
    ensures Nearest(RoundHalfEven(x), x)
  {
  }

  lemma DueMonotone(n: real, a: real, b: real)
    requires n >= 0.0 && a <= b
    ensures Due(n, a) <= Due(n, b)
  {
  }

  lemma TasksDoneMonotone(n: nat, e1: real, e2: real)
    requires e1 <= e2
    ensures TasksDone(n, e1) <= TasksDone(n, e2)
  {
    DueMonotone(n as real, Positive(e1), Positive(e2));
    RoundMonotone(Due(n as real, Positive(e1)), Due(n as real, Positive(e2)));
  }

  /** A later projection forgets an earlier one. */
  lemma ProjectAbsorbs(tasks: seq<Task>, k: int, k': int)
    requires k <= k'
    ensures ProjectTasks(ProjectTasks(tasks, k), k') == ProjectTasks(tasks, k')
  {
  }

  /** While a run has a cursor, `advance` overwrites the status and stage shown. */
  lemma {:induction false} HeaderIgnored(w: Flow, s: FlowStatus, c: string, now: real)
    requires |w.stages| > 0 && w.run.Some?
    ensures Settle(w.(status := s, currentStage := c), now) == Settle(w, now)
    decreases StagesLeft(w)
  {
    var w' := w.(status := s, currentStage := c);
    var (next, again) := Pass(w, now);
    var (next', again') := Pass(w', now);
    if again {
      assert next' == next.(status := s, currentStage := c);
      HeaderIgnored(next, s, c, now);
    }
  }

  lemma {:induction false} SettleKeepsAhead(w: Flow, now: real)
    requires |w.stages| > 0 && Ahead(w)
    ensures Ahead(Settle(w, now))
    decreases StagesLeft(w)
  {
    if w.run.Some? {
      var (next, again) := Pass(w, now);
      if again { SettleKeepsAhead(next, now); }
    }
  }

  /** Advancing at t1 and again at t2 is advancing once at t2. */
  lemma {:induction false} PollingIndependence(w: Flow, t1: real, t2: real)
    requires |w.stages| > 0 && Ahead(w) && t1 <= t2
    ensures Settle(Settle(w, t1), t2) == Settle(w, t2)
    decreases StagesLeft(w)
  {
    if w.run.Some? && w.run.value.idx < |w.stages| && !IsGate(w.stages[w.run.value.idx].exec) {
      var i, started := w.run.value.idx, w.run.value.started;
      var st := w.stages[i];
      var (next, again) := Pass(w, t1);
      if again {
        assert Pass(w, t2) == (next, true);
        PollingIndependence(next, t1, t2);
      } else if |st.tasks| == 0 || t1 - started >= STAGE_SECS {
        assert Pass(w, t2) == (next, false);
      } else {
        var k1 := TasksDone(|st.tasks|, t1 - started);
        var later := Pass(w, t2);
        if t2 - started >= STAGE_SECS {
          assert k1 <= |st.tasks| by { ProgressBounded(|st.tasks|, t1 - started); }
          ProjectAbsorbs(st.tasks, k1, |st.tasks|);
          var (next2, again2) := Pass(next, t2);
          assert again2 == later.1 == st.autoComplete;
          assert next2.stages == later.0.stages;
          assert next2 == later.0.(status := next2.status, currentStage := next2.currentStage);
          if again2 { HeaderIgnored(later.0, next2.status, next2.currentStage, t2); }
        } else {
          TasksDoneMonotone(|st.tasks|, t1 - started, t2 - started);
          ProjectAbsorbs(st.tasks, k1, TasksDone(|st.tasks|, t2 - started));
          assert Pass(next, t2).0.stages == later.0.stages;
        }
      }
    }
  }

  /** Before the stage time is up at most all tasks are projected as done. */
  lemma ProgressBounded(n: nat, elapsed: real)
    requires elapsed < STAGE_SECS
    ensures 0 <= TasksDone(n, elapsed) <= n
  {
    DueMonotone(n as real, 0.0, Positive(elapsed));
    DueMonotone(n as real, Positive(elapsed), STAGE_SECS);
    assert Due(n as real, STAGE_SECS) == n as real;
    RoundMonotone(0.0, Due(n as real, Positive(elapsed)));
    RoundMonotone(Due(n as real, Positive(elapsed)), n as real);
  }

  ghost predicate Nondecreasing(ts: seq<real>) {
    forall i, j :: 0 <= i < j < |ts| ==> ts[i] <= ts[j]
  }

  function Polls(w: Flow, ts: seq<real>): (r: Flow)
    requires |w.stages| > 0
    ensures |r.stages| == |w.stages|
    decreases |ts|
  {
    if ts == [] then w else Polls(Settle(w, ts[0]), ts[1..])
  }

  /** However often a run is polled, only the time of the last poll shows. */
  lemma {:induction false} OnlyLastPollMatters(w: Flow, ts: seq<real>)
    requires |w.stages| > 0 && Ahead(w) && ts != [] && Nondecreasing(ts)
    ensures Polls(w, ts) == Settle(w, ts[|ts| - 1])
    decreases |ts|
  {
    if |ts| > 1 {
      SettleKeepsAhead(w, ts[0]);
      OnlyLastPollMatters(Settle(w, ts[0]), ts[1..]);
      PollingIndependence(w, ts[0], ts[|ts| - 1]);
    }
  }

  // ---- closed form ------------------------------------------------------------

  /** Every stage from i on completes by itself and takes its full time. */
  ghost predicate SelfDriving(w: Flow) {
    w.run.Some? &&
    forall j :: w.run.value.idx <= j < |w.stages| ==>
      w.stages[j].autoComplete && w.stages[j].tasks != [] && w.stages[j].exec in {NotStarted, Running}
  }

  /** The cursor of a self-driving run is the number of whole stage times elapsed. */
  lemma {:induction false} CursorClosedForm(w: Flow, now: real)
    requires |w.stages| > 0 && SelfDriving(w) && w.run.value.idx <= |w.stages|
    requires now >= w.run.value.started
    ensures var c := w.run.value;
            var q := ((now - c.started) / STAGE_SECS).Floor;
            if c.idx + q >= |w.stages|
            then Settle(w, now).run == None && Settle(w, now).status == Done
            else Settle(w, now).run == Some(Cursor(c.idx + q, c.started + STAGE_SECS * q as real))
    decreases StagesLeft(w)
  {
    var c := w.run.value;
    if c.idx < |w.stages| && now - c.started >= STAGE_SECS {
      var (next, again) := Pass(w, now);
      var x := (now - c.started) / STAGE_SECS;
      assert (now - next.run.value.started) / STAGE_SECS == x - 1.0;
      assert (x - 1.0).Floor == x.Floor - 1;
      CursorClosedForm(next, now);
    }
  }

  // ---- what advancing shows -----------------------------------------------------

  /** The first k tasks are completed and have an output, their own if they had one; the next one
      runs, the others have not started. */
  ghost predicate ShowsDone(before: seq<Task>, after: seq<Task>, k: int) {
    |after| == |before| &&
    forall j :: 0 <= j < |before| ==>
      && after[j].id == before[j].id && after[j].error == before[j].error
      && after[j].status == (if j < k then TaskCompleted else if j == k then TaskRunning else TaskNotStarted)
      && after[j].output == (if j < k && before[j].output == "" then "result.bin" else before[j].output)
  }

  /** What a time asks of n tasks of three seconds together. */
  ghost predicate InProportion(k: int, n: nat, elapsed: real) {
    Nearest(k, if elapsed > 0.0 then n as real * elapsed / 3.0 else 0.0)
  }

  /** Before its three seconds are up, the stage at the cursor runs and shows as many tasks done as
      the time elapsed is in proportion, rounded to the nearest, a tie to the even number. */
  lemma ProgressShown(w: Flow, now: real)
    requires |w.stages| > 0 && w.run.Some? && w.run.value.idx < |w.stages|
    requires w.stages[w.run.value.idx].exec !in {Complete, Review, Blocked}
    requires w.stages[w.run.value.idx].tasks != [] && now - w.run.value.started < 3.0
    ensures var i, r := w.run.value.idx, Settle(w, now);
            var st, after := w.stages[i], r.stages[i];
            && r == w.(stages := w.stages[i := after], status := Active, currentStage := st.name)
            && after == st.(exec := Running, tasks := after.tasks)
            && exists k :: InProportion(k, |st.tasks|, now - w.run.value.started) && ShowsDone(st.tasks, after.tasks, k)
  {
    var tasks, elapsed := w.stages[w.run.value.idx].tasks, now - w.run.value.started;
    var k := TasksDone(|tasks|, elapsed);
    RoundNearest(Due(|tasks| as real, Positive(elapsed)));
    assert InProportion(k, |tasks|, elapsed) && ShowsDone(tasks, ProjectTasks(tasks, k), k);
  }

  /** A stage without tasks, or whose three seconds are up, has all its tasks completed. It is complete
      itself and the run goes on three seconds after the stage began, or it waits to be reviewed. */
  lemma StageTimeUp(w: Flow, now: real)
    requires |w.stages| > 0 && w.run.Some? && w.run.value.idx < |w.stages|
    requires w.stages[w.run.value.idx].exec !in {Complete, Review, Blocked}
    requires w.stages[w.run.value.idx].tasks == [] || now - w.run.value.started >= 3.0
    ensures var c := w.run.value;
            var st := w.stages[c.idx];
            exists tasks :: ShowsDone(st.tasks, tasks, |st.tasks|) &&
              Settle(w, now) ==
              if st.autoComplete
              then Settle(w.(stages := w.stages[c.idx := st.(exec := Complete, tasks := tasks)],
                             run := Some(Cursor(c.idx + 1, c.started + 3.0))), now)
              else w.(stages := w.stages[c.idx := st.(exec := Review, tasks := tasks)],
                      status := Active, currentStage := st.name)
  {
    var st := w.stages[w.run.value.idx];
    assert ShowsDone(st.tasks, ProjectTasks(st.tasks, |st.tasks|), |st.tasks|);
  }

  /** Without a cursor nothing happens; past the last stage the run is over; at a gate it waits; past
      a stage completed before it moves on at once. */
  lemma NothingToProject(w: Flow, now: real)
    requires |w.stages| > 0
    requires w.run.Some? && w.run.value.idx < |w.stages| ==> w.stages[w.run.value.idx].exec in {Complete, Review, Blocked}
    ensures Settle(w, now) ==
            match w.run
            case None => w
            case Some(c) =>
              if c.idx >= |w.stages|
              then w.(status := Done, currentStage := w.stages[|w.stages| - 1].name, run := None, finished := true)
              else if w.stages[c.idx].exec == Complete then Settle(w.(run := Some(Cursor(c.idx + 1, now))), now)
              else w.(status := Active, currentStage := w.stages[c.idx].name)
  {
  }

  // ---- the states a workflow can reach -------------------------------------------

  /** Completed stages, then the cursor stage, then untouched stages. */
  ghost predicate Split(stages: seq<Stage>, i: nat) {
    && i <= |stages|
    && (forall j :: 0 <= j < i ==> stages[j].exec == Complete)
    && (forall j :: i < j < |stages| ==> stages[j].exec == NotStarted)
  }

  /** The invariant of a workflow at rest, between two calls. */
  ghost predicate Inv(w: Flow) {
    && |w.stages| > 0
    && match w.run {
         case Some(c) =>
           && c.idx < |w.stages| && Split(w.stages, c.idx)
           && w.stages[c.idx].exec in {Running, Review, Blocked}
           && w.status == Active
         case None =>
           || (w.status == Draft && forall j :: 0 <= j < |w.stages| ==> w.stages[j].exec == NotStarted)
           || (w.status == Done && forall j :: 0 <= j < |w.stages| ==> w.stages[j].exec == Complete)
           || (w.status == Halted && exists i :: 0 <= i < |w.stages| && Split(w.stages, i) && w.stages[i].exec == Canceled)
       }
  }

  /** A workflow inside a call: the cursor may have just moved. */
  ghost predicate Moving(w: Flow) {
    && |w.stages| > 0 && w.run.Some?
    && Split(w.stages, w.run.value.idx)
    && (w.run.value.idx < |w.stages| ==> w.stages[w.run.value.idx].exec in {NotStarted, Running, Review, Blocked})
  }

  lemma {:induction false} SettleRests(w: Flow, now: real)
    requires Moving(w)
    ensures Inv(Settle(w, now))
    decreases StagesLeft(w)
  {
    var (next, again) := Pass(w, now);
    if again { SettleRests(next, now); }
  }

  // ---- calls -----------------------------------------------------------------

  datatype Call =
    | Start(t: real, now: real)
    | Poll(now: real)
    | Decide(stage: nat, cancel: bool, t: real, now: real)
    | AddTask(stage: nat, id: nat)
    | RemoveTask(stage: nat, id: nat)
    | SetAutoComplete(stage: nat, value: bool)

  function ResetTask(t: Task): Task { t.(status := TaskNotStarted, output := "", error := "") }

  function ResetStage(st: Stage): Stage {
    st.(exec := NotStarted, decidedAt := None,
        tasks := seq(|st.tasks|, j requires 0 <= j < |st.tasks| => ResetTask(st.tasks[j])))
  }

  function Restarted(w: Flow, t: real): (r: Flow)
    ensures |r.stages| == |w.stages|
  {
    w.(stages := seq(|w.stages|, i requires 0 <= i < |w.stages| => ResetStage(w.stages[i])),
       status := Active, run := Some(Cursor(0, t)), finished := false)
  }

  /** A gate that is decided: canceled, or completed with the cursor moved past it. */
  function Decided(w: Flow, i: nat, cancel: bool, t: real): (r: Flow)
    requires i < |w.stages|
    ensures |r.stages| == |w.stages|
  {
    if cancel then
      w.(stages := w.stages[i := w.stages[i].(exec := Canceled)], status := Halted, run := None)
    else
      w.(stages := w.stages[i := w.stages[i].(exec := Complete, decidedAt := Some(t))],
         run := Some(Cursor(i + 1, t)))
  }

  function Without(tasks: seq<Task>, id: nat): seq<Task> {
    if tasks == [] then []
    else (if tasks[0].id == id then [] else [tasks[0]]) + Without(tasks[1..], id)
  }

  /** What a call leaves behind; a call the source answers by raising changes nothing. */
  function After(w: Flow, c: Call): (r: Flow)
    requires |w.stages| > 0
    ensures |r.stages| == |w.stages|
  {
    match c
    case Start(t, now) => Settle(Restarted(w, t), now)
    case Poll(now) => Settle(w, now)
    case Decide(i, cancel, t, now) =>
      if i >= |w.stages| || !IsGate(w.stages[i].exec) then w
      else Settle(Decided(w, i, cancel, t), now)
    case AddTask(i, id) =>
      if i >= |w.stages| || w.stages[i].exec != NotStarted then w
      else w.(stages := w.stages[i := w.stages[i].(tasks := w.stages[i].tasks + [Task(id, TaskNotStarted, "", "")])])
    case RemoveTask(i, id) =>
      if i >= |w.stages| || w.stages[i].exec != NotStarted then w
      else w.(stages := w.stages[i := w.stages[i].(tasks := Without(w.stages[i].tasks, id))])
    case SetAutoComplete(i, value) =>
      if i >= |w.stages| || w.stages[i].exec != NotStarted then w
      else w.(stages := w.stages[i := w.stages[i].(autoComplete := value)])
  }

  function Calls(w: Flow, cs: seq<Call>): (r: Flow)
    requires |w.stages| > 0
    ensures |r.stages| == |w.stages|
    decreases |cs|
  {
    if cs == [] then w else Calls(After(w, cs[0]), cs[1..])
  }

  // ---- what the calls do ---------------------------------------------------------

  /** The workflow as if it had never run, with the cursor at its first stage. */
  ghost predicate Fresh(w: Flow, t: real, r: Flow) {
    && |r.stages| == |w.stages|
    && r == w.(stages := r.stages, status := Active, run := Some(Cursor(0, t)), finished := false)
    && forall i :: 0 <= i < |w.stages| ==>
         && r.stages[i] == w.stages[i].(exec := NotStarted, decidedAt := None, tasks := r.stages[i].tasks)
         && |r.stages[i].tasks| == |w.stages[i].tasks|
         && forall j :: 0 <= j < |w.stages[i].tasks| ==>
              r.stages[i].tasks[j] == Task(w.stages[i].tasks[j].id, TaskNotStarted, "", "")
  }

  lemma StartBeginsFresh(w: Flow, t: real, now: real)
    requires |w.stages| > 0
    ensures exists r :: Fresh(w, t, r) && After(w, Start(t, now)) == Settle(r, now)
  {
    assert Fresh(w, t, Restarted(w, t));
  }

  /** A decision counts at an open gate only: canceling halts the workflow there, completing
      stamps the stage and moves the cursor past it. */
  lemma DecisionCounts(w: Flow, i: nat, cancel: bool, t: real, now: real)
    requires |w.stages| > 0
    ensures After(w, Decide(i, cancel, t, now)) ==
            if i >= |w.stages| || w.stages[i].exec !in {Review, Blocked} then w
            else if cancel then w.(stages := w.stages[i := w.stages[i].(exec := Canceled)], status := Halted, run := None)
            else Settle(w.(stages := w.stages[i := w.stages[i].(exec := Complete, decidedAt := Some(t))],
                           run := Some(Cursor(i + 1, t))), now)
  {
  }

  /** Removing goes over the tasks one by one: those with the id go, the others stay in order. */
  lemma {:induction false} WithoutSplit(xs: seq<Task>, ys: seq<Task>, t: Task, id: nat)
    ensures Without(xs + ys, id) == Without(xs, id) + Without(ys, id)
    ensures Without([t], id) == if t.id == id then [] else [t]
  {
    assert [t][1..] == [];
    if xs == [] {
      assert xs + ys == ys;
    } else {
      assert (xs + ys)[1..] == xs[1..] + ys && (xs + ys)[0] == xs[0];
      WithoutSplit(xs[1..], ys, t, id);
    }
  }

  /** Only a stage that has not started is edited, and nothing else with it. */
  ghost predicate EditsOnly(w: Flow, r: Flow, i: nat, edited: Stage) {
    r == if i < |w.stages| && w.stages[i].exec == NotStarted then w.(stages := w.stages[i := edited]) else w
  }

  lemma EditsAre(w: Flow, i: nat, id: nat, value: bool)
    requires |w.stages| > 0
    ensures i < |w.stages| ==>
              var st := w.stages[i];
              && EditsOnly(w, After(w, AddTask(i, id)), i, st.(tasks := st.tasks + [Task(id, TaskNotStarted, "", "")]))
              && EditsOnly(w, After(w, RemoveTask(i, id)), i, st.(tasks := Without(st.tasks, id)))
              && EditsOnly(w, After(w, SetAutoComplete(i, value)), i, st.(autoComplete := value))
    ensures i >= |w.stages| ==>
              After(w, AddTask(i, id)) == After(w, RemoveTask(i, id)) == After(w, SetAutoComplete(i, value)) == w
  {
  }

  lemma CallKeepsInv(w: Flow, c: Call)
    requires Inv(w)
    ensures Inv(After(w, c))
  {
    match c
    case Start(t, now) => SettleRests(Restarted(w, t), now);
    case Poll(now) => if w.run.Some? { SettleRests(w, now); }
    case Decide(i, cancel, t, now) =>
      if i < |w.stages| && IsGate(w.stages[i].exec) {
        assert w.run.Some? && w.run.value.idx == i;
        if cancel {
          assert Split(Decided(w, i, cancel, t).stages, i);
        } else {
          SettleRests(Decided(w, i, cancel, t), now);
        }
      }
    case AddTask(i, id) => EditKeepsInv(w, i, After(w, c));
    case RemoveTask(i, id) => EditKeepsInv(w, i, After(w, c));
    case SetAutoComplete(i, value) => EditKeepsInv(w, i, After(w, c));
  }

  lemma EditKeepsInv(w: Flow, i: nat, w': Flow)
    requires Inv(w)
    requires w' == w.(stages := w'.stages) && |w'.stages| == |w.stages|
    requires forall j :: 0 <= j < |w.stages| ==> w'.stages[j].exec == w.stages[j].exec
    ensures Inv(w')
  {
  }

  /** Over any interleaving of calls the run invariant holds, and one gate at most is open. */
  lemma {:induction false} RunInvariant(w: Flow, cs: seq<Call>)
    requires Inv(w)
    ensures var r := Calls(w, cs);
            && Inv(r)
            && (forall i, j | 0 <= i < |r.stages| && 0 <= j < |r.stages| ::
                  IsGate(r.stages[i].exec) && IsGate(r.stages[j].exec) ==> i == j)
            && (forall i | 0 <= i < |r.stages| ::
                  IsGate(r.stages[i].exec) ==> r.run.Some? && r.run.value.idx == i)
    decreases |cs|
  {
    if cs != [] {
      CallKeepsInv(w, cs[0]);
      RunInvariant(After(w, cs[0]), cs[1..]);
    }
  }

  lemma {:induction false} CallsSplit(w: Flow, cs: seq<Call>, ds: seq<Call>)
    requires |w.stages| > 0
    ensures Calls(w, cs + ds) == Calls(Calls(w, cs), ds)
    decreases |cs|
  {
    if cs == [] {
      assert cs + ds == ds;
    } else {
      assert (cs + ds)[1..] == cs[1..] + ds;
      CallsSplit(After(w, cs[0]), cs[1..], ds);
    }
  }

  /** Anywhere in a history of calls, a poll followed by a later one can be dropped. */
  lemma {:induction false} RedundantPoll(w: Flow, before: seq<Call>, t1: real, t2: real, rest: seq<Call>)
    requires Inv(w) && t1 <= t2
    ensures Calls(w, before + [Poll(t1), Poll(t2)] + rest) == Calls(w, before + [Poll(t2)] + rest)
  {
    RunInvariant(w, before);
    var mid := Calls(w, before);
    PollingIndependence(mid, t1, t2);
    assert Calls(mid, [Poll(t1), Poll(t2)]) == Calls(mid, [Poll(t2)]) by {
      assert [Poll(t1), Poll(t2)][1..] == [Poll(t2)];
      assert Calls(After(mid, Poll(t1)), [Poll(t2)]) == After(After(mid, Poll(t1)), Poll(t2));
    }
    CallsSplit(w, before, [Poll(t1), Poll(t2)]);
    CallsSplit(w, before, [Poll(t2)]);
    CallsSplit(w, before + [Poll(t1), Poll(t2)], rest);
    CallsSplit(w, before + [Poll(t2)], rest);
  }

  /** The workflows met at the head of the loop while `advance` runs. */
  function LoopHeads(w: Flow, now: real): seq<Flow>
    requires |w.stages| > 0
    decreases StagesLeft(w)
  {
    if w.run.None? then []
    else
      var (next, again) := Pass(w, now);
      [w] + (if again then LoopHeads(next, now) else [])
  }

  /** Inside any call the loop never meets a stage already complete at the cursor,
      and it takes at most one pass per stage left and one to finish. */
  lemma {:induction false} NeverCompleteAtCursor(w: Flow, now: real)
    requires Moving(w)
    ensures |LoopHeads(w, now)| <= StagesLeft(w) + 1
    ensures forall h :: h in LoopHeads(w, now) && h.run.Some? && h.run.value.idx < |h.stages| ==>
              h.stages[h.run.value.idx].exec != Complete
    decreases StagesLeft(w)
  {
    var (next, again) := Pass(w, now);
    if again { NeverCompleteAtCursor(next, now); }
  }

  /** Every call that advances a workflow at rest starts the loop from a `Moving` one. */
  lemma CallsStartMoving(w: Flow, i: nat, t: real)
    requires Inv(w)
    ensures Moving(Restarted(w, t)) && Ahead(Restarted(w, t))
    ensures w.run.Some? ==> Moving(w) && Ahead(w)
    ensures i < |w.stages| && IsGate(w.stages[i].exec) ==>
              Moving(Decided(w, i, false, t)) && Ahead(Decided(w, i, false, t))
  {
  }

  // ---- the dictionaries, updated in place -----------------------------------------

  class Workflow {
    var status: FlowStatus
    var currentStage: string
    var stages: seq<Stage>
    var run: Option<Cursor>
    var finished: bool

    function Snapshot(): Flow reads this {
      Flow(status, currentStage, stages, run, finished)
    }

    /** The two task loops of `advance`: k == |tasks| finishes them all. */
    static method MarkTasks(tasks: seq<Task>, k: int) returns (r: seq<Task>)
      ensures r == ProjectTasks(tasks, k)
    {
      r := tasks;
      for j := 0 to |tasks|
        invariant |r| == |tasks|
        invariant forall m :: 0 <= m < j ==> r[m] == ProjectTask(tasks[m], m, k)
        invariant forall m :: j <= m < |tasks| ==> r[m] == tasks[m]
      {
        if j < k {
          r := r[j := FinishTask(r[j])];
        } else if j == k {
          r := r[j := r[j].(status := TaskRunning)];
        } else {
          r := r[j := r[j].(status := TaskNotStarted)];
        }
      }
    }

    method Advance(now: real)
      requires |stages| > 0
      modifies this
      ensures Snapshot() == Settle(old(Snapshot()), now)
    {
      if run.None? { return; }
      while true
        invariant |stages| > 0 && run.Some?
        invariant Settle(Snapshot(), now) == Settle(old(Snapshot()), now)
        decreases StagesLeft(Snapshot())
      {
        ghost var head := Snapshot();
        var i := run.value.idx;
        if i >= |stages| {
          status := Done;
          currentStage := stages[|stages| - 1].name;
          run := None;
          finished := true;
          assert Pass(head, now) == (Snapshot(), false);
          return;
        }
        var st := stages[i];
        if st.exec == Complete {
          run := Some(Cursor(i + 1, now));
          assert Pass(head, now) == (Snapshot(), true);
          continue;
        }
        if IsGate(st.exec) {
          currentStage := st.name;
          status := Active;
          assert Pass(head, now) == (Snapshot(), false);
          return;
        }
        var started := run.value.started;
        var elapsed := now - started;
        var n := |st.tasks|;
        if n == 0 || elapsed >= STAGE_SECS {
          var tasks := MarkTasks(st.tasks, n);
          st := st.(tasks := tasks);
          if st.autoComplete {
            stages := stages[i := st.(exec := Complete)];
            run := Some(Cursor(i + 1, started + STAGE_SECS));
            assert Pass(head, now) == (Snapshot(), true);
            continue;
          }
          stages := stages[i := st.(exec := Review)];
          currentStage := st.name;
          status := Active;
          assert Pass(head, now) == (Snapshot(), false);
          return;
        }
        var tasks := MarkTasks(st.tasks, TasksDone(n, elapsed));
        stages := stages[i := st.(tasks := tasks, exec := Running)];
        currentStage := st.name;
        status := Active;
        assert Pass(head, now) == (Snapshot(), false);
        return;
      }
    }

    /** `start_run`; the clock is read once for the cursor and again by `advance`. */
    method StartRun(t: real, now: real)
      requires |stages| > 0
      modifies this
      ensures Snapshot() == After(old(Snapshot()), Start(t, now))
    {
      var i := 0;
      while i < |stages|
        invariant 0 <= i <= |stages| == |old(stages)|
        invariant forall m :: 0 <= m < i ==> stages[m] == ResetStage(old(stages)[m])
        invariant forall m :: i <= m < |stages| ==> stages[m] == old(stages)[m]
        invariant Snapshot() == old(Snapshot()).(stages := stages)
      {
        stages := stages[i := ResetStage(stages[i])];
        i := i + 1;
      }
      status := Active;
      run := Some(Cursor(0, t));
      finished := false;
      assert stages == Restarted(old(Snapshot()), t).stages;
      Advance(now);
    }

    /** `review_decide`; `known` is false where the source raises IndexError. */
    method ReviewDecide(i: nat, cancel: bool, t: real, now: real) returns (known: bool)
      requires |stages| > 0
      modifies this
      ensures known == (i < |old(stages)|)
      ensures Snapshot() == After(old(Snapshot()), Decide(i, cancel, t, now))
    {
      if i >= |stages| { return false; }
      known := true;
      if !IsGate(stages[i].exec) { return; }
      if cancel {
        stages := stages[i := stages[i].(exec := Canceled)];
        status := Halted;
        run := None;
        return;
      }
      stages := stages[i := stages[i].(exec := Complete, decidedAt := Some(t))];
      run := Some(Cursor(i + 1, t));
      Advance(now);
    }

    method AddNewTask(i: nat, id: nat) returns (added: bool)
      requires |stages| > 0
      modifies this
      ensures added == (i < |old(stages)| && old(stages)[i].exec == NotStarted)
      ensures Snapshot() == After(old(Snapshot()), AddTask(i, id))
    {
      if i >= |stages| || stages[i].exec != NotStarted { return false; }
      stages := stages[i := stages[i].(tasks := stages[i].tasks + [Task(id, TaskNotStarted, "", "")])];
      added := true;
    }

    method RemoveTaskById(i: nat, id: nat)
      requires |stages| > 0
      modifies this
      ensures Snapshot() == After(old(Snapshot()), RemoveTask(i, id))
    {
      if i < |stages| && stages[i].exec == NotStarted {
        stages := stages[i := stages[i].(tasks := Without(stages[i].tasks, id))];
      }
    }

    method SetAuto(i: nat, value: bool)
      requires |stages| > 0
      modifies this
      ensures Snapshot() == After(old(Snapshot()), SetAutoComplete(i, value))
    {
      if i < |stages| && stages[i].exec == NotStarted {
        stages := stages[i := stages[i].(autoComplete := value)];
      }
    }
  }
}
