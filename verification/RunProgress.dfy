/** Termination, sticky cancellation and permanent checkpoints over whole traces. */
module RunProgress {
  import opened Reachability
  import opened StagePlan
  import opened RunModel
  import opened RunLog
  import opened RunInvariant
  import opened RunTraces

  // ---- termination measure ----

  function Rank(status: RunStatus): nat {
    match status
    case Running => 4
    case PatchReady => 3
    case Failed => 2
    case Queued => 1
    case Completed => 0
    case Cancelled => 0
  }

  /** (max_attempts - attempt, rank of the status), lexicographically. */
  function Measure(run: Run): nat {
    if run.attempt <= run.maxAttempts then (run.maxAttempts - run.attempt) * 5 + Rank(run.status) else 0
  }

  predicate SamePhase(a: Run, b: Run) {
    a.status == b.status && a.attempt == b.attempt
  }

  /** Every change of status or attempt spends the measure; nothing else moves it. */
  lemma ActionSpendsMeasure(record: Record, now: int, action: Action)
    requires RowSound(record)
    ensures var after := Decide(record, now, action).record.run;
            && (SamePhase(after, record.run) ==> Measure(after) == Measure(record.run))
            && (!SamePhase(after, record.run) ==> Measure(after) < Measure(record.run))
            && after.maxAttempts == record.run.maxAttempts
  {
    if action.BeginStage? {
      BeginKeepsStatus(record, action.name, action.digest, action.id);
    }
    hide Begun, StageFinished;
  }

  /** The attempt of a run counts its claims. */
  lemma AttemptCountsClaims(record: Record, now: int, action: Action)
    ensures Decide(record, now, action).record.run.attempt
            == record.run.attempt + if action.ClaimRun? && Claimable(record.run, now) then 1 else 0
  {
    if action.BeginStage? {
      BeginKeepsStatus(record, action.name, action.digest, action.id);
    }
    hide Begun, StageFinished;
  }

  /** A queued run is never poisoned, and one that failed retryably can be retried. */
  lemma QueuedRunsAreClaimable(record: Record, now: int)
    requires RowSound(record)
    ensures record.run.status.Queued? ==> Claimable(record.run, now) && !Exhausted(record.run, now)
    ensures record.run.status.Failed? ==> (record.run.error.value.retryable <==> Retryable(record.run))
  {
  }

  /** An expired patch-ready run can be recovered; on its last attempt it can as well be poisoned, and then it
      ends failed for good although it has a patch. */
  lemma PatchReadyRace(record: Record, now: int)
    requires RowSound(record) && record.run.status.PatchReady? && Expired(record.run, now)
    ensures Recoverable(record, now)
    ensures Exhausted(record.run, now) <==> record.run.attempt == record.run.maxAttempts
    ensures var poisoned := Decide(record, now, Terminalize).record;
            && poisoned.patch == record.patch && poisoned.patch.Some?
            && (poisoned.run.status.Failed? <==> record.run.attempt == record.run.maxAttempts)
            && !Retryable(poisoned.run)
  {
  }

  ghost predicate Changes(s: State, step: Step, r: Id) {
    r in s.runs && r in Next(s, step).runs && !SamePhase(s.runs[r].run, Next(s, step).runs[r].run)
  }

  /** How often a trace changes the status or the attempt of r. */
  ghost function ChangeCount(s: State, steps: seq<Step>, r: Id): nat
    decreases |steps|
  {
    if steps == [] then 0
    else
      var before := After(s, steps[..|steps| - 1]);
      ChangeCount(s, steps[..|steps| - 1], r) + if Changes(before, steps[|steps| - 1], r) then 1 else 0
  }

  /** A surviving row either stays or is rewritten by an action on its own run. */
  lemma RowOverStep(s: State, step: Step, r: Id)
    requires Logged(s) && r in s.runs && r in Next(s, step).runs
    ensures if step.Act? && step.run == r
            then Next(s, step).runs[r] == Decide(s.runs[r], s.now, step.action).record
            else Next(s, step).runs[r] == s.runs[r]
  {
    hide Decide, EveryLogGapFree, RowsHaveRuns;
    if step.Act? && step.run in s.runs {
      ActKeepsLog(s, step.run, step.action);
    } else if !step.Act? {
      OtherStepKeepsLog(s, step);
    }
    hide Next, EventsOf;
  }

  lemma StepSpendsMeasure(s: State, step: Step, r: Id)
    requires Sound(s) && r in s.runs && r in Next(s, step).runs
    ensures Measure(Next(s, step).runs[r].run) + (if Changes(s, step, r) then 1 else 0) <= Measure(s.runs[r].run)
  {
    RowOverStep(s, step, r);
    assert RunSound(s.runs[r], EventsOf(s, r));
    if step.Act? && step.run == r {
      ActionSpendsMeasure(s.runs[r], s.now, step.action);
    }
    hide Decide, Measure, Next, RowSound;
  }

  /** No trace changes the status or the attempt of a run more often than its measure allows. */
  lemma {:induction false} ChangesAreBounded(s: State, steps: seq<Step>, r: Id)
    requires Sound(s) && r in s.runs
    ensures r in After(s, steps).used
    ensures ChangeCount(s, steps, r) <= Measure(s.runs[r].run)
    ensures r in After(s, steps).runs ==>
              ChangeCount(s, steps, r) + Measure(After(s, steps).runs[r].run) <= Measure(s.runs[r].run)
    decreases |steps|
  {
    if steps != [] {
      var before, step := After(s, steps[..|steps| - 1]), steps[|steps| - 1];
      ChangesAreBounded(s, steps[..|steps| - 1], r);
      SoundStays(s, steps[..|steps| - 1]);
      EpochOverStep(before, step, r);
      if r in before.runs && r in Next(before, step).runs {
        StepSpendsMeasure(before, step, r);
      }
      hide Sound, Measure, Next;
    }
  }

  lemma NewRunBudget(request: NewRun, now: int)
    ensures Measure(Fresh(request, now).run) == 16
  {
  }

  lemma CreatedIsFresh(s: State, id: Id, request: NewRun)
    requires id !in s.runs && id in Next(s, Create(id, request)).runs
    ensures Next(s, Create(id, request)).runs[id] == Fresh(request, s.now)
  {
  }

  /** From its creation on, a run goes through at most sixteen changes, whatever the actors do. */
  lemma NewRunChangesBounded(s: State, id: Id, request: NewRun, steps: seq<Step>)
    requires Sound(s) && id !in s.runs && id in Next(s, Create(id, request)).runs
    ensures ChangeCount(Next(s, Create(id, request)), steps, id) <= 16
  {
    var t := Next(s, Create(id, request));
    CreatedIsFresh(s, id, request);
    NewRunBudget(request, s.now);
    hide *;
    NextKeepsSound(s, Create(id, request));
    ChangesAreBounded(t, steps, id);
  }

  // ---- sticky cancellation ----

  /** A run that was asked to cancel while running, until an explicit retry. */
  ghost predicate Doomed(run: Run) {
    run.cancelRequestedAt.Some? && (run.status.Running? || run.status.Failed? || run.status.Cancelled?)
  }

  lemma ActionKeepsDoom(record: Record, now: int, action: Action)
    requires Doomed(record.run) && !action.Retry?
    ensures Doomed(Decide(record, now, action).record.run)
  {
    if action.BeginStage? {
      BeginKeepsStatus(record, action.name, action.digest, action.id);
    }
    hide Begun, StageFinished;
  }

  /** A cancel request on a running run is taken down by every later trace without a retry: crashes, lease
      expiries, reclaims and recoveries by any worker included. */
  lemma CancellationIsSticky(s: State, steps: seq<Step>, r: Id)
    requires Logged(s) && r in s.runs && Doomed(s.runs[r].run)
    requires forall i :: 0 <= i < |steps| ==> steps[i] != Act(r, Retry)
    ensures r in After(s, steps).runs ==>
              Doomed(After(s, steps).runs[r].run)
              && !After(s, steps).runs[r].run.status.PatchReady? && !After(s, steps).runs[r].run.status.Completed?
  {
    DoomStays(s, steps, r);
  }

  lemma {:induction false} DoomStays(s: State, steps: seq<Step>, r: Id)
    requires Logged(s) && r in s.runs && Doomed(s.runs[r].run)
    requires forall i :: 0 <= i < |steps| ==> steps[i] != Act(r, Retry)
    ensures r in After(s, steps).used
    ensures r in After(s, steps).runs ==> Doomed(After(s, steps).runs[r].run)
    decreases |steps|
  {
    if steps != [] {
      var before, step := After(s, steps[..|steps| - 1]), steps[|steps| - 1];
      DoomStays(s, steps[..|steps| - 1], r);
      LogsStayGapFree(s, steps[..|steps| - 1]);
      EpochOverStep(before, step, r);
      if r in Next(before, step).runs {
        RowOverStep(before, step, r);
        if step.Act? && step.run == r {
          ActionKeepsDoom(before.runs[r], before.now, step.action);
        }
      }
      hide Logged, Decide, Next, Doomed;
    }
  }

  // ---- permanent checkpoints ----

  /** A completed stage keeps its row, and a patch once stored is never replaced. */
  ghost predicate Keeps(before: Record, after: Record) {
    && (forall id :: id in before.stages && before.stages[id].status.StageCompleted? ==>
          id in after.stages && after.stages[id] == before.stages[id])
    && (before.patch.Some? ==> after.patch == before.patch)
    && after.run.operation == before.run.operation && after.run.base == before.run.base
    && after.run.canvas == before.run.canvas
  }

  lemma BeginKeepsCheckpoints(record: Record, name: StageName, digest: Digest, id: Id)
    ensures Keeps(record, Begun(record, name, digest, id).record)
  {
  }

  lemma ActionKeepsCheckpoints(record: Record, now: int, action: Action)
    ensures Keeps(record, Decide(record, now, action).record)
  {
    if action.BeginStage? {
      BeginKeepsCheckpoints(record, action.name, action.digest, action.id);
    }
    hide Begun;
  }

  lemma KeepsTransitive(a: Record, b: Record, c: Record)
    requires Keeps(a, b) && (Keeps(b, c) || b == c)
    ensures Keeps(a, c)
  {
  }

  lemma {:induction false} CheckpointsArePermanent(s: State, steps: seq<Step>, r: Id)
    requires Logged(s) && r in s.runs
    ensures r in After(s, steps).used
    ensures r in After(s, steps).runs ==> Keeps(s.runs[r], After(s, steps).runs[r])
    decreases |steps|
  {
    if steps != [] {
      var before, step := After(s, steps[..|steps| - 1]), steps[|steps| - 1];
      CheckpointsArePermanent(s, steps[..|steps| - 1], r);
      LogsStayGapFree(s, steps[..|steps| - 1]);
      EpochOverStep(before, step, r);
      if r in Next(before, step).runs {
        RowOverStep(before, step, r);
        if step.Act? && step.run == r {
          ActionKeepsCheckpoints(before.runs[r], before.now, step.action);
        }
        hide Logged, Decide, Next, Keeps;
        KeepsTransitive(s.runs[r], before.runs[r], Next(before, step).runs[r]);
      }
    }
  }

  /** At most one completed output per stage name and input hash, in every reachable state and across time:
      a later state cannot show a different output for the same key. */
  lemma OneOutputPerKey(s: State, steps: seq<Step>, r: Id, a: Id, b: Id)
    requires Sound(s) && r in s.runs && r in After(s, steps).runs
    requires a in s.runs[r].stages && s.runs[r].stages[a].status.StageCompleted?
    requires b in After(s, steps).runs[r].stages
    requires After(s, steps).runs[r].stages[b].name == s.runs[r].stages[a].name
    requires After(s, steps).runs[r].stages[b].digest == s.runs[r].stages[a].digest
    ensures b == a && After(s, steps).runs[r].stages[b].output == s.runs[r].stages[a].output
  {
    CheckpointsArePermanent(s, steps, r);
    SoundStays(s, steps);
    var t := After(s, steps);
    assert RunSound(t.runs[r], EventsOf(t, r));
    assert StageState(t.runs[r]);
    hide After, Sound, RunSound;
  }
}
