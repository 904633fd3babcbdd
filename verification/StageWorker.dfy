/** `process_claimed_run`: one worker's pass over the stage plan, as moves of the checkpoint model
    (proofgraph/generation/execution.py:598-780). */
module StageWorker {
  import opened Reachability
  import opened GraphTypes
  import opened StagePlan
  import opened RunModel
  import opened RunLog
  import opened RunInvariant
  import opened RunTraces
  import opened RunDatabase
  import opened CheckpointResume
  import opened StageOrder

  datatype Ending = LostLease | SawCancellation | FailedRun | FinishedRun

  /** What the executor does when asked: an answer with its progress events, or an error. */
  datatype Execution = Answer(output: Output, progress: seq<Progress>) | Problem(error: RunError)

  const InvalidPatch := RunError(StageProblem("invalid_patch_output"), false, Some(ConstructingPatch))
  const NoPatch := RunError(StageProblem("missing_patch_output"), false, Some(ConstructingPatch))
  const WrongRevision := RunError(StageProblem("invalid_patch_revision"), false, Some(ConstructingPatch))

  lemma OneMoreMove(validate: Validator, sys: System, moves: seq<Move>, move: Move)
    ensures AfterMoves(validate, sys, moves + [move]) == Moved(validate, AfterMoves(validate, sys, moves), move)
  {
    assert (moves + [move])[..|moves|] == moves;
  }

  ghost predicate MayBegin(s: State, w: Worker, newId: Id) {
    w.done < |w.plan| && w.active.None? && HoldsRun(s, w.run, w.lease) && newId !in s.runs[w.run].stages
  }

  function BeginAction(w: Worker, newId: Id): Step
    requires w.done < |w.plan|
  {
    Act(w.run, BeginStage(w.lease, w.plan[w.done].stage, Working(w), newId))
  }

  ghost predicate HasRow(stages: map<Id, Stage>, digest: Digest, stage: Id, status: StageStatus) {
    stage in stages && stages[stage].digest == digest && stages[stage].name == digest.step.stage
    && stages[stage].status == status
  }

  lemma BeganForm(validate: Validator, s: State, w: Worker, id: Id, newId: Id)
    requires MayBegin(s, w, newId)
    ensures var t := Next(s, BeginAction(w, newId)); var committed := Committed(s.runs[w.run].stages, Working(w));
            var began := Began(validate, System(s, map[id := w]), id, newId);
            && (committed.Some? && validate(Working(w), committed.value).Some? ==>
                  began == System(t, map[id := Advanced(w, validate(Working(w), committed.value).value)]))
            && (committed.None? && w.run in t.runs && HasStage(t.runs[w.run].stages, Working(w), w.plan[w.done].stage) ==>
                  began == System(t, map[id := w.(active :=
                    Some(StageFor(t.runs[w.run].stages, Working(w), w.plan[w.done].stage)))]))
  {
    hide Next, Committed, HasStage, Holds, Advanced;
    forall v: Worker ensures map[id := w][id := v] == map[id := v] {}
  }

  /** A completed row under a live lease is reused: validation lets its output through unchanged. */
  lemma BeganReused(validate: Validator, s: State, w: Worker, id: Id, newId: Id, stage: Id, output: Output)
    requires Consistent(validate, System(s, map[id := w])) && MayBegin(s, w, newId)
    requires HasRow(s.runs[w.run].stages, Working(w), stage, StageCompleted)
    requires s.runs[w.run].stages[stage].output == Some(output)
    ensures validate(Working(w), output) == Some(output)
    ensures Began(validate, System(s, map[id := w]), id, newId)
            == System(Next(s, BeginAction(w, newId)), map[id := Advanced(w, output)])
  {
    hide Next, Began, Consistent, Committed, HasRow, Holds;
    var stages, digest := s.runs[w.run].stages, Working(w);
    ConsistentIsSound(validate, s, map[id := w]);
    SoundStages(s, w.run);
    RowIsCommitted(stages, digest, stage, output);
    CommittedStaysItself(validate, System(s, map[id := w]), w.run, digest, output);
    CommittedIsUnique(s.runs[w.run], digest, output, Committed(stages, digest).value);
    BeganForm(validate, s, w, id, newId);
  }

  lemma ConsistentIsSound(validate: Validator, s: State, workers: map<Id, Worker>)
    requires Consistent(validate, System(s, workers))
    ensures Sound(s) && Logged(s)
  {
  }

  lemma RowIsCommitted(stages: map<Id, Stage>, digest: Digest, stage: Id, output: Output)
    requires HasRow(stages, digest, stage, StageCompleted) && stages[stage].output == Some(output)
    ensures Committed(stages, digest).Some? && IsCommitted(stages, digest, output)
  {
    assert IsCommitted(stages, digest, output);
  }

  lemma ActiveRowIsTheRow(record: Record, digest: Digest, stage: Id)
    requires StageState(record) && HasRow(record.stages, digest, stage, StageRunning)
    ensures HasStage(record.stages, digest, digest.step.stage)
            && StageFor(record.stages, digest, digest.step.stage) == stage
  {
  }

  /** An active row after the step means that there was no checkpoint, and the worker goes on to execute. */
  lemma BeganActive(validate: Validator, s: State, w: Worker, id: Id, newId: Id, stage: Id)
    requires Consistent(validate, System(s, map[id := w])) && MayBegin(s, w, newId)
    requires var t := Next(s, BeginAction(w, newId));
             w.run in t.runs && HasRow(t.runs[w.run].stages, Working(w), stage, StageRunning)
    ensures Began(validate, System(s, map[id := w]), id, newId)
            == System(Next(s, BeginAction(w, newId)), map[id := w.(active := Some(stage))])
  {
    hide Next, Began, Consistent, Committed, HasRow, Holds, HasStage;
    var t := Next(s, BeginAction(w, newId));
    ConsistentIsSound(validate, s, map[id := w]);
    NextKeepsSound(s, BeginAction(w, newId));
    RunStaysKept(s, BeginAction(w, newId), w.run);
    SoundStages(t, w.run);
    CommittedKeyIsCompleted(s.runs[w.run], t.runs[w.run], Working(w), stage);
    ActiveRowIsTheRow(t.runs[w.run], Working(w), stage);
    BeganForm(validate, s, w, id, newId);
  }

  lemma RunStaysKept(s: State, step: Step, r: Id)
    requires Logged(s) && r in s.runs && r in Next(s, step).runs
    ensures RunKept(s.runs[r], Next(s, step).runs[r])
  {
    hide Next, RunKept;
    NextIsKept(s, step);
  }

  lemma CommittedStaysItself(validate: Validator, sys: System, r: Id, digest: Digest, output: Output)
    requires Consistent(validate, sys) && r in sys.state.runs && IsCommitted(sys.state.runs[r].stages, digest, output)
    ensures validate(digest, output) == Some(output)
  {
    assert RunInStep(validate, sys.state.runs[r], r);
    hide Sound, PatchIsChain, InStep;
    CommittedIsValid(validate, sys.state.runs[r].stages, digest, output);
  }

  lemma CommittedKeyIsCompleted(before: Record, after: Record, digest: Digest, stage: Id)
    requires RunKept(before, after) && StageState(after) && HasRow(after.stages, digest, stage, StageRunning)
    ensures Committed(before.stages, digest).None?
  {
    if Committed(before.stages, digest).Some? {
      CommittedKept(before, after, digest);
    }
  }

  /** The prior outputs of a finished step; everything else about the worker is as before. */
  predicate NextWorker(w: Worker, after: Worker) {
    after.run == w.run && after.lease == w.lease && after.plan == w.plan && after.done == w.done + 1 && after.active.None?
  }

  lemma WorkerIsOnCanvases(validate: Validator, s: State, workers: map<Id, Worker>)
    requires Consistent(validate, System(s, workers))
    ensures forall r :: r in s.runs ==> s.runs[r].run.canvas in s.journals && StageState(s.runs[r])
  {
    forall r | r in s.runs ensures s.runs[r].run.canvas in s.journals && StageState(s.runs[r]) { SoundStages(s, r); }
    hide StageState;
  }

  // ---- the method ----

  /** The moves lead from one system to another, and both are consistent. */
  ghost predicate Leads(validate: Validator, a: System, moves: seq<Move>, b: System) {
    AfterMoves(validate, a, moves) == b && Consistent(validate, b)
  }

  lemma LeadsNowhere(validate: Validator, a: System)
    requires Consistent(validate, a)
    ensures Leads(validate, a, [], a)
  {
  }

  lemma LeadsOn(validate: Validator, a: System, moves: seq<Move>, b: System, move: Move)
    requires Idempotent(validate) && Leads(validate, a, moves, b)
    ensures Leads(validate, a, moves + [move], Moved(validate, b, move))
  {
    OneMoreMove(validate, a, moves, move);
    MoveKeepsConsistent(validate, b, move);
  }

  /** A transaction outside the workers' writes, seen from a system with these workers. */
  lemma LeadsByEnv(validate: Validator, a: System, moves: seq<Move>, s: State, workers: map<Id, Worker>, step: Step)
    requires Idempotent(validate) && Leads(validate, a, moves, System(s, workers)) && !OnlyWorkers(step)
    ensures Leads(validate, a, moves + [Env(step)], System(Next(s, step), workers))
  {
    hide Leads;
    LeadsOn(validate, a, moves, System(s, workers), Env(step));
  }

  lemma LeadsToSound(validate: Validator, a: System, moves: seq<Move>, b: System)
    requires Leads(validate, a, moves, b)
    ensures Consistent(validate, b) && forall r :: r in b.state.runs ==>
              b.state.runs[r].run.canvas in b.state.journals && StageState(b.state.runs[r])
  {
    WorkerIsOnCanvases(validate, b.state, b.workers);
  }

  lemma CommitMove(validate: Validator, s: State, w: Worker, id: Id, answer: Output, valid: Output, progress: seq<Progress>)
    requires w.done < |w.plan| && w.active.Some? && HoldsRun(s, w.run, w.lease)
    requires HasRow(s.runs[w.run].stages, Working(w), w.active.value, StageRunning)
    requires validate(Working(w), answer) == Some(valid)
    ensures Moved(validate, System(s, map[id := w]), Finish(id, answer, progress))
            == System(Next(s, Act(w.run, CompleteStage(w.lease, w.active.value, w.plan[w.done].stage, valid, progress))),
                      map[id := Advanced(w, valid)])
  {
    hide Next;
    assert map[id := w][id := Advanced(w, valid)] == map[id := Advanced(w, valid)];
  }

  /** The lease is live and nobody has asked to cancel. */
  predicate Undisturbed(s: State, r: Id, lease: Lease) {
    HoldsRun(s, r, lease) && s.runs[r].run.cancelRequestedAt.None?
  }

  predicate Refused(validate: Validator, digest: Digest, execution: Execution) {
    execution.Problem? || validate(digest, execution.output).None?
  }

  /** The error a refused execution of a stage fails with. */
  function Refusal(execution: Execution, stage: StageName): RunError {
    if execution.Problem? then execution.error.(stage := Some(stage))
    else RunError(StageProblem("invalid_stage_output"), false, Some(stage))
  }

  /** Nobody has claimed the run in between. */
  predicate SameTry(a: Run, b: Run) {
    a.attempt == b.attempt && a.maxAttempts == b.maxAttempts && a.base == b.base
  }

  /** What a failed stage leaves as the run's error: the executor's own, said of this stage and exhausted on the last attempt,
      or that its answer was invalid. */
  ghost predicate FailsAs(run: Run, execution: Execution, stage: StageName, error: Option<RunError>) {
    match execution
    case Answer(_, _) => error == Some(RunError(StageProblem("invalid_stage_output"), false, Some(stage)))
    case Problem(e) =>
      if e.retryable && run.maxAttempts <= run.attempt then error == Some(RunError(AttemptsExhausted, false, Some(stage)))
      else error == Some(RunError(e.code, e.retryable, Some(stage)))
  }

  /** Why the outputs of a whole plan are no patch: the last one is missing, was made for another revision, or is none. */
  ghost predicate EndsAs(plan: seq<PlanStep>, prior: map<OutputKey, Prior>, base: int, error: Option<RunError>)
    requires plan != []
  {
    var last := KeyOf(plan[|plan| - 1]);
    error == Some(RunError(
      StageProblem(if last !in prior then "missing_patch_output"
                   else if prior[last].output.base != Some(base) then "invalid_patch_revision" else "invalid_patch_output"),
      false, Some(ConstructingPatch)))
  }

  /** Ends a worker's pass with a failed run. */
  method FailStep(db: Database, validate: Validator, w: Worker, error: RunError, stage: Option<Id>,
                  ghost a: System, ghost before: seq<Move>, ghost workers: map<Id, Worker>)
    returns (ended: Ending, ghost moves: seq<Move>)
    requires Idempotent(validate) && Leads(validate, a, before, System(db.Contents(), workers)) && db.OnCanvases()
    modifies db`runs, db`journals
    ensures Leads(validate, a, moves, System(db.Contents(), workers)) && db.OnCanvases()
    ensures ended == if HoldsRun(old(db.Contents()), w.run, w.lease) then FailedRun else LostLease
    ensures db.Contents() == Next(old(db.Contents()), Act(w.run, Fail(w.lease, error, stage)))
    ensures ended.FailedRun? ==>
              w.run in db.runs && db.runs[w.run].run.status.Failed? && db.runs[w.run].run.base == old(db.runs)[w.run].run.base
              && db.runs[w.run].run.error == Some(Persisted(old(db.runs)[w.run].run, error))
  {
    hide Leads, Next, Idempotent, OnlyWorkers;
    var held := db.FailRun(w.run, w.lease, error, stage);
    moves := before + [Env(Act(w.run, Fail(w.lease, error, stage)))];
    assert !OnlyWorkers(Act(w.run, Fail(w.lease, error, stage))) by { FailIsNoWrite(w.run, w.lease, error, stage); }
    LeadsByEnv(validate, a, before, old(db.Contents()), workers, Act(w.run, Fail(w.lease, error, stage)));
    return (if held then FailedRun else LostLease), moves;
  }

  lemma FailIsNoWrite(r: Id, lease: Lease, error: RunError, stage: Option<Id>)
    ensures !OnlyWorkers(Act(r, Fail(lease, error, stage)))
    ensures !OnlyWorkers(Act(r, ObserveCancel(lease, stage))) && !OnlyWorkers(Act(r, Complete(lease)))
  {
  }

  /** Looks for a cancel request before and after a stage. */
  method Observe(db: Database, validate: Validator, w: Worker, stage: Option<Id>,
                 ghost a: System, ghost before: seq<Move>, ghost workers: map<Id, Worker>)
    returns (ended: Option<Ending>, ghost moves: seq<Move>)
    requires Idempotent(validate) && Leads(validate, a, before, System(db.Contents(), workers)) && db.OnCanvases()
    modifies db`runs, db`journals
    ensures Leads(validate, a, moves, System(db.Contents(), workers)) && db.OnCanvases()
    ensures ended.None? <==> Undisturbed(old(db.Contents()), w.run, w.lease)
    ensures ended.None? ==> db.Contents() == old(db.Contents())
    ensures ended.Some? ==>
              ended.value == if HoldsRun(old(db.Contents()), w.run, w.lease) then SawCancellation else LostLease
    ensures db.Contents() == Next(old(db.Contents()), Act(w.run, ObserveCancel(w.lease, stage)))
    ensures ended == Some(SawCancellation) ==> w.run in db.runs && db.runs[w.run].run.status.Cancelled?
    ensures ended == Some(LostLease) ==> db.Contents() == old(db.Contents())
  {
    hide Leads, Idempotent, OnlyWorkers, Next;
    var held, cancelled := db.CancelIfRequested(w.run, w.lease, stage);
    var step := Act(w.run, ObserveCancel(w.lease, stage));
    moves := before + [Env(step)];
    FailIsNoWrite(w.run, w.lease, NoPatch, stage);
    LeadsByEnv(validate, a, before, old(db.Contents()), workers, step);
    if !held { return Some(LostLease), moves; }
    if cancelled { return Some(SawCancellation), moves; }
    return None, moves;
  }

  lemma LeadsToReuse(validate: Validator, a: System, before: seq<Move>, s: State, w: Worker, id: Id, newId: Id,
                     stage: Id, output: Output)
    requires Idempotent(validate) && Leads(validate, a, before, System(s, map[id := w])) && MayBegin(s, w, newId)
    requires HasRow(s.runs[w.run].stages, Working(w), stage, StageCompleted)
    requires s.runs[w.run].stages[stage].output == Some(output)
    ensures Leads(validate, a, before + [Begin(id, newId)], System(Next(s, BeginAction(w, newId)), map[id := Advanced(w, output)]))
  {
    LeadsToSound(validate, a, before, System(s, map[id := w]));
    LeadsOn(validate, a, before, System(s, map[id := w]), Begin(id, newId));
    hide Leads, Consistent, HasRow, Began, Next, MayBegin;
    assert w.done < |w.plan|;
    BeganReused(validate, s, w, id, newId, stage, output);
  }

  lemma LeadsToActive(validate: Validator, a: System, before: seq<Move>, s: State, w: Worker, id: Id, newId: Id, stage: Id)
    requires Idempotent(validate) && Leads(validate, a, before, System(s, map[id := w])) && MayBegin(s, w, newId)
    requires var t := Next(s, BeginAction(w, newId));
             w.run in t.runs && HasRow(t.runs[w.run].stages, Working(w), stage, StageRunning)
    ensures Leads(validate, a, before + [Begin(id, newId)],
                  System(Next(s, BeginAction(w, newId)), map[id := w.(active := Some(stage))]))
  {
    LeadsToSound(validate, a, before, System(s, map[id := w]));
    LeadsOn(validate, a, before, System(s, map[id := w]), Begin(id, newId));
    hide Leads, Consistent, HasRow, Began, Next, MayBegin;
    BeganActive(validate, s, w, id, newId, stage);
  }

  /** `_begin_stage` as a move: the checkpoint, or the active row to work on. */
  method Open(db: Database, validate: Validator, w: Worker, newId: Id, ghost id: Id, ghost a: System,
              ghost before: seq<Move>)
    returns (next: Worker, ghost moves: seq<Move>)
    requires Idempotent(validate) && Leads(validate, a, before, System(db.Contents(), map[id := w])) && db.OnCanvases()
    requires MayBegin(db.Contents(), w, newId) && Undisturbed(db.Contents(), w.run, w.lease)
    modifies db`runs, db`journals
    ensures db.OnCanvases() && Leads(validate, a, moves, System(db.Contents(), map[id := next]))
    ensures Undisturbed(db.Contents(), w.run, w.lease)
    ensures db.Contents() == Next(old(db.Contents()), BeginAction(w, newId))
    ensures SameTry(old(db.runs)[w.run].run, db.runs[w.run].run)
    ensures NextWorker(w, next)
            || (next == w.(active := next.active) && next.active.Some?
                && HasRow(db.runs[w.run].stages, Working(w), next.active.value, StageRunning))
  {
    hide Leads, Idempotent, Next, Began, Moved, StageState, Holds;
    ghost var s := db.Contents();
    LeadsToSound(validate, a, before, System(s, map[id := w]));
    var digest := Working(w);
    var held, stage, reused := db.BeginStage(w.run, w.lease, digest.step.stage, digest, newId);
    moves := before + [Begin(id, newId)];
    if reused.Some? {
      LeadsToReuse(validate, a, before, s, w, id, newId, stage, reused.value);
      next := Advanced(w, reused.value);
    } else {
      LeadsToActive(validate, a, before, s, w, id, newId, stage);
      next := w.(active := Some(stage));
    }
  }

  /** The validated answer is committed and the worker has moved on by it. */
  ghost predicate CommitsAnswer(validate: Validator, w: Worker, execution: Execution, s: State, t: State, next: Worker)
    requires w.done < |w.plan| && w.active.Some?
  {
    && !Refused(validate, Working(w), execution)
    && var valid := validate(Working(w), execution.output).value;
    && next == Advanced(w, valid)
    && t == Next(s, Act(w.run, CompleteStage(w.lease, w.active.value, w.plan[w.done].stage, valid, execution.progress)))
  }

  /** Executes an active stage: validate, look for a cancellation once more, commit. */
  method Execute(db: Database, validate: Validator, w: Worker, execution: Execution,
                 ghost id: Id, ghost a: System, ghost before: seq<Move>)
    returns (ended: Option<Ending>, next: Worker, ghost moves: seq<Move>)
    requires Idempotent(validate) && Leads(validate, a, before, System(db.Contents(), map[id := w])) && db.OnCanvases()
    requires w.done < |w.plan| && w.active.Some? && Undisturbed(db.Contents(), w.run, w.lease)
    requires HasRow(db.runs[w.run].stages, Working(w), w.active.value, StageRunning)
    modifies db`runs, db`journals
    ensures db.OnCanvases() && Leads(validate, a, moves, System(db.Contents(), map[id := next]))
    ensures ended == if Refused(validate, Working(w), execution) then Some(FailedRun) else None
    ensures ended.None? ==> NextWorker(w, next) && Undisturbed(db.Contents(), w.run, w.lease)
    ensures ended.None? ==> CommitsAnswer(validate, w, execution, old(db.Contents()), db.Contents(), next)
    ensures ended.None? ==> SameTry(old(db.runs)[w.run].run, db.runs[w.run].run)
    ensures ended.Some? ==>
              && db.Contents() == Next(old(db.Contents()),
                                       Act(w.run, Fail(w.lease, Refusal(execution, w.plan[w.done].stage), w.active)))
              && w.run in db.runs && db.runs[w.run].run.status.Failed?
              && FailsAs(old(db.runs)[w.run].run, execution, w.plan[w.done].stage, db.runs[w.run].run.error)
  {
    hide Leads, Idempotent, Next, Moved;
    next, moves := w, before;
    var ending;
    if execution.Problem? {
      ending, moves := FailStep(db, validate, w, Refusal(execution, w.plan[w.done].stage), w.active, a, before, map[id := w]);
      return Some(ending), w, moves;
    }
    var valid := validate(Working(w), execution.output);
    if valid.None? {
      ending, moves := FailStep(db, validate, w, Refusal(execution, w.plan[w.done].stage), w.active, a, before, map[id := w]);
      return Some(ending), w, moves;
    }
    ended, moves := Observe(db, validate, w, w.active, a, before, map[id := w]);
    if ended.Some? { return ended, w, moves; }
    ghost var s := db.Contents();
    CommitMove(validate, s, w, id, execution.output, valid.value, execution.progress);
    LeadsOn(validate, a, moves, System(s, map[id := w]), Finish(id, execution.output, execution.progress));
    moves := moves + [Finish(id, execution.output, execution.progress)];
    var held, ok := db.CompleteStage(w.run, w.lease, w.active.value, w.plan[w.done].stage, valid.value, execution.progress);
    return None, Advanced(w, valid.value), moves;
  }

  /** `uuid4()`: an identity that no stage of the run has. */
  method NewId(stages: map<Id, Stage>) returns (id: Id)
    ensures id !in stages
  {
    var top, rest := 0, stages.Keys;
    while rest != {}
      invariant rest <= stages.Keys && forall k :: k in stages.Keys - rest ==> k.value < top
      decreases |rest|
    {
      var k :| k in rest;
      if top <= k.value { top := k.value + 1; }
      rest := rest - {k};
    }
    id := Uuid(top);
  }

  /** One turn of the loop over the plan. */
  method RunStep(db: Database, validate: Validator, w: Worker, execution: Execution,
                 ghost id: Id, ghost a: System, ghost before: seq<Move>)
    returns (ended: Option<Ending>, next: Worker, ghost moves: seq<Move>)
    requires Idempotent(validate) && Leads(validate, a, before, System(db.Contents(), map[id := w])) && db.OnCanvases()
    requires w.done < |w.plan| && w.active.None?
    modifies db`runs, db`journals
    ensures db.OnCanvases() && Leads(validate, a, moves, System(db.Contents(), map[id := next]))
    ensures ended.None? ==> NextWorker(w, next) && Undisturbed(db.Contents(), w.run, w.lease)
    ensures Undisturbed(old(db.Contents()), w.run, w.lease) ==>
              ended.None? || (ended == Some(FailedRun) && Refused(validate, Working(w), execution))
    ensures !Undisturbed(old(db.Contents()), w.run, w.lease) ==>
              ended == Some(if HoldsRun(old(db.Contents()), w.run, w.lease) then SawCancellation else LostLease)
    ensures ended.None? ==> SameTry(old(db.runs)[w.run].run, db.runs[w.run].run)
    ensures ended == Some(FailedRun) ==>
              w.run in db.runs && db.runs[w.run].run.status.Failed?
              && FailsAs(old(db.runs)[w.run].run, execution, w.plan[w.done].stage, db.runs[w.run].run.error)
    ensures ended == Some(SawCancellation) ==> w.run in db.runs && db.runs[w.run].run.status.Cancelled?
    ensures ended == Some(LostLease) ==> db.Contents() == old(db.Contents())
  {
    hide Leads, Idempotent;
    next := w;
    ended, moves := Observe(db, validate, w, None, a, before, map[id := w]);
    if ended.Some? { return; }
    var newId := NewId(db.runs[w.run].stages);
    next, moves := Open(db, validate, w, newId, id, a, moves);
    if next.active.None? { return; }
    ended, next, moves := Execute(db, validate, next, execution, id, a, moves);
  }

  lemma StartMove(validate: Validator, s: State, r: Id, lease: Lease, id: Id)
    requires HoldsRun(s, r, lease) && PlanFor(s.runs[r].run.operation).Some?
    ensures Moved(validate, System(s, map[]), Start(id, r, lease))
            == System(s, map[id := Worker(r, lease, PlanFor(s.runs[r].run.operation).value, 0, map[], None)])
  {
  }

  lemma PersistMove(validate: Validator, s: State, w: Worker, id: Id, patch: Id, operations: seq<string>)
    requires w.done == |w.plan| && w.plan != [] && KeyOf(w.plan[|w.plan| - 1]) in w.prior && w.run in s.runs
    requires w.prior[KeyOf(w.plan[|w.plan| - 1])].output.operations == Some(operations)
    requires w.prior[KeyOf(w.plan[|w.plan| - 1])].output.base == Some(s.runs[w.run].run.base)
    ensures Moved(validate, System(s, map[id := w]), Persist(id, patch))
            == System(Next(s, Act(w.run, PersistPatch(w.lease, patch, operations))), map[])
  {
    hide Next;
    assert map[id := w] - {id} == map[];
  }

  lemma ChainOfWorker(validate: Validator, a: System, moves: seq<Move>, s: State, w: Worker, id: Id)
    requires Leads(validate, a, moves, System(s, map[id := w])) && w.done <= |w.plan|
    ensures w.run in s.runs ==> Chain(s.runs[w.run].stages, w.run, w.plan, w.done) == Some(w.prior)
  {
    assert InStep(s, map[id := w][id]);
    hide Sound, Chain;
  }

  /** The last output is a patch against the run's base revision. */
  predicate IsPatch(plan: seq<PlanStep>, prior: map<OutputKey, Prior>, base: int) {
    && plan != [] && KeyOf(plan[|plan| - 1]) in prior
    && prior[KeyOf(plan[|plan| - 1])].output.operations.Some?
    && prior[KeyOf(plan[|plan| - 1])].output.base == Some(base)
  }

  /** The end of the pass: check the last output, store it as the patch, complete the run. */
  method PersistThenComplete(db: Database, validate: Validator, w: Worker, patchId: Id,
                             ghost id: Id, ghost a: System, ghost before: seq<Move>)
    returns (ended: Ending, ghost moves: seq<Move>, ghost workers: map<Id, Worker>)
    requires Idempotent(validate) && Leads(validate, a, before, System(db.Contents(), map[id := w])) && db.OnCanvases()
    requires w.done == |w.plan| && Undisturbed(db.Contents(), w.run, w.lease)
    modifies db`runs, db`journals
    ensures db.OnCanvases() && Leads(validate, a, moves, System(db.Contents(), workers))
    ensures ended == if IsPatch(w.plan, w.prior, old(db.runs)[w.run].run.base) then FinishedRun else FailedRun
    ensures ended.FailedRun? ==>
              w.run in db.runs && db.runs[w.run].run.status.Failed?
              && Chain(db.runs[w.run].stages, w.run, w.plan, |w.plan|) == Some(w.prior)
              && db.runs[w.run].run.base == old(db.runs)[w.run].run.base
              && (w.plan != [] ==> EndsAs(w.plan, w.prior, db.runs[w.run].run.base, db.runs[w.run].run.error))
    ensures ended.FinishedRun? ==>
              w.run in db.runs && db.runs[w.run].run.status.Completed? && db.runs[w.run].patch.Some?
              && w.plan != [] && KeyOf(w.plan[|w.plan| - 1]) in w.prior
              && w.prior[KeyOf(w.plan[|w.plan| - 1])].output.operations == Some(db.runs[w.run].patch.value.operations)
  {
    hide Leads, Idempotent, Next, Moved;
    moves, workers := before, map[id := w];
    ghost var s := db.Contents();
    if w.plan == [] || KeyOf(w.plan[|w.plan| - 1]) !in w.prior {
      ended, moves := FailStep(db, validate, w, NoPatch, None, a, before, workers);
      ChainOfWorker(validate, a, moves, db.Contents(), w, id);
      return;
    }
    var output := w.prior[KeyOf(w.plan[|w.plan| - 1])].output;
    if output.base != Some(db.runs[w.run].run.base) {
      ended, moves := FailStep(db, validate, w, WrongRevision, None, a, before, workers);
      ChainOfWorker(validate, a, moves, db.Contents(), w, id);
      return;
    }
    if output.operations.None? {
      ended, moves := FailStep(db, validate, w, InvalidPatch, None, a, before, workers);
      ChainOfWorker(validate, a, moves, db.Contents(), w, id);
      return;
    }
    PersistMove(validate, s, w, id, patchId, output.operations.value);
    LeadsOn(validate, a, before, System(s, map[id := w]), Persist(id, patchId));
    moves, workers := before + [Persist(id, patchId)], map[];
    NoPatchYet(validate, a, before, System(s, map[id := w]), w.run);
    var held, ready := db.PersistPatch(w.run, w.lease, patchId, output.operations.value);
    assert held && ready;
    var step := Act(w.run, Complete(w.lease));
    FailIsNoWrite(w.run, w.lease, NoPatch, None);
    LeadsByEnv(validate, a, moves, db.Contents(), workers, step);
    moves := moves + [Env(step)];
    var ok := db.CompleteRun(w.run, w.lease);
    return FinishedRun, moves, workers;
  }

  lemma NoPatchYet(validate: Validator, a: System, moves: seq<Move>, b: System, r: Id)
    requires Leads(validate, a, moves, b)
    ensures r in b.state.runs && b.state.runs[r].run.status.Running? ==> b.state.runs[r].patch.None?
  {
    SoundStages(b.state, r);
  }

  /** Some stage's execution fails or is refused by the validator, and the error says which. */
  ghost predicate StageRefused(validate: Validator, r: Id, run: Run, execute: (nat, map<OutputKey, Prior>) -> Execution,
                               error: Option<RunError>) {
    exists i, prior :: PlanFor(run.operation).Some? && 0 <= i < |PlanFor(run.operation).value|
      && Refused(validate, Digest(r, PlanFor(run.operation).value[i], prior), execute(i, prior))
      && FailsAs(run, execute(i, prior), PlanFor(run.operation).value[i].stage, error)
  }

  /** The whole plan is committed, its last output is no patch against the base revision, and the error says why. */
  ghost predicate NotAPatch(s: State, r: Id, operation: Operation) {
    r in s.runs && PlanFor(operation).Some? &&
      var plan := PlanFor(operation).value;
      var chain := Chain(s.runs[r].stages, r, plan, |plan|);
      chain.Some? && !IsPatch(plan, chain.value, s.runs[r].run.base)
      && plan != [] && EndsAs(plan, chain.value, s.runs[r].run.base, s.runs[r].run.error)
  }

  /** Stages that were opened in pipeline order before are so after any moves. */
  lemma LeadsInOrder(validate: Validator, a: System, moves: seq<Move>, b: System)
    requires Idempotent(validate) && Consistent(validate, a) && Leads(validate, a, moves, b)
    ensures AllFollow(a.state) ==> AllFollow(b.state) && PipelineOrder(b.state)
  {
    hide Consistent, AfterMoves, AllFollow, PipelineOrder;
    if AllFollow(a.state) {
      OrderStays(validate, a, moves);
      FollowingIsOrder(b.state);
    }
  }

  /** One worker's pass under a lease. Whatever it meets (a lost lease, a cancellation, a failing or invalid
      stage, checkpoints of earlier workers), it only makes moves of the model; a finished pass leaves the run
      completed with the last answer of an uninterrupted run of the plan as its patch. */
  method ProcessClaimedRun(db: Database, validate: Validator, r: Id, lease: Lease, execute: (nat, map<OutputKey,
                           Prior>) -> Execution,
                           patchId: Id)
    returns (ended: Ending, ghost moves: seq<Move>, ghost workers: map<Id, Worker>)
    requires Idempotent(validate) && Consistent(validate, System(db.Contents(), map[])) && db.OnCanvases()
    requires r in db.runs ==> PlanFor(db.runs[r].run.operation).Some?
    modifies db`runs, db`journals
    ensures Leads(validate, old(System(db.Contents(), map[])), moves, System(db.Contents(), workers))
    ensures AllFollow(old(db.Contents())) ==> AllFollow(db.Contents()) && PipelineOrder(db.Contents())
    ensures ended.LostLease? <==> !HoldsRun(old(db.Contents()), r, lease)
    ensures ended.SawCancellation? <==>
              HoldsRun(old(db.Contents()), r, lease) && !Undisturbed(old(db.Contents()), r, lease)
    ensures ended.FinishedRun? ==>
              r in db.runs && db.runs[r].run.status.Completed? && db.runs[r].patch.Some?
    ensures ended.LostLease? ==> db.Contents() == old(db.Contents())
    ensures ended.SawCancellation? ==> r in db.runs && db.runs[r].run.status.Cancelled?
    ensures ended.FailedRun? ==> r in db.runs && db.runs[r].run.status.Failed?
    ensures ended.FailedRun? ==> StageRefused(validate, r, old(db.runs)[r].run, execute, db.runs[r].run.error)
                                 || NotAPatch(db.Contents(), r, old(db.runs)[r].run.operation)
  {
    hide Leads, Idempotent, Moved, Consistent, AllFollow, PipelineOrder;
    ghost var a := System(db.Contents(), map[]);
    LeadsNowhere(validate, a);
    LeadsInOrder(validate, a, [], a);
    moves, workers := [], map[];
    if r !in db.runs || !Holds(db.runs[r].run, lease, Running, db.now) { return LostLease, moves, workers; }
    var plan := PlanFor(db.runs[r].run.operation).value;
    EveryPlanIsKeyed(db.runs[r].run.operation);
    assert plan != [];
    hide PlanFor, Keyed;
    var w := Worker(r, lease, plan, 0, map[], None);
    ghost var id := r;
    StartMove(validate, db.Contents(), r, lease, id);
    LeadsOn(validate, a, [], a, Start(id, r, lease));
    moves, workers := [] + [Start(id, r, lease)], map[id := w];
    while w.done < |plan|
      invariant w.plan == plan && w.run == r && w.lease == lease && w.active.None? && w.done <= |plan|
      invariant db.OnCanvases() && workers == map[id := w]
      invariant Leads(validate, a, moves, System(db.Contents(), workers))
      invariant w.done == 0 ==> db.Contents() == a.state
      invariant w.done > 0 ==> Undisturbed(a.state, r, lease) && Undisturbed(db.Contents(), r, lease)
      invariant r in db.runs && SameTry(old(db.runs)[r].run, db.runs[r].run)
      decreases |plan| - w.done
    {
      ghost var at := w;
      var over, next;
      over, next, moves := RunStep(db, validate, w, execute(w.done, w.prior), id, a, moves);
      workers := map[id := next];
      if over.Some? {
        if over.value.FailedRun? {
          assert Refused(validate, Digest(r, plan[at.done], at.prior), execute(at.done, at.prior))
              && FailsAs(old(db.runs)[r].run, execute(at.done, at.prior), plan[at.done].stage, db.runs[r].run.error);
        }
        LeadsInOrder(validate, a, moves, System(db.Contents(), workers));
        return over.value, moves, workers;
      }
      w := next;
    }
    ended, moves, workers := PersistThenComplete(db, validate, w, patchId, id, a, moves);
    LeadsInOrder(validate, a, moves, System(db.Contents(), workers));
  }
}
