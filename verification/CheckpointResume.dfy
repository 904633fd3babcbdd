/** Crash and resume: any number of workers run the stage plan of a run from its checkpoints, are killed at any
    point and restarted under new leases (proofgraph/generation/execution.py:129-185, 264-372, 598-780). */
module CheckpointResume {
  import opened Reachability
  import opened GraphTypes
  import opened StagePlan
  import opened RunModel
  import opened RunLog
  import opened RunInvariant
  import opened RunTraces
  import opened RunProgress

  /** The output validator: a refusal, or the output it lets through. */
  type Validator = (Digest, Output) -> Option<Output>

  ghost predicate Idempotent(validate: Validator) {
    forall d, o :: validate(d, o).Some? ==> validate(d, validate(d, o).value) == validate(d, o)
  }

  function Nodes(targets: seq<Target>): (nodes: seq<Id>)
    ensures |nodes| == |targets| && forall i :: 0 <= i < |targets| ==> nodes[i] == targets[i].node
  {
    seq(|targets|, i requires 0 <= i < |targets| => targets[i].node)
  }

  /** The entry a finished step leaves in `prior_outputs`. */
  function PriorOf(step: PlanStep, output: Output): Prior {
    Prior(step.phase, Nodes(step.targets), output)
  }

  // ---- the committed chain of a run ----

  ghost predicate IsCommitted(stages: map<Id, Stage>, digest: Digest, output: Output) {
    exists id :: id in stages && stages[id].digest == digest && stages[id].name == digest.step.stage
      && stages[id].status.StageCompleted? && stages[id].output == Some(output)
  }

  ghost function Committed(stages: map<Id, Stage>, digest: Digest): (r: Option<Output>)
    ensures r.Some? ==> IsCommitted(stages, digest, r.value)
    ensures r.None? ==> forall o :: !IsCommitted(stages, digest, o)
  {
    if o :| IsCommitted(stages, digest, o) then Some(o) else None
  }

  /** The prior outputs after n steps as the committed checkpoints alone determine them. */
  ghost function Chain(stages: map<Id, Stage>, r: Id, plan: seq<PlanStep>, n: nat): Option<map<OutputKey, Prior>>
    requires n <= |plan|
  {
    if n == 0 then Some(map[])
    else
      match Chain(stages, r, plan, n - 1)
      case None => None
      case Some(prior) =>
        match Committed(stages, Digest(r, plan[n - 1], prior))
        case None => None
        case Some(output) => Some(prior[KeyOf(plan[n - 1]) := PriorOf(plan[n - 1], output)])
  }

  lemma CommittedIsUnique(record: Record, digest: Digest, a: Output, b: Output)
    requires StageState(record) && IsCommitted(record.stages, digest, a) && IsCommitted(record.stages, digest, b)
    ensures a == b
  {
  }

  lemma CommittedKept(before: Record, after: Record, digest: Digest)
    requires Keeps(before, after) && StageState(after) && Committed(before.stages, digest).Some?
    ensures Committed(after.stages, digest) == Committed(before.stages, digest)
  {
    var output := Committed(before.stages, digest).value;
    assert IsCommitted(after.stages, digest, output);
    CommittedIsUnique(after, digest, output, Committed(after.stages, digest).value);
  }

  /** Checkpoints only extend the chain: what is determined stays determined, by the same outputs. */
  lemma {:induction false} ChainKept(before: Record, after: Record, r: Id, plan: seq<PlanStep>, n: nat)
    requires n <= |plan| && Keeps(before, after) && StageState(after)
    requires Chain(before.stages, r, plan, n).Some?
    ensures Chain(after.stages, r, plan, n) == Chain(before.stages, r, plan, n)
    decreases n
  {
    if n > 0 {
      ChainKept(before, after, r, plan, n - 1);
      hide Keeps, StageState, Committed;
      CommittedKept(before, after, Digest(r, plan[n - 1], Chain(before.stages, r, plan, n - 1).value));
    }
  }

  lemma {:induction false} ChainKeys(stages: map<Id, Stage>, r: Id, plan: seq<PlanStep>, n: nat, k: OutputKey)
    requires n <= |plan| && Chain(stages, r, plan, n).Some? && k in Chain(stages, r, plan, n).value
    ensures exists i :: 0 <= i < n && k == KeyOf(plan[i])
    decreases n
  {
    if n > 0 && k != KeyOf(plan[n - 1]) {
      ChainKeys(stages, r, plan, n - 1, k);
      hide Committed, PriorOf;
    }
  }

  /** What step i of a run committed, found from the checkpoints alone. */
  ghost predicate StepCommitted(stages: map<Id, Stage>, r: Id, plan: seq<PlanStep>, i: nat, output: Output) {
    && i < |plan| && Chain(stages, r, plan, i).Some?
    && Committed(stages, Digest(r, plan[i], Chain(stages, r, plan, i).value)) == Some(output)
  }

  /** Distinct keys: no step overwrites the entry of an earlier one, so the prior outputs hold one entry for
      every finished step, with that step's committed output. */
  lemma {:induction false} ChainHoldsEveryOutput(stages: map<Id, Stage>, r: Id, plan: seq<PlanStep>, n: nat, i: nat)
    returns (output: Output)
    requires i < n <= |plan| && Keyed(plan) && Chain(stages, r, plan, n).Some?
    ensures StepCommitted(stages, r, plan, i, output)
    ensures KeyOf(plan[i]) in Chain(stages, r, plan, n).value
    ensures var entry := Chain(stages, r, plan, n).value[KeyOf(plan[i])];
            && entry.phase == plan[i].phase && entry.output == output && |entry.targets| == |plan[i].targets|
            && forall j :: 0 <= j < |entry.targets| ==> entry.targets[j] == plan[i].targets[j].node
    decreases n
  {
    hide Committed, PriorOf;
    var earlier := Chain(stages, r, plan, n - 1).value;
    if i < n - 1 {
      output := ChainHoldsEveryOutput(stages, r, plan, n - 1, i);
      assert KeyOf(plan[i]) != KeyOf(plan[n - 1]);
    } else {
      output := Committed(stages, Digest(r, plan[i], earlier)).value;
      EntrySays(plan[i], output);
    }
  }

  /** Such an entry says the phase and the target nodes of its step beside the output. */
  lemma EntrySays(step: PlanStep, output: Output)
    ensures var entry := PriorOf(step, output);
            && entry.phase == step.phase && entry.output == output && |entry.targets| == |step.targets|
            && forall j :: 0 <= j < |step.targets| ==> entry.targets[j] == step.targets[j].node
  {
  }

  lemma {:induction false} ChainCounts(stages: map<Id, Stage>, r: Id, plan: seq<PlanStep>, n: nat)
    requires n <= |plan| && Keyed(plan) && Chain(stages, r, plan, n).Some?
    ensures |Chain(stages, r, plan, n).value| == n
    decreases n
  {
    if n > 0 {
      ChainCounts(stages, r, plan, n - 1);
      hide Committed, PriorOf;
      var earlier := Chain(stages, r, plan, n - 1).value;
      if KeyOf(plan[n - 1]) in earlier {
        ChainKeys(stages, r, plan, n - 1, KeyOf(plan[n - 1]));
      }
    }
  }

  // ---- workers ----

  datatype Worker = Worker(run: Id, lease: Lease, plan: seq<PlanStep>, done: nat, prior: map<OutputKey, Prior>,
                           active: Option<Id>)

  datatype System = System(state: State, workers: map<Id, Worker>)

  /** Env is every other transaction: claims, recoveries, poisonings, cancellations, retries, failures,
      completions, cleanup, reset, deletion and the clock. */
  datatype Move =
    | Env(step: Step)
    | Start(worker: Id, run: Id, lease: Lease)
    | Begin(worker: Id, newId: Id)
    | Finish(worker: Id, answer: Output, progress: seq<Progress>)
    | Persist(worker: Id, patch: Id)
    | Crash(worker: Id)

  predicate OnlyWorkers(step: Step) {
    step.Act? && (step.action.BeginStage? || step.action.CompleteStage? || step.action.PersistPatch?)
  }

  predicate HoldsRun(s: State, r: Id, lease: Lease) {
    r in s.runs && s.runs[r].run.canvas in s.journals && Holds(s.runs[r].run, lease, Running, s.now)
  }

  function Working(w: Worker): Digest
    requires w.done < |w.plan|
  {
    Digest(w.run, w.plan[w.done], w.prior)
  }

  function Advanced(w: Worker, output: Output): Worker
    requires w.done < |w.plan|
  {
    w.(done := w.done + 1, active := None,
       prior := w.prior[KeyOf(w.plan[w.done]) := PriorOf(w.plan[w.done], output)])
  }

  ghost function Started(sys: System, w: Id, r: Id, lease: Lease): System {
    if w !in sys.workers && HoldsRun(sys.state, r, lease) && PlanFor(sys.state.runs[r].run.operation).Some?
    then sys.(workers := sys.workers[w := Worker(r, lease, PlanFor(sys.state.runs[r].run.operation).value, 0, map[], None)])
    else sys
  }

  /** `_begin_stage`: a lost lease ends the worker; a completed row is reused after validation; otherwise the
      row becomes active and the stage is executed. */
  ghost function Began(validate: Validator, sys: System, id: Id, newId: Id): System
    requires id in sys.workers
  {
    var w, s := sys.workers[id], sys.state;
    if w.done >= |w.plan| || w.active.Some? then sys
    else if !HoldsRun(s, w.run, w.lease) then sys.(workers := sys.workers - {id})
    else if newId in s.runs[w.run].stages then sys
    else
      var digest := Working(w);
      var committed := Committed(s.runs[w.run].stages, digest);
      var t := Next(s, Act(w.run, BeginStage(w.lease, digest.step.stage, digest, newId)));
      if committed.Some? then
        if validate(digest, committed.value).Some?
        then System(t, sys.workers[id := Advanced(w, validate(digest, committed.value).value)])
        else System(t, sys.workers - {id})
      else if w.run in t.runs && HasStage(t.runs[w.run].stages, digest, digest.step.stage)
      then System(t, sys.workers[id := w.(active := Some(StageFor(t.runs[w.run].stages, digest, digest.step.stage)))])
      else sys
  }

  /** The executor answers anything; only a validated answer is committed, and only under a live lease. */
  ghost function Finished(validate: Validator, sys: System, id: Id, answer: Output, progress: seq<Progress>): System
    requires id in sys.workers
  {
    var w, s := sys.workers[id], sys.state;
    if w.done >= |w.plan| || w.active.None? then sys
    else
      var digest := Working(w);
      var valid := validate(digest, answer);
      if valid.None? || !HoldsRun(s, w.run, w.lease) || w.active.value !in s.runs[w.run].stages
         || !s.runs[w.run].stages[w.active.value].status.StageRunning?
      then sys.(workers := sys.workers - {id})
      else System(Next(s, Act(w.run, CompleteStage(w.lease, w.active.value, digest.step.stage, valid.value, progress))),
                  sys.workers[id := Advanced(w, valid.value)])
  }

  /** The end of `process_claimed_run`: the last output must be a patch against the run's base revision. */
  ghost function Persisting(sys: System, id: Id, patch: Id): System
    requires id in sys.workers
  {
    var w, s := sys.workers[id], sys.state;
    if w.done != |w.plan| || w.plan == [] || KeyOf(w.plan[|w.plan| - 1]) !in w.prior then sys
    else
      var output := w.prior[KeyOf(w.plan[|w.plan| - 1])].output;
      if output.operations.None? || w.run !in s.runs || output.base != Some(s.runs[w.run].run.base)
      then sys.(workers := sys.workers - {id})
      else System(Next(s, Act(w.run, PersistPatch(w.lease, patch, output.operations.value))), sys.workers - {id})
  }

  ghost function Moved(validate: Validator, sys: System, move: Move): System {
    match move
    case Env(step) => if OnlyWorkers(step) then sys else sys.(state := Next(sys.state, step))
    case Start(w, r, lease) => Started(sys, w, r, lease)
    case Begin(w, newId) => if w in sys.workers then Began(validate, sys, w, newId) else sys
    case Finish(w, answer, progress) => if w in sys.workers then Finished(validate, sys, w, answer, progress) else sys
    case Persist(w, patch) => if w in sys.workers then Persisting(sys, w, patch) else sys
    case Crash(w) => sys.(workers := sys.workers - {w})
  }

  ghost function AfterMoves(validate: Validator, sys: System, moves: seq<Move>): System
    decreases |moves|
  {
    if moves == [] then sys
    else Moved(validate, AfterMoves(validate, sys, moves[..|moves| - 1]), moves[|moves| - 1])
  }

  // ---- what every interleaving keeps ----

  /** A worker holds exactly the prior outputs that the committed checkpoints determine. */
  ghost predicate InStep(s: State, w: Worker) {
    && w.run in s.used
    && (w.run in s.runs ==>
          && PlanFor(s.runs[w.run].run.operation) == Some(w.plan)
          && w.done <= |w.plan|
          && Chain(s.runs[w.run].stages, w.run, w.plan, w.done) == Some(w.prior)
          && (w.active.Some? && w.done < |w.plan| ==>
                && w.active.value in s.runs[w.run].stages
                && s.runs[w.run].stages[w.active.value].digest == Working(w)
                && s.runs[w.run].stages[w.active.value].name == w.plan[w.done].stage))
  }

  ghost predicate Validated(validate: Validator, stages: map<Id, Stage>) {
    forall id :: id in stages && stages[id].status.StageCompleted? && stages[id].output.Some? ==>
      validate(stages[id].digest, stages[id].output.value) == Some(stages[id].output.value)
  }

  /** The stored patch is the last output of the complete chain. */
  ghost predicate PatchIsChain(record: Record, r: Id) {
    record.patch.Some? ==>
      var plan := PlanFor(record.run.operation);
      && plan.Some? && plan.value != []
      && var chain := Chain(record.stages, r, plan.value, |plan.value|);
      && chain.Some? && KeyOf(plan.value[|plan.value| - 1]) in chain.value
      && var output := chain.value[KeyOf(plan.value[|plan.value| - 1])].output;
      && output.operations == Some(record.patch.value.operations)
      && output.base == Some(record.run.base) && record.patch.value.base == record.run.base
  }

  ghost predicate RunInStep(validate: Validator, record: Record, r: Id) {
    Validated(validate, record.stages) && PatchIsChain(record, r)
  }

  ghost predicate Consistent(validate: Validator, sys: System) {
    && Sound(sys.state)
    && (forall r :: r in sys.state.runs ==> RunInStep(validate, sys.state.runs[r], r))
    && (forall w :: w in sys.workers ==> InStep(sys.state, sys.workers[w]))
  }

  // ---- one transaction ----

  /** Stage rows keep their key for ever. */
  ghost predicate RowsKept(before: Record, after: Record) {
    forall id :: id in before.stages ==>
      (id in after.stages && after.stages[id].digest == before.stages[id].digest
       && after.stages[id].name == before.stages[id].name)
  }

  /** No output appeared. */
  ghost predicate NothingCommitted(before: Record, after: Record) {
    && after.patch == before.patch
    && forall id :: id in after.stages && after.stages[id].status.StageCompleted? ==>
         id in before.stages && before.stages[id] == after.stages[id]
  }

  lemma BeginKeepsRows(record: Record, name: StageName, digest: Digest, id: Id)
    ensures RowsKept(record, Begun(record, name, digest, id).record)
    ensures NothingCommitted(record, Begun(record, name, digest, id).record)
  {
  }

  lemma StageFailedByKeepsRows(record: Record, run: Run, stage: Option<Id>, error: RunError)
    ensures RowsKept(record, Record(run, StageFailedBy(record.stages, stage, error), record.patch))
    ensures NothingCommitted(record, Record(run, StageFailedBy(record.stages, stage, error), record.patch))
  {
  }

  lemma ActionKeepsRows(record: Record, now: int, action: Action)
    ensures RowsKept(record, Decide(record, now, action).record)
    ensures !OnlyWorkers(Act(record.run.canvas, action)) || action.BeginStage? ==>
              NothingCommitted(record, Decide(record, now, action).record)
  {
    var run := Decide(record, now, action).record.run;
    match action {
      case BeginStage(_, name, digest, id) => BeginKeepsRows(record, name, digest, id);
      case Fail(_, error, stage) => StageFailedByKeepsRows(record, run, stage, error);
      case ObserveCancel(_, stage) =>
        var name := if stage.Some? && stage.value in record.stages then Some(record.stages[stage.value].name) else None;
        StageFailedByKeepsRows(record, run, stage, RunError(RunWasCancelled, false, name));
      case _ =>
    }
    hide Begun;
  }

  ghost predicate RunKept(before: Record, after: Record) {
    Keeps(before, after) && RowsKept(before, after)
  }

  /** A run that survives a step kept its checkpoints; a run that appears was never there before. */
  ghost predicate StepKept(s: State, t: State) {
    && s.used <= t.used
    && forall r :: r in t.runs ==> if r in s.runs then RunKept(s.runs[r], t.runs[r]) else r !in s.used
  }

  lemma KeptByItself(record: Record)
    ensures RunKept(record, record) && NothingCommitted(record, record)
  {
  }

  lemma NextIsKept(s: State, step: Step)
    requires Logged(s)
    ensures StepKept(s, Next(s, step))
  {
    var t := Next(s, step);
    hide Decide, RunKept, EveryLogGapFree, RowsHaveRuns;
    if step.Act? && step.run in s.runs {
      ActKeepsLog(s, step.run, step.action);
    } else if !step.Act? {
      OtherStepKeepsLog(s, step);
    }
    hide Next, EventsOf;
    forall r | r in t.runs ensures if r in s.runs then RunKept(s.runs[r], t.runs[r]) else r !in s.used {
      if r in s.runs {
        RowOverStep(s, step, r);
        KeptByItself(s.runs[r]);
        if step.Act? && step.run == r { ActionKept(s.runs[r], s.now, step.action); }
      }
    }
  }

  lemma ActionKept(record: Record, now: int, action: Action)
    ensures RunKept(record, Decide(record, now, action).record)
  {
    ActionKeepsCheckpoints(record, now, action);
    ActionKeepsRows(record, now, action);
    hide Decide, Keeps, RowsKept;
  }

  /** Whatever else happens, a worker stays in step with the checkpoints of its run. */
  lemma WorkerKept(s: State, t: State, w: Worker)
    requires Sound(t) && StepKept(s, t) && InStep(s, w)
    ensures InStep(t, w)
  {
    if w.run in t.runs {
      assert RunSound(t.runs[w.run], EventsOf(t, w.run));
      hide Sound, RunSound;
      ChainKept(s.runs[w.run], t.runs[w.run], w.run, w.plan, w.done);
      hide Chain, StageState;
    }
  }

  lemma RunKeptInStep(validate: Validator, before: Record, after: Record, r: Id)
    requires RunInStep(validate, before, r) && Keeps(before, after) && StageState(after)
    requires after.patch == before.patch && Validated(validate, after.stages)
    ensures RunInStep(validate, after, r)
  {
    if after.patch.Some? {
      var plan := PlanFor(before.run.operation).value;
      ChainKept(before, after, r, plan, |plan|);
      hide Chain, StageState, Validated;
    }
  }

  lemma NothingCommittedStaysValid(validate: Validator, before: Record, after: Record)
    requires Validated(validate, before.stages) && NothingCommitted(before, after)
    ensures Validated(validate, after.stages)
  {
  }

  lemma FreshRunInStep(validate: Validator, request: NewRun, now: int, r: Id)
    ensures RunInStep(validate, Fresh(request, now), r)
  {
  }

  /** A transaction of any actor that is not a worker's write. */
  lemma EnvKeepsRuns(validate: Validator, s: State, step: Step)
    requires Sound(s) && (forall r :: r in s.runs ==> RunInStep(validate, s.runs[r], r))
    requires !OnlyWorkers(step) || step.action.BeginStage?
    ensures forall r :: r in Next(s, step).runs ==> RunInStep(validate, Next(s, step).runs[r], r)
  {
    NextKeepsSound(s, step);
    NextIsKept(s, step);
    var t := Next(s, step);
    forall r | r in t.runs ensures RunInStep(validate, t.runs[r], r) {
      if r in s.runs {
        RunAfterStep(validate, s, step, r);
      } else {
        NewRunIsFresh(s, step, r);
        FreshRunInStep(validate, step.request, s.now, r);
      }
    }
  }

  lemma NewRunIsFresh(s: State, step: Step, r: Id)
    requires Logged(s) && r in Next(s, step).runs && r !in s.runs
    ensures step.Create? && Next(s, step).runs[r] == Fresh(step.request, s.now)
  {
    if step.Act? && step.run in s.runs {
      ActKeepsLog(s, step.run, step.action);
    }
  }

  lemma RunAfterStep(validate: Validator, s: State, step: Step, r: Id)
    requires Sound(s) && Sound(Next(s, step)) && r in s.runs && r in Next(s, step).runs
    requires RunInStep(validate, s.runs[r], r) && StepKept(s, Next(s, step))
    requires !OnlyWorkers(step) || step.action.BeginStage?
    ensures RunInStep(validate, Next(s, step).runs[r], r)
  {
    var t := Next(s, step);
    assert RunSound(t.runs[r], EventsOf(t, r));
    RowOverStep(s, step, r);
    KeptByItself(s.runs[r]);
    if step.Act? && step.run == r {
      ActionKeepsRows(s.runs[r], s.now, step.action);
    }
    hide Decide, Next, RunInStep, Sound, EventsOf, EndsOnce, RowSound;
    assert NothingCommitted(s.runs[r], t.runs[r]);
    KeptRun(validate, s.runs[r], t.runs[r], r);
  }

  lemma KeptRun(validate: Validator, before: Record, after: Record, r: Id)
    requires RunInStep(validate, before, r) && RunKept(before, after) && StageState(after)
    requires NothingCommitted(before, after)
    ensures RunInStep(validate, after, r)
  {
    NothingCommittedStaysValid(validate, before, after);
    RunKeptInStep(validate, before, after, r);
  }

  // ---- the workers' own writes ----

  ghost predicate RunsInStep(validate: Validator, s: State) {
    forall r :: r in s.runs ==> RunInStep(validate, s.runs[r], r)
  }

  ghost predicate WorkersInStep(s: State, workers: map<Id, Worker>) {
    forall w :: w in workers ==> InStep(s, workers[w])
  }

  lemma WorkersKept(s: State, step: Step, workers: map<Id, Worker>)
    requires Sound(s) && WorkersInStep(s, workers)
    ensures Sound(Next(s, step)) && WorkersInStep(Next(s, step), workers)
  {
    NextKeepsSound(s, step);
    NextIsKept(s, step);
    hide Sound, InStep, StepKept, Next;
    forall w | w in workers ensures InStep(Next(s, step), workers[w]) {
      WorkerKept(s, Next(s, step), workers[w]);
    }
  }

  lemma ChainOneMore(stages: map<Id, Stage>, w: Worker, output: Output)
    requires w.done < |w.plan| && Chain(stages, w.run, w.plan, w.done) == Some(w.prior)
    requires Committed(stages, Working(w)) == Some(output)
    ensures Chain(stages, w.run, w.plan, w.done + 1) == Some(Advanced(w, output).prior)
  {
    hide Committed;
  }

  /** Reusing a checkpoint: validation returns the stored output, so the worker moves along the chain. */
  lemma ReuseKeepsStep(validate: Validator, s: State, t: State, w: Worker)
    requires InStep(s, w) && InStep(t, w) && w.run in s.runs && w.done < |w.plan|
    requires RunInStep(validate, s.runs[w.run], w.run) && Committed(s.runs[w.run].stages, Working(w)).Some?
    requires w.run in t.runs ==> RunKept(s.runs[w.run], t.runs[w.run]) && StageState(t.runs[w.run])
    requires w.run in t.used
    ensures var output := Committed(s.runs[w.run].stages, Working(w)).value;
            validate(Working(w), output) == Some(output) && InStep(t, Advanced(w, output))
  {
    var output := Committed(s.runs[w.run].stages, Working(w)).value;
    assert IsCommitted(s.runs[w.run].stages, Working(w), output);
    if w.run in t.runs {
      CommittedKept(s.runs[w.run], t.runs[w.run], Working(w));
      ChainOneMore(t.runs[w.run].stages, w, output);
      hide Committed, StageState, Keeps, RowsKept, Chain;
      assert Chain(t.runs[w.run].stages, w.run, w.plan, w.done + 1) == Some(Advanced(w, output).prior);
    }
  }

  lemma ConsistentWith(validate: Validator, t: State, workers: map<Id, Worker>, id: Id, w: Worker)
    requires Sound(t) && RunsInStep(validate, t) && WorkersInStep(t, workers)
    ensures Consistent(validate, System(t, workers - {id}))
    ensures InStep(t, w) ==> Consistent(validate, System(t, workers[id := w]))
  {
    hide Sound, RunInStep, InStep;
  }

  lemma BeginKeeps(validate: Validator, sys: System, id: Id, newId: Id)
    requires Consistent(validate, sys) && id in sys.workers
    ensures Consistent(validate, Began(validate, sys, id, newId))
  {
    var w, s := sys.workers[id], sys.state;
    hide Next, Sound, RunInStep, Chain, Keeps, RowsKept, StageState, HasStage, Holds, InStep;
    ConsistentWith(validate, s, sys.workers, id, w);
    if w.done < |w.plan| && w.active.None? && HoldsRun(s, w.run, w.lease) && newId !in s.runs[w.run].stages {
      var digest := Working(w);
      var t := Next(s, Act(w.run, BeginStage(w.lease, digest.step.stage, digest, newId)));
      BegunKeeps(validate, s, sys.workers, id, newId);
      if Committed(s.runs[w.run].stages, digest).Some? {
        ConsistentWith(validate, t, sys.workers, id, Advanced(w, Committed(s.runs[w.run].stages, digest).value));
      } else if w.run in t.runs && HasStage(t.runs[w.run].stages, digest, digest.step.stage) {
        ConsistentWith(validate, t, sys.workers, id,
                       w.(active := Some(StageFor(t.runs[w.run].stages, digest, digest.step.stage))));
      }
    }
  }

  /** After a worker opened its stage: every worker and run is in step, and so is the worker on a reused output or on
      the row it found. */
  lemma BegunKeeps(validate: Validator, s: State, workers: map<Id, Worker>, id: Id, newId: Id)
    requires Sound(s) && RunsInStep(validate, s) && WorkersInStep(s, workers) && id in workers
    requires workers[id].done < |workers[id].plan| && HoldsRun(s, workers[id].run, workers[id].lease)
    ensures var w := workers[id]; var digest := Working(w);
            var t := Next(s, Act(w.run, BeginStage(w.lease, digest.step.stage, digest, newId)));
            && Sound(t) && RunsInStep(validate, t) && WorkersInStep(t, workers)
            && (Committed(s.runs[w.run].stages, digest).Some? ==>
                  var output := Committed(s.runs[w.run].stages, digest).value;
                  validate(digest, output) == Some(output) && InStep(t, Advanced(w, output)))
            && (w.run in t.runs && HasStage(t.runs[w.run].stages, digest, digest.step.stage) ==>
                  InStep(t, w.(active := Some(StageFor(t.runs[w.run].stages, digest, digest.step.stage)))))
  {
    var w := workers[id];
    var digest := Working(w);
    var step := Act(w.run, BeginStage(w.lease, digest.step.stage, digest, newId));
    var t := Next(s, step);
    hide Next, Sound, RunInStep, Chain, Keeps, RowsKept, StageState, HasStage, Holds, InStep;
    WorkersKept(s, step, workers);
    StepIsKept(s, step);
    EnvKeepsRuns(validate, s, step);
    assert InStep(s, w) && InStep(t, w);
    SoundStages(t, w.run);
    if Committed(s.runs[w.run].stages, digest).Some? {
      InStepFacts(t, w);
      ReuseKeepsStep(validate, s, t, w);
    }
    if w.run in t.runs && HasStage(t.runs[w.run].stages, digest, digest.step.stage) {
      ActiveInStep(t, w, StageFor(t.runs[w.run].stages, digest, digest.step.stage));
    }
  }

  lemma StepIsKept(s: State, step: Step)
    requires Sound(s)
    ensures StepKept(s, Next(s, step))
  {
    NextIsKept(s, step);
  }

  lemma InStepFacts(s: State, w: Worker)
    requires InStep(s, w)
    ensures w.run in s.used
  {
  }

  lemma ActiveInStep(s: State, w: Worker, row: Id)
    requires InStep(s, w) && w.done < |w.plan|
    requires w.run in s.runs && row in s.runs[w.run].stages && s.runs[w.run].stages[row].digest == Working(w)
             && s.runs[w.run].stages[row].name == w.plan[w.done].stage
    ensures InStep(s, w.(active := Some(row)))
  {
    hide Chain;
  }

  lemma SoundStages(s: State, r: Id)
    requires Sound(s)
    ensures r in s.runs ==> StageState(s.runs[r]) && RowSound(s.runs[r])
  {
    if r in s.runs {
      assert RunSound(s.runs[r], EventsOf(s, r));
    }
  }

  lemma CommitIsCommitted(record: Record, after: Record, now: int, w: Worker, output: Output, progress: seq<Progress>)
    requires w.active.Some? && w.done < |w.plan| && w.active.value in record.stages
    requires record.stages[w.active.value].digest == Working(w)
    requires record.stages[w.active.value].name == w.plan[w.done].stage
    requires record.stages[w.active.value].status.StageRunning? && Holds(record.run, w.lease, Running, now)
    requires after == Decide(record, now,
                             CompleteStage(w.lease, w.active.value, w.plan[w.done].stage, output, progress)).record
    ensures IsCommitted(after.stages, Working(w), output) && after.patch == record.patch
    ensures forall id :: id in after.stages && id != w.active.value ==>
              id in record.stages && after.stages[id] == record.stages[id]
    ensures w.active.value in after.stages && after.stages[w.active.value].digest == Working(w)
            && after.stages[w.active.value].output == Some(output)
  {
    assert after.stages[w.active.value].output == Some(output);
  }

  lemma CommitMovesAlong(s: State, t: State, w: Worker, output: Output)
    requires InStep(t, w) && w.run in t.runs && StageState(t.runs[w.run]) && w.done < |w.plan|
    requires IsCommitted(t.runs[w.run].stages, Working(w), output)
    ensures InStep(t, Advanced(w, output))
  {
    var stages := t.runs[w.run].stages;
    CommittedIsUnique(t.runs[w.run], Working(w), output, Committed(stages, Working(w)).value);
    hide Committed, StageState, IsCommitted;
    assert Chain(stages, w.run, w.plan, w.done + 1) == Some(Advanced(w, output).prior);
  }

  /** The answer can be committed: it validates, the lease is held and the worker's stage is active. */
  ghost predicate MayCommit(validate: Validator, s: State, w: Worker, answer: Output) {
    && w.done < |w.plan| && w.active.Some? && HoldsRun(s, w.run, w.lease) && w.active.value in s.runs[w.run].stages
    && s.runs[w.run].stages[w.active.value].status.StageRunning? && validate(Working(w), answer).Some?
  }

  function CommitStep(w: Worker, output: Output, progress: seq<Progress>): Step
    requires w.done < |w.plan| && w.active.Some?
  {
    Act(w.run, CompleteStage(w.lease, w.active.value, w.plan[w.done].stage, output, progress))
  }

  lemma FinishedForm(validate: Validator, sys: System, id: Id, answer: Output, progress: seq<Progress>)
    requires id in sys.workers
    ensures var w := sys.workers[id]; var finished := Finished(validate, sys, id, answer, progress);
            if MayCommit(validate, sys.state, w, answer) then
              var output := validate(Working(w), answer).value;
              finished == System(Next(sys.state, CommitStep(w, output, progress)), sys.workers[id := Advanced(w, output)])
            else finished == sys || finished == System(sys.state, sys.workers - {id})
  {
    hide Next, Holds, Advanced;
  }

  lemma CommitFacts(validate: Validator, s: State, w: Worker, answer: Output)
    requires MayCommit(validate, s, w, answer)
    ensures w.done < |w.plan| && w.active.Some? && HoldsRun(s, w.run, w.lease)
    ensures w.active.value in s.runs[w.run].stages && s.runs[w.run].stages[w.active.value].status.StageRunning?
    ensures validate(Working(w), answer).Some?
    ensures Idempotent(validate) ==>
      validate(Working(w), validate(Working(w), answer).value) == Some(validate(Working(w), answer).value)
  {
    hide HoldsRun;
  }

  lemma ConsistentParts(validate: Validator, sys: System)
    ensures Consistent(validate, sys)
            <==> Sound(sys.state) && RunsInStep(validate, sys.state) && WorkersInStep(sys.state, sys.workers)
  {
    hide Sound, RunInStep, InStep;
  }

  lemma WorkerIn(s: State, workers: map<Id, Worker>, id: Id)
    requires WorkersInStep(s, workers) && id in workers
    ensures InStep(s, workers[id])
  {
    hide InStep;
  }

  lemma FinishKeeps(validate: Validator, sys: System, id: Id, answer: Output, progress: seq<Progress>)
    requires Idempotent(validate) && Consistent(validate, sys) && id in sys.workers
    ensures Consistent(validate, Finished(validate, sys, id, answer, progress))
  {
    var w, s := sys.workers[id], sys.state;
    hide *;
    ConsistentParts(validate, sys);
    ConsistentWith(validate, s, sys.workers, id, w);
    FinishedForm(validate, sys, id, answer, progress);
    if MayCommit(validate, s, w, answer) {
      CommitFacts(validate, s, w, answer);
      WorkerIn(s, sys.workers, id);
      var output := validate(Working(w), answer).value;
      CommitKeeps(validate, s, w, output, progress);
      WorkersKept(s, CommitStep(w, output, progress), sys.workers);
      ConsistentWith(validate, Next(s, CommitStep(w, output, progress)), sys.workers, id, Advanced(w, output));
    }
  }

  lemma CommitKeeps(validate: Validator, s: State, w: Worker, output: Output, progress: seq<Progress>)
    requires Sound(s) && RunsInStep(validate, s) && InStep(s, w)
    requires w.done < |w.plan| && w.active.Some? && HoldsRun(s, w.run, w.lease)
    requires w.active.value in s.runs[w.run].stages && s.runs[w.run].stages[w.active.value].status.StageRunning?
    requires validate(Working(w), output) == Some(output)
    ensures var t := Next(s, CommitStep(w, output, progress));
            Sound(t) && RunsInStep(validate, t) && InStep(t, Advanced(w, output))
  {
    var action := CompleteStage(w.lease, w.active.value, w.plan[w.done].stage, output, progress);
    var t := Next(s, Act(w.run, action));
    NextKeepsSound(s, Act(w.run, action));
    NextIsKept(s, Act(w.run, action));
    ActKeepsLog(s, w.run, action);
    WorkerKept(s, t, w);
    SoundStages(t, w.run);
    hide Decide, Next, Sound, Logged, EventsOf, StageState, Keeps, RowsKept, Chain, RunInStep;
    CommitIsCommitted(s.runs[w.run], t.runs[w.run], s.now, w, output, progress);
    CommitStaysValid(validate, s.runs[w.run], t.runs[w.run], w, output);
    OneRunChanged(validate, s, t, w.run);
    hide InStep;
    CommitMovesAlong(s, t, w, output);
  }

  lemma CommitStaysValid(validate: Validator, before: Record, after: Record, w: Worker, output: Output)
    requires w.done < |w.plan| && w.active.Some? && RunInStep(validate, before, w.run)
    requires validate(Working(w), output) == Some(output) && after.patch == before.patch
    requires Keeps(before, after) && StageState(after)
    requires forall id :: id in after.stages && id != w.active.value ==>
               id in before.stages && after.stages[id] == before.stages[id]
    requires w.active.value in after.stages && after.stages[w.active.value].digest == Working(w)
             && after.stages[w.active.value].output == Some(output)
    ensures RunInStep(validate, after, w.run)
  {
    hide Keeps, StageState, PatchIsChain;
    assert Validated(validate, after.stages);
    hide Validated;
    RunKeptInStep(validate, before, after, w.run);
  }

  lemma OneRunChanged(validate: Validator, s: State, t: State, r: Id)
    requires RunsInStep(validate, s) && r in t.runs && RunInStep(validate, t.runs[r], r)
    requires t.runs.Keys == s.runs.Keys && forall q :: q in s.runs && q != r ==> t.runs[q] == s.runs[q]
    ensures RunsInStep(validate, t)
  {
    hide RunInStep;
  }

  lemma PersistIsChain(record: Record, now: int, r: Id, plan: seq<PlanStep>, lease: Lease, patch: Id, output: Output)
    requires RowSound(record) && PatchIsChain(record, r) && PlanFor(record.run.operation) == Some(plan) && plan != []
    requires var chain := Chain(record.stages, r, plan, |plan|);
             chain.Some? && KeyOf(plan[|plan| - 1]) in chain.value && chain.value[KeyOf(plan[|plan| - 1])].output == output
    requires output.operations.Some? && output.base == Some(record.run.base)
    ensures PatchIsChain(Decide(record, now, PersistPatch(lease, patch, output.operations.value)).record, r)
    ensures Decide(record, now, PersistPatch(lease, patch, output.operations.value)).record.stages == record.stages
  {
    hide Chain;
  }

  lemma PersistKeepsRuns(validate: Validator, s: State, w: Worker, patch: Id, output: Output)
    requires Sound(s) && RunsInStep(validate, s) && InStep(s, w) && w.run in s.runs && w.done == |w.plan| && w.plan != []
    requires KeyOf(w.plan[|w.plan| - 1]) in w.prior && w.prior[KeyOf(w.plan[|w.plan| - 1])].output == output
    requires output.operations.Some? && output.base == Some(s.runs[w.run].run.base)
    ensures RunsInStep(validate, Next(s, Act(w.run, PersistPatch(w.lease, patch, output.operations.value))))
  {
    var step := Act(w.run, PersistPatch(w.lease, patch, output.operations.value));
    SoundStages(s, w.run);
    ActKeepsLog(s, w.run, step.action);
    hide Decide, Next, Sound, Logged, EventsOf, PatchIsChain, Validated, Chain, RowSound;
    assert RunInStep(validate, s.runs[w.run], w.run);
    PersistIsChain(s.runs[w.run], s.now, w.run, w.plan, w.lease, patch, output);
    OneRunChanged(validate, s, Next(s, step), w.run);
  }

  lemma PersistKeeps(validate: Validator, sys: System, id: Id, patch: Id)
    requires Consistent(validate, sys) && id in sys.workers
    ensures Consistent(validate, Persisting(sys, id, patch))
  {
    hide Sound, RunInStep, InStep, Next;
    var w, s := sys.workers[id], sys.state;
    ConsistentWith(validate, s, sys.workers, id, w);
    if w.done == |w.plan| && w.plan != [] && KeyOf(w.plan[|w.plan| - 1]) in w.prior && w.run in s.runs {
      var output := w.prior[KeyOf(w.plan[|w.plan| - 1])].output;
      if output.operations.Some? && output.base == Some(s.runs[w.run].run.base) {
        var step := Act(w.run, PersistPatch(w.lease, patch, output.operations.value));
        PersistKeepsRuns(validate, s, w, patch, output);
        WorkersKept(s, step, sys.workers);
        ConsistentWith(validate, Next(s, step), sys.workers, id, w);
      }
    }
  }

  lemma StartKeeps(validate: Validator, sys: System, w: Id, r: Id, lease: Lease)
    requires Consistent(validate, sys)
    ensures Consistent(validate, Started(sys, w, r, lease))
  {
    hide RunInStep, StageState;
    assert RunsAreOnCanvases(sys.state);
  }

  lemma MoveKeepsConsistent(validate: Validator, sys: System, move: Move)
    requires Idempotent(validate) && Consistent(validate, sys)
    ensures Consistent(validate, Moved(validate, sys, move))
  {
    hide Sound, RunInStep, InStep, Started, Began, Finished, Persisting, Next, Idempotent;
    match move
    case Env(step) =>
      if !OnlyWorkers(step) {
        EnvKeepsRuns(validate, sys.state, step);
        WorkersKept(sys.state, step, sys.workers);
      }
    case Start(w, r, lease) => StartKeeps(validate, sys, w, r, lease);
    case Begin(w, newId) => if w in sys.workers { BeginKeeps(validate, sys, w, newId); }
    case Finish(w, answer, progress) => if w in sys.workers { FinishKeeps(validate, sys, w, answer, progress); }
    case Persist(w, patch) => if w in sys.workers { PersistKeeps(validate, sys, w, patch); }
    case Crash(w) =>
  }

  lemma {:induction false} ConsistentStays(validate: Validator, sys: System, moves: seq<Move>)
    requires Idempotent(validate) && Consistent(validate, sys)
    ensures Consistent(validate, AfterMoves(validate, sys, moves))
    decreases |moves|
  {
    if moves != [] {
      ConsistentStays(validate, sys, moves[..|moves| - 1]);
      hide Consistent, Moved, Idempotent;
      MoveKeepsConsistent(validate, AfterMoves(validate, sys, moves[..|moves| - 1]), moves[|moves| - 1]);
    }
  }

  /** A move leaves the database as it is or is one of its transactions. */
  ghost predicate OneTransaction(s: State, t: State) {
    t == s || exists step :: t == Next(s, step)
  }

  lemma MoveIsTransaction(validate: Validator, sys: System, move: Move)
    ensures OneTransaction(sys.state, Moved(validate, sys, move).state)
  {
    hide Next, Committed, HasStage, StageFor, HoldsRun;
  }

  lemma TransactionKeeps(s: State, t: State)
    requires Logged(s) && OneTransaction(s, t)
    ensures StepKept(s, t)
  {
    if t == s {
      forall r | r in s.runs ensures RunKept(s.runs[r], s.runs[r]) { KeptByItself(s.runs[r]); }
    } else {
      var step :| t == Next(s, step);
      hide Next, Logged, StepKept;
      NextIsKept(s, step);
    }
  }

  lemma KeptFurther(s: State, t: State, u: State)
    requires StepKept(s, t) && StepKept(t, u) && RunsAreOnCanvases(s)
    ensures StepKept(s, u)
  {
    forall r | r in u.runs ensures if r in s.runs then RunKept(s.runs[r], u.runs[r]) else r !in s.used {
      if r in s.runs {
        assert r in t.runs;
        KeepsTransitive(s.runs[r], t.runs[r], u.runs[r]);
      }
    }
  }

  /** Whatever workers, crashes and other actors do, a run that survives keeps its checkpoints and its patch. */
  lemma {:induction false} CheckpointsOutliveCrashes(validate: Validator, sys: System, moves: seq<Move>)
    requires Idempotent(validate) && Consistent(validate, sys)
    ensures StepKept(sys.state, AfterMoves(validate, sys, moves).state)
    decreases |moves|
  {
    var s := sys.state;
    if moves == [] {
      forall r | r in s.runs ensures RunKept(s.runs[r], s.runs[r]) { KeptByItself(s.runs[r]); }
    } else {
      var mid := AfterMoves(validate, sys, moves[..|moves| - 1]);
      CheckpointsOutliveCrashes(validate, sys, moves[..|moves| - 1]);
      ConsistentStays(validate, sys, moves[..|moves| - 1]);
      assert Logged(s) && RunsAreOnCanvases(s) && Logged(mid.state);
      hide *;
      MoveIsTransaction(validate, mid, moves[|moves| - 1]);
      TransactionKeeps(mid.state, Moved(validate, mid, moves[|moves| - 1]).state);
      KeptFurther(s, mid.state, Moved(validate, mid, moves[|moves| - 1]).state);
    }
  }

  /** A database without canvases and runs, and no worker. */
  function Idle(now: int): System {
    System(Empty(now), map[])
  }

  /** What any moves of any workers and other actors make of an empty database. */
  ghost predicate Reached(validate: Validator, sys: System) {
    exists now, moves :: sys == AfterMoves(validate, Idle(now), moves)
  }

  lemma IdleIsConsistent(validate: Validator, now: int)
    ensures Consistent(validate, Idle(now))
  {
  }

  lemma ReachedIsConsistent(validate: Validator, sys: System)
    requires Idempotent(validate) && Reached(validate, sys)
    ensures Consistent(validate, sys)
  {
    var now, moves :| sys == AfterMoves(validate, Idle(now), moves);
    IdleIsConsistent(validate, now);
    hide Consistent, AfterMoves, Idempotent;
    ConsistentStays(validate, Idle(now), moves);
  }

  /** Workers of one run that have done the same number of steps hold the same prior outputs, whichever leases
      and crashes lie between them. */
  lemma ResumedWorkersAgree(validate: Validator, sys: System, a: Id, b: Id)
    requires Idempotent(validate) && Reached(validate, sys) && a in sys.workers && b in sys.workers
    requires sys.workers[a].run == sys.workers[b].run && sys.workers[a].run in sys.state.runs
    ensures sys.workers[a].plan == sys.workers[b].plan
    ensures sys.workers[a].done == sys.workers[b].done ==> sys.workers[a].prior == sys.workers[b].prior
  {
    ReachedIsConsistent(validate, sys);
    assert InStep(sys.state, sys.workers[a]) && InStep(sys.state, sys.workers[b]);
    hide Sound, Reached, Idempotent, AfterMoves;
  }

  // ---- refinement of an uninterrupted run ----

  /** The prior outputs of a run that is executed once, without interruption, with these answers. */
  function Straight(plan: seq<PlanStep>, answers: seq<Output>, n: nat): map<OutputKey, Prior>
    requires n <= |plan| == |answers|
  {
    if n == 0 then map[]
    else Straight(plan, answers, n - 1)[KeyOf(plan[n - 1]) := PriorOf(plan[n - 1], answers[n - 1])]
  }

  /** In an uninterrupted run, answer i is what the executor gives for the input built from the earlier ones, is
      accepted by the validator, and is the one output the stage table holds for that input. */
  ghost predicate Uninterrupted(validate: Validator, stages: map<Id, Stage>, r: Id, plan: seq<PlanStep>, answers: seq<Output>, n: nat) {
    n <= |plan| == |answers| && forall i :: 0 <= i < n ==>
      var digest := Digest(r, plan[i], Straight(plan, answers, i));
      validate(digest, answers[i]) == Some(answers[i]) && IsCommitted(stages, digest, answers[i])
  }

  lemma StraightIgnoresLater(plan: seq<PlanStep>, a: seq<Output>, b: seq<Output>, n: nat)
    requires n <= |plan| == |a| == |b| && a[..n] == b[..n]
    ensures Straight(plan, a, n) == Straight(plan, b, n)
    decreases n
  {
    if n > 0 {
      assert a[..n - 1] == a[..n][..n - 1] == b[..n][..n - 1] == b[..n - 1];
      StraightIgnoresLater(plan, a, b, n - 1);
      assert a[n - 1] == a[..n][n - 1] == b[..n][n - 1] == b[n - 1];
    }
  }

  lemma {:induction false} ChainIsStraight(validate: Validator, record: Record, r: Id, plan: seq<PlanStep>, n: nat, filler: Output)
    returns (answers: seq<Output>)
    requires n <= |plan| && Chain(record.stages, r, plan, n).Some? && Validated(validate, record.stages)
    ensures Uninterrupted(validate, record.stages, r, plan, answers, n)
    ensures Straight(plan, answers, n) == Chain(record.stages, r, plan, n).value
    decreases n
  {
    if n == 0 {
      answers := seq(|plan|, i => filler);
    } else {
      var before := ChainIsStraight(validate, record, r, plan, n - 1, filler);
      var digest := Digest(r, plan[n - 1], Straight(plan, before, n - 1));
      var output := Committed(record.stages, digest).value;
      CommittedIsValid(validate, record.stages, digest, output);
      answers := before[n - 1 := output];
      hide Committed, IsCommitted, Validated, Chain;
      forall i | 0 <= i < n ensures Straight(plan, answers, i) == Straight(plan, before, i) {
        assert answers[..i] == before[..i];
        StraightIgnoresLater(plan, answers, before, i);
      }
    }
  }

  lemma CommittedIsValid(validate: Validator, stages: map<Id, Stage>, digest: Digest, output: Output)
    requires Validated(validate, stages) && IsCommitted(stages, digest, output)
    ensures validate(digest, output) == Some(output)
  {
  }

  /** Crash-resume refines an uninterrupted run: whatever crashes, reclaims and retries lie behind it, a stored
      patch is the last answer of one uninterrupted run of the plan whose answers are the committed outputs. */
  lemma PatchRefinesUninterruptedRun(validate: Validator, sys: System, r: Id) returns (answers: seq<Output>)
    requires Idempotent(validate) && Reached(validate, sys) && r in sys.state.runs && sys.state.runs[r].patch.Some?
    ensures var record := sys.state.runs[r]; var plan := PlanFor(record.run.operation);
            && plan.Some? && Keyed(plan.value)
            && Uninterrupted(validate, record.stages, r, plan.value, answers, |plan.value|)
            && answers[|plan.value| - 1].operations == Some(record.patch.value.operations)
            && answers[|plan.value| - 1].base == Some(record.patch.value.base)
  {
    var record := sys.state.runs[r];
    ReachedIsConsistent(validate, sys);
    var plan := StoredPatchIsChain(validate, sys, r);
    EveryPlanIsKeyed(record.run.operation);
    hide *;
    answers := ChainIsStraight(validate, record, r, plan, |plan|, Output("", None, None));
    LastAnswer(plan, answers);
  }

  lemma StoredPatchIsChain(validate: Validator, sys: System, r: Id) returns (plan: seq<PlanStep>)
    requires Consistent(validate, sys) && r in sys.state.runs && sys.state.runs[r].patch.Some?
    ensures var record := sys.state.runs[r];
            && PlanFor(record.run.operation) == Some(plan) && plan != [] && Validated(validate, record.stages)
            && var chain := Chain(record.stages, r, plan, |plan|);
            && chain.Some? && KeyOf(plan[|plan| - 1]) in chain.value
            && var output := chain.value[KeyOf(plan[|plan| - 1])].output;
            && output.operations == Some(record.patch.value.operations) && output.base == Some(record.patch.value.base)
  {
    hide Sound, PlanFor, Chain, InStep, Validated;
    assert RunInStep(validate, sys.state.runs[r], r);
    plan := PlanFor(sys.state.runs[r].run.operation).value;
  }

  lemma LastAnswer(plan: seq<PlanStep>, answers: seq<Output>)
    requires |plan| == |answers| && plan != []
    ensures KeyOf(plan[|plan| - 1]) in Straight(plan, answers, |plan|)
    ensures Straight(plan, answers, |plan|)[KeyOf(plan[|plan| - 1])].output == answers[|plan| - 1]
  {
  }
}
