/** Stages are opened in pipeline order: when a stage of a run has a row, whatever it builds on has committed, across
    crashes, retries and any number of workers (proofgraph/generation/execution.py:41-163, 264-389, 622-720). */
module StageOrder {
  import opened Reachability
  import opened GraphTypes
  import opened StagePlan
  import opened RunModel
  import opened RunInvariant
  import opened RunTraces
  import opened RunProgress
  import opened CheckpointResume

  // ---- rows follow the plan ----

  /** The row's input is a step of the plan with the outputs of all steps before it. */
  ghost predicate Follows(stages: map<Id, Stage>, r: Id, plan: seq<PlanStep>, digest: Digest, i: nat) {
    i < |plan| && digest.run == r && digest.step == plan[i] && Chain(stages, r, plan, i) == Some(digest.prior)
  }

  ghost predicate RowFollows(record: Record, r: Id, row: Stage) {
    PlanFor(record.run.operation).Some?
    && exists i: nat :: Follows(record.stages, r, PlanFor(record.run.operation).value, row.digest, i)
  }

  ghost predicate RowsFollow(record: Record, r: Id) {
    forall id :: id in record.stages ==> RowFollows(record, r, record.stages[id])
  }

  ghost predicate AllFollow(s: State) {
    forall r :: r in s.runs ==> RowsFollow(s.runs[r], r)
  }

  /** No action but the opening of a stage makes a row, and that makes one for its digest. */
  lemma RowsMade(record: Record, now: int, action: Action, id: Id)
    requires id in Decide(record, now, action).record.stages && id !in record.stages
    ensures action.BeginStage? && Decide(record, now, action).record.stages[id].digest == action.digest
  {
  }

  lemma ActionKeepsOrder(before: Record, now: int, action: Action, r: Id)
    requires RowsFollow(before, r) && StageState(before)
    requires action.BeginStage? ==> RowFollows(before, r, Stage(action.name, action.digest, StageRunning, 1, None, None))
    ensures RowsFollow(Decide(before, now, action).record, r)
  {
    var after := Decide(before, now, action).record;
    ActionKept(before, now, action);
    ActionKeepsStages(before, now, action);
    assert RunKept(before, after) && StageState(after);
    forall id | id in after.stages && id !in before.stages ensures action.BeginStage? && after.stages[id].digest == action.digest {
      RowsMade(before, now, action, id);
    }
    hide Decide, StageState, Chain, PlanFor;
    forall id | id in after.stages ensures RowFollows(after, r, after.stages[id]) {
      var plan := PlanFor(before.run.operation).value;
      if id in before.stages {
        assert RowFollows(before, r, before.stages[id]) && after.stages[id].digest == before.stages[id].digest;
      }
      var i: nat :| Follows(before.stages, r, plan, after.stages[id].digest, i);
      StillFollows(before, after, r, plan, after.stages[id].digest, i);
    }
  }

  lemma StillFollows(before: Record, after: Record, r: Id, plan: seq<PlanStep>, digest: Digest, i: nat)
    requires Follows(before.stages, r, plan, digest, i) && Keeps(before, after) && StageState(after)
    ensures Follows(after.stages, r, plan, digest, i)
  {
    hide Chain, Keeps, StageState;
    ChainKept(before, after, r, plan, i);
  }

  /** Who opens a stage opens the next one of its plan. */
  ghost predicate OpensNext(sys: System, step: Step) {
    step.Act? && step.action.BeginStage? ==>
      exists id :: id in sys.workers && sys.workers[id].run == step.run && sys.workers[id].done < |sys.workers[id].plan|
        && step.action.digest == Working(sys.workers[id])
  }

  lemma MoveOpensNext(validate: Validator, sys: System, move: Move)
    ensures var t := Moved(validate, sys, move).state;
            t == sys.state || exists step :: OpensNext(sys, step) && t == Next(sys.state, step)
  {
    hide Next, Committed, HasStage, StageFor, HoldsRun;
    match move
    case Env(step) => assert !OnlyWorkers(step) ==> OpensNext(sys, step);
    case Begin(w, newId) =>
      if w in sys.workers && sys.workers[w].done < |sys.workers[w].plan| {
        var v := sys.workers[w];
        assert OpensNext(sys, Act(v.run, BeginStage(v.lease, Working(v).step.stage, Working(v), newId)));
      }
    case Finish(w, answer, progress) =>
      if w in sys.workers && sys.workers[w].done < |sys.workers[w].plan| && sys.workers[w].active.Some?
         && validate(Working(sys.workers[w]), answer).Some? {
        var v := sys.workers[w];
        var output := validate(Working(v), answer).value;
        assert OpensNext(sys, Act(v.run, CompleteStage(v.lease, v.active.value, Working(v).step.stage, output, progress)));
      }
    case Persist(w, patch) =>
      if w in sys.workers && sys.workers[w].plan != [] && KeyOf(sys.workers[w].plan[|sys.workers[w].plan| - 1]) in sys.workers[w].prior {
        var v := sys.workers[w];
        var output := v.prior[KeyOf(v.plan[|v.plan| - 1])].output;
        if output.operations.Some? {
          assert OpensNext(sys, Act(v.run, PersistPatch(v.lease, patch, output.operations.value)));
        }
      }
    case _ =>
  }

  lemma WorkerFollows(s: State, w: Worker)
    requires InStep(s, w) && w.run in s.runs && w.done < |w.plan|
    ensures PlanFor(s.runs[w.run].run.operation) == Some(w.plan)
    ensures Follows(s.runs[w.run].stages, w.run, w.plan, Working(w), w.done)
  {
    hide Chain;
  }

  lemma StepKeepsOrder(validate: Validator, sys: System, step: Step)
    requires Consistent(validate, sys) && AllFollow(sys.state) && OpensNext(sys, step)
    ensures AllFollow(Next(sys.state, step))
  {
    var s, t := sys.state, Next(sys.state, step);
    hide Decide, RunInStep, InStep, StageState, RowSound, EndsOnce, Follows, PlanFor, Chain;
    if step.Act? && step.run in s.runs && s.runs[step.run].run.canvas in s.journals {
      SoundStages(s, step.run);
      if step.action.BeginStage? {
        var id :| id in sys.workers && sys.workers[id].run == step.run && sys.workers[id].done < |sys.workers[id].plan|
          && step.action.digest == Working(sys.workers[id]);
        WorkerFollows(s, sys.workers[id]);
      }
      ActionKeepsOrder(s.runs[step.run], s.now, step.action, step.run);
    }
    hide Sound;
    forall r | r in t.runs ensures RowsFollow(t.runs[r], r) {}
  }

  lemma {:induction false} OrderStays(validate: Validator, sys: System, moves: seq<Move>)
    requires Idempotent(validate) && Consistent(validate, sys) && AllFollow(sys.state)
    ensures AllFollow(AfterMoves(validate, sys, moves).state)
    decreases |moves|
  {
    if moves != [] {
      var mid := AfterMoves(validate, sys, moves[..|moves| - 1]);
      OrderStays(validate, sys, moves[..|moves| - 1]);
      ConsistentStays(validate, sys, moves[..|moves| - 1]);
      hide Consistent, Moved, Idempotent, AllFollow, Next, OpensNext;
      MoveOpensNext(validate, mid, moves[|moves| - 1]);
      if Moved(validate, mid, moves[|moves| - 1]).state != mid.state {
        var step :| OpensNext(mid, step) && Moved(validate, mid, moves[|moves| - 1]).state == Next(mid.state, step);
        StepKeepsOrder(validate, mid, step);
      }
    }
  }

  // ---- the pipeline, read off the rows ----

  ghost predicate HasCommitted(record: Record, phase: Option<Phase>, stage: StageName) {
    exists id :: id in record.stages && record.stages[id].status.StageCompleted?
      && record.stages[id].digest.step.phase == phase && record.stages[id].digest.step.stage == stage
  }

  /** The row is a stage of the run's operation, and every stage of the operation that comes before it has committed. */
  ghost predicate BuiltOn(record: Record, row: Stage) {
    var operation, step := record.run.operation, row.digest.step;
    && Runs(operation, step.phase, step.stage)
    && forall phase, stage ::
         Runs(operation, phase, stage)
         && (PhaseRank(phase) < PhaseRank(step.phase) || (phase == step.phase && StageRank(stage) < StageRank(step.stage)))
         ==> HasCommitted(record, phase, stage)
  }

  ghost predicate PipelineOrder(s: State) {
    forall r, id :: r in s.runs && id in s.runs[r].stages ==> BuiltOn(s.runs[r], s.runs[r].stages[id])
  }

  lemma {:induction false} ChainHasCommitted(record: Record, r: Id, plan: seq<PlanStep>, n: nat, j: nat)
    requires j < n <= |plan| && Chain(record.stages, r, plan, n).Some?
    ensures HasCommitted(record, plan[j].phase, plan[j].stage)
    decreases n
  {
    if j < n - 1 {
      hide HasCommitted;
      ChainHasCommitted(record, r, plan, n - 1, j);
    } else {
      var digest := Digest(r, plan[j], Chain(record.stages, r, plan, j).value);
      var output := Committed(record.stages, digest).value;
      var id :| id in record.stages && record.stages[id].digest == digest && record.stages[id].status.StageCompleted?
        && record.stages[id].output == Some(output);
    }
  }

  lemma OrderedPair(plan: seq<PlanStep>, i: nat, j: nat)
    requires InOrder(plan) && i < j < |plan|
    ensures Precedes(plan[i], plan[j])
  {
  }

  lemma EarlierInPlan(plan: seq<PlanStep>, operation: Operation, i: nat, phase: Option<Phase>,
                      stage: StageName) returns (j: nat)
    requires InOrder(plan) && RunsExactly(plan, operation) && i < |plan| && Runs(operation, phase, stage)
    requires PhaseRank(phase) < PhaseRank(plan[i].phase)
             || (phase == plan[i].phase && StageRank(stage) < StageRank(plan[i].stage))
    ensures j < i && plan[j].phase == phase && plan[j].stage == stage
  {
    hide Runs;
    assert Has(plan, phase, stage);
    j :| 0 <= j < |plan| && plan[j].phase == phase && plan[j].stage == stage;
    hide InOrder, RunsExactly;
    if i < j {
      OrderedPair(plan, i, j);
    }
  }

  lemma FollowsIsBuiltOn(record: Record, r: Id, row: Stage)
    requires RowFollows(record, r, row)
    ensures BuiltOn(record, row)
  {
    var operation := record.run.operation;
    var plan := PlanFor(operation).value;
    PlanIsPipeline(operation);
    var i: nat :| Follows(record.stages, r, plan, row.digest, i);
    hide PlanFor, Runs, InOrder, Chain, HasCommitted;
    assert Has(plan, plan[i].phase, plan[i].stage);
    forall phase, stage |
      Runs(operation, phase, stage)
      && (PhaseRank(phase) < PhaseRank(plan[i].phase) || (phase == plan[i].phase && StageRank(stage) < StageRank(plan[i].stage)))
      ensures HasCommitted(record, phase, stage)
    {
      var j := EarlierInPlan(plan, operation, i, phase, stage);
      ChainHasCommitted(record, r, plan, i, j);
    }
  }

  lemma FollowingIsOrder(s: State)
    requires AllFollow(s)
    ensures PipelineOrder(s)
  {
    hide RowFollows, BuiltOn;
    forall r, id | r in s.runs && id in s.runs[r].stages ensures BuiltOn(s.runs[r], s.runs[r].stages[id]) {
      assert RowsFollow(s.runs[r], r);
      FollowsIsBuiltOn(s.runs[r], r, s.runs[r].stages[id]);
    }
  }

  /** In every state that any moves reach from an empty database: a stage that was ever opened belongs to its run's
      operation, and whatever comes before it in the pipeline has committed. */
  lemma StagesOpenInOrder(validate: Validator, sys: System)
    requires Idempotent(validate) && Reached(validate, sys)
    ensures AllFollow(sys.state) && PipelineOrder(sys.state)
  {
    var now, moves :| sys == AfterMoves(validate, Idle(now), moves);
    IdleIsConsistent(validate, now);
    assert AllFollow(Idle(now).state);
    hide *;
    OrderStays(validate, Idle(now), moves);
    FollowingIsOrder(sys.state);
  }
}
