/** Recovery: whatever crashed before, a worker that holds a live lease and is left alone brings its run from the
    checkpoints to a stored patch (proofgraph/generation/execution.py:598-780). */
module WorkerProgress {
  import opened Reachability
  import opened GraphTypes
  import opened StagePlan
  import opened RunModel
  import opened RunLog
  import opened RunInvariant
  import opened RunTraces
  import opened RunProgress
  import opened CheckpointResume

  /** Every input of the run has an answer that the validator lets through. */
  ghost predicate Answerable(validate: Validator, r: Id) {
    forall d: Digest :: d.run == r ==> exists o :: validate(d, o).Some?
  }

  /** What the validator lets through for the last stage is a patch against the base revision
      (proofgraph/generation/pipeline_schemas.py:2123). */
  ghost predicate ChecksPatch(validate: Validator, r: Id, base: int) {
    forall d: Digest, o :: d.run == r && d.step.stage.ConstructingPatch? && validate(d, o).Some? ==>
      validate(d, o).value.operations.Some? && validate(d, o).value.base == Some(base)
  }

  /** The worker stands between two steps of its plan and holds its run, which nobody has asked to cancel. */
  ghost predicate Ready(sys: System, id: Id, n: nat) {
    && id in sys.workers && sys.workers[id].active.None? && sys.workers[id].done == n <= |sys.workers[id].plan|
    && HoldsRun(sys.state, sys.workers[id].run, sys.workers[id].lease)
    && sys.state.runs[sys.workers[id].run].run.cancelRequestedAt.None?
  }

  ghost predicate AtStep(sys: System, id: Id) {
    id in sys.workers && Ready(sys, id, sys.workers[id].done) && sys.workers[id].done < |sys.workers[id].plan|
  }

  /** The worker holds its run and has its next step open. */
  ghost predicate InStage(sys: System, id: Id) {
    && id in sys.workers && sys.workers[id].active.Some? && sys.workers[id].done < |sys.workers[id].plan|
    && HoldsRun(sys.state, sys.workers[id].run, sys.workers[id].lease)
    && var record := sys.state.runs[sys.workers[id].run];
    && record.run.cancelRequestedAt.None? && sys.workers[id].active.value in record.stages
    && record.stages[sys.workers[id].active.value].status.StageRunning?
  }

  /** The worker went on to the same step and has it open. */
  ghost predicate Opened(sys: System, mid: System, id: Id) {
    && id in sys.workers && sys.workers[id].run in sys.state.runs && sys.workers[id].done < |sys.workers[id].plan|
    && InStage(mid, id) && mid.workers[id] == sys.workers[id].(active := mid.workers[id].active)
    && Onward(sys, mid, id)
  }

  function RowOf(sys: System, id: Id): Record
    requires id in sys.workers && sys.workers[id].run in sys.state.runs
  {
    sys.state.runs[sys.workers[id].run]
  }

  /** The last prior output is a patch against this revision. */
  predicate EndsInPatch(w: Worker, base: int) {
    && w.plan != [] && KeyOf(w.plan[|w.plan| - 1]) in w.prior
    && w.prior[KeyOf(w.plan[|w.plan| - 1])].output.operations.Some?
    && w.prior[KeyOf(w.plan[|w.plan| - 1])].output.base == Some(base)
  }

  /** The worker has done its plan. */
  ghost predicate AtEnd(sys: System, id: Id) {
    id in sys.workers && Ready(sys, id, |sys.workers[id].plan|)
  }

  /** The same worker of the same run, at the same time under the same lease. */
  ghost predicate Onward(sys: System, next: System, id: Id)
    requires id in sys.workers && sys.workers[id].run in sys.state.runs
  {
    && id in next.workers && next.state.now == sys.state.now
    && next.workers[id].run == sys.workers[id].run && next.workers[id].lease == sys.workers[id].lease
    && next.workers[id].plan == sys.workers[id].plan
    && sys.workers[id].run in next.state.runs
    && SameTerms(sys.state.runs[sys.workers[id].run].run, next.state.runs[sys.workers[id].run].run)
  }

  predicate SameTerms(a: Run, b: Run) {
    && b.attempt == a.attempt && b.maxAttempts == a.maxAttempts && b.expiresAt == a.expiresAt
    && b.base == a.base && b.operation == a.operation
  }

  // ---- the worker's own moves ----

  predicate OwnMove(move: Move, id: Id) {
    match move
    case Begin(w, _) => w == id
    case Finish(w, _, _) => w == id
    case Persist(w, _) => w == id
    case _ => false
  }

  /** The one state comes out of the other by moves of this worker alone: the run is not claimed again, nobody else
      moves, and the clock stands still. */
  ghost predicate Leads(validate: Validator, sys: System, next: System, id: Id) {
    exists moves: seq<Move> :: (forall move :: move in moves ==> OwnMove(move, id)) && next == AfterMoves(validate, sys, moves)
  }

  lemma LeadsNowhere(validate: Validator, sys: System, id: Id)
    ensures Leads(validate, sys, sys, id)
  {
    assert sys == AfterMoves(validate, sys, []);
  }

  lemma LeadsByOne(validate: Validator, sys: System, move: Move, id: Id)
    requires OwnMove(move, id)
    ensures Leads(validate, sys, Moved(validate, sys, move), id)
  {
    hide Moved;
    assert [move][..0] == [] && AfterMoves(validate, sys, [move][..0]) == sys;
    assert AfterMoves(validate, sys, [move]) == Moved(validate, sys, move);
    assert forall m :: m in [move] ==> OwnMove(m, id);
  }

  lemma {:induction false} MovesInTurn(validate: Validator, sys: System, first: seq<Move>, second: seq<Move>)
    ensures AfterMoves(validate, sys, first + second) == AfterMoves(validate, AfterMoves(validate, sys, first), second)
    decreases |second|
  {
    hide Moved;
    if second == [] {
      assert first + second == first;
    } else {
      var rest := second[..|second| - 1];
      MovesInTurn(validate, sys, first, rest);
      assert (first + second)[..|first + second| - 1] == first + rest;
    }
  }

  lemma LeadsOn(validate: Validator, a: System, b: System, c: System, id: Id)
    requires Leads(validate, a, b, id) && Leads(validate, b, c, id)
    ensures Leads(validate, a, c, id)
  {
    hide AfterMoves, OwnMove;
    var first: seq<Move> :| (forall move :: move in first ==> OwnMove(move, id)) && b == AfterMoves(validate, a, first);
    var second: seq<Move> :| (forall move :: move in second ==> OwnMove(move, id)) && c == AfterMoves(validate, b, second);
    MovesInTurn(validate, a, first, second);
    assert forall move :: move in first + second ==> OwnMove(move, id);
  }

  lemma LeadsByTwo(validate: Validator, sys: System, one: Move, two: Move, id: Id)
    requires OwnMove(one, id) && OwnMove(two, id)
    ensures Leads(validate, sys, Moved(validate, Moved(validate, sys, one), two), id)
  {
    hide Leads, Moved, OwnMove;
    LeadsByOne(validate, sys, one, id);
    LeadsByOne(validate, Moved(validate, sys, one), two, id);
    LeadsOn(validate, sys, Moved(validate, sys, one), Moved(validate, Moved(validate, sys, one), two), id);
  }

  /** The run comes out with everything earlier attempts had committed. */
  lemma LeadsKeeps(validate: Validator, sys: System, next: System, id: Id, r: Id)
    requires Idempotent(validate) && Reached(validate, sys) && Leads(validate, sys, next, id)
    requires r in sys.state.runs && r in next.state.runs
    ensures Keeps(sys.state.runs[r], next.state.runs[r])
  {
    hide AfterMoves, Reached, Idempotent, Consistent, OwnMove, Keeps, RowsKept;
    var moves: seq<Move> :| (forall move :: move in moves ==> OwnMove(move, id)) && next == AfterMoves(validate, sys, moves);
    ReachedIsConsistent(validate, sys);
    CheckpointsOutliveCrashes(validate, sys, moves);
    assert RunKept(sys.state.runs[r], next.state.runs[r]);
  }

  lemma ReachedNext(validate: Validator, sys: System, move: Move)
    requires Reached(validate, sys)
    ensures Reached(validate, Moved(validate, sys, move))
  {
    var now, moves :| sys == AfterMoves(validate, Idle(now), moves);
    assert (moves + [move])[..|moves|] == moves;
    assert Moved(validate, sys, move) == AfterMoves(validate, Idle(now), moves + [move]);
    hide Moved;
  }

  // ---- one step ----

  /** Opening a stage that is not committed leaves its one row running; the run keeps its terms. */
  lemma OpensRow(record: Record, now: int, lease: Lease, name: StageName, digest: Digest, newId: Id)
    requires Holds(record.run, lease, Running, now) && newId !in record.stages && name == digest.step.stage
    requires Committed(record.stages, digest).None? && StageState(record)
    ensures var after := Decide(record, now, BeginStage(lease, name, digest, newId)).record;
            && Holds(after.run, lease, Running, now) && SameTerms(record.run, after.run)
            && after.run.cancelRequestedAt == record.run.cancelRequestedAt
            && HasStage(after.stages, digest, name)
            && (StageState(after) ==> after.stages[StageFor(after.stages, digest, name)].status.StageRunning?)
  {
    var after := Decide(record, now, BeginStage(lease, name, digest, newId)).record;
    if HasStage(record.stages, digest, name) {
      var at := StageFor(record.stages, digest, name);
      if record.stages[at].status.StageCompleted? {
        assert record.stages[at].output.Some?;
        assert IsCommitted(record.stages, digest, record.stages[at].output.value);
        assert false;
      }
      assert at in after.stages && after.stages[at].digest == digest && after.stages[at].name == name;
    } else {
      assert newId in after.stages && after.stages[newId].digest == digest && after.stages[newId].name == name;
    }
  }

  /** Opening a committed stage changes nothing. */
  lemma ReopensNothing(record: Record, now: int, lease: Lease, name: StageName, digest: Digest, newId: Id)
    requires Holds(record.run, lease, Running, now) && newId !in record.stages && name == digest.step.stage
    requires Committed(record.stages, digest).Some? && StageState(record)
    ensures Decide(record, now, BeginStage(lease, name, digest, newId)) == Unchanged(record)
  {
    var output := Committed(record.stages, digest).value;
    var id :| id in record.stages && record.stages[id].digest == digest && record.stages[id].name == digest.step.stage
      && record.stages[id].status.StageCompleted? && record.stages[id].output == Some(output);
    assert HasStage(record.stages, digest, name);
    assert StageFor(record.stages, digest, name) == id;
  }

  lemma Commits(record: Record, now: int, lease: Lease, id: Id, name: StageName, output: Output)
    requires Holds(record.run, lease, Running, now) && id in record.stages && record.stages[id].status.StageRunning?
    ensures Decide(record, now, CompleteStage(lease, id, name, output, [])).record.run == record.run
  {
  }

  lemma RunStages(validate: Validator, sys: System, r: Id)
    requires Consistent(validate, sys) && r in sys.state.runs
    ensures Logged(sys.state) && StageState(sys.state.runs[r]) && Validated(validate, sys.state.runs[r].stages)
  {
    SoundStages(sys.state, r);
    assert RunInStep(validate, sys.state.runs[r], r);
    hide RunSound, StageState, RowSound, InStep, EveryLogGapFree, RowsHaveRuns;
  }

  lemma ActsOn(s: State, r: Id, action: Action)
    requires Logged(s) && r in s.runs
    ensures var t := Next(s, Act(r, action));
            && r in t.runs && t.runs[r] == Decide(s.runs[r], s.now, action).record && t.now == s.now
            && t.runs[r].run.canvas in t.journals
  {
    ActKeepsLog(s, r, action);
    DecideKeepsCanvas(s.runs[r], s.now, action);
    hide Decide, Next, EventsOf, EveryLogGapFree, RowsHaveRuns;
  }

  /** What Begin makes of a worker between two steps. */
  lemma BeginMoves(validate: Validator, sys: System, id: Id, newId: Id)
    requires AtStep(sys, id) && newId !in RowOf(sys, id).stages
    ensures var w := sys.workers[id]; var digest, stages := Working(w), RowOf(sys, id).stages;
            var t := Next(sys.state, Act(w.run, BeginStage(w.lease, digest.step.stage, digest, newId)));
            var next := Moved(validate, sys, Begin(id, newId));
            && (Committed(stages, digest).Some? && validate(digest, Committed(stages, digest).value).Some? ==>
                  next == System(t, sys.workers[id := Advanced(w, validate(digest, Committed(stages, digest).value).value)]))
            && (Committed(stages, digest).None? && w.run in t.runs && HasStage(t.runs[w.run].stages, digest, digest.step.stage) ==>
                  next == System(t, sys.workers[id := w.(active := Some(StageFor(t.runs[w.run].stages, digest, digest.step.stage)))]))
  {
    hide Next, Holds, HasStage, Committed;
  }

  lemma FinishMoves(validate: Validator, mid: System, id: Id, answer: Output)
    requires InStage(mid, id) && validate(Working(mid.workers[id]), answer).Some?
    ensures var w := mid.workers[id]; var output := validate(Working(w), answer).value;
            Moved(validate, mid, Finish(id, answer, []))
            == System(Next(mid.state, Act(w.run, CompleteStage(w.lease, w.active.value, Working(w).step.stage, output, []))),
                      mid.workers[id := Advanced(w, output)])
  {
    hide Next, Holds;
  }

  lemma PersistMoves(validate: Validator, done: System, id: Id, patch: Id)
    requires AtEnd(done, id) && EndsInPatch(done.workers[id], RowOf(done, id).run.base)
    ensures var w := done.workers[id];
            Moved(validate, done, Persist(id, patch))
            == System(Next(done.state, Act(w.run, PersistPatch(w.lease, patch, w.prior[KeyOf(w.plan[|w.plan| - 1])].output.operations.value))),
                      done.workers - {id})
  {
    hide Next, Holds;
  }

  /** The step is committed already: the worker reuses its output. */
  lemma Reuses(validate: Validator, sys: System, id: Id, newId: Id) returns (next: System)
    requires Consistent(validate, sys) && AtStep(sys, id)
    requires newId !in RowOf(sys, id).stages && Committed(RowOf(sys, id).stages, Working(sys.workers[id])).Some?
    ensures next == Moved(validate, sys, Begin(id, newId))
    ensures Onward(sys, next, id) && Ready(next, id, sys.workers[id].done + 1)
  {
    var w, s := sys.workers[id], sys.state;
    var record, digest := RowOf(sys, id), Working(w);
    next := Moved(validate, sys, Begin(id, newId));
    hide Moved, Next, Decide, StageState, Holds, Validated, Consistent;
    RunStages(validate, sys, w.run);
    CommittedIsValid(validate, record.stages, digest, Committed(record.stages, digest).value);
    ReopensNothing(record, s.now, w.lease, digest.step.stage, digest, newId);
    ActsOn(s, w.run, BeginStage(w.lease, digest.step.stage, digest, newId));
    BeginMoves(validate, sys, id, newId);
    hide Committed, IsCommitted;
  }

  /** The row of the step is open under the same lease, and the run keeps its terms. */
  ghost predicate RowOpen(s: State, t: State, w: Worker) {
    && w.done < |w.plan| && w.run in s.runs && HoldsRun(t, w.run, w.lease) && t.now == s.now
    && t.runs[w.run].run.cancelRequestedAt.None? && SameTerms(s.runs[w.run].run, t.runs[w.run].run)
    && HasStage(t.runs[w.run].stages, Working(w), Working(w).step.stage)
    && t.runs[w.run].stages[StageFor(t.runs[w.run].stages, Working(w), Working(w).step.stage)].status.StageRunning?
  }

  lemma RowOpens(validate: Validator, sys: System, id: Id, newId: Id)
    requires Consistent(validate, sys) && AtStep(sys, id)
    requires newId !in RowOf(sys, id).stages && Committed(RowOf(sys, id).stages, Working(sys.workers[id])).None?
    ensures var w := sys.workers[id];
            RowOpen(sys.state, Next(sys.state, Act(w.run, BeginStage(w.lease, Working(w).step.stage, Working(w), newId))), w)
  {
    var w, s := sys.workers[id], sys.state;
    var record, digest := RowOf(sys, id), Working(w);
    var action := BeginStage(w.lease, digest.step.stage, digest, newId);
    hide Next, Decide, StageState, Holds, Validated, Consistent, Committed, HasStage, StageFor, Logged;
    RunStages(validate, sys, w.run);
    KeepsStages(record, s.now, action);
    OpensRow(record, s.now, w.lease, digest.step.stage, digest, newId);
    ActsOn(s, w.run, action);
  }

  lemma KeepsStages(record: Record, now: int, action: Action)
    requires StageState(record)
    ensures StageState(Decide(record, now, action).record)
  {
    ActionKeepsStages(record, now, action);
  }

  /** The step is not committed: the worker opens its row. */
  lemma Opens(validate: Validator, sys: System, id: Id, newId: Id) returns (mid: System)
    requires Consistent(validate, sys) && AtStep(sys, id)
    requires newId !in RowOf(sys, id).stages && Committed(RowOf(sys, id).stages, Working(sys.workers[id])).None?
    ensures mid == Moved(validate, sys, Begin(id, newId)) && Opened(sys, mid, id)
  {
    mid := Moved(validate, sys, Begin(id, newId));
    hide Moved, Next, Holds, Consistent, Committed, HasStage, StageFor;
    RowOpens(validate, sys, id, newId);
    BeginMoves(validate, sys, id, newId);
  }

  /** A validated answer is committed. */
  lemma Executes(validate: Validator, mid: System, id: Id, answer: Output) returns (next: System)
    requires Consistent(validate, mid) && InStage(mid, id) && validate(Working(mid.workers[id]), answer).Some?
    ensures next == Moved(validate, mid, Finish(id, answer, []))
    ensures Onward(mid, next, id) && Ready(next, id, mid.workers[id].done + 1)
  {
    var w, s := mid.workers[id], mid.state;
    next := Moved(validate, mid, Finish(id, answer, []));
    var output := validate(Working(w), answer).value;
    hide Moved, Next, Decide, StageState, Holds, Validated, Consistent;
    RunStages(validate, mid, w.run);
    Commits(s.runs[w.run], s.now, w.lease, w.active.value, Working(w).step.stage, output);
    ActsOn(s, w.run, CompleteStage(w.lease, w.active.value, Working(w).step.stage, output, []));
    FinishMoves(validate, mid, id, answer);
  }

  lemma OnwardTwice(a: System, b: System, c: System, id: Id)
    requires id in a.workers && a.workers[id].run in a.state.runs && Onward(a, b, id) && Onward(b, c, id)
    ensures Onward(a, c, id)
  {
  }

  lemma OpenedStep(sys: System, mid: System, id: Id)
    requires Opened(sys, mid, id)
    ensures InStage(mid, id) && id in sys.workers && id in mid.workers && sys.workers[id].run in sys.state.runs
    ensures Onward(sys, mid, id) && sys.workers[id].done < |sys.workers[id].plan| && mid.workers[id].done < |mid.workers[id].plan|
    ensures mid.workers[id].done == sys.workers[id].done && Working(mid.workers[id]) == Working(sys.workers[id])
  {
  }

  lemma AnswerFor(validate: Validator, sys: System, id: Id) returns (answer: Output)
    requires id in sys.workers && sys.workers[id].done < |sys.workers[id].plan| && Answerable(validate, sys.workers[id].run)
    ensures validate(Working(sys.workers[id]), answer).Some?
  {
    var digest := Working(sys.workers[id]);
    assert exists o :: validate(digest, o).Some?;
    answer :| validate(digest, answer).Some?;
  }

  lemma OwnMoves(id: Id, newId: Id, answer: Output)
    ensures OwnMove(Begin(id, newId), id) && OwnMove(Finish(id, answer, []), id)
  {
  }

  lemma Standing(sys: System, id: Id)
    requires AtStep(sys, id)
    ensures id in sys.workers && sys.workers[id].run in sys.state.runs && sys.workers[id].done < |sys.workers[id].plan|
  {
    hide Holds;
  }

  /** The step is not committed: open it, execute it, commit a validated answer. */
  lemma ExecuteStep(validate: Validator, sys: System, id: Id, newId: Id) returns (next: System)
    requires Idempotent(validate) && Reached(validate, sys) && AtStep(sys, id) && Answerable(validate, sys.workers[id].run)
    requires newId !in RowOf(sys, id).stages && Committed(RowOf(sys, id).stages, Working(sys.workers[id])).None?
    ensures Reached(validate, next) && Leads(validate, sys, next, id)
    ensures Onward(sys, next, id) && Ready(next, id, sys.workers[id].done + 1)
  {
    hide *;
    Standing(sys, id);
    var answer := AnswerFor(validate, sys, id);
    OwnMoves(id, newId, answer);
    ReachedIsConsistent(validate, sys);
    ReachedNext(validate, sys, Begin(id, newId));
    ReachedIsConsistent(validate, Moved(validate, sys, Begin(id, newId)));
    var mid := Opens(validate, sys, id, newId);
    OpenedStep(sys, mid, id);
    ReachedNext(validate, mid, Finish(id, answer, []));
    next := Executes(validate, mid, id, answer);
    LeadsByTwo(validate, sys, Begin(id, newId), Finish(id, answer, []), id);
    OnwardTwice(sys, mid, next, id);
  }

  /** The worker gets one step on by its own moves, by reusing a committed output or by executing and committing. */
  lemma StepsOn(validate: Validator, sys: System, id: Id) returns (next: System)
    requires Idempotent(validate) && Reached(validate, sys) && AtStep(sys, id) && Answerable(validate, sys.workers[id].run)
    ensures Reached(validate, next) && Leads(validate, sys, next, id)
    ensures Onward(sys, next, id) && Ready(next, id, sys.workers[id].done + 1)
  {
    var newId := UnusedId(RowOf(sys, id).stages.Keys);
    assert newId !in RowOf(sys, id).stages.Keys && OwnMove(Begin(id, newId), id);
    hide *;
    Standing(sys, id);
    if Committed(RowOf(sys, id).stages, Working(sys.workers[id])).Some? {
      ReachedIsConsistent(validate, sys);
      ReachedNext(validate, sys, Begin(id, newId));
      next := Reuses(validate, sys, id, newId);
      LeadsByOne(validate, sys, Begin(id, newId), id);
    } else {
      next := ExecuteStep(validate, sys, id, newId);
    }
  }

  lemma {:induction false} StepsToEnd(validate: Validator, sys: System, id: Id, n: nat) returns (next: System)
    requires Idempotent(validate) && Reached(validate, sys) && Ready(sys, id, n)
    requires Answerable(validate, sys.workers[id].run)
    ensures Reached(validate, next) && Leads(validate, sys, next, id) && Onward(sys, next, id) && AtEnd(next, id)
    decreases |sys.workers[id].plan| - n
  {
    if n == |sys.workers[id].plan| {
      next := sys;
      LeadsNowhere(validate, sys, id);
    } else {
      hide Reached, Leads, Idempotent, Answerable, Holds;
      var one := StepsOn(validate, sys, id);
      next := StepsToEnd(validate, one, id, n + 1);
      LeadsOn(validate, sys, one, next, id);
    }
  }

  // ---- the patch ----

  lemma LastIsPatch(validate: Validator, sys: System, id: Id)
    requires Consistent(validate, sys) && AtEnd(sys, id)
    requires ChecksPatch(validate, sys.workers[id].run, RowOf(sys, id).run.base)
    ensures EndsInPatch(sys.workers[id], RowOf(sys, id).run.base)
  {
    var w := sys.workers[id];
    var record := sys.state.runs[w.run];
    hide Holds, ChecksPatch, Chain, RunInStep, StageState, Validated, Committed, RunSound;
    assert InStep(sys.state, w);
    EveryPlanIsKeyed(record.run.operation);
    RunStages(validate, sys, w.run);
    hide Consistent, Ready, InStep;
    ChainEndsInPatch(validate, record.stages, w, record.run.base);
  }

  lemma ChainEndsInPatch(validate: Validator, stages: map<Id, Stage>, w: Worker, base: int)
    requires Keyed(w.plan) && Chain(stages, w.run, w.plan, |w.plan|) == Some(w.prior)
    requires Validated(validate, stages) && ChecksPatch(validate, w.run, base)
    ensures EndsInPatch(w, base)
  {
    hide Validated, Committed;
    var last := |w.plan| - 1;
    var digest := Digest(w.run, w.plan[last], Chain(stages, w.run, w.plan, last).value);
    var output := Committed(stages, digest).value;
    CommittedIsValid(validate, stages, digest, output);
    assert digest.step.stage.ConstructingPatch? && validate(digest, output).Some?;
  }

  lemma Stores(record: Record, now: int, lease: Lease, id: Id, operations: seq<string>)
    requires Holds(record.run, lease, Running, now) && record.run.cancelRequestedAt.None?
    ensures var after := Decide(record, now, PersistPatch(lease, id, operations)).record;
            after.run.status.PatchReady? && after.patch.Some? && SameTerms(record.run, after.run)
  {
  }

  /** A worker started under a live lease on a run that nobody has asked to cancel can bring it to PATCH_READY: from
      this very state, with whatever checkpoints and broken stages earlier workers left in it, its own moves lead there.
      No crash leaves a run behind that a further attempt could not finish. */
  lemma StartedWorkerCanFinish(validate: Validator, sys: System, id: Id, patch: Id) returns (next: System)
    requires Idempotent(validate) && Reached(validate, sys) && Ready(sys, id, 0)
    requires Answerable(validate, sys.workers[id].run)
    requires ChecksPatch(validate, sys.workers[id].run, sys.state.runs[sys.workers[id].run].run.base)
    ensures Reached(validate, next) && Leads(validate, sys, next, id) && next.state.now == sys.state.now
    ensures var r := sys.workers[id].run;
            && r in next.state.runs && next.state.runs[r].run.status.PatchReady? && next.state.runs[r].patch.Some?
            && SameTerms(sys.state.runs[r].run, next.state.runs[r].run) && Keeps(sys.state.runs[r], next.state.runs[r])
  {
    assert OwnMove(Persist(id, patch), id);
    hide *;
    StartsAtZero(sys, id);
    var done := StepsToEnd(validate, sys, id, 0);
    ReachedIsConsistent(validate, done);
    Continues(sys, done, id);
    LastIsPatch(validate, done, id);
    ReachedNext(validate, done, Persist(id, patch));
    next := Persists(validate, done, id, patch);
    LeadsByOne(validate, done, Persist(id, patch), id);
    LeadsOn(validate, sys, done, next, id);
    LeadsKeeps(validate, sys, next, id, sys.workers[id].run);
    TermsChain(sys.state.runs[sys.workers[id].run].run, RowOf(done, id).run, next.state.runs[sys.workers[id].run].run);
  }

  lemma StartsAtZero(sys: System, id: Id)
    requires Ready(sys, id, 0)
    ensures id in sys.workers && sys.workers[id].run in sys.state.runs
  {
    hide Holds;
  }

  lemma Continues(sys: System, next: System, id: Id)
    requires id in sys.workers && sys.workers[id].run in sys.state.runs && Onward(sys, next, id)
    ensures id in next.workers && next.workers[id].run == sys.workers[id].run && next.workers[id].run in next.state.runs
    ensures next.state.now == sys.state.now && SameTerms(RowOf(sys, id).run, RowOf(next, id).run)
    ensures RowOf(next, id).run.base == RowOf(sys, id).run.base
    ensures RowOf(sys, id) == sys.state.runs[sys.workers[id].run]
  {
  }

  lemma TermsChain(a: Run, b: Run, c: Run)
    requires SameTerms(a, b) && SameTerms(b, c)
    ensures SameTerms(a, c)
  {
  }

  lemma StoresOn(s: State, r: Id, lease: Lease, patch: Id, operations: seq<string>)
    requires Logged(s) && HoldsRun(s, r, lease) && s.runs[r].run.cancelRequestedAt.None?
    ensures var t := Next(s, Act(r, PersistPatch(lease, patch, operations)));
            && t.now == s.now && r in t.runs && t.runs[r].run.status.PatchReady? && t.runs[r].patch.Some?
            && SameTerms(s.runs[r].run, t.runs[r].run)
  {
    hide Next, Decide, Holds, Logged;
    Stores(s.runs[r], s.now, lease, patch, operations);
    ActsOn(s, r, PersistPatch(lease, patch, operations));
  }

  lemma EndFacts(done: System, id: Id)
    requires AtEnd(done, id)
    ensures id in done.workers && HoldsRun(done.state, done.workers[id].run, done.workers[id].lease)
    ensures done.workers[id].run in done.state.runs && RowOf(done, id) == done.state.runs[done.workers[id].run]
    ensures RowOf(done, id).run.cancelRequestedAt.None?
  {
    hide Holds;
  }

  lemma LastOutput(w: Worker, base: int)
    requires EndsInPatch(w, base)
    ensures w.plan != [] && KeyOf(w.plan[|w.plan| - 1]) in w.prior
    ensures w.prior[KeyOf(w.plan[|w.plan| - 1])].output.operations.Some?
  {
  }

  lemma Persists(validate: Validator, done: System, id: Id, patch: Id) returns (next: System)
    requires Consistent(validate, done) && AtEnd(done, id) && EndsInPatch(done.workers[id], RowOf(done, id).run.base)
    ensures next == Moved(validate, done, Persist(id, patch)) && next.state.now == done.state.now
    ensures var r := done.workers[id].run;
            && r in next.state.runs && next.state.runs[r].run.status.PatchReady? && next.state.runs[r].patch.Some?
            && SameTerms(RowOf(done, id).run, next.state.runs[r].run)
  {
    hide *;
    next := Moved(validate, done, Persist(id, patch));
    EndFacts(done, id);
    var w := done.workers[id];
    LastOutput(w, RowOf(done, id).run.base);
    RunStages(validate, done, w.run);
    StoresOn(done.state, w.run, w.lease, patch, w.prior[KeyOf(w.plan[|w.plan| - 1])].output.operations.value);
    PersistMoves(validate, done, id, patch);
  }

  // ---- from the queue on ----

  lemma ClaimHolds(record: Record, now: int, worker: Id, token: Id)
    requires Claimable(record.run, now)
    ensures var after := Decide(record, now, ClaimRun(worker, token)).record.run;
            && Holds(after, Lease(worker, token, record.run.epoch + 1), Running, now)
            && after.cancelRequestedAt == record.run.cancelRequestedAt && after.attempt == record.run.attempt + 1
            && after.maxAttempts == record.run.maxAttempts && after.expiresAt == Some(now + LEASE_SECONDS)
            && after.base == record.run.base && after.operation == record.run.operation
  {
  }

  /** A worker that has claimed the run and starts on it. */
  lemma StartIsReady(validate: Validator, sys: System, id: Id, r: Id, lease: Lease) returns (next: System)
    requires id !in sys.workers && HoldsRun(sys.state, r, lease) && PlanFor(sys.state.runs[r].run.operation).Some?
    requires sys.state.runs[r].run.cancelRequestedAt.None?
    ensures next == Moved(validate, sys, Start(id, r, lease)) && next.state == sys.state
    ensures Ready(next, id, 0) && id in next.workers && next.workers[id].run == r
  {
    next := Moved(validate, sys, Start(id, r, lease));
    hide Holds, PlanFor;
  }

  /** The run is freshly claimed under the lease: one attempt more, and as it was otherwise. */
  ghost predicate ClaimedAnew(s: State, t: State, r: Id, lease: Lease) {
    && r in s.runs && t.now == s.now && HoldsRun(t, r, lease) && Keeps(s.runs[r], t.runs[r])
    && var before, after := s.runs[r].run, t.runs[r].run;
    && after.cancelRequestedAt == before.cancelRequestedAt && after.attempt == before.attempt + 1
    && after.maxAttempts == before.maxAttempts && after.expiresAt == Some(s.now + LEASE_SECONDS)
    && after.base == before.base && after.operation == before.operation
  }

  lemma ClaimOn(s: State, r: Id, worker: Id, token: Id)
    requires Logged(s) && r in s.runs && Claimable(s.runs[r].run, s.now)
    ensures ClaimedAnew(s, Next(s, Act(r, ClaimRun(worker, token))), r, Lease(worker, token, s.runs[r].run.epoch + 1))
  {
    hide Next, Decide, Holds, Claimable, Logged;
    ClaimHolds(s.runs[r], s.now, worker, token);
    ActionKeepsCheckpoints(s.runs[r], s.now, ClaimRun(worker, token));
    hide Keeps;
    ActsOn(s, r, ClaimRun(worker, token));
  }

  lemma EnvMoves(validate: Validator, sys: System, step: Step)
    requires !OnlyWorkers(step)
    ensures Moved(validate, sys, Env(step)) == sys.(state := Next(sys.state, step))
  {
  }

  lemma Claims(validate: Validator, sys: System, r: Id, worker: Id, token: Id) returns (claimed: System, lease: Lease)
    requires Idempotent(validate) && Reached(validate, sys) && r in sys.state.runs
    requires Claimable(sys.state.runs[r].run, sys.state.now)
    ensures claimed == Moved(validate, sys, Env(Act(r, ClaimRun(worker, token))))
    ensures lease == Lease(worker, token, sys.state.runs[r].run.epoch + 1)
    ensures Reached(validate, claimed) && claimed.workers == sys.workers && ClaimedAnew(sys.state, claimed.state, r, lease)
  {
    var step := Act(r, ClaimRun(worker, token));
    assert !OnlyWorkers(step);
    hide *;
    lease := Lease(worker, token, sys.state.runs[r].run.epoch + 1);
    ReachedIsConsistent(validate, sys);
    RunStages(validate, sys, r);
    ClaimOn(sys.state, r, worker, token);
    EnvMoves(validate, sys, step);
    ReachedNext(validate, sys, Env(step));
    claimed := Moved(validate, sys, Env(step));
  }

  /** The worker has claimed the run and starts on its plan. */
  ghost function StartedAnew(validate: Validator, sys: System, r: Id, id: Id, worker: Id, token: Id): System
    requires r in sys.state.runs
  {
    Moved(validate, Moved(validate, sys, Env(Act(r, ClaimRun(worker, token)))),
          Start(id, r, Lease(worker, token, sys.state.runs[r].run.epoch + 1)))
  }

  /** A run that may be claimed and that nobody has asked to cancel can still get its patch in one more attempt,
      whatever happened to it so far: once a worker has claimed it and started, its own moves lead there. */
  lemma ClaimableRunCanFinish(validate: Validator, sys: System, r: Id, id: Id, worker: Id, token: Id, patch: Id)
    returns (next: System)
    requires Idempotent(validate) && Reached(validate, sys) && id !in sys.workers && r in sys.state.runs
    requires Claimable(sys.state.runs[r].run, sys.state.now) && sys.state.runs[r].run.cancelRequestedAt.None?
    requires PlanFor(sys.state.runs[r].run.operation).Some?
    requires Answerable(validate, r) && ChecksPatch(validate, r, sys.state.runs[r].run.base)
    ensures Reached(validate, next) && Leads(validate, StartedAnew(validate, sys, r, id, worker, token), next, id)
    ensures next.state.now == sys.state.now && r in next.state.runs
    ensures var before, after := sys.state.runs[r].run, next.state.runs[r].run;
            && after.status.PatchReady? && next.state.runs[r].patch.Some? && after.attempt == before.attempt + 1
            && after.maxAttempts == before.maxAttempts && after.expiresAt == Some(sys.state.now + LEASE_SECONDS)
            && Keeps(sys.state.runs[r], next.state.runs[r])
  {
    hide Reached, Leads, Idempotent, Moved, Holds, PlanFor, Answerable, ChecksPatch, Ready, Claimable;
    var claimed, lease := Claims(validate, sys, r, worker, token);
    ReachedNext(validate, claimed, Start(id, r, lease));
    var started := StartIsReady(validate, claimed, id, r, lease);
    next := StartedWorkerCanFinish(validate, started, id, patch);
    KeepsTransitive(sys.state.runs[r], started.state.runs[r], next.state.runs[r]);
  }
}
