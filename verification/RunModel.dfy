/** The durable-run protocol: one atomic transaction is one action on one run
    (proofgraph/generation/queue.py, execution.py, services.py, events.py, proofgraph/demo/cleanup.py). */
module RunModel {
  import opened Reachability
  import opened GraphTypes
  import opened StagePlan

  const LEASE_SECONDS := 60
  const DEFAULT_MAX_ATTEMPTS := 3

  datatype RunStatus = Queued | Running | PatchReady | Completed | Failed | Cancelled

  /** A stage's JSON output; base and operations are what patch construction is asked for. */
  datatype Output = Output(text: string, base: Option<int>, operations: Option<seq<string>>)

  datatype Prior = Prior(phase: Option<Phase>, targets: seq<Id>, output: Output)

  /** The material of a stage's input hash. The hash is assumed injective, so it is its material;
      the context and configuration of a run are frozen, so the run's identity stands for them. */
  datatype Digest = Digest(run: Id, step: PlanStep, prior: map<OutputKey, Prior>)

  datatype ErrorCode = AttemptsExhausted | RunWasCancelled | StageProblem(text: string)

  datatype RunError = RunError(code: ErrorCode, retryable: bool, stage: Option<StageName>)

  datatype StageStatus = StageRunning | StageCompleted | StageFailed

  datatype Stage = Stage(name: StageName, digest: Digest, status: StageStatus, attempt: nat,
                         output: Option<Output>, error: Option<RunError>)

  datatype Patch = Patch(id: Id, base: int, operations: seq<string>)

  datatype Run = Run(
    canvas: Id, session: Option<Id>, key: Id, fingerprint: Id, operation: Operation, base: int,
    createdAt: int, status: RunStatus, currentStage: Option<StageName>,
    worker: Option<Id>, token: Option<Id>, epoch: nat, attempt: nat, maxAttempts: nat,
    heartbeatAt: Option<int>, expiresAt: Option<int>, cancelRequestedAt: Option<int>,
    error: Option<RunError>, startedAt: Option<int>, completedAt: Option<int>)

  /** A run with the rows that hang from it: its stages by identity and its patch. */
  datatype Record = Record(run: Run, stages: map<Id, Stage>, patch: Option<Patch>)

  datatype Lease = Lease(worker: Id, token: Id, epoch: nat)

  datatype Progress =
    | QueryCreated(query: string)
    | SourceFound(source: Id, url: string)
    | EvidenceExtracted(claim: Id, text: string)
    | CandidateGenerated(text: string)
    | CandidateCritiqued(text: string)

  datatype News =
    | RunStarted(attempt: nat, epoch: nat, worker: Id)
    | RunResumed(attempt: nat, epoch: nat, worker: Id)
    | RetryRequested(nextAttempt: nat)
    | StageStarted(stage: StageName, stageAttempt: nat)
    | StageDone(stage: StageName)
    | StageNews(progress: Progress)
    | PatchIsReady(patch: Id, count: nat)
    | RunCompleted(patchId: Option<Id>, attempt: nat)
    | RunFailed(error: RunError, attempt: nat)
    | RunCancelled(attempt: nat)

  predicate Terminal(news: News) {
    news.RunCompleted? || news.RunFailed? || news.RunCancelled?
  }

  predicate TerminalStatus(status: RunStatus) {
    status.Completed? || status.Failed? || status.Cancelled?
  }

  predicate Leased(status: RunStatus) {
    status.Running? || status.PatchReady?
  }

  // ---- leases ----

  predicate Expired(run: Run, now: int) {
    run.expiresAt.Some? && run.expiresAt.value < now
  }

  /** `lock_fenced_run` finds the row. */
  predicate Holds(run: Run, lease: Lease, status: RunStatus, now: int) {
    && run.status == status
    && run.worker == Some(lease.worker) && run.token == Some(lease.token) && run.epoch == lease.epoch
    && run.expiresAt.Some? && now < run.expiresAt.value
  }

  predicate Claimable(run: Run, now: int) {
    run.attempt < run.maxAttempts && (run.status.Queued? || (run.status.Running? && Expired(run, now)))
  }

  predicate Exhausted(run: Run, now: int) {
    run.attempt >= run.maxAttempts && (run.status.Queued? || (Leased(run.status) && Expired(run, now)))
  }

  predicate Recoverable(record: Record, now: int) {
    record.run.status.PatchReady? && Expired(record.run, now) && record.patch.Some?
  }

  function Released(run: Run): Run {
    run.(worker := None, token := None, heartbeatAt := None, expiresAt := None)
  }

  function Closed(run: Run, status: RunStatus, now: int): Run {
    Released(run).(status := status, completedAt := Some(now))
  }

  function Granted(run: Run, worker: Id, token: Id, now: int): Run {
    run.(worker := Some(worker), token := Some(token), epoch := run.epoch + 1,
         heartbeatAt := Some(now), expiresAt := Some(now + LEASE_SECONDS))
  }

  // ---- actions ----

  datatype Action =
    | ClaimRun(worker: Id, token: Id)
    | TakeOver(worker: Id, token: Id)
    | Terminalize
    | Renew(lease: Lease)
    | ObserveCancel(lease: Lease, stage: Option<Id>)
    | BeginStage(lease: Lease, name: StageName, digest: Digest, id: Id)
    | CompleteStage(lease: Lease, id: Id, name: StageName, output: Output, progress: seq<Progress>)
    | Report(lease: Lease, item: Progress)
    | Fail(lease: Lease, error: RunError, stage: Option<Id>)
    | PersistPatch(lease: Lease, id: Id, operations: seq<string>)
    | Complete(lease: Lease)
    | RequestCancel
    | Retry
    | CleanupVisit
    | ResetVisit

  /** The rows after a transaction and the events it appends, in order. */
  datatype Outcome = Outcome(record: Record, news: seq<News>)

  function Unchanged(record: Record): Outcome {
    Outcome(record, [])
  }

  ghost predicate HasStage(stages: map<Id, Stage>, digest: Digest, name: StageName) {
    exists id :: id in stages && stages[id].digest == digest && stages[id].name == name
  }

  /** The row with this name and input hash; the table's unique constraint leaves no choice. */
  ghost function StageFor(stages: map<Id, Stage>, digest: Digest, name: StageName): (id: Id)
    requires HasStage(stages, digest, name)
    ensures id in stages && stages[id].digest == digest && stages[id].name == name
  {
    var id :| id in stages && stages[id].digest == digest && stages[id].name == name;
    id
  }

  /** An active stage is marked failed; any other row, or none, is left alone. */
  function StageFailedBy(stages: map<Id, Stage>, id: Option<Id>, error: RunError): map<Id, Stage> {
    if id.Some? && id.value in stages && stages[id.value].status.StageRunning?
    then stages[id.value := stages[id.value].(status := StageFailed, error := Some(error))]
    else stages
  }

  function CancelledBy(record: Record, stage: Option<Id>, now: int): Outcome {
    var name := if stage.Some? && stage.value in record.stages then Some(record.stages[stage.value].name) else None;
    Outcome(record.(run := Closed(record.run, Cancelled, now),
                    stages := StageFailedBy(record.stages, stage, RunError(RunWasCancelled, false, name))),
            [RunCancelled(record.run.attempt)])
  }

  function Claimed(record: Record, worker: Id, token: Id, now: int): Outcome {
    var run := record.run;
    var resume := run.status.Running? || run.attempt > 0;
    var claimed := Granted(run, worker, token, now)
      .(status := Running, attempt := run.attempt + 1,
        startedAt := if run.startedAt.None? then Some(now) else run.startedAt);
    Outcome(record.(run := claimed),
            [if resume then RunResumed(claimed.attempt, claimed.epoch, worker)
             else RunStarted(claimed.attempt, claimed.epoch, worker)])
  }

  function Poisoned(record: Record, now: int): Outcome {
    var error := RunError(AttemptsExhausted, false, None);
    Outcome(record.(run := Closed(record.run, Failed, now).(error := Some(error))),
            [RunFailed(error, record.run.attempt)])
  }

  ghost function Begun(record: Record, name: StageName, digest: Digest, id: Id): Outcome {
    if !HasStage(record.stages, digest, name) then
      if id in record.stages then Unchanged(record)
      else Outcome(record.(run := record.run.(currentStage := Some(name)),
                           stages := record.stages[id := Stage(name, digest, StageRunning, 1, None, None)]),
                   [StageStarted(name, 1)])
    else
      var at := StageFor(record.stages, digest, name);
      var stage := record.stages[at];
      if stage.status.StageCompleted? then Unchanged(record)
      else
        var again := Stage(name, digest, StageRunning, stage.attempt + 1, None, None);
        Outcome(record.(run := record.run.(currentStage := Some(name)), stages := record.stages[at := again]),
                [StageStarted(name, again.attempt)])
  }

  function Told(progress: seq<Progress>): (news: seq<News>)
    ensures |news| == |progress| && forall i :: 0 <= i < |news| ==> news[i].StageNews?
  {
    seq(|progress|, i requires 0 <= i < |progress| => StageNews(progress[i]))
  }

  function StageFinished(record: Record, id: Id, name: StageName, output: Output, progress: seq<Progress>): Outcome {
    if id in record.stages && record.stages[id].status.StageRunning? then
      Outcome(record.(stages := record.stages[id := record.stages[id]
                        .(status := StageCompleted, output := Some(output), error := None)]),
              Told(progress) + [StageDone(name)])
    else Unchanged(record)
  }

  /** A retryable error on the last attempt is stored as exhausted instead. */
  function Persisted(run: Run, error: RunError): RunError {
    if error.retryable && run.attempt >= run.maxAttempts
    then RunError(AttemptsExhausted, false, error.stage) else error
  }

  function FailedWith(record: Record, error: RunError, stage: Option<Id>, now: int): Outcome {
    var persisted := Persisted(record.run, error);
    Outcome(record.(run := Closed(record.run, Failed, now).(error := Some(persisted)),
                    stages := StageFailedBy(record.stages, stage, error)),
            [RunFailed(persisted, record.run.attempt)])
  }

  function PatchPersisted(record: Record, id: Id, operations: seq<string>, now: int): Outcome {
    if record.run.cancelRequestedAt.Some? then CancelledBy(record, None, now)
    else
      var patch := if record.patch.Some? then record.patch.value else Patch(id, record.run.base, operations);
      Outcome(record.(run := record.run.(status := PatchReady), patch := Some(patch)),
              [PatchIsReady(patch.id, |operations|)])
  }

  function RunFinished(record: Record, now: int): Outcome {
    Outcome(record.(run := Closed(record.run, Completed, now)),
            [RunCompleted(if record.patch.Some? then Some(record.patch.value.id) else None, record.run.attempt)])
  }

  function CancelAsked(record: Record, now: int): Outcome {
    var run := record.run;
    if run.status.Queued? then
      Outcome(record.(run := run.(status := Cancelled, cancelRequestedAt := Some(now), completedAt := Some(now))),
              [RunCancelled(run.attempt)])
    else if run.status.Running? && run.cancelRequestedAt.None? then
      Outcome(record.(run := run.(cancelRequestedAt := Some(now))), [])
    else Unchanged(record)
  }

  predicate Retryable(run: Run) {
    && run.status.Failed? && run.error.Some? && run.error.value.retryable
    && run.worker.None? && run.token.None? && run.expiresAt.None?
    && run.attempt < run.maxAttempts
  }

  function Requeued(record: Record): Outcome {
    Outcome(record.(run := record.run.(status := Queued, currentStage := None, cancelRequestedAt := None,
                                       error := None, completedAt := None)),
            [RetryRequested(record.run.attempt + 1)])
  }

  function FencedOff(record: Record, cancelled: bool, now: int): Outcome {
    var run := record.run;
    Outcome(record.(run := Closed(run, if cancelled then Cancelled else Completed, now)
                             .(cancelRequestedAt := if cancelled then Some(now) else run.cancelRequestedAt,
                               epoch := run.epoch + 1)),
            [if cancelled then RunCancelled(run.attempt) else RunCompleted(None, run.attempt)])
  }

  predicate Active(run: Run) {
    run.status.Queued? || Leased(run.status)
  }

  /** Cleanup leaves a run alone only while some worker's lease on it is unexpired. */
  predicate LiveOwner(run: Run, now: int) {
    Leased(run.status) && run.expiresAt.Some? && now < run.expiresAt.value
  }

  function CleanedUp(record: Record, now: int): Outcome {
    var run := record.run;
    if !Active(run) then Unchanged(record)
    else if run.status.Queued? then FencedOff(record, true, now)
    else if !LiveOwner(run, now) then FencedOff(record, run.status.Running?, now)
    else if run.cancelRequestedAt.None? then Outcome(record.(run := run.(cancelRequestedAt := Some(now))), [])
    else Unchanged(record)
  }

  /** One transaction on one run; a lease that is not held, or a state the code refuses, changes nothing. */
  ghost function Decide(record: Record, now: int, action: Action): Outcome {
    match action
    case ClaimRun(worker, token) =>
      if Claimable(record.run, now) then Claimed(record, worker, token, now) else Unchanged(record)
    case TakeOver(worker, token) =>
      if Recoverable(record, now) then Outcome(record.(run := Granted(record.run, worker, token, now)), [])
      else Unchanged(record)
    case Terminalize =>
      if Exhausted(record.run, now) then Poisoned(record, now) else Unchanged(record)
    case Renew(lease) =>
      if Holds(record.run, lease, Running, now)
      then Outcome(record.(run := record.run.(heartbeatAt := Some(now), expiresAt := Some(now + LEASE_SECONDS))), [])
      else Unchanged(record)
    case ObserveCancel(lease, stage) =>
      if Holds(record.run, lease, Running, now) && record.run.cancelRequestedAt.Some?
      then CancelledBy(record, stage, now) else Unchanged(record)
    case BeginStage(lease, name, digest, id) =>
      if Holds(record.run, lease, Running, now) then Begun(record, name, digest, id) else Unchanged(record)
    case CompleteStage(lease, id, name, output, progress) =>
      if Holds(record.run, lease, Running, now) then StageFinished(record, id, name, output, progress)
      else Unchanged(record)
    case Report(lease, item) =>
      if Holds(record.run, lease, Running, now) then Outcome(record, [StageNews(item)]) else Unchanged(record)
    case Fail(lease, error, stage) =>
      if Holds(record.run, lease, Running, now) then FailedWith(record, error, stage, now) else Unchanged(record)
    case PersistPatch(lease, id, operations) =>
      if Holds(record.run, lease, Running, now) then PatchPersisted(record, id, operations, now)
      else Unchanged(record)
    case Complete(lease) =>
      if Holds(record.run, lease, PatchReady, now) then RunFinished(record, now) else Unchanged(record)
    case RequestCancel => CancelAsked(record, now)
    case Retry => if Retryable(record.run) then Requeued(record) else Unchanged(record)
    case CleanupVisit => CleanedUp(record, now)
    case ResetVisit => if Active(record.run) then FencedOff(record, true, now) else Unchanged(record)
  }

  // ---- the event log of a canvas ----

  datatype Row = Row(run: Id, canvasSequence: nat, runSequence: nat, news: News)

  datatype Journal = Journal(last: nat, rows: seq<Row>)

  ghost predicate AlreadyEnded(rows: seq<Row>, run: Id, attempt: nat) {
    exists i :: 0 <= i < |rows| && rows[i].run == run && Terminal(rows[i].news) && rows[i].news.attempt == attempt
  }

  /** `Max("run_sequence")` over the rows of a run, or 0. */
  function MaxRunSequence(rows: seq<Row>, run: Id): nat {
    if rows == [] then 0
    else
      var before := MaxRunSequence(rows[..|rows| - 1], run);
      var last := rows[|rows| - 1];
      if last.run == run && last.runSequence > before then last.runSequence else before
  }

  ghost function Append(journal: Journal, run: Id, news: News): Journal {
    if Terminal(news) && AlreadyEnded(journal.rows, run, news.attempt) then journal
    else Journal(journal.last + 1,
                 journal.rows + [Row(run, journal.last + 1, MaxRunSequence(journal.rows, run) + 1, news)])
  }

  ghost function AppendAll(journal: Journal, run: Id, news: seq<News>): Journal
    decreases |news|
  {
    if news == [] then journal
    else Append(AppendAll(journal, run, news[..|news| - 1]), run, news[|news| - 1])
  }

  // ---- the whole database ----

  /** `used` holds every run identity ever drawn: uuid4 does not repeat. */
  datatype State = State(now: int, runs: map<Id, Record>, journals: map<Id, Journal>, used: set<Id>)

  datatype NewRun = NewRun(canvas: Id, session: Option<Id>, key: Id, fingerprint: Id, operation: Operation, base: int)

  datatype Step =
    | Tick(to: int)
    | OpenCanvas(canvas: Id)
    | Create(id: Id, request: NewRun)
    | Act(run: Id, action: Action)
    | DeleteCanvas(canvas: Id)

  function Fresh(request: NewRun, now: int): Record {
    Record(Run(request.canvas, request.session, request.key, request.fingerprint, request.operation, request.base,
               now, Queued, None, None, None, 0, 0, DEFAULT_MAX_ATTEMPTS, None, None, None, None, None, None),
           map[], None)
  }

  ghost predicate KeyTaken(s: State, canvas: Id, key: Id) {
    exists r :: r in s.runs && s.runs[r].run.canvas == canvas && s.runs[r].run.key == key
  }

  ghost function Perform(s: State, r: Id, outcome: Outcome): State
    requires r in s.runs && s.runs[r].run.canvas in s.journals
  {
    var canvas := s.runs[r].run.canvas;
    s.(runs := s.runs[r := outcome.record],
       journals := s.journals[canvas := AppendAll(s.journals[canvas], r, outcome.news)])
  }

  ghost function Next(s: State, step: Step): State {
    match step
    case Tick(to) => if s.now <= to then s.(now := to) else s
    case OpenCanvas(canvas) =>
      if canvas in s.journals then s else s.(journals := s.journals[canvas := Journal(0, [])])
    case Create(id, request) =>
      if request.canvas !in s.journals || id in s.used || KeyTaken(s, request.canvas, request.key) then s
      else s.(runs := s.runs[id := Fresh(request, s.now)], used := s.used + {id})
    case Act(r, action) =>
      if r in s.runs && s.runs[r].run.canvas in s.journals
      then Perform(s, r, Decide(s.runs[r], s.now, action)) else s
    case DeleteCanvas(canvas) =>
      s.(runs := map r | r in s.runs && s.runs[r].run.canvas != canvas :: s.runs[r],
         journals := s.journals - {canvas})
  }

  /** Any interleaving of any actors is a sequence of steps. */
  ghost function After(s: State, steps: seq<Step>): State
    decreases |steps|
  {
    if steps == [] then s else Next(After(s, steps[..|steps| - 1]), steps[|steps| - 1])
  }
}
