/** What a transaction makes of a run, read field by field: which transactions move the status, what every field is
    from then on, and which events tell about it (proofgraph/generation/queue.py:41-341, execution.py:168-520,
    services.py:198-315, proofgraph/demo/cleanup.py:60-138). */
module RunOutcomes {
  import opened Reachability
  import opened GraphTypes
  import opened StagePlan
  import opened RunModel
  import opened RunInvariant

  // ---- who acts ----

  /** The lease is the one the row carries, and its time is not up. */
  predicate Owns(run: Run, lease: Lease, now: int) {
    && run.worker == Some(lease.worker) && run.token == Some(lease.token) && run.epoch == lease.epoch
    && run.expiresAt.Some? && now < run.expiresAt.value
  }

  predicate Works(run: Run, lease: Lease, now: int) {
    run.status == Running && Owns(run, lease, now)
  }

  /** The time of the lease is up, or up and over. */
  predicate Due(run: Run, now: int) {
    run.expiresAt.Some? && run.expiresAt.value <= now
  }

  predicate Over(run: Run, now: int) {
    run.expiresAt.Some? && run.expiresAt.value < now
  }

  predicate Cancels(run: Run, now: int, action: Action) {
    match action
    case RequestCancel => run.status == Queued
    case ObserveCancel(lease, _) => Works(run, lease, now) && run.cancelRequestedAt.Some?
    case PersistPatch(lease, _, _) => Works(run, lease, now) && run.cancelRequestedAt.Some?
    case CleanupVisit => run.status == Queued || (run.status == Running && Due(run, now))
    case ResetVisit => run.status == Queued || run.status == Running || run.status == PatchReady
    case _ => false
  }

  predicate Completes(run: Run, now: int, action: Action) {
    match action
    case Complete(lease) => run.status == PatchReady && Owns(run, lease, now)
    case CleanupVisit => run.status == PatchReady && Due(run, now)
    case _ => false
  }

  predicate Fails(run: Run, now: int, action: Action) {
    match action
    case Fail(lease, _, _) => Works(run, lease, now)
    case Terminalize =>
      && run.attempt == run.maxAttempts
      && (run.status == Queued || ((run.status == Running || run.status == PatchReady) && Over(run, now)))
    case _ => false
  }

  predicate Ends(run: Run, now: int, action: Action) {
    Cancels(run, now, action) || Completes(run, now, action) || Fails(run, now, action)
  }

  predicate Readies(run: Run, now: int, action: Action) {
    action.PersistPatch? && Works(run, action.lease, now) && run.cancelRequestedAt.None?
  }

  predicate Claims(run: Run, now: int, action: Action) {
    action.ClaimRun? && run.attempt < run.maxAttempts && (run.status == Queued || (run.status == Running && Over(run, now)))
  }

  predicate Recovers(run: Run, now: int, action: Action) {
    action.TakeOver? && run.status == PatchReady && Over(run, now)
  }

  predicate Requeues(run: Run, action: Action) {
    action.Retry? && run.status == Failed && run.error.Some? && run.error.value.retryable
  }

  /** Ends the run without its owner. */
  predicate Fences(run: Run, now: int, action: Action) {
    (action.CleanupVisit? || action.ResetVisit?) && Ends(run, now, action)
  }

  /** Writes down that the run is asked to stop; a worker's run keeps the first time it was asked, except that a fence
      overwrites it. */
  predicate Asks(run: Run, now: int, action: Action) {
    match action
    case RequestCancel => run.status == Queued || (run.status == Running && run.cancelRequestedAt.None?)
    case CleanupVisit =>
      || Cancels(run, now, action)
      || ((run.status == Running || run.status == PatchReady) && !Due(run, now) && run.cancelRequestedAt.None?)
    case ResetVisit => Cancels(run, now, action)
    case _ => false
  }

  // ---- the run ----

  /** The status moves in these six ways and no other. */
  ghost predicate StatusLaw(run: Run, now: int, action: Action, after: Run) {
    && (after.status == if Cancels(run, now, action) then Cancelled else if Completes(run, now, action) then Completed
                        else if Fails(run, now, action) then Failed else if Readies(run, now, action) then PatchReady
                        else if Claims(run, now, action) then Running else if Requeues(run, action) then Queued
                        else run.status)
    && after.attempt == run.attempt + (if Claims(run, now, action) then 1 else 0)
    && after.epoch == run.epoch
         + (if Claims(run, now, action) || Recovers(run, now, action) || Fences(run, now, action) then 1 else 0)
  }

  /** A lease comes with a claim or a recovery, is extended by a renewal, and goes when the run ends. */
  ghost predicate LeaseLaw(run: Run, now: int, action: Action, after: Run) {
    if Claims(run, now, action) || Recovers(run, now, action) then
      && after.worker == Some(action.worker) && after.token == Some(action.token)
      && after.heartbeatAt == Some(now) && after.expiresAt == Some(now + 60)
    else if Ends(run, now, action) then
      after.worker == None && after.token == None && after.heartbeatAt == None && after.expiresAt == None
    else
      && after.worker == run.worker && after.token == run.token
      && (if action.Renew? && Works(run, action.lease, now)
          then after.heartbeatAt == Some(now) && after.expiresAt == Some(now + 60)
          else after.heartbeatAt == run.heartbeatAt && after.expiresAt == run.expiresAt)
  }

  ghost predicate TimesLaw(run: Run, now: int, action: Action, after: Run) {
    && after.completedAt == (if Ends(run, now, action) then Some(now) else if Requeues(run, action) then None else run.completedAt)
    && after.startedAt == (if Claims(run, now, action) && run.startedAt.None? then Some(now) else run.startedAt)
    && after.cancelRequestedAt == (if Asks(run, now, action) then Some(now) else if Requeues(run, action) then None
                                   else run.cancelRequestedAt)
  }

  /** The error stored with a failure; a retryable one on the last attempt is stored as exhausted. */
  function StoredError(run: Run, action: Action): RunError
    requires action.Fail? || action.Terminalize?
  {
    match action
    case Fail(_, error, _) =>
      if error.retryable && run.attempt == run.maxAttempts then RunError(AttemptsExhausted, false, error.stage) else error
    case Terminalize => RunError(AttemptsExhausted, false, None)
  }

  /** What else the row says; the request it was made from never changes. */
  ghost predicate ContentLaw(record: Record, now: int, action: Action, after: Record) {
    var run := record.run;
    && after.run.error == (if Fails(run, now, action) then Some(StoredError(run, action))
                           else if Requeues(run, action) then None else run.error)
    && after.patch == (if Readies(run, now, action) then Some(Patch(action.id, run.base, action.operations)) else record.patch)
    && (Requeues(run, action) ==> after.run.currentStage == None)
    && (!Requeues(run, action) && after.run.currentStage != run.currentStage ==>
          action.BeginStage? && after.run.currentStage == Some(action.name))
    && after.run.canvas == run.canvas && after.run.session == run.session && after.run.key == run.key
    && after.run.fingerprint == run.fingerprint && after.run.operation == run.operation && after.run.base == run.base
    && after.run.createdAt == run.createdAt && after.run.maxAttempts == run.maxAttempts
  }

  // ---- its events ----

  /** A run that ends, becomes ready, is claimed or is queued again appends exactly one event; cleanup does not name the
      patch of a run it completes. */
  ghost predicate NewsLaw(record: Record, now: int, action: Action, news: seq<News>) {
    var run := record.run;
    if Cancels(run, now, action) then news == [RunCancelled(run.attempt)]
    else if Completes(run, now, action) then
      news == [RunCompleted(if action.Complete? && record.patch.Some? then Some(record.patch.value.id) else None, run.attempt)]
    else if Fails(run, now, action) then news == [RunFailed(StoredError(run, action), run.attempt)]
    else if Readies(run, now, action) then news == [PatchIsReady(action.id, |action.operations|)]
    else if Claims(run, now, action) then
      news == [if run.attempt == 0 then RunStarted(1, run.epoch + 1, action.worker)
               else RunResumed(run.attempt + 1, run.epoch + 1, action.worker)]
    else if Requeues(run, action) then news == [RetryRequested(run.attempt + 1)]
    else if action.Report? && Works(run, action.lease, now) then news == [StageNews(action.item)]
    else if action.CompleteStage? && Finishes(record, now, action, action.id) then
      && |news| == |action.progress| + 1 && news[|action.progress|] == StageDone(action.name)
      && forall i :: 0 <= i < |action.progress| ==> news[i] == StageNews(action.progress[i])
    else if action.BeginStage? && Opens(record, now, action) then
      |news| == 1 && news[0].StageStarted? && news[0].stage == action.name
    else news == []
  }

  // ---- its stages ----

  ghost predicate IsFor(stage: Stage, action: Action)
    requires action.BeginStage?
  {
    stage.name == action.name && stage.digest == action.digest
  }

  ghost predicate Known(record: Record, action: Action)
    requires action.BeginStage?
  {
    exists id :: id in record.stages && IsFor(record.stages[id], action)
  }

  /** The stage has a row that is not completed, or none yet. */
  ghost predicate Opens(record: Record, now: int, action: Action)
    requires action.BeginStage?
  {
    && Works(record.run, action.lease, now)
    && (forall id :: id in record.stages && IsFor(record.stages[id], action) ==> record.stages[id].status != StageCompleted)
    && (Known(record, action) || action.id !in record.stages)
  }

  predicate Finishes(record: Record, now: int, action: Action, id: Id) {
    && action.CompleteStage? && action.id == id && Works(record.run, action.lease, now)
    && id in record.stages && record.stages[id].status == StageRunning
  }

  /** The run ends while this stage is active, and the transaction names it. */
  predicate Breaks(record: Record, now: int, action: Action, id: Id) {
    && ((action.Fail? && action.stage == Some(id) && Fails(record.run, now, action))
        || (action.ObserveCancel? && action.stage == Some(id) && Cancels(record.run, now, action)))
    && id in record.stages && record.stages[id].status == StageRunning
  }

  ghost predicate StageLaw(record: Record, now: int, action: Action, after: map<Id, Stage>, id: Id) {
    if id !in record.stages then
      if action.BeginStage? && id == action.id && Opens(record, now, action) && !Known(record, action) then
        id in after && after[id] == Stage(action.name, action.digest, StageRunning, 1, None, None)
      else id !in after
    else
      var stage := record.stages[id];
      && id in after
      && if Finishes(record, now, action, id) then
           after[id] == Stage(stage.name, stage.digest, StageCompleted, stage.attempt, Some(action.output), None)
         else if Breaks(record, now, action, id) then
           after[id] == Stage(stage.name, stage.digest, StageFailed, stage.attempt, stage.output,
             Some(if action.Fail? then action.error else RunError(RunWasCancelled, false, Some(stage.name))))
         else if action.BeginStage? && Opens(record, now, action) && IsFor(stage, action) then
           after[id] == Stage(stage.name, stage.digest, StageRunning, stage.attempt + 1, None, None)
         else after[id] == stage
  }

  // ---- every transaction follows the law ----

  /** Beginning a stage touches the run's current stage and that stage's row, and nothing else. */
  lemma BegunLeavesRun(record: Record, name: StageName, digest: Digest, id: Id)
    ensures var after := Begun(record, name, digest, id).record;
            && (after.run == record.run || after.run == record.run.(currentStage := Some(name))) && after.patch == record.patch
  {
  }

  lemma StatusFollows(record: Record, now: int, action: Action)
    requires RowSound(record)
    ensures StatusLaw(record.run, now, action, Decide(record, now, action).record.run)
  {
    if action.BeginStage? {
      BegunLeavesRun(record, action.name, action.digest, action.id);
    }
    hide StageFailedBy, Begun, StageFinished, ErrorState;
  }

  lemma LeaseFollows(record: Record, now: int, action: Action)
    requires RowSound(record)
    ensures LeaseLaw(record.run, now, action, Decide(record, now, action).record.run)
  {
    if action.BeginStage? {
      BegunLeavesRun(record, action.name, action.digest, action.id);
    }
    hide StageFailedBy, Begun, StageFinished, ErrorState;
  }

  lemma TimesFollow(record: Record, now: int, action: Action)
    requires RowSound(record)
    ensures TimesLaw(record.run, now, action, Decide(record, now, action).record.run)
  {
    if action.BeginStage? {
      BegunLeavesRun(record, action.name, action.digest, action.id);
    }
    hide StageFailedBy, Begun, StageFinished, ErrorState;
  }

  lemma ContentFollows(record: Record, now: int, action: Action)
    requires RowSound(record)
    ensures ContentLaw(record, now, action, Decide(record, now, action).record)
  {
    if action.BeginStage? {
      BegunLeavesRun(record, action.name, action.digest, action.id);
    }
    hide StageFailedBy, Begun, StageFinished;
  }

  lemma NewsFollows(record: Record, now: int, action: Action)
    requires RowSound(record) && StageState(record)
    ensures NewsLaw(record, now, action, Decide(record, now, action).news)
  {
    hide StageFailedBy;
  }

  lemma BegunStages(record: Record, now: int, action: Action, id: Id)
    requires StageState(record) && action.BeginStage? && Works(record.run, action.lease, now)
    ensures StageLaw(record, now, action, Begun(record, action.name, action.digest, action.id).record.stages, id)
  {
  }

  lemma StagesFollow(record: Record, now: int, action: Action, id: Id)
    requires RowSound(record) && StageState(record)
    ensures StageLaw(record, now, action, Decide(record, now, action).record.stages, id)
  {
    if action.BeginStage? && Works(record.run, action.lease, now) {
      BegunStages(record, now, action, id);
    }
    hide Begun, StageState, ErrorState;
  }

  // ---- a new run ----

  /** Queued, with three attempts to come and nothing else to show. */
  ghost predicate NewLaw(request: NewRun, now: int, record: Record) {
    var run := record.run;
    && run.canvas == request.canvas && run.session == request.session && run.key == request.key
    && run.fingerprint == request.fingerprint && run.operation == request.operation && run.base == request.base
    && run.createdAt == now && run.status == Queued && run.attempt == 0 && run.maxAttempts == 3 && run.epoch == 0
    && run.worker == None && run.token == None && run.heartbeatAt == None && run.expiresAt == None
    && run.cancelRequestedAt == None && run.error == None && run.startedAt == None && run.completedAt == None
    && run.currentStage == None && record.stages == map[] && record.patch == None
  }

  /** A request is turned into a run exactly once per canvas and key, and nothing is told about it yet. */
  lemma CreationFollows(s: State, id: Id, request: NewRun)
    ensures var t := Next(s, Create(id, request));
            if request.canvas in s.journals && id !in s.used
               && (forall r :: r in s.runs ==> s.runs[r].run.canvas != request.canvas || s.runs[r].run.key != request.key)
            then id in t.runs && t == s.(runs := s.runs[id := t.runs[id]], used := s.used + {id})
                 && NewLaw(request, s.now, t.runs[id])
            else t == s
  {
  }
}
