/** Whole runs of the system: any interleaving of workers, recovery, clients, cleanup and reset. */
module RunTraces {
  import opened Reachability
  import opened GraphTypes
  import opened RunModel
  import opened RunLog
  import opened ClientReducer
  import opened RunInvariant
  import opened ServerClient

  ghost predicate RunSound(record: Record, mine: seq<News>) {
    RowSound(record) && StageState(record) && EndsOnce(record.run, mine) && Agrees(record, mine)
  }

  ghost predicate Sound(s: State) {
    Logged(s) && forall r :: r in s.runs ==> RunSound(s.runs[r], EventsOf(s, r))
  }

  lemma FreshIsSound(request: NewRun, now: int)
    ensures RunSound(Fresh(request, now), [])
  {
  }

  lemma ActionKeepsSound(record: Record, mine: seq<News>, now: int, action: Action)
    requires RunSound(record, mine)
    ensures RunSound(Decide(record, now, action).record, HearAll(mine, Decide(record, now, action).news))
  {
    hide RowSound, StageState, EndsOnce, Agrees, Decide, HearAll;
    ActionKeepsRow(record, now, action);
    ActionKeepsStages(record, now, action);
    ActionKeepsEndings(record, mine, now, action);
    ActionKeepsAgreement(record, mine, now, action);
  }

  lemma NextKeepsSound(s: State, step: Step)
    requires Sound(s)
    ensures Sound(Next(s, step))
  {
    hide RunSound, EveryLogGapFree, RowsHaveRuns, Decide, HearAll;
    if !step.Act? {
      OtherStepKeepsLog(s, step);
      var t := Next(s, step);
      hide Next, EventsOf;
      forall r | r in t.runs ensures RunSound(t.runs[r], EventsOf(t, r)) {
        if r !in s.runs { FreshIsSound(step.request, s.now); }
      }
    } else if step.run in s.runs {
      ActKeepsLog(s, step.run, step.action);
      ActionKeepsSound(s.runs[step.run], EventsOf(s, step.run), s.now, step.action);
      hide Next, EventsOf;
    }
  }

  lemma {:induction false} SoundStays(s: State, steps: seq<Step>)
    requires Sound(s)
    ensures Sound(After(s, steps))
    decreases |steps|
  {
    if steps != [] {
      SoundStays(s, steps[..|steps| - 1]);
      hide Sound, Next;
      NextKeepsSound(After(s, steps[..|steps| - 1]), steps[|steps| - 1]);
    }
  }

  /** A database without canvases and runs, at any time of day. */
  function Empty(now: int): State {
    State(now, map[], map[], {})
  }

  ghost predicate Reachable(s: State) {
    exists now, steps :: s == After(Empty(now), steps)
  }

  lemma ReachableIsSound(s: State)
    requires Reachable(s)
    ensures Sound(s)
  {
    var now, steps :| s == After(Empty(now), steps);
    SoundStays(Empty(now), steps);
  }

  // ---- what the log says ----

  ghost predicate IsEndingAt(mine: seq<News>, i: nat, attempt: nat) {
    i < |mine| && Terminal(mine[i]) && mine[i].attempt == attempt
  }

  lemma EarlierEndingCounts(mine: seq<News>, attempt: nat, i: nat)
    requires IsEndingAt(mine, i, attempt) && i < |mine| - 1
    ensures Endings(mine[..|mine| - 1], attempt) >= 1
  {
    var shorter := mine[..|mine| - 1];
    EndedIsCounted(shorter, attempt);
    assert shorter[i] == mine[i];
  }

  lemma {:induction false} EndingIsUnique(mine: seq<News>, attempt: nat, i: nat, j: nat)
    requires Endings(mine, attempt) <= 1 && IsEndingAt(mine, i, attempt) && IsEndingAt(mine, j, attempt)
    ensures i == j
    decreases |mine|
  {
    var shorter := mine[..|mine| - 1];
    if i < |shorter| && j < |shorter| {
      EndingIsUnique(shorter, attempt, i, j);
    } else if i < |shorter| {
      EarlierEndingCounts(mine, attempt, i);
    } else if j < |shorter| {
      EarlierEndingCounts(mine, attempt, j);
    }
  }

  /** A run that is over has exactly one terminal event for its attempt; a leased run has none. */
  lemma TerminalEventExactlyOnce(s: State, r: Id)
    requires Reachable(s) && r in s.runs && s.runs[r].run.canvas in s.journals
    ensures var run, mine := s.runs[r].run, EventsOf(s, r);
            && (TerminalStatus(run.status) ==> exists i :: IsEndingAt(mine, i, run.attempt))
            && (Leased(run.status) ==> forall i :: !IsEndingAt(mine, i, run.attempt))
            && (forall i, j, a :: IsEndingAt(mine, i, a) && IsEndingAt(mine, j, a) ==> i == j)
  {
    ReachableIsSound(s);
    var run, mine := s.runs[r].run, EventsOf(s, r);
    assert RunSound(s.runs[r], mine);
    hide Reachable, EventsOf, Agrees, Logged, RowSound, StageState;
    EndedIsCounted(mine, run.attempt);
    if TerminalStatus(run.status) {
      var i :| 0 <= i < |mine| && Terminal(mine[i]) && mine[i].attempt == run.attempt;
      assert IsEndingAt(mine, i, run.attempt);
    }
    forall i, j, a | IsEndingAt(mine, i, a) && IsEndingAt(mine, j, a) ensures i == j {
      EndingIsUnique(mine, a, i, j);
    }
  }

  /** In every reachable state a browser that has read the whole log agrees with the server on every run with
      an event: attempt, error, patch and retry offer always, the status unless the run was cancelled from
      the queue after a retry, which the log shows by a failure of the cancelled attempt. */
  lemma BrowserSimulatesServer(s: State, r: Id)
    requires Reachable(s) && r in s.runs && s.runs[r].run.canvas in s.journals && EventsOf(s, r) != []
    ensures var run, rows := s.runs[r].run, s.journals[s.runs[r].run.canvas].rows;
            var client := ReceiveAll(Client(0, map[]), rows);
            && r in client.runs
            && client.runs[r].attempt == run.attempt && client.runs[r].error == run.error
            && client.runs[r].patchId == PatchIdOf(s.runs[r])
            && (CanRetryRun(client.runs[r]) <==> Retryable(run))
            && (client.runs[r].status == run.status <==> !(run.status.Cancelled? && FailureOf(EventsOf(s, r), run.attempt)))
            && (client.runs[r].status != run.status ==> client.runs[r].status.Queued?)
  {
    ReachableIsSound(s);
    var journal, mine := s.journals[s.runs[r].run.canvas], EventsOf(s, r);
    assert RunSound(s.runs[r], mine);
    assert journal.rows[..|journal.rows|] == journal.rows;
    assert GapFree(journal);
    ReducerFoldsEachRun(journal, |journal.rows|, r);
    RetryOfferedIffAccepted(s.runs[r], mine);
    hide Reachable, Sound, Fold, ReceiveAll, FailureOf, RowSound, StageState, EndsOnce, GapFree;
  }

  // ---- fencing ----

  function LeaseOf(action: Action): Option<Lease> {
    match action
    case Renew(lease) => Some(lease)
    case ObserveCancel(lease, _) => Some(lease)
    case BeginStage(lease, _, _, _) => Some(lease)
    case CompleteStage(lease, _, _, _, _) => Some(lease)
    case Report(lease, _) => Some(lease)
    case Fail(lease, _, _) => Some(lease)
    case PersistPatch(lease, _, _) => Some(lease)
    case Complete(lease) => Some(lease)
    case _ => None
  }

  /** The lease is of an older epoch than the row, or of its epoch and the row is leased no more. */
  predicate Outlived(run: Run, lease: Lease) {
    lease.epoch < run.epoch || (lease.epoch == run.epoch && !Leased(run.status))
  }

  /** The lease is outlived, or the row is gone. */
  ghost predicate Fenced(s: State, r: Id, lease: Lease) {
    r in s.used && (r in s.runs ==> Outlived(s.runs[r].run, lease))
  }

  lemma UnchangedIsNoStep(s: State, r: Id)
    requires r in s.runs && s.runs[r].run.canvas in s.journals
    ensures Perform(s, r, Unchanged(s.runs[r])) == s
  {
    var canvas := s.runs[r].run.canvas;
    assert AppendAll(s.journals[canvas], r, []) == s.journals[canvas];
    assert s.runs[r := s.runs[r]] == s.runs;
    assert s.journals[canvas := s.journals[canvas]] == s.journals;
  }

  lemma FencedLeaseDoesNothing(s: State, r: Id, action: Action)
    requires LeaseOf(action).Some? && Fenced(s, r, LeaseOf(action).value)
    ensures Next(s, Act(r, action)) == s
  {
    if r in s.runs && s.runs[r].run.canvas in s.journals {
      UnchangedIsNoStep(s, r);
      assert Decide(s.runs[r], s.now, action) == Unchanged(s.runs[r]);
      hide Decide, Perform;
    }
  }

  lemma EpochNeverFalls(record: Record, now: int, action: Action)
    ensures record.run.epoch <= Decide(record, now, action).record.run.epoch <= record.run.epoch + 1
  {
  }

  /** A row gets leased again only under a new epoch. */
  lemma ActionKeepsOutlived(record: Record, now: int, action: Action, lease: Lease)
    requires Outlived(record.run, lease)
    ensures Outlived(Decide(record, now, action).record.run, lease)
  {
    if action.BeginStage? {
      BeginKeepsStatus(record, action.name, action.digest, action.id);
    }
    hide Begun, StageFinished;
  }

  lemma NextKeepsFence(s: State, step: Step, r: Id, lease: Lease)
    requires Logged(s) && Fenced(s, r, lease)
    ensures Fenced(Next(s, step), r, lease)
  {
    hide Decide;
    if step.Act? && step.run in s.runs {
      ActKeepsLog(s, step.run, step.action);
      if step.run == r {
        ActionKeepsOutlived(s.runs[r], s.now, step.action, lease);
      }
      hide Next, Logged, EventsOf, Outlived;
    } else if !step.Act? {
      OtherStepKeepsLog(s, step);
      hide Next, Logged, EventsOf, Outlived;
    }
  }

  lemma {:induction false} FencedStaysFenced(s: State, steps: seq<Step>, r: Id, lease: Lease)
    requires Logged(s) && Fenced(s, r, lease)
    ensures Fenced(After(s, steps), r, lease)
    decreases |steps|
  {
    if steps != [] {
      FencedStaysFenced(s, steps[..|steps| - 1], r, lease);
      LogsStayGapFree(s, steps[..|steps| - 1]);
      hide Next, Logged, Fenced;
      NextKeepsFence(After(s, steps[..|steps| - 1]), steps[|steps| - 1], r, lease);
    }
  }

  /** Once the epoch has moved on or the run's lease has ended, a step under the old lease changes nothing at any
      later time: a retry leases the run again only under a new epoch. */
  lemma OldLeaseNeverWrites(s: State, steps: seq<Step>, r: Id, action: Action)
    requires Logged(s) && LeaseOf(action).Some? && Fenced(s, r, LeaseOf(action).value)
    ensures Next(After(s, steps), Act(r, action)) == After(s, steps)
  {
    FencedStaysFenced(s, steps, r, LeaseOf(action).value);
    FencedLeaseDoesNothing(After(s, steps), r, action);
  }

  /** The actions that install a new epoch: a claim, a recovery, and the fences of cleanup and reset. */
  predicate Installs(record: Record, now: int, action: Action) {
    || (action.ClaimRun? && Claimable(record.run, now))
    || (action.TakeOver? && Recoverable(record, now))
    || (action.CleanupVisit? && Active(record.run) && !LiveOwner(record.run, now))
    || (action.ResetVisit? && Active(record.run))
  }

  lemma EpochMovesExactlyOnInstall(record: Record, now: int, action: Action)
    ensures Decide(record, now, action).record.run.epoch
            == record.run.epoch + if Installs(record, now, action) then 1 else 0
  {
    if action.BeginStage? {
      BeginKeepsStatus(record, action.name, action.digest, action.id);
    }
    hide Begun, StageFinished;
  }

  /** After an installing step every lease that could write before is fenced off for good. */
  lemma InstallFencesHolder(s: State, r: Id, install: Action, steps: seq<Step>, late: Action)
    requires Logged(s) && r in s.runs && Installs(s.runs[r], s.now, install)
    requires LeaseOf(late).Some? && LeaseOf(late).value.epoch <= s.runs[r].run.epoch
    ensures var t := After(Next(s, Act(r, install)), steps); Next(t, Act(r, late)) == t
  {
    ActKeepsLog(s, r, install);
    EpochMovesExactlyOnInstall(s.runs[r], s.now, install);
    hide Decide, Next, Logged, EventsOf;
    OldLeaseNeverWrites(Next(s, Act(r, install)), steps, r, late);
  }

  /** While some lease may write, nobody may claim, recover, poison or clean up the run, and the other way
      round; at the very instant of expiry neither side may move, except cleanup. */
  lemma WindowsAreDisjoint(record: Record, now: int)
    requires RowSound(record) && Leased(record.run.status)
    ensures var run := record.run;
            var writable := exists lease :: Holds(run, lease, run.status, now);
            && (writable <==> LiveOwner(run, now))
            && (writable ==> !Claimable(run, now) && !Recoverable(record, now) && !Exhausted(run, now))
            && (now != run.expiresAt.value ==>
                  (writable <==> !(Claimable(run, now) || Recoverable(record, now) || Exhausted(run, now))))
  {
    var run := record.run;
    assert Holds(run, Lease(run.worker.value, run.token.value, run.epoch), run.status, now) <==> LiveOwner(run, now);
  }

  /** Whether the last step was taken under a lease on r and changed something. */
  ghost predicate Writes(s: State, step: Step, r: Id) {
    step.Act? && step.run == r && LeaseOf(step.action).Some? && Next(s, step) != s
  }

  /** The leases of the steps on r that changed something, in order. */
  ghost function Writers(s: State, steps: seq<Step>, r: Id): seq<Lease>
    decreases |steps|
  {
    if steps == [] then []
    else
      var before, step := After(s, steps[..|steps| - 1]), steps[|steps| - 1];
      Writers(s, steps[..|steps| - 1], r)
      + if Writes(before, step, r) then [LeaseOf(step.action).value] else []
  }

  lemma WrongEpochDecidesNothing(record: Record, now: int, action: Action)
    requires LeaseOf(action).Some?
    ensures LeaseOf(action).value.epoch != record.run.epoch ==> Decide(record, now, action) == Unchanged(record)
  {
  }

  lemma WriterHasTheEpoch(s: State, step: Step, r: Id)
    requires Writes(s, step, r)
    ensures r in s.runs && LeaseOf(step.action).value.epoch == s.runs[r].run.epoch
  {
    if r in s.runs && s.runs[r].run.canvas in s.journals {
      UnchangedIsNoStep(s, r);
      WrongEpochDecidesNothing(s.runs[r], s.now, step.action);
      hide Decide, LeaseOf, Perform;
    }
  }

  lemma EpochOverStep(s: State, step: Step, r: Id)
    requires Logged(s) && r in s.used
    ensures var t := Next(s, step);
            && r in t.used && (r in t.runs ==> r in s.runs && s.runs[r].run.epoch <= t.runs[r].run.epoch)
  {
    hide Decide;
    if step.Act? && step.run in s.runs {
      ActKeepsLog(s, step.run, step.action);
      EpochNeverFalls(s.runs[step.run], s.now, step.action);
      hide Next, Logged, EventsOf;
    } else if !step.Act? {
      OtherStepKeepsLog(s, step);
      hide Next, Logged, EventsOf;
    }
  }

  ghost predicate InEpochOrder(leases: seq<Lease>) {
    forall i, j :: 0 <= i < j < |leases| ==> leases[i].epoch <= leases[j].epoch
  }

  ghost predicate UpToEpoch(leases: seq<Lease>, epoch: nat) {
    forall i :: 0 <= i < |leases| ==> leases[i].epoch <= epoch
  }

  /** Over any trace the effects of a run are ordered by epoch, and none is ahead of the row. */
  lemma {:induction false} EffectsOrderedByEpoch(s: State, steps: seq<Step>, r: Id)
    requires Logged(s) && r in s.used
    ensures r in After(s, steps).used && InEpochOrder(Writers(s, steps, r))
    ensures r in After(s, steps).runs ==> UpToEpoch(Writers(s, steps, r), After(s, steps).runs[r].run.epoch)
    decreases |steps|
  {
    if steps != [] {
      var before, step := After(s, steps[..|steps| - 1]), steps[|steps| - 1];
      EffectsOrderedByEpoch(s, steps[..|steps| - 1], r);
      LogsStayGapFree(s, steps[..|steps| - 1]);
      EpochOverStep(before, step, r);
      if Writes(before, step, r) {
        WriterHasTheEpoch(before, step, r);
      }
      hide Writes, Next, Logged, LeaseOf;
    }
  }
}
