/** Concrete traces of the system that reach the states the general results warn of. */
module RunWitnesses {
  import opened Reachability
  import opened GraphTypes
  import opened StagePlan
  import opened RunModel
  import opened RunLog
  import opened ClientReducer
  import opened RunInvariant
  import opened ServerClient
  import opened RunTraces
  import opened RunProgress
  import opened CheckpointResume
  import opened WorkerProgress

  const CANVAS := Uuid(1)
  const RUN := Uuid(2)
  const WORKER := Uuid(3)
  const TOKEN := Uuid(4)

  function Request(): NewRun {
    NewRun(CANVAS, None, Uuid(5), Uuid(6), GenerateStrategies, 0)
  }

  function Broken(): RunError {
    RunError(StageProblem("provider"), true, None)
  }

  lemma AfterOneMore(s: State, steps: seq<Step>, step: Step)
    ensures After(s, steps + [step]) == Next(After(s, steps), step)
  {
    assert (steps + [step])[..|steps|] == steps;
  }

  lemma AfterThree(s: State, a: Step, b: Step, c: Step)
    ensures After(s, [a, b, c]) == Next(Next(Next(s, a), b), c)
  {
    assert After(s, []) == s;
    hide After, Next;
    AfterOneMore(s, [], a);
    AfterOneMore(s, [a], b);
    AfterOneMore(s, [a, b], c);
    assert [] + [a] == [a] && [a] + [b] == [a, b] && [a, b] + [c] == [a, b, c];
  }

  lemma AfterSix(s: State, a: Step, b: Step, c: Step, d: Step, e: Step, f: Step)
    ensures After(s, [a, b, c, d, e, f]) == Next(Next(Next(Next(Next(Next(s, a), b), c), d), e), f)
  {
    hide *;
    AfterThree(s, a, b, c);
    AfterOneMore(s, [a, b, c], d);
    AfterOneMore(s, [a, b, c, d], e);
    AfterOneMore(s, [a, b, c, d, e], f);
    assert [a, b, c] + [d] == [a, b, c, d];
    assert [a, b, c, d] + [e] == [a, b, c, d, e] && [a, b, c, d, e] + [f] == [a, b, c, d, e, f];
  }

  /** A canvas with one fresh run on it. */
  ghost predicate OneRun(s: State, record: Record, now: int) {
    Sound(s) && s.runs.Keys == {RUN} && s.runs[RUN] == record && s.now == now
  }

  lemma Created()
    ensures OneRun(Next(Next(Empty(0), OpenCanvas(CANVAS)), Create(RUN, Request())), Fresh(Request(), 0), 0)
  {
    var s := Next(Empty(0), OpenCanvas(CANVAS));
    assert Sound(Empty(0));
    NextKeepsSound(Empty(0), OpenCanvas(CANVAS));
    NextKeepsSound(s, Create(RUN, Request()));
    hide Sound;
  }

  lemma ActOnIt(s: State, record: Record, now: int, action: Action)
    requires OneRun(s, record, now)
    ensures OneRun(Next(s, Act(RUN, action)), Decide(record, now, action).record, now)
  {
    NextKeepsSound(s, Act(RUN, action));
    ActKeepsLog(s, RUN, action);
    hide Sound, Next, Decide, Logged, EventsOf;
  }

  lemma TickIt(s: State, record: Record, now: int, to: int)
    requires OneRun(s, record, now) && now <= to
    ensures OneRun(Next(s, Tick(to)), record, to)
  {
    NextKeepsSound(s, Tick(to));
    hide Sound;
  }

  // ---- a cancelled run that the browser shows as queued ----

  /** Failed retryably, retried, and cancelled before the next claim. */
  function StrandingTrace(): seq<Step> {
    [OpenCanvas(CANVAS), Create(RUN, Request()), Act(RUN, ClaimRun(WORKER, TOKEN)),
     Act(RUN, Fail(Lease(WORKER, TOKEN, 1), Broken(), None)), Act(RUN, Retry), Act(RUN, RequestCancel)]
  }

  /** The row after failure and retry, at time 0. */
  ghost function RetriedRecord(): Record {
    var claimed := Decide(Fresh(Request(), 0), 0, ClaimRun(WORKER, TOKEN)).record;
    Decide(Decide(claimed, 0, Fail(Lease(WORKER, TOKEN, 1), Broken(), None)).record, 0, Retry).record
  }

  lemma IsRetried()
    ensures RetriedRecord().run.status.Queued? && RetriedRecord().run.attempt == 1
  {
  }

  lemma SilentCancel(s: State, record: Record)
    requires OneRun(s, record, 0) && record.run.status.Queued? && 0 < record.run.attempt
    ensures var t := Next(s, Act(RUN, RequestCancel));
            && RUN in t.runs && t.runs[RUN].run.status.Cancelled? && t.runs[RUN].run.canvas in t.journals
            && Fold(EventsOf(t, RUN)).status.Queued? && EventsOf(t, RUN) == EventsOf(s, RUN) != []
  {
    assert RunSound(record, EventsOf(s, RUN));
    EndFromRequeueIsSilent(record, EventsOf(s, RUN), 0, RequestCancel);
    ActKeepsLog(s, RUN, RequestCancel);
    assert RunsAreOnCanvases(Next(s, Act(RUN, RequestCancel)));
    hide Sound, Next, RowSound, EndsOnce, Agrees, StageState, EventsOf, Fold, HearAll;
  }

  /** The server has cancelled the run; the events of the run, and so every browser, say that it is queued. */
  lemma StrandedRun()
    ensures var s := After(Empty(0), StrandingTrace());
            && RUN in s.runs && s.runs[RUN].run.canvas in s.journals && s.runs[RUN].run.status.Cancelled?
            && Fold(EventsOf(s, RUN)).status.Queued?
  {
    var s1 := Next(Empty(0), OpenCanvas(CANVAS));
    var s2 := Next(s1, Create(RUN, Request()));
    var s3 := Next(s2, Act(RUN, ClaimRun(WORKER, TOKEN)));
    var s4 := Next(s3, Act(RUN, Fail(Lease(WORKER, TOKEN, 1), Broken(), None)));
    var s5 := Next(s4, Act(RUN, Retry));
    assert StrandingTrace() == [OpenCanvas(CANVAS), Create(RUN, Request()), Act(RUN, ClaimRun(WORKER, TOKEN)),
                                Act(RUN, Fail(Lease(WORKER, TOKEN, 1), Broken(), None)), Act(RUN, Retry), Act(RUN, RequestCancel)];
    var claimed := Decide(Fresh(Request(), 0), 0, ClaimRun(WORKER, TOKEN)).record;
    var failed := Decide(claimed, 0, Fail(Lease(WORKER, TOKEN, 1), Broken(), None)).record;
    assert RetriedRecord() == Decide(failed, 0, Retry).record;
    hide *;
    AfterSix(Empty(0), OpenCanvas(CANVAS), Create(RUN, Request()), Act(RUN, ClaimRun(WORKER, TOKEN)),
             Act(RUN, Fail(Lease(WORKER, TOKEN, 1), Broken(), None)), Act(RUN, Retry), Act(RUN, RequestCancel));
    Created();
    ActOnIt(s2, Fresh(Request(), 0), 0, ClaimRun(WORKER, TOKEN));
    ActOnIt(s3, claimed, 0, Fail(Lease(WORKER, TOKEN, 1), Broken(), None));
    ActOnIt(s4, failed, 0, Retry);
    IsRetried();
    SilentCancel(s5, RetriedRecord());
  }

  // ---- an expired patch-ready run on its last attempt ----

  /** Lets through exactly the answers that could be the patch of the run. */
  function OnlyPatches(d: Digest, o: Output): Option<Output> {
    if o.operations.Some? && o.base == Some(0) then Some(o) else None
  }

  lemma PatchesOnly()
    ensures Idempotent(OnlyPatches) && Answerable(OnlyPatches, RUN) && ChecksPatch(OnlyPatches, RUN, Request().base)
  {
    forall d: Digest | d.run == RUN ensures exists o :: OnlyPatches(d, o).Some? {
      assert OnlyPatches(d, Output("", Some(0), Some([]))).Some?;
    }
  }

  /** A state of the run protocol that the system with workers has reached, without any of them alive. */
  ghost predicate Unmanned(s: State, record: Record, now: int) {
    CheckpointResume.Reached(OnlyPatches, System(s, map[])) && OneRun(s, record, now)
  }

  lemma EnvReached(sys: System, step: Step) returns (t: System)
    requires CheckpointResume.Reached(OnlyPatches, sys) && !OnlyWorkers(step)
    ensures t == sys.(state := Next(sys.state, step)) == Moved(OnlyPatches, sys, Env(step))
    ensures CheckpointResume.Reached(OnlyPatches, t)
  {
    EnvMoves(OnlyPatches, sys, step);
    ReachedNext(OnlyPatches, sys, Env(step));
    t := Moved(OnlyPatches, sys, Env(step));
  }

  lemma CreatedUnmanned() returns (s: State)
    ensures Unmanned(s, Fresh(Request(), 0), 0)
  {
    assert Idle(0) == System(Empty(0), map[]) && !OnlyWorkers(OpenCanvas(CANVAS)) && !OnlyWorkers(Create(RUN, Request()));
    assert CheckpointResume.Reached(OnlyPatches, Idle(0)) by { assert Idle(0) == AfterMoves(OnlyPatches, Idle(0), []); }
    Created();
    hide CheckpointResume.Reached, Next, OneRun;
    var empty := EnvReached(Idle(0), OpenCanvas(CANVAS));
    var created := EnvReached(empty, Create(RUN, Request()));
    s := created.state;
  }

  lemma Acted(s: State, record: Record, now: int, action: Action) returns (t: State)
    requires Unmanned(s, record, now) && !OnlyWorkers(Act(RUN, action))
    ensures Unmanned(t, Decide(record, now, action).record, now)
  {
    hide CheckpointResume.Reached, OneRun, Next, Decide;
    var sys := EnvReached(System(s, map[]), Act(RUN, action));
    ActOnIt(s, record, now, action);
    t := sys.state;
  }

  lemma Ticked(s: State, record: Record, now: int, to: int) returns (t: State)
    requires Unmanned(s, record, now) && now <= to
    ensures Unmanned(t, record, to)
  {
    hide CheckpointResume.Reached, OneRun, Next;
    var sys := EnvReached(System(s, map[]), Tick(to));
    TickIt(s, record, now, to);
    t := sys.state;
  }

  ghost function TwiceClaimed(): Record {
    var first := Decide(Fresh(Request(), 0), 0, ClaimRun(WORKER, TOKEN)).record;
    Decide(first, 100, ClaimRun(WORKER, Uuid(8))).record
  }

  lemma TwoAttemptsGone()
    ensures var run := TwiceClaimed().run;
            && Claimable(run, 200) && run.cancelRequestedAt.None? && run.attempt == 2 && run.maxAttempts == 3
            && run.operation == GenerateStrategies && run.base == Request().base
  {
  }

  /** Two workers claim the run and die with their leases. */
  lemma ClaimedTwice() returns (s: State)
    ensures Unmanned(s, TwiceClaimed(), 200)
  {
    var first := Decide(Fresh(Request(), 0), 0, ClaimRun(WORKER, TOKEN)).record;
    assert TwiceClaimed() == Decide(first, 100, ClaimRun(WORKER, Uuid(8))).record;
    assert !OnlyWorkers(Act(RUN, ClaimRun(WORKER, TOKEN))) && !OnlyWorkers(Act(RUN, ClaimRun(WORKER, Uuid(8))));
    hide *;
    s := CreatedUnmanned();
    s := Acted(s, Fresh(Request(), 0), 0, ClaimRun(WORKER, TOKEN));
    s := Ticked(s, first, 0, 100);
    s := Acted(s, first, 100, ClaimRun(WORKER, Uuid(8)));
    s := Ticked(s, TwiceClaimed(), 100, 200);
  }

  /** What the third worker makes of it: it claims the run, executes the whole plan and stores the patch. */
  ghost predicate ThirdAttempt(s: State, stored: System) {
    && RUN in s.runs
    && Leads(OnlyPatches, StartedAnew(OnlyPatches, System(s, map[]), RUN, Uuid(10), WORKER, Uuid(9)), stored, Uuid(10))
  }

  lemma ThirdStores() returns (s: State, sys: System)
    ensures Unmanned(s, TwiceClaimed(), 200) && ThirdAttempt(s, sys)
    ensures CheckpointResume.Reached(OnlyPatches, sys) && sys.state.now == 200 && RUN in sys.state.runs
    ensures var record := sys.state.runs[RUN];
            && record.run.status.PatchReady? && record.patch.Some? && record.run.attempt == 3 && record.run.maxAttempts == 3
            && record.run.expiresAt == Some(260)
  {
    s := ClaimedTwice();
    TwoAttemptsGone();
    PatchesOnly();
    assert PlanFor(GenerateStrategies).Some?;
    hide Sound, TwiceClaimed, Idempotent, Answerable, ChecksPatch, CheckpointResume.Reached, Leads, StartedAnew, Keeps,
         Claimable, PlanFor;
    sys := ClaimableRunCanFinish(OnlyPatches, System(s, map[]), RUN, Uuid(10), WORKER, Uuid(9), Uuid(7));
  }

  /** Two workers die with their leases, the third executes the plan, stores the patch and dies before it completes
      the run. From there the poisoning ends the run failed although it has a patch. */
  lemma PatchReadyOnLastAttempt() returns (lost: State, stored: System, sys: System)
    ensures Unmanned(lost, TwiceClaimed(), 200) && ThirdAttempt(lost, stored)
    ensures sys == Moved(OnlyPatches, stored, Env(Tick(300)))
    ensures CheckpointResume.Reached(OnlyPatches, sys) && RUN in sys.state.runs
    ensures var record := sys.state.runs[RUN];
            && record.run.status.PatchReady? && Expired(record.run, sys.state.now) && record.patch.Some?
            && record.run.attempt == 3 && record.run.maxAttempts == 3
    ensures var t := Next(sys.state, Act(RUN, Terminalize));
            RUN in t.runs && t.runs[RUN].run.status.Failed? && t.runs[RUN].patch.Some? && !Retryable(t.runs[RUN].run)
  {
    assert !OnlyWorkers(Tick(300));
    hide CheckpointResume.Reached, Unmanned, ThirdAttempt, TwiceClaimed;
    lost, stored := ThirdStores();
    sys := EnvReached(stored, Tick(300));
    PatchesOnly();
    ReachedIsConsistent(OnlyPatches, sys);
    PoisonedOnLastAttempt(sys.state);
  }

  lemma PoisonedOnLastAttempt(s: State)
    requires Sound(s) && RUN in s.runs && s.runs[RUN].run.status.PatchReady? && Expired(s.runs[RUN].run, s.now)
    requires s.runs[RUN].run.attempt == s.runs[RUN].run.maxAttempts
    ensures var t := Next(s, Act(RUN, Terminalize));
            RUN in t.runs && t.runs[RUN].run.status.Failed? && t.runs[RUN].patch.Some? && !Retryable(t.runs[RUN].run)
  {
    assert RowSound(s.runs[RUN]) by { assert RunSound(s.runs[RUN], EventsOf(s, RUN)); }
    PatchReadyRace(s.runs[RUN], s.now);
    ActsOn(s, RUN, Terminalize);
    hide Sound, Next, Decide;
  }
}
