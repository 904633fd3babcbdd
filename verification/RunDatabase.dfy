/** The generation tables as mutable state: every transaction of the workers, the recovery loops, the client
    services and the demo session rewrites rows in place and is proved to be its step of the run model. */
module RunDatabase {
  import opened Reachability
  import opened GraphTypes
  import opened StagePlan
  import opened RunModel
  import opened RunInvariant
  import RunOutcomes

  lemma AfterOne(s: State, steps: seq<Step>, step: Step)
    ensures After(s, steps + [step]) == Next(After(s, steps), step)
  {
    assert (steps + [step])[..|steps|] == steps;
  }

  lemma {:induction false} AfterMore(s: State, steps: seq<Step>, more: seq<Step>)
    ensures After(s, steps + more) == After(After(s, steps), more)
    decreases |more|
  {
    if more == [] {
      assert steps + more == steps;
    } else {
      var shorter := more[..|more| - 1];
      AfterMore(s, steps, shorter);
      assert (steps + more)[..|steps + more| - 1] == steps + shorter;
    }
  }

  lemma AfterTwo(s: State, a: Step, b: Step)
    ensures After(s, [a, b]) == Next(Next(s, a), b)
  {
    assert [] + [a] == [a] && [a] + [b] == [a, b];
    AfterOne(s, [], a);
    AfterOne(s, [a], b);
  }

  lemma NoStep(s: State, r: Id, action: Action)
    requires r in s.runs && s.runs[r].run.canvas in s.journals ==>
               Decide(s.runs[r], s.now, action) == Unchanged(s.runs[r])
    ensures Next(s, Act(r, action)) == s
  {
    if r in s.runs && s.runs[r].run.canvas in s.journals {
      var canvas := s.runs[r].run.canvas;
      assert AppendAll(s.journals[canvas], r, []) == s.journals[canvas];
      assert s.runs[r := s.runs[r]] == s.runs;
      assert s.journals[canvas := s.journals[canvas]] == s.journals;
    }
  }

  /** Saving the rows of a run is a step whose action appends nothing. */
  lemma SavedQuietly(s: State, r: Id, action: Action, record: Record)
    requires r in s.runs && s.runs[r].run.canvas in s.journals
    requires Decide(s.runs[r], s.now, action) == Outcome(record, [])
    ensures Next(s, Act(r, action)) == s.(runs := s.runs[r := record])
  {
    var canvas := s.runs[r].run.canvas;
    assert AppendAll(s.journals[canvas], r, []) == s.journals[canvas];
    assert s.journals[canvas := s.journals[canvas]] == s.journals;
  }

  /** Saving the rows of a run and appending one event is a step whose action appends that event. */
  lemma SavedWithEvent(s: State, r: Id, action: Action, record: Record, news: News)
    requires r in s.runs && s.runs[r].run.canvas in s.journals
    requires Decide(s.runs[r], s.now, action) == Outcome(record, [news])
    ensures var canvas := s.runs[r].run.canvas;
            Next(s, Act(r, action)) == s.(runs := s.runs[r := record],
                                          journals := s.journals[canvas := Append(s.journals[canvas], r, news)])
  {
    var canvas := s.runs[r].run.canvas;
    assert [news][..0] == [];
    assert AppendAll(s.journals[canvas], r, [news]) == Append(s.journals[canvas], r, news);
  }

  lemma StageKeepsLease(run: Run, name: StageName, lease: Lease, now: int)
    ensures Holds(run.(currentStage := Some(name)), lease, Running, now) == Holds(run, lease, Running, now)
  {
  }

  lemma AppendedOneMore(journal: Journal, r: Id, news: seq<News>, more: News)
    ensures AppendAll(journal, r, news + [more]) == Append(AppendAll(journal, r, news), r, more)
  {
    assert (news + [more])[..|news|] == news;
  }

  /** Every step is this kind of action on some run. */
  ghost predicate AllTerminalize(steps: seq<Step>) {
    forall i :: 0 <= i < |steps| ==> steps[i].Act? && steps[i].action.Terminalize?
  }

  /** Pairs of a takeover and the completion under the lease it grants. */
  ghost predicate AllRecoveries(steps: seq<Step>) {
    forall i :: 0 <= i < |steps| ==> steps[i].Act? && (steps[i].action.TakeOver? || steps[i].action.Complete?)
  }

  /** What a claiming worker does before it claims: recoveries and poisonings. */
  ghost predicate AllHousekeeping(steps: seq<Step>) {
    forall i :: 0 <= i < |steps| ==>
      (steps[i].Act? && (steps[i].action.TakeOver? || steps[i].action.Complete? || steps[i].action.Terminalize?))
  }

  ghost function RecoverableIn(s: State, locked: set<Id>): set<Id> {
    set r | r in s.runs && r !in locked && Recoverable(s.runs[r], s.now)
  }

  /** The exhausted rows a query with `skip_locked` sees. */
  ghost function ExhaustedIn(s: State, locked: set<Id>): set<Id> {
    set r | r in s.runs && r !in locked && Exhausted(s.runs[r].run, s.now)
  }

  /** The runs in done were poisoned; no other row moved. */
  ghost predicate PoisonedAll(before: State, after: State, done: set<Id>) {
    && after.runs.Keys == before.runs.Keys && after.now == before.now
    && forall r :: r in before.runs ==>
         after.runs[r] == if r in done then Poisoned(before.runs[r], before.now).record else before.runs[r]
  }

  lemma MorePoisoned(a: State, b: State, c: State, done: set<Id>, r: Id)
    requires PoisonedAll(a, b, done) && PoisonedAll(b, c, {r}) && r !in done
    ensures PoisonedAll(a, c, done + {r})
  {
  }

  /** What a claiming worker leaves behind of the rows it sees: nothing recoverable and nothing exhausted; the
      recoverable runs completed, the exhausted ones that were not recoverable failed, and no other row moved. */
  ghost predicate Swept(before: State, after: State, locked: set<Id>) {
    && RecoverableIn(after, locked) == {} && ExhaustedIn(after, locked) == {}
    && after.runs.Keys == before.runs.Keys
    && forall r :: r in before.runs ==>
         if r in RecoverableIn(before, locked) then after.runs[r].run.status == Completed
         else if r in ExhaustedIn(before, locked) then after.runs[r].run.status == Failed
         else after.runs[r] == before.runs[r]
  }

  lemma SweptInTwo(s: State, middle: State, t: State, locked: set<Id>)
    requires Recovered(s, middle, RecoverableIn(s, locked)) && RecoverableIn(middle, locked) == {}
    requires middle.now == s.now && PoisonedAll(middle, t, ExhaustedIn(middle, locked))
    ensures Swept(s, t, locked)
  {
    forall r | r in s.runs && r !in locked ensures !Recoverable(t.runs[r], t.now) && !Exhausted(t.runs[r].run, t.now) {
      assert r in RecoverableIn(middle, locked) <==> Recoverable(middle.runs[r], middle.now);
      assert r in ExhaustedIn(middle, locked) <==> Exhausted(middle.runs[r].run, middle.now);
    }
  }

  /** The runs in done ended completed; no other row moved. */
  ghost predicate Recovered(before: State, after: State, done: set<Id>) {
    after.runs.Keys == before.runs.Keys && forall r :: r in before.runs ==>
      if r in done then after.runs[r].run.status == Completed else after.runs[r] == before.runs[r]
  }

  lemma MoreRecovered(a: State, b: State, c: State, done: set<Id>, more: set<Id>)
    requires Recovered(a, b, done) && Recovered(b, c, more)
    ensures Recovered(a, c, done + more)
  {
  }

  lemma NoneLeft(all: set<Id>, done: set<Id>)
    requires all - done == {} && done <= all
    ensures done == all
  {
    forall r | r in all ensures r in done {
      assert r !in all - done;
    }
  }

  lemma NothingYet(s: State)
    ensures After(s, []) == s && AllRecoveries([]) && AllTerminalize([])
    ensures Recovered(s, s, {}) && PoisonedAll(s, s, {})
  {
  }

  lemma OneMorePoisoned(steps: seq<Step>, r: Id)
    requires AllTerminalize(steps)
    ensures AllTerminalize(steps + [Act(r, Terminalize)])
  {
  }

  lemma Housekeeping(recovered: seq<Step>, poisoned: seq<Step>)
    requires AllRecoveries(recovered) && AllTerminalize(poisoned)
    ensures AllHousekeeping(recovered + poisoned)
  {
  }

  lemma MoreRecoveries(a: seq<Step>, b: seq<Step>)
    requires AllRecoveries(a) && AllRecoveries(b)
    ensures AllRecoveries(a + b)
  {
  }

  /** The unique key of the run table. */
  predicate SameKey(run: Run, request: NewRun) {
    run.canvas == request.canvas && run.key == request.key
  }

  /** `order_by("created_at", "id").first()`. */
  ghost predicate IsFirst(runs: map<Id, Record>, candidates: set<Id>, r: Id)
    requires candidates <= runs.Keys
  {
    r in candidates && forall q :: q in candidates ==>
      runs[r].run.createdAt < runs[q].run.createdAt
      || (runs[r].run.createdAt == runs[q].run.createdAt && r.value <= q.value)
  }

  /** The runs that a claim with `skip_locked` may take. */
  ghost function ClaimableIn(s: State, locked: set<Id>): (r: set<Id>)
    ensures r <= s.runs.Keys
  {
    set r | r in s.runs && r !in locked && Claimable(s.runs[r].run, s.now)
  }

  /** The run was created before every other visible run that could be claimed; identities settle a tie. */
  ghost predicate OldestFor(s: State, locked: set<Id>, claim: Action, r: Id) {
    && r in s.runs && r !in locked && RunOutcomes.Claims(s.runs[r].run, s.now, claim)
    && forall q :: q in s.runs && q !in locked && RunOutcomes.Claims(s.runs[q].run, s.now, claim) ==>
         s.runs[r].run.createdAt < s.runs[q].run.createdAt
         || (s.runs[r].run.createdAt == s.runs[q].run.createdAt && r.value <= q.value)
  }

  ghost predicate NoneFor(s: State, locked: set<Id>, claim: Action) {
    forall q :: q in s.runs && q !in locked ==> !RunOutcomes.Claims(s.runs[q].run, s.now, claim)
  }

  lemma FirstIsOldest(s: State, locked: set<Id>, worker: Id, token: Id)
    ensures ClaimableIn(s, locked) == {} <==> NoneFor(s, locked, ClaimRun(worker, token))
    ensures forall r :: IsFirst(s.runs, ClaimableIn(s, locked), r) ==> OldestFor(s, locked, ClaimRun(worker, token), r)
  {
    forall q | q in s.runs && q !in locked
      ensures q in ClaimableIn(s, locked) <==> RunOutcomes.Claims(s.runs[q].run, s.now, ClaimRun(worker, token)) {
    }
    hide Claimable, RunOutcomes.Claims;
  }

  datatype ServiceResult = Answered(status: RunStatus) | NotFound | Refused | KeyConflict | CreatedRun(id: Id)

  class Database {
    var now: int
    var runs: map<Id, Record>
    var journals: map<Id, Journal>
    var used: set<Id>

    constructor (at: int)
      ensures Contents() == State(at, map[], map[], {})
    {
      now, runs, journals, used := at, map[], map[], {};
    }

    ghost function Contents(): State
      reads this
    {
      State(now, runs, journals, used)
    }

    ghost predicate OnCanvases()
      reads this
    {
      forall r :: r in runs ==> runs[r].run.canvas in journals
    }

    /** Appends inside the transaction that holds the run's row; a second terminal event of an attempt is dropped. */
    method AppendEventLocked(r: Id, news: News)
      requires r in runs && runs[r].run.canvas in journals
      modifies this`journals
      ensures journals == old(journals)[runs[r].run.canvas := Append(old(journals)[runs[r].run.canvas], r, news)]
    {
      var canvas := runs[r].run.canvas;
      var journal := journals[canvas];
      if Terminal(news) {
        for i := 0 to |journal.rows|
          invariant forall k :: 0 <= k < i ==>
            !(journal.rows[k].run == r && Terminal(journal.rows[k].news) && journal.rows[k].news.attempt == news.attempt)
        {
          if journal.rows[i].run == r && Terminal(journal.rows[i].news)
             && journal.rows[i].news.attempt == news.attempt {
            return;
          }
        }
      }
      var runSequence := MaxRunSequence(journal.rows, r) + 1;
      journal := journal.(last := journal.last + 1);
      journal := journal.(rows := journal.rows + [Row(r, journal.last, runSequence, news)]);
      journals := journals[canvas := journal];
    }

    // ---- queue.py ----

    method TerminalizeRun(r: Id)
      requires r in runs && runs[r].run.canvas in journals && Exhausted(runs[r].run, now)
      modifies this`runs, this`journals
      ensures Contents() == Next(old(Contents()), Act(r, Terminalize))
      ensures runs == old(runs)[r := runs[r]] && journals.Keys == old(journals).Keys
      ensures runs[r].run.canvas == old(runs)[r].run.canvas && !Exhausted(runs[r].run, now)
      ensures runs[r] == Poisoned(old(runs)[r], now).record
    {
      hide Append, AppendAll;
      ghost var s := Contents();
      var run := runs[r].run;
      var error := RunError(AttemptsExhausted, false, None);
      run := run.(status := Failed);
      run := run.(error := Some(error));
      run := run.(completedAt := Some(now));
      run := run.(worker := None, token := None, heartbeatAt := None, expiresAt := None);
      runs := runs[r := runs[r].(run := run)];
      AppendEventLocked(r, RunFailed(error, run.attempt));
      SavedWithEvent(s, r, Terminalize, runs[r], RunFailed(error, run.attempt));
    }

    method TakeOverRun(r: Id, worker: Id, token: Id) returns (lease: Lease)
      requires r in runs && runs[r].run.canvas in journals && Recoverable(runs[r], now)
      modifies this`runs
      ensures Contents() == Next(old(Contents()), Act(r, TakeOver(worker, token)))
      ensures runs == old(runs)[r := runs[r]] && Holds(runs[r].run, lease, PatchReady, now)
      ensures runs[r].run.canvas == old(runs)[r].run.canvas
    {
      hide AppendAll;
      ghost var s := Contents();
      var run := runs[r].run;
      run := run.(worker := Some(worker));
      run := run.(token := Some(token));
      run := run.(epoch := run.epoch + 1);
      run := run.(heartbeatAt := Some(now));
      run := run.(expiresAt := Some(now + LEASE_SECONDS));
      runs := runs[r := runs[r].(run := run)];
      lease := Lease(worker, token, run.epoch);
      SavedQuietly(s, r, TakeOver(worker, token), runs[r]);
    }

    /** Both the worker's own completion and the recovery's. */
    method CompleteRun(r: Id, lease: Lease) returns (ok: bool)
      requires OnCanvases()
      modifies this`runs, this`journals
      ensures Contents() == Next(old(Contents()), Act(r, Complete(lease)))
      ensures ok <==> r in old(runs) && Holds(old(runs)[r].run, lease, PatchReady, now)
      ensures ok ==> runs == old(runs)[r := runs[r]] && runs[r].run.status == Completed
                     && runs[r].patch == old(runs)[r].patch
      ensures OnCanvases()
    {
      hide Append, AppendAll;
      ghost var s := Contents();
      if r !in runs || !Holds(runs[r].run, lease, PatchReady, now) {
        NoStep(s, r, Complete(lease));
        return false;
      }
      var run := runs[r].run;
      var patchId := if runs[r].patch.Some? then Some(runs[r].patch.value.id) else None;
      run := run.(status := Completed);
      run := run.(completedAt := Some(now));
      run := run.(worker := None, token := None, heartbeatAt := None, expiresAt := None);
      runs := runs[r := runs[r].(run := run)];
      AppendEventLocked(r, RunCompleted(patchId, run.attempt));
      SavedWithEvent(s, r, Complete(lease), runs[r], RunCompleted(patchId, run.attempt));
      return true;
    }

    method Claimed(r: Id, worker: Id, token: Id) returns (lease: Lease)
      requires r in runs && runs[r].run.canvas in journals && Claimable(runs[r].run, now)
      modifies this`runs, this`journals
      ensures Contents() == Next(old(Contents()), Act(r, ClaimRun(worker, token)))
      ensures runs == old(runs)[r := runs[r]] && Holds(runs[r].run, lease, Running, now)
      ensures lease.worker == worker && lease.token == token
      ensures runs[r].run.canvas == old(runs)[r].run.canvas && journals.Keys == old(journals).Keys
    {
      hide Append, AppendAll, Claimable;
      ghost var s := Contents();
      var run := runs[r].run;
      var resume := run.status.Running? || run.attempt > 0;
      run := run.(status := Running);
      run := run.(worker := Some(worker));
      run := run.(token := Some(token));
      run := run.(epoch := run.epoch + 1);
      run := run.(attempt := run.attempt + 1);
      run := run.(heartbeatAt := Some(now));
      run := run.(expiresAt := Some(now + LEASE_SECONDS));
      if run.startedAt.None? { run := run.(startedAt := Some(now)); }
      runs := runs[r := runs[r].(run := run)];
      var news := if resume then RunResumed(run.attempt, run.epoch, worker) else RunStarted(run.attempt, run.epoch, worker);
      AppendEventLocked(r, news);
      lease := Lease(worker, token, run.epoch);
      SavedWithEvent(s, r, ClaimRun(worker, token), runs[r], news);
    }

    method First(candidates: set<Id>) returns (r: Id)
      requires candidates != {} && candidates <= runs.Keys
      ensures IsFirst(runs, candidates, r)
    {
      r :| r in candidates;
      var rest := candidates - {r};
      while rest != {}
        invariant rest <= candidates && r in candidates && IsFirst(runs, candidates - rest, r)
        decreases |rest|
      {
        var q :| q in rest;
        if runs[q].run.createdAt < runs[r].run.createdAt
           || (runs[q].run.createdAt == runs[r].run.createdAt && q.value < r.value) {
          r := q;
        }
        rest := rest - {q};
      }
      assert candidates - rest == candidates;
    }

    method TerminalizeNext(locked: set<Id>) returns (next: Option<Id>)
      requires OnCanvases()
      modifies this`runs, this`journals
      ensures OnCanvases()
      ensures next.None? ==> Contents() == old(Contents()) && ExhaustedIn(Contents(), locked) == {}
      ensures next.Some? ==>
                var r, s, t := next.value, old(Contents()), Contents();
                && r in ExhaustedIn(s, locked) && ExhaustedIn(t, locked) == ExhaustedIn(s, locked) - {r}
                && t == Next(s, Act(r, Terminalize)) && PoisonedAll(s, t, {r})
    {
      hide Next;
      var poisoned := set r | r in runs && r !in locked && Exhausted(runs[r].run, now);
      if poisoned == {} { return None; }
      var r := First(poisoned);
      TerminalizeRun(r);
      return Some(r);
    }

    method TerminalizeExhaustedRuns(locked: set<Id>) returns (terminalized: nat, ghost steps: seq<Step>)
      requires OnCanvases()
      modifies this`runs, this`journals
      ensures OnCanvases()
      ensures Contents() == After(old(Contents()), steps) && AllTerminalize(steps) && terminalized == |steps|
      ensures ExhaustedIn(Contents(), locked) == {} && terminalized == |ExhaustedIn(old(Contents()), locked)|
      ensures PoisonedAll(old(Contents()), Contents(), ExhaustedIn(old(Contents()), locked))
    {
      hide *;
      terminalized, steps := 0, [];
      ghost var s, done := Contents(), {};
      NothingYet(s);
      while true
        invariant OnCanvases() && done <= ExhaustedIn(s, locked) && terminalized == |done|
        invariant ExhaustedIn(Contents(), locked) == ExhaustedIn(s, locked) - done
        invariant Contents() == After(s, steps) && AllTerminalize(steps) && terminalized == |steps|
        invariant PoisonedAll(s, Contents(), done)
        decreases |ExhaustedIn(Contents(), locked)|
      {
        ghost var t := Contents();
        var next := TerminalizeNext(locked);
        if next.None? { break; }
        AfterOne(s, steps, Act(next.value, Terminalize));
        OneMorePoisoned(steps, next.value);
        MorePoisoned(s, t, Contents(), done, next.value);
        steps := steps + [Act(next.value, Terminalize)];
        done := done + {next.value};
        terminalized := terminalized + 1;
      }
      NoneLeft(ExhaustedIn(s, locked), done);
    }

    method RecoverRun(r: Id, token: Id) returns (ghost steps: seq<Step>)
      requires OnCanvases() && r in runs && Recoverable(runs[r], now)
      modifies this`runs, this`journals
      ensures OnCanvases() && r in runs && runs == old(runs)[r := runs[r]] && runs[r].run.status == Completed
      ensures Contents() == After(old(Contents()), steps) && AllRecoveries(steps) && |steps| == 2
    {
      hide Next, After;
      ghost var s := Contents();
      var lease := TakeOverRun(r, token, token);
      var ok := CompleteRun(r, lease);
      steps := [Act(r, TakeOver(token, token)), Act(r, Complete(lease))];
      AfterTwo(s, steps[0], steps[1]);
    }

    /** Takes over the first expired patch-ready run and completes it, in two transactions. */
    method RecoverNext(locked: set<Id>, token: Id) returns (next: Option<Id>, ghost steps: seq<Step>)
      requires OnCanvases()
      modifies this`runs, this`journals
      ensures OnCanvases() && runs.Keys == old(runs).Keys
      ensures Contents() == After(old(Contents()), steps) && AllRecoveries(steps)
      ensures next.None? ==> Contents() == old(Contents()) && RecoverableIn(Contents(), locked) == {}
      ensures next.Some? ==>
                var s, t := old(Contents()), Contents();
                && next.value in RecoverableIn(s, locked) && |steps| == 2
                && RecoverableIn(t, locked) == RecoverableIn(s, locked) - {next.value}
                && Recovered(s, t, {next.value})
    {
      assert After(Contents(), []) == Contents();
      hide Next, After;
      var ready := set r | r in runs && r !in locked && Recoverable(runs[r], now);
      if ready == {} { return None, []; }
      var r := First(ready);
      steps := RecoverRun(r, token);
      hide AllRecoveries, Recoverable, OnCanvases;
      return Some(r), steps;
    }

    method FinalizeExpiredPatchReadyRuns(locked: set<Id>, draw: nat -> Id) returns (completed: nat, ghost steps: seq<Step>)
      requires OnCanvases()
      modifies this`runs, this`journals
      ensures OnCanvases()
      ensures Contents() == After(old(Contents()), steps) && AllRecoveries(steps) && |steps| == 2 * completed
      ensures RecoverableIn(Contents(), locked) == {}
      ensures Recovered(old(Contents()), Contents(), RecoverableIn(old(Contents()), locked))
      ensures completed == |RecoverableIn(old(Contents()), locked)|
    {
      hide *;
      completed, steps := 0, [];
      ghost var s, done := Contents(), {};
      NothingYet(s);
      while true
        invariant OnCanvases() && done <= RecoverableIn(s, locked) && completed == |done|
        invariant RecoverableIn(Contents(), locked) == RecoverableIn(s, locked) - done
        invariant Contents() == After(s, steps) && AllRecoveries(steps) && |steps| == 2 * completed
        invariant Recovered(s, Contents(), done)
        decreases |RecoverableIn(Contents(), locked)|
      {
        ghost var t := Contents();
        var next, more := RecoverNext(locked, draw(completed));
        if next.None? { break; }
        AfterMore(s, steps, more);
        MoreRecoveries(steps, more);
        MoreRecovered(s, t, Contents(), done, {next.value});
        steps := steps + more;
        done := done + {next.value};
        completed := completed + 1;
      }
      NoneLeft(RecoverableIn(s, locked), done);
    }

    /** Recovery and poisoning of every run that no other transaction holds, then the first claimable one. */
    method ClaimNext(worker: Id, token: Id, locked: set<Id>, draw: nat -> Id)
      returns (claimed: Option<(Id, Lease)>, ghost before: seq<Step>)
      requires OnCanvases()
      modifies this`runs, this`journals
      ensures OnCanvases() && runs.Keys == old(runs).Keys
      ensures AllHousekeeping(before) && Swept(old(Contents()), After(old(Contents()), before), locked)
      ensures claimed.None? ==>
        Contents() == After(old(Contents()), before) && NoneFor(Contents(), locked, ClaimRun(worker, token))
      ensures claimed.Some? ==>
                var (r, lease) := claimed.value;
                && Contents() == Next(After(old(Contents()), before), Act(r, ClaimRun(worker, token)))
                && OldestFor(After(old(Contents()), before), locked, ClaimRun(worker, token), r)
                && r in runs && Holds(runs[r].run, lease, Running, now)
                && lease.worker == worker && lease.token == token
    {
      hide After, Next, Recovered, RecoverableIn, ExhaustedIn, PoisonedAll, AllRecoveries, AllTerminalize,
           AllHousekeeping, OldestFor, NoneFor, OnCanvases;
      ghost var s := Contents();
      var completed, recovered := FinalizeExpiredPatchReadyRuns(locked, draw);
      ghost var middle := Contents();
      var terminalized, poisoned := TerminalizeExhaustedRuns(locked);
      AfterMore(s, recovered, poisoned);
      SweptInTwo(s, middle, Contents(), locked);
      Housekeeping(recovered, poisoned);
      before := recovered + poisoned;
      claimed := ClaimFirst(worker, token, locked);
    }

    method ClaimFirst(worker: Id, token: Id, locked: set<Id>) returns (claimed: Option<(Id, Lease)>)
      requires OnCanvases()
      modifies this`runs, this`journals
      ensures OnCanvases() && runs.Keys == old(runs).Keys
      ensures claimed.None? ==> Contents() == old(Contents()) && NoneFor(Contents(), locked, ClaimRun(worker, token))
      ensures claimed.Some? ==>
                var (r, lease) := claimed.value;
                && Contents() == Next(old(Contents()), Act(r, ClaimRun(worker, token)))
                && OldestFor(old(Contents()), locked, ClaimRun(worker, token), r)
                && r in runs && Holds(runs[r].run, lease, Running, now)
                && lease.worker == worker && lease.token == token
    {
      hide Next;
      var candidates := set r | r in runs && r !in locked && Claimable(runs[r].run, now);
      assert candidates == ClaimableIn(Contents(), locked);
      FirstIsOldest(Contents(), locked, worker, token);
      if candidates == {} { return None; }
      var r := First(candidates);
      var lease := Claimed(r, worker, token);
      return Some((r, lease));
    }

    method RenewLease(r: Id, lease: Lease) returns (renewed: bool)
      requires OnCanvases()
      modifies this`runs
      ensures Contents() == Next(old(Contents()), Act(r, Renew(lease)))
      ensures renewed <==> r in old(runs) && Holds(old(runs)[r].run, lease, Running, now)
      ensures renewed ==> Holds(runs[r].run, lease, Running, now + LEASE_SECONDS - 1)
    {
      hide AppendAll;
      ghost var s := Contents();
      if r !in runs || !Holds(runs[r].run, lease, Running, now) {
        NoStep(s, r, Renew(lease));
        return false;
      }
      runs := runs[r := runs[r].(run := runs[r].run.(heartbeatAt := Some(now), expiresAt := Some(now + LEASE_SECONDS)))];
      SavedQuietly(s, r, Renew(lease), runs[r]);
      return true;
    }

    // ---- execution.py ----

    /** `_cancel_if_requested`. */
    method CancelIfRequested(r: Id, lease: Lease, stage: Option<Id>) returns (held: bool, cancelled: bool)
      requires OnCanvases()
      modifies this`runs, this`journals
      ensures Contents() == Next(old(Contents()), Act(r, ObserveCancel(lease, stage))) && OnCanvases()
      ensures held <==> r in old(runs) && Holds(old(runs)[r].run, lease, Running, now)
      ensures cancelled <==> held && old(runs)[r].run.cancelRequestedAt.Some?
      ensures cancelled ==> r in runs && runs[r].run.status.Cancelled?
      ensures !cancelled ==> Contents() == old(Contents())
    {
      hide Append, AppendAll;
      ghost var s := Contents();
      if r !in runs || !Holds(runs[r].run, lease, Running, now) {
        NoStep(s, r, ObserveCancel(lease, stage));
        return false, false;
      }
      if runs[r].run.cancelRequestedAt.None? {
        NoStep(s, r, ObserveCancel(lease, stage));
        return true, false;
      }
      FinalizeCancelledRun(r, stage, ObserveCancel(lease, stage));
      return true, true;
    }

    method FinalizeCancelledRun(r: Id, stage: Option<Id>, ghost action: Action)
      requires OnCanvases() && r in runs
      requires Decide(runs[r], now, action) == CancelledBy(runs[r], stage, now)
      modifies this`runs, this`journals
      ensures Contents() == Next(old(Contents()), Act(r, action)) && OnCanvases()
      ensures r in runs && runs[r].run.status.Cancelled?
    {
      ghost var s := Contents();
      hide Append, AppendAll, Decide;
      var record := runs[r];
      if stage.Some? && stage.value in record.stages && record.stages[stage.value].status.StageRunning? {
        var row := record.stages[stage.value];
        row := row.(status := StageFailed);
        row := row.(error := Some(RunError(RunWasCancelled, false, Some(row.name))));
        record := record.(stages := record.stages[stage.value := row]);
      }
      var run := record.run;
      run := run.(status := Cancelled);
      run := run.(completedAt := Some(now));
      run := run.(worker := None, token := None, heartbeatAt := None, expiresAt := None);
      runs := runs[r := record.(run := run)];
      AppendEventLocked(r, RunCancelled(run.attempt));
      SavedWithEvent(s, r, action, runs[r], RunCancelled(run.attempt));
    }

    /** The checkpoint is the completed output when it is reused, and the stage row to work on otherwise. */
    method BeginStage(r: Id, lease: Lease, name: StageName, digest: Digest, newId: Id)
      returns (held: bool, stage: Id, reused: Option<Output>)
      requires OnCanvases() && (r in runs ==> StageState(runs[r]) && newId !in runs[r].stages)
      modifies this`runs, this`journals
      ensures Contents() == Next(old(Contents()), Act(r, Action.BeginStage(lease, name, digest, newId))) && OnCanvases()
      ensures held <==> r in old(runs) && Holds(old(runs)[r].run, lease, Running, now)
      ensures held ==>
                && r in runs && stage in runs[r].stages
                && runs[r].stages[stage].name == name && runs[r].stages[stage].digest == digest
                && (reused.Some? ==> runs == old(runs) && runs[r].stages[stage].status.StageCompleted?
                                     && runs[r].stages[stage].output == reused)
                && (reused.None? ==> runs[r].stages[stage].status.StageRunning?
                                     && runs[r].run.canvas in journals && Holds(runs[r].run, lease, Running, now)
                                     && runs[r].run == old(runs)[r].run.(currentStage := Some(name)))
    {
      hide Append, AppendAll, Holds;
      ghost var s := Contents();
      ghost var action := Action.BeginStage(lease, name, digest, newId);
      if r !in runs || !Holds(runs[r].run, lease, Running, now) {
        NoStep(s, r, action);
        return false, newId, None;
      }
      var record := runs[r];
      var row := Stage(name, digest, StageRunning, 1, None, None);
      stage := newId;
      if id :| id in record.stages && record.stages[id].name == name && record.stages[id].digest == digest {
        assert id == StageFor(record.stages, digest, name);
        if record.stages[id].status.StageCompleted? {
          NoStep(s, r, action);
          return true, id, record.stages[id].output;
        }
        row := record.stages[id];
        row := row.(status := StageRunning);
        row := row.(attempt := row.attempt + 1);
        row := row.(error := None, output := None);
        stage := id;
      }
      record := record.(stages := record.stages[stage := row]);
      runs := runs[r := record.(run := record.run.(currentStage := Some(name)))];
      AppendEventLocked(r, StageStarted(name, row.attempt));
      SavedWithEvent(s, r, action, runs[r], StageStarted(name, row.attempt));
      StageKeepsLease(record.run, name, lease, now);
      return true, stage, None;
    }

    /** ok is false when the lease is lost or the stage is no longer active. */
    method CompleteStage(r: Id, lease: Lease, stage: Id, name: StageName, output: Output, progress: seq<Progress>)
      returns (held: bool, ok: bool)
      requires OnCanvases()
      modifies this`runs, this`journals
      ensures Contents() == Next(old(Contents()), Act(r, Action.CompleteStage(lease, stage, name, output, progress)))
      ensures held <==> r in old(runs) && Holds(old(runs)[r].run, lease, Running, now)
      ensures ok <==> held && stage in old(runs)[r].stages && old(runs)[r].stages[stage].status.StageRunning?
      ensures OnCanvases() && (held ==> r in runs && runs[r].run == old(runs)[r].run)
    {
      hide Append, Holds;
      ghost var s := Contents();
      ghost var action := Action.CompleteStage(lease, stage, name, output, progress);
      if r !in runs || !Holds(runs[r].run, lease, Running, now) {
        NoStep(s, r, action);
        return false, false;
      }
      var record := runs[r];
      if stage !in record.stages || !record.stages[stage].status.StageRunning? {
        NoStep(s, r, action);
        return true, false;
      }
      var row := record.stages[stage];
      row := row.(status := StageCompleted);
      row := row.(output := Some(output));
      row := row.(error := None);
      runs := runs[r := record.(stages := record.stages[stage := row])];
      AppendProgress(r, progress, name);
      return true, true;
    }

    method AppendProgress(r: Id, progress: seq<Progress>, name: StageName)
      requires OnCanvases() && r in runs
      modifies this`journals
      ensures var canvas := runs[r].run.canvas;
              journals == old(journals)[canvas := AppendAll(old(journals)[canvas], r, Told(progress) + [StageDone(name)])]
    {
      ghost var canvas, before := runs[r].run.canvas, journals;
      ghost var told := Told(progress);
      assert AppendAll(before[canvas], r, told[..0]) == before[canvas];
      assert before[canvas := before[canvas]] == before;
      hide Append, AppendAll, Told;
      for i := 0 to |progress|
        invariant journals == before[canvas := AppendAll(before[canvas], r, told[..i])]
      {
        AppendEventLocked(r, StageNews(progress[i]));
        AppendedOneMore(before[canvas], r, told[..i], told[i]);
        assert told[..i + 1] == told[..i] + [told[i]];
      }
      assert told[..|progress|] == told;
      AppendEventLocked(r, StageDone(name));
      AppendedOneMore(before[canvas], r, told, StageDone(name));
    }

    method AppendProgressEvent(r: Id, lease: Lease, item: Progress) returns (held: bool)
      requires OnCanvases()
      modifies this`journals
      ensures Contents() == Next(old(Contents()), Act(r, Report(lease, item))) && OnCanvases()
      ensures held <==> r in runs && Holds(runs[r].run, lease, Running, now)
    {
      hide Append, AppendAll, Holds;
      ghost var s := Contents();
      if r !in runs || !Holds(runs[r].run, lease, Running, now) {
        NoStep(s, r, Report(lease, item));
        return false;
      }
      AppendEventLocked(r, StageNews(item));
      SavedWithEvent(s, r, Report(lease, item), runs[r], StageNews(item));
      assert runs[r := runs[r]] == runs;
      return true;
    }

    method FailRun(r: Id, lease: Lease, error: RunError, stage: Option<Id>) returns (held: bool)
      requires OnCanvases()
      modifies this`runs, this`journals
      ensures Contents() == Next(old(Contents()), Act(r, Fail(lease, error, stage))) && OnCanvases()
      ensures held <==> r in old(runs) && Holds(old(runs)[r].run, lease, Running, now)
      ensures held ==> r in runs && runs[r].run.status.Failed? && runs[r].run.base == old(runs)[r].run.base
      ensures held ==> runs[r].run.error == Some(Persisted(old(runs)[r].run, error))
    {
      hide Append, AppendAll, Holds;
      ghost var s := Contents();
      if r !in runs || !Holds(runs[r].run, lease, Running, now) {
        NoStep(s, r, Fail(lease, error, stage));
        return false;
      }
      var record := runs[r];
      var run := record.run;
      var persisted := error;
      if error.retryable && run.attempt >= run.maxAttempts {
        persisted := RunError(AttemptsExhausted, false, error.stage);
      }
      if stage.Some? && stage.value in record.stages && record.stages[stage.value].status.StageRunning? {
        var row := record.stages[stage.value];
        row := row.(status := StageFailed);
        row := row.(error := Some(error));
        record := record.(stages := record.stages[stage.value := row]);
      }
      run := run.(status := Failed);
      run := run.(error := Some(persisted));
      run := run.(completedAt := Some(now));
      run := run.(worker := None, token := None, heartbeatAt := None, expiresAt := None);
      runs := runs[r := record.(run := run)];
      AppendEventLocked(r, RunFailed(persisted, run.attempt));
      SavedWithEvent(s, r, Fail(lease, error, stage), runs[r], RunFailed(persisted, run.attempt));
      return true;
    }

    /** The first transaction of `_persist_patch_then_complete`: the patch, or the cancellation seen first. */
    method PersistPatch(r: Id, lease: Lease, patchId: Id, operations: seq<string>) returns (held: bool, ready: bool)
      requires OnCanvases()
      modifies this`runs, this`journals
      ensures Contents() == Next(old(Contents()), Act(r, Action.PersistPatch(lease, patchId, operations))) && OnCanvases()
      ensures held <==> r in old(runs) && Holds(old(runs)[r].run, lease, Running, now)
      ensures ready <==> held && old(runs)[r].run.cancelRequestedAt.None?
      ensures ready ==> r in runs && Holds(runs[r].run, lease, PatchReady, now)
                        && runs[r].patch == Some(if old(runs)[r].patch.Some? then old(runs)[r].patch.value
                                                 else Patch(patchId, old(runs)[r].run.base, operations))
    {
      hide Append, AppendAll;
      ghost var s := Contents();
      ghost var action := Action.PersistPatch(lease, patchId, operations);
      if r !in runs || !Holds(runs[r].run, lease, Running, now) {
        NoStep(s, r, action);
        return false, false;
      }
      if runs[r].run.cancelRequestedAt.Some? {
        FinalizeCancelledRun(r, None, action);
        return true, false;
      }
      var record := runs[r];
      var patch := if record.patch.Some? then record.patch.value else Patch(patchId, record.run.base, operations);
      record := record.(patch := Some(patch));
      runs := runs[r := record.(run := record.run.(status := PatchReady))];
      AppendEventLocked(r, PatchIsReady(patch.id, |operations|));
      SavedWithEvent(s, r, action, runs[r], PatchIsReady(patch.id, |operations|));
      return true, true;
    }

    // ---- services.py ----

    method CreateGenerationRun(id: Id, request: NewRun) returns (result: ServiceResult)
      requires OnCanvases() && id !in used
      modifies this`runs, this`used
      ensures Contents() == Next(old(Contents()), Create(id, request)) && OnCanvases()
      ensures result == CreatedRun(id) <==> Contents() != old(Contents())
      ensures result.CreatedRun? ==> result.id == id && !KeyTaken(old(Contents()), request.canvas, request.key)
      ensures result.NotFound? <==> request.canvas !in journals
      ensures result.KeyConflict? ==> exists r :: r in runs && SameKey(runs[r].run, request) && runs[r].run.fingerprint != request.fingerprint
      ensures result.Answered? ==> exists r :: (r in runs && SameKey(runs[r].run, request)
                && runs[r].run.fingerprint == request.fingerprint && runs[r].run.status == result.status)
      ensures !result.Refused?
    {
      if request.canvas !in journals { return NotFound; }
      if r :| r in runs && SameKey(runs[r].run, request) {
        if runs[r].run.fingerprint != request.fingerprint { return KeyConflict; }
        return Answered(runs[r].run.status);
      }
      runs := runs[id := Fresh(request, now)];
      used := used + {id};
      return CreatedRun(id);
    }

    method CancelGenerationRun(r: Id) returns (result: ServiceResult)
      requires OnCanvases()
      modifies this`runs, this`journals
      ensures Contents() == Next(old(Contents()), Act(r, RequestCancel)) && OnCanvases()
      ensures result.NotFound? <==> r !in old(runs)
      ensures r in old(runs) ==>
                var status := old(runs)[r].run.status;
                && (result.Refused? <==> status.PatchReady? || status.Completed? || status.Failed?)
                && (result == Answered(Cancelled) <==> status.Queued? || status.Cancelled?)
                && (result == Answered(Running) <==> status.Running?)
    {
      hide Append, AppendAll;
      ghost var s := Contents();
      if r !in runs { NoStep(s, r, RequestCancel); return NotFound; }
      var run := runs[r].run;
      if run.status.Cancelled? {
        NoStep(s, r, RequestCancel);
        return Answered(Cancelled);
      }
      if run.status.Queued? {
        run := run.(status := Cancelled);
        run := run.(cancelRequestedAt := Some(now));
        run := run.(completedAt := Some(now));
        runs := runs[r := runs[r].(run := run)];
        AppendEventLocked(r, RunCancelled(run.attempt));
        SavedWithEvent(s, r, RequestCancel, runs[r], RunCancelled(run.attempt));
        return Answered(Cancelled);
      }
      if run.status.Running? {
        if run.cancelRequestedAt.None? {
          run := run.(cancelRequestedAt := Some(now));
          runs := runs[r := runs[r].(run := run)];
          SavedQuietly(s, r, RequestCancel, runs[r]);
        } else {
          NoStep(s, r, RequestCancel);
        }
        return Answered(Running);
      }
      NoStep(s, r, RequestCancel);
      return Refused;
    }

    method RetryGenerationRun(r: Id) returns (result: ServiceResult)
      requires OnCanvases()
      modifies this`runs, this`journals
      ensures Contents() == Next(old(Contents()), Act(r, Retry)) && OnCanvases()
      ensures result.NotFound? <==> r !in old(runs)
      ensures result == Answered(Queued) <==> r in old(runs) && Retryable(old(runs)[r].run)
    {
      hide Append, AppendAll;
      ghost var s := Contents();
      if r !in runs { NoStep(s, r, Retry); return NotFound; }
      var run := runs[r].run;
      if !run.status.Failed? || run.error.None? || !run.error.value.retryable || run.worker.Some? || run.token.Some?
         || run.expiresAt.Some? || run.attempt >= run.maxAttempts {
        NoStep(s, r, Retry);
        return Refused;
      }
      run := run.(status := Queued);
      run := run.(currentStage := None);
      run := run.(cancelRequestedAt := None);
      run := run.(error := None);
      run := run.(completedAt := None);
      runs := runs[r := runs[r].(run := run)];
      AppendEventLocked(r, RetryRequested(run.attempt + 1));
      SavedWithEvent(s, r, Retry, runs[r], RetryRequested(run.attempt + 1));
      return Answered(Queued);
    }

    // ---- demo/cleanup.py, demo/services.py ----

    method FenceAndTerminalizeRun(r: Id, cancelled: bool, ghost action: Action)
      requires OnCanvases() && r in runs && Decide(runs[r], now, action) == FencedOff(runs[r], cancelled, now)
      modifies this`runs, this`journals
      ensures Contents() == Next(old(Contents()), Act(r, action)) && OnCanvases()
      ensures runs == old(runs)[r := FencedOff(old(runs)[r], cancelled, now).record]
      ensures journals.Keys == old(journals).Keys
    {
      hide Append, AppendAll, Decide;
      ghost var s := Contents();
      var run := runs[r].run;
      run := run.(status := if cancelled then Cancelled else Completed);
      run := run.(cancelRequestedAt := if cancelled then Some(now) else run.cancelRequestedAt);
      run := run.(completedAt := Some(now));
      run := run.(worker := None, token := None, heartbeatAt := None, expiresAt := None);
      run := run.(epoch := run.epoch + 1);
      runs := runs[r := runs[r].(run := run)];
      var news := if cancelled then RunCancelled(run.attempt) else RunCompleted(None, run.attempt);
      AppendEventLocked(r, news);
      SavedWithEvent(s, r, action, runs[r], news);
    }

    /** The body of cleanup's loop over the active runs of a session. */
    method CleanupRun(r: Id) returns (live: bool)
      requires OnCanvases() && r in runs && Active(runs[r].run)
      modifies this`runs, this`journals
      ensures Contents() == Next(old(Contents()), Act(r, CleanupVisit)) && OnCanvases()
      ensures runs == old(runs)[r := Decide(old(runs)[r], now, CleanupVisit).record]
      ensures journals.Keys == old(journals).Keys
      ensures live <==> LiveOwner(old(runs)[r].run, now)
    {
      hide Append, AppendAll, FencedOff;
      ghost var s := Contents();
      var run := runs[r].run;
      if run.status.Queued? {
        FenceAndTerminalizeRun(r, true, CleanupVisit);
        return false;
      }
      var leaseIsExpired := run.expiresAt.None? || run.expiresAt.value <= now;
      if run.status.PatchReady? && leaseIsExpired {
        FenceAndTerminalizeRun(r, false, CleanupVisit);
        return false;
      }
      if run.status.Running? && leaseIsExpired {
        FenceAndTerminalizeRun(r, true, CleanupVisit);
        return false;
      }
      if run.cancelRequestedAt.None? {
        run := run.(cancelRequestedAt := Some(now));
        runs := runs[r := runs[r].(run := run)];
        SavedQuietly(s, r, CleanupVisit, runs[r]);
      } else {
        NoStep(s, r, CleanupVisit);
        assert runs[r := runs[r]] == runs;
      }
      return true;
    }

    method ResetRun(r: Id)
      requires OnCanvases() && r in runs && Active(runs[r].run)
      modifies this`runs, this`journals
      ensures Contents() == Next(old(Contents()), Act(r, ResetVisit)) && OnCanvases()
      ensures runs == old(runs)[r := Decide(old(runs)[r], now, ResetVisit).record]
      ensures journals.Keys == old(journals).Keys
    {
      FenceAndTerminalizeRun(r, true, ResetVisit);
    }

    method DeleteCanvasRows(canvas: Id)
      requires OnCanvases()
      modifies this`runs, this`journals
      ensures Contents() == Next(old(Contents()), DeleteCanvas(canvas)) && OnCanvases()
    {
      runs := map r | r in runs && runs[r].run.canvas != canvas :: runs[r];
      journals := journals - {canvas};
    }

    method OpenCanvasRows(canvas: Id)
      requires OnCanvases()
      modifies this`journals
      ensures Contents() == Next(old(Contents()), OpenCanvas(canvas)) && OnCanvases()
    {
      if canvas !in journals {
        journals := journals[canvas := Journal(0, [])];
      }
    }
  }
}
