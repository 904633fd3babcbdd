/** What every transaction on a run keeps: the lease state constraint, the facts each status carries, one
    terminal event per attempt, and the agreement of the browser's fold with the server. */
module RunInvariant {
  import opened Reachability
  import opened GraphTypes
  import opened StagePlan
  import opened RunModel
  import opened RunLog

  // ---- the row ----

  /** `ck_run_lease_state`: a lease is wholly present while running or patch-ready, wholly absent otherwise. */
  ghost predicate LeaseState(run: Run) {
    if Leased(run.status)
    then run.worker.Some? && run.token.Some? && run.heartbeatAt.Some? && run.expiresAt.Some?
    else run.worker.None? && run.token.None? && run.heartbeatAt.None? && run.expiresAt.None?
  }

  ghost predicate Attempts(run: Run) {
    && run.attempt <= run.maxAttempts == DEFAULT_MAX_ATTEMPTS
    && run.attempt <= run.epoch
    && (run.status.Queued? ==> run.attempt < run.maxAttempts && run.cancelRequestedAt.None?)
    && (Leased(run.status) || run.status.Completed? || run.status.Failed? ==> 0 < run.attempt)
  }

  ghost predicate ErrorState(record: Record) {
    && (record.run.error.Some? <==> record.run.status.Failed?)
    && (record.run.status.Failed? && record.run.error.value.retryable ==>
          record.run.attempt < record.run.maxAttempts && record.patch.None?)
  }

  /** COMPLETED and PATCH_READY carry the one patch of the run; a queued or running run has none. */
  ghost predicate PatchState(record: Record) {
    && (record.run.status.PatchReady? || record.run.status.Completed? ==> record.patch.Some?)
    && (record.run.status.Queued? || record.run.status.Running? ==> record.patch.None?)
  }

  ghost predicate StageState(record: Record) {
    && (forall a, b :: a in record.stages && b in record.stages
          && record.stages[a].name == record.stages[b].name && record.stages[a].digest == record.stages[b].digest
          ==> a == b)
    && (forall a :: a in record.stages ==> (record.stages[a].status.StageCompleted? <==> record.stages[a].output.Some?))
  }

  ghost predicate RowSound(record: Record) {
    LeaseState(record.run) && Attempts(record.run) && ErrorState(record) && PatchState(record)
  }

  lemma ActionKeepsRow(record: Record, now: int, action: Action)
    requires RowSound(record)
    ensures RowSound(Decide(record, now, action).record)
  {
  }

  lemma FailingKeepsStages(record: Record, id: Option<Id>, error: RunError)
    requires StageState(record)
    ensures StageState(record.(stages := StageFailedBy(record.stages, id, error)))
  {
  }

  lemma BeginKeepsStages(record: Record, name: StageName, digest: Digest, id: Id)
    requires StageState(record)
    ensures StageState(Begun(record, name, digest, id).record)
  {
    if HasStage(record.stages, digest, name) {
      var at := StageFor(record.stages, digest, name);
      hide HasStage, StageFor;
      assert forall a :: a in record.stages && record.stages[a].name == name && record.stages[a].digest == digest ==> a == at;
    }
  }

  lemma FinishKeepsStages(record: Record, id: Id, name: StageName, output: Output, progress: seq<Progress>)
    requires StageState(record)
    ensures StageState(StageFinished(record, id, name, output, progress).record)
  {
  }

  /** Only beginning, finishing and failing a stage touch the stage rows. */
  lemma StagesTouched(record: Record, now: int, action: Action)
    ensures var after := Decide(record, now, action).record.stages;
            || after == record.stages
            || (exists id, error :: after == StageFailedBy(record.stages, id, error))
            || (action.BeginStage? && after == Begun(record, action.name, action.digest, action.id).record.stages)
            || (action.CompleteStage? && after == StageFinished(record, action.id, action.name, action.output,
                                                                action.progress).record.stages)
  {
    hide Begun, StageFinished, StageFailedBy;
  }

  lemma ActionKeepsStages(record: Record, now: int, action: Action)
    requires StageState(record)
    ensures StageState(Decide(record, now, action).record)
  {
    StagesTouched(record, now, action);
    var after := Decide(record, now, action).record;
    hide Decide, Begun, StageFinished, StageFailedBy;
    if exists id, error :: after.stages == StageFailedBy(record.stages, id, error) {
      var id, error :| after.stages == StageFailedBy(record.stages, id, error);
      FailingKeepsStages(record, id, error);
    } else if action.BeginStage? {
      BeginKeepsStages(record, action.name, action.digest, action.id);
    } else if action.CompleteStage? {
      FinishKeepsStages(record, action.id, action.name, action.output, action.progress);
    }
  }

  // ---- its events ----

  /** How many terminal events of an attempt there are. */
  function Endings(mine: seq<News>, attempt: nat): nat
    decreases |mine|
  {
    if mine == [] then 0
    else
      var last := mine[|mine| - 1];
      Endings(mine[..|mine| - 1], attempt) + if Terminal(last) && last.attempt == attempt then 1 else 0
  }

  lemma {:induction false} EndedIsCounted(mine: seq<News>, attempt: nat)
    ensures Ended(mine, attempt) <==> Endings(mine, attempt) > 0
    decreases |mine|
  {
    if mine != [] {
      var shorter := mine[..|mine| - 1];
      EndedIsCounted(shorter, attempt);
      if Ended(shorter, attempt) {
        var i :| 0 <= i < |shorter| && Terminal(shorter[i]) && shorter[i].attempt == attempt;
        assert mine[i] == shorter[i];
      }
      if Ended(mine, attempt) {
        var i :| 0 <= i < |mine| && Terminal(mine[i]) && mine[i].attempt == attempt;
        if i < |shorter| {
          assert shorter[i] == mine[i];
        }
      }
    }
  }

  lemma HearCounts(mine: seq<News>, news: News, attempt: nat)
    ensures var more := Terminal(news) && news.attempt == attempt && Endings(mine, attempt) == 0;
            Endings(Hear(mine, news), attempt) == Endings(mine, attempt) + if more then 1 else 0
  {
    if Terminal(news) {
      EndedIsCounted(mine, news.attempt);
    }
    assert (mine + [news])[..|mine|] == mine;
  }

  lemma {:induction false} HearQuietly(mine: seq<News>, news: seq<News>, attempt: nat)
    requires forall i :: 0 <= i < |news| ==> !Terminal(news[i])
    ensures Endings(HearAll(mine, news), attempt) == Endings(mine, attempt)
    decreases |news|
  {
    if news != [] {
      HearQuietly(mine, news[..|news| - 1], attempt);
      HearCounts(HearAll(mine, news[..|news| - 1]), news[|news| - 1], attempt);
    }
  }

  /** How many terminal events the current attempt has: one when the run is over, none while it is leased,
      and one while it waits for a retry (the failure that the retry follows). */
  function EndingsNow(run: Run): nat {
    if Leased(run.status) || (run.status.Queued? && run.attempt == 0) then 0 else 1
  }

  ghost predicate EndsOnce(run: Run, mine: seq<News>) {
    && Endings(mine, run.attempt) == EndingsNow(run)
    && (forall a: nat :: Endings(mine, a) <= 1)
    && (forall a: nat :: run.attempt < a ==> Endings(mine, a) == 0)
  }

  /** Either an action's events are not terminal, or they are the one ending of the current attempt. */
  lemma NewsShape(record: Record, now: int, action: Action)
    ensures var news := Decide(record, now, action).news;
            || (|news| == 1 && Terminal(news[0]) && news[0].attempt == record.run.attempt
                && TerminalStatus(Decide(record, now, action).record.run.status)
                && Decide(record, now, action).record.run.attempt == record.run.attempt)
            || (forall i :: 0 <= i < |news| ==> !Terminal(news[i]))
  {
    hide Holds, Claimable, Exhausted, Recoverable, HasStage;
  }

  /** A status that is not newly terminal moves along with the count of endings. */
  lemma QuietStatus(record: Record, now: int, action: Action)
    requires RowSound(record)
    requires forall i :: 0 <= i < |Decide(record, now, action).news| ==> !Terminal(Decide(record, now, action).news[i])
    ensures var run := Decide(record, now, action).record.run;
            || (run.attempt == record.run.attempt && EndingsNow(run) == EndingsNow(record.run))
            || (run.attempt == record.run.attempt + 1 && EndingsNow(run) == 0)
  {
    var news := Decide(record, now, action).news;
    assert news != [] ==> !Terminal(news[0]);
    hide Begun;
    if action.BeginStage? {
      BeginKeepsStatus(record, action.name, action.digest, action.id);
    }
  }

  lemma BeginKeepsStatus(record: Record, name: StageName, digest: Digest, id: Id)
    ensures var outcome := Begun(record, name, digest, id);
            && outcome.record.run == record.run.(currentStage := outcome.record.run.currentStage)
            && outcome.record.patch == record.patch
            && (outcome.news == [] || (|outcome.news| == 1 && outcome.news[0].StageStarted?))
            && (outcome.news == [] ==> outcome.record == record)
  {
  }

  lemma HearEnding(mine: seq<News>, news: News)
    requires Terminal(news) && forall a: nat :: Endings(mine, a) <= 1
    ensures forall a: nat :: Endings(HearAll(mine, [news]), a) == if a == news.attempt then 1 else Endings(mine, a)
  {
    assert [news][..0] == [];
    assert HearAll(mine, [news]) == Hear(mine, news);
    hide Hear;
    forall a: nat
      ensures Endings(HearAll(mine, [news]), a) == if a == news.attempt then 1 else Endings(mine, a)
    {
      HearCounts(mine, news, a);
    }
  }

  lemma QuietKeepsEndings(before: Run, after: Run, mine: seq<News>, news: seq<News>)
    requires EndsOnce(before, mine) && forall i :: 0 <= i < |news| ==> !Terminal(news[i])
    requires || (after.attempt == before.attempt && EndingsNow(after) == EndingsNow(before))
             || (after.attempt == before.attempt + 1 && EndingsNow(after) == 0)
    ensures EndsOnce(after, HearAll(mine, news))
  {
    hide Endings, HearAll, EndingsNow;
    forall a: nat ensures Endings(HearAll(mine, news), a) == Endings(mine, a) { HearQuietly(mine, news, a); }
  }

  lemma EndingIsTheOne(before: Run, after: Run, mine: seq<News>, news: News)
    requires EndsOnce(before, mine) && Terminal(news) && news.attempt == before.attempt == after.attempt
    requires TerminalStatus(after.status)
    ensures EndsOnce(after, HearAll(mine, [news]))
  {
    HearEnding(mine, news);
    hide Endings, HearAll;
  }

  lemma ActionKeepsEndings(record: Record, mine: seq<News>, now: int, action: Action)
    requires RowSound(record) && EndsOnce(record.run, mine)
    ensures EndsOnce(Decide(record, now, action).record.run, HearAll(mine, Decide(record, now, action).news))
  {
    NewsShape(record, now, action);
    var outcome := Decide(record, now, action);
    if forall i :: 0 <= i < |outcome.news| ==> !Terminal(outcome.news[i]) {
      QuietStatus(record, now, action);
      hide *;
      QuietKeepsEndings(record.run, outcome.record.run, mine, outcome.news);
    } else {
      hide *;
      assert outcome.news == [outcome.news[0]];
      EndingIsTheOne(record.run, outcome.record.run, mine, outcome.news[0]);
    }
  }
}
