/** The browser's fold of a run's events against the server's row: where they agree, and the one case
    where the suppressed terminal event keeps them apart. */
module ServerClient {
  import opened Reachability
  import opened GraphTypes
  import opened RunModel
  import opened RunLog
  import opened ClientReducer
  import opened RunInvariant

  ghost predicate FailureOf(mine: seq<News>, attempt: nat) {
    exists i :: 0 <= i < |mine| && mine[i].RunFailed? && mine[i].attempt == attempt
  }

  function PatchIdOf(record: Record): Option<Id> {
    if record.patch.Some? then Some(record.patch.value.id) else None
  }

  /** The browser still shows "queued" for a run that was cancelled. */
  predicate Stranded(run: Run, view: View) {
    run.status.Cancelled? && view.status.Queued?
  }

  /** Everything but the status agrees always; the status agrees unless the run was cancelled while it
      waited for a retry, that is, unless the cancelled attempt already has its failure in the log. */
  ghost predicate Agrees(record: Record, mine: seq<News>) {
    var run, view := record.run, Fold(mine);
    if mine == [] then run.status.Queued? && run.attempt == 0 && run.error.None? && record.patch.None?
    else
      && view.attempt == run.attempt && view.maxAttempts == run.maxAttempts
      && view.patchId == PatchIdOf(record) && view.error == run.error
      && (view.status == run.status || Stranded(run, view))
      && (Stranded(run, view) <==> run.status.Cancelled? && FailureOf(mine, run.attempt))
      && (run.status.Queued? || run.status.Failed? ==> FailureOf(mine, run.attempt))
  }

  lemma FoldOne(mine: seq<News>, news: News)
    ensures Fold(mine + [news]) == ApplyNews(Fold(mine), news)
  {
    assert (mine + [news])[..|mine|] == mine;
  }

  lemma HearOne(mine: seq<News>, news: News)
    ensures HearAll(mine, [news]) == Hear(mine, news)
    ensures HearAll(mine, []) == mine
  {
    assert [news][..0] == [];
  }

  lemma FailureIsEnding(mine: seq<News>, attempt: nat)
    requires FailureOf(mine, attempt)
    ensures Endings(mine, attempt) > 0
  {
    EndedIsCounted(mine, attempt);
    var i :| 0 <= i < |mine| && mine[i].RunFailed? && mine[i].attempt == attempt;
    assert Terminal(mine[i]);
  }

  lemma FailureGrows(mine: seq<News>, news: News, attempt: nat)
    ensures FailureOf(mine + [news], attempt) <==>
            FailureOf(mine, attempt) || (news.RunFailed? && news.attempt == attempt)
  {
    var longer := mine + [news];
    if FailureOf(mine, attempt) {
      var i :| 0 <= i < |mine| && mine[i].RunFailed? && mine[i].attempt == attempt;
      assert longer[i] == mine[i];
    }
    if news.RunFailed? && news.attempt == attempt {
      assert longer[|mine|] == news;
    }
  }

  /** Stage chatter moves neither the status nor the attempt, error or patch of the view. */
  predicate Chatter(news: News) {
    news.StageNews? || news.StageDone?
  }

  lemma ChatterIsHarmless(record: Record, mine: seq<News>, news: News)
    requires Agrees(record, mine) && mine != [] && Chatter(news)
    ensures Agrees(record, Hear(mine, news)) && Hear(mine, news) != []
  {
    FoldOne(mine, news);
    FailureGrows(mine, news, record.run.attempt);
    hide Fold, FailureOf, UpsertSource, UpsertClaim;
  }

  lemma {:induction false} ChatterKeepsAgreement(record: Record, mine: seq<News>, news: seq<News>)
    requires Agrees(record, mine) && mine != []
    requires forall i :: 0 <= i < |news| ==> Chatter(news[i])
    ensures Agrees(record, HearAll(mine, news)) && HearAll(mine, news) != []
    decreases |news|
  {
    if news != [] {
      ChatterKeepsAgreement(record, mine, news[..|news| - 1]);
      hide Agrees, Hear;
      ChatterIsHarmless(record, HearAll(mine, news[..|news| - 1]), news[|news| - 1]);
    }
  }

  /** One event that is appended. */
  lemma EventKeepsAgreement(after: Record, mine: seq<News>, news: News)
    requires Terminal(news) ==> !Ended(mine, news.attempt)
    requires var view := ApplyNews(Fold(mine), news);
             && view.attempt == after.run.attempt && view.maxAttempts == after.run.maxAttempts
             && view.patchId == PatchIdOf(after) && view.error == after.run.error && view.status == after.run.status
    requires after.run.status.Queued? ==> FailureOf(mine, after.run.attempt)
    requires after.run.status.Failed? ==> news.RunFailed? && news.attempt == after.run.attempt
    requires after.run.status.Cancelled? ==> news.RunCancelled? && !FailureOf(mine, after.run.attempt)
    ensures Agrees(after, HearAll(mine, [news]))
  {
    HearOne(mine, news);
    FoldOne(mine, news);
    FailureGrows(mine, news, after.run.attempt);
    hide Fold, FailureOf;
  }

  /** No terminal event is lost while a run is leased: only then is the current attempt still open. */
  lemma OpenAttempt(record: Record, mine: seq<News>)
    requires EndsOnce(record.run, mine)
    ensures EndingsNow(record.run) == 0 ==> !Ended(mine, record.run.attempt) && !FailureOf(mine, record.run.attempt)
    ensures EndingsNow(record.run) == 1 ==> Ended(mine, record.run.attempt)
    ensures forall a: nat :: record.run.attempt < a ==> !FailureOf(mine, a)
  {
    EndedIsCounted(mine, record.run.attempt);
    forall a: nat | FailureOf(mine, a) ensures Endings(mine, a) > 0 { FailureIsEnding(mine, a); }
  }

  /** The step that strands the browser: ending a run from the queue after a retry. */
  predicate EndsFromRequeue(run: Run, action: Action) {
    && run.status.Queued? && 0 < run.attempt
    && (action.RequestCancel? || action.CleanupVisit? || action.ResetVisit?)
  }

  lemma NoNewsNoChange(record: Record, now: int, action: Action)
    requires RowSound(record) && Decide(record, now, action).news == []
    ensures var run := Decide(record, now, action).record.run;
            && run.status == record.run.status && run.attempt == record.run.attempt
            && run.maxAttempts == record.run.maxAttempts && run.error == record.run.error
            && Decide(record, now, action).record.patch == record.patch
  {
    if action.BeginStage? {
      BeginKeepsStatus(record, action.name, action.digest, action.id);
    }
    hide Begun;
  }

  lemma NewsOfAction(record: Record, now: int, action: Action)
    requires RowSound(record)
    ensures var outcome := Decide(record, now, action); var run := outcome.record.run;
            || outcome.news == []
            || (action.CompleteStage? && record.run.status.Running? && run == record.run
                && outcome.record.patch == record.patch && forall i :: 0 <= i < |outcome.news| ==> Chatter(outcome.news[i]))
            || |outcome.news| == 1
  {
    if action.BeginStage? {
      BeginKeepsStatus(record, action.name, action.digest, action.id);
    }
    hide Begun;
  }

  /** What one event says about the row before and after it. */
  predicate Tells(before: Record, after: Record, news: News) {
    var was, run := before.run, after.run;
    && run.maxAttempts == was.maxAttempts
    && (!news.PatchIsReady? ==> PatchIdOf(after) == PatchIdOf(before))
    && match news
       case RunStarted(attempt, _, _) => Restarted(was, run, attempt)
       case RunResumed(attempt, _, _) => Restarted(was, run, attempt)
       case RetryRequested(_) => was.status.Failed? && run.status.Queued? && run.attempt == was.attempt && run.error.None?
       case StageStarted(_, _) => Unmoved(was, run)
       case StageDone(_) => Unmoved(was, run)
       case StageNews(_) => Unmoved(was, run)
       case PatchIsReady(patch, _) =>
         was.status.Running? && run.status.PatchReady? && PatchIdOf(after) == Some(patch) && run.attempt == was.attempt
         && run.error == was.error
       case RunCompleted(patch, attempt) =>
         Active(was) && run.status.Completed? && run.attempt == was.attempt == attempt && run.error == was.error
         && (patch.Some? ==> patch == PatchIdOf(before)) && !was.status.Queued?
       case RunFailed(error, attempt) =>
         Leased(was.status) && run.status.Failed? && run.attempt == was.attempt == attempt && run.error == Some(error)
       case RunCancelled(attempt) =>
         Active(was) && run.status.Cancelled? && run.attempt == was.attempt == attempt && run.error == was.error
  }

  predicate Restarted(was: Run, run: Run, attempt: nat) {
    run.status.Running? && run.attempt == attempt == was.attempt + 1 && run.error.None? && Active(was)
  }

  predicate Unmoved(was: Run, run: Run) {
    was.status.Running? && run.status.Running? && run.attempt == was.attempt && run.error == was.error
  }

  lemma OneEventTells(record: Record, now: int, action: Action)
    requires RowSound(record) && |Decide(record, now, action).news| == 1 && !action.CompleteStage?
    ensures Tells(record, Decide(record, now, action).record, Decide(record, now, action).news[0])
    ensures Decide(record, now, action).news[0].RunCancelled? && record.run.status.Queued? && 0 < record.run.attempt ==>
              EndsFromRequeue(record.run, action)
  {
    if action.BeginStage? {
      BeginKeepsStatus(record, action.name, action.digest, action.id);
    }
    hide Begun, StageFinished, StageFailedBy;
  }

  lemma ToldKeepsAgreement(record: Record, after: Record, mine: seq<News>, news: News)
    requires RowSound(record) && EndsOnce(record.run, mine) && Agrees(record, mine) && Tells(record, after, news)
    requires !(news.RunCancelled? && record.run.status.Queued? && 0 < record.run.attempt)
    ensures Agrees(after, HearAll(mine, [news])) && HearAll(mine, [news]) != []
  {
    OpenAttempt(record, mine);
    HearOne(mine, news);
    hide FailureOf, Ended, EndsOnce, HearAll, Endings, UpsertSource, UpsertClaim;
    if mine == [] {
      EventKeepsAgreement(after, mine, news);
    } else {
      hide Fold;
      EventKeepsAgreement(after, mine, news);
    }
  }

  lemma OneEventAction(record: Record, mine: seq<News>, now: int, action: Action)
    requires RowSound(record) && EndsOnce(record.run, mine) && Agrees(record, mine)
    requires |Decide(record, now, action).news| == 1 && !action.CompleteStage?
    requires !EndsFromRequeue(record.run, action)
    ensures Agrees(Decide(record, now, action).record, HearAll(mine, Decide(record, now, action).news))
    ensures HearAll(mine, Decide(record, now, action).news) != []
  {
    hide *;
    var outcome := Decide(record, now, action);
    assert outcome.news == [outcome.news[0]];
    OneEventTells(record, now, action);
    ToldKeepsAgreement(record, outcome.record, mine, outcome.news[0]);
  }

  lemma FailureNotLost(mine: seq<News>, news: seq<News>, attempt: nat)
    requires FailureOf(mine, attempt) && mine <= news
    ensures FailureOf(news, attempt)
  {
    var i :| 0 <= i < |mine| && mine[i].RunFailed? && mine[i].attempt == attempt;
    assert news[i] == mine[i];
  }

  /** Ending a requeued run is not announced: its attempt already has its failure. */
  lemma EndFromRequeueIsSilent(record: Record, mine: seq<News>, now: int, action: Action)
    requires RowSound(record) && EndsOnce(record.run, mine) && Agrees(record, mine)
    requires EndsFromRequeue(record.run, action)
    ensures var after := Decide(record, now, action).record;
            && HearAll(mine, Decide(record, now, action).news) == mine
            && mine != [] && Agrees(after, mine) && Stranded(after.run, Fold(mine))
  {
    OpenAttempt(record, mine);
    HearOne(mine, RunCancelled(record.run.attempt));
    hide FailureOf, Ended, EndsOnce, HearAll, Endings;
  }

  lemma ActionKeepsAgreement(record: Record, mine: seq<News>, now: int, action: Action)
    requires RowSound(record) && EndsOnce(record.run, mine) && Agrees(record, mine)
    ensures Agrees(Decide(record, now, action).record, HearAll(mine, Decide(record, now, action).news))
  {
    var outcome := Decide(record, now, action);
    if outcome.news == [] {
      NoNewsNoChange(record, now, action);
      HearOne(mine, RunCancelled(0));
      hide Decide, Fold, FailureOf, EndsOnce;
    } else if EndsFromRequeue(record.run, action) {
      EndFromRequeueIsSilent(record, mine, now, action);
      hide *;
    } else {
      NewsOfAction(record, now, action);
      if action.CompleteStage? {
        assert mine != [];
        hide Decide;
        ChatterKeepsAgreement(outcome.record, mine, outcome.news) by { hide Fold, FailureOf; }
      } else {
        hide *;
        OneEventAction(record, mine, now, action);
      }
    }
  }

  /** A browser that agrees with the server is stranded by exactly one kind of step. */
  lemma StrandedExactlyFromRequeue(record: Record, mine: seq<News>, now: int, action: Action)
    requires RowSound(record) && EndsOnce(record.run, mine) && Agrees(record, mine)
    requires mine != [] && !Stranded(record.run, Fold(mine))
    ensures var after := Decide(record, now, action);
            Stranded(after.record.run, Fold(HearAll(mine, after.news))) <==> EndsFromRequeue(record.run, action)
  {
    var after := Decide(record, now, action);
    if EndsFromRequeue(record.run, action) {
      EndFromRequeueIsSilent(record, mine, now, action);
    } else {
      NotStranded(record, mine, now, action);
    }
  }

  lemma CancelledIsFinal(record: Record, now: int, action: Action)
    requires RowSound(record) && record.run.status.Cancelled?
    ensures Decide(record, now, action) == Unchanged(record)
  {
  }

  lemma NotStranded(record: Record, mine: seq<News>, now: int, action: Action)
    requires RowSound(record) && EndsOnce(record.run, mine) && Agrees(record, mine)
    requires mine != [] && !Stranded(record.run, Fold(mine)) && !EndsFromRequeue(record.run, action)
    ensures var after := Decide(record, now, action);
            !Stranded(after.record.run, Fold(HearAll(mine, after.news)))
  {
    var outcome := Decide(record, now, action);
    if record.run.status.Cancelled? {
      CancelledIsFinal(record, now, action);
      HearOne(mine, RunCancelled(0));
    } else if outcome.record.run.status.Cancelled? {
      CancelledNow(record, now, action);
      OpenAttempt(record, mine);
      HearOne(mine, outcome.news[0]);
      FoldOne(mine, outcome.news[0]);
      hide Decide, Fold, FailureOf, EndsOnce, HearAll;
    }
  }

  /** A cancellation that is announced is announced as one. */
  lemma CancelledNow(record: Record, now: int, action: Action)
    requires RowSound(record) && !EndsFromRequeue(record.run, action)
    requires !record.run.status.Cancelled? && Decide(record, now, action).record.run.status.Cancelled?
    ensures Decide(record, now, action).news == [RunCancelled(record.run.attempt)] && EndingsNow(record.run) == 0
  {
  }

  /** The browser offers a retry exactly when the server would accept one. */
  lemma RetryOfferedIffAccepted(record: Record, mine: seq<News>)
    requires RowSound(record) && Agrees(record, mine) && mine != []
    ensures CanRetryRun(Fold(mine)) <==> Retryable(record.run)
  {
    hide Fold;
  }
}
