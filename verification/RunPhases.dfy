/** What the events of a run tell about its row: which of them announce a change, and the one change that is
    never announced. */
module RunPhases {
  import opened RunModel
  import opened RunLog
  import opened RunInvariant
  import opened ServerClient
  import opened RunTraces
  import opened RunProgress

  /** Announces a change of the status or the attempt; the other events tell about the stages of a running run. */
  predicate Phase(news: News) {
    news.RunStarted? || news.RunResumed? || news.RetryRequested? || news.PatchIsReady? || Terminal(news)
  }

  ghost predicate Quiet(news: seq<News>) {
    forall i :: 0 <= i < |news| ==> !Phase(news[i])
  }

  predicate SameFacts(before: Record, after: Record) {
    && SamePhase(after.run, before.run) && after.run.error == before.run.error && after.patch == before.patch
    && after.run.maxAttempts == before.run.maxAttempts
  }

  /** Ended from the queue after a retry. */
  predicate SilentlyCancelled(before: Record, after: Record) {
    && before.run.status.Queued? && 0 < before.run.attempt && after.run.status.Cancelled?
    && after.run.attempt == before.run.attempt && after.run.error == before.run.error && after.patch == before.patch
    && after.run.maxAttempts == before.run.maxAttempts
  }

  /** A run that was queued and has not been claimed since: still queued, or cancelled, with at most that one event. */
  ghost predicate Unclaimed(before: Record, mine: seq<News>, after: Record, later: seq<News>) {
    if after.run.status.Queued? then later == mine
    else after.run.status.Cancelled? && (later == mine || (before.run.attempt == 0 && later == mine + [RunCancelled(0)]))
  }

  /** Between two points of time, without a phase event the row has stayed, or was cancelled silently; with one,
      its measure has fallen. */
  ghost predicate MovedBy(before: Record, mine: seq<News>, after: Record, later: seq<News>) {
    && mine <= later && before.run.attempt <= after.run.attempt && after.run.maxAttempts == before.run.maxAttempts
    && (if Quiet(later[|mine|..]) then SameFacts(before, after) || SilentlyCancelled(before, after)
        else Measure(after.run) < Measure(before.run))
    && (before.run.status.Cancelled? ==> after == before && later == mine)
    && (before.run.status.Queued? && after.run.attempt == before.run.attempt ==> Unclaimed(before, mine, after, later))
  }

  lemma MovedItself(record: Record, mine: seq<News>)
    ensures MovedBy(record, mine, record, mine)
  {
    assert mine[|mine|..] == [];
  }

  // ---- one transaction ----

  lemma EventTellsPhase(record: Record, now: int, action: Action)
    requires RowSound(record) && |Decide(record, now, action).news| == 1 && !action.CompleteStage?
    ensures var outcome := Decide(record, now, action);
            if Phase(outcome.news[0]) then !SamePhase(outcome.record.run, record.run) else SameFacts(record, outcome.record)
  {
    if action.BeginStage? {
      BeginKeepsStatus(record, action.name, action.digest, action.id);
      hide Begun;
    }
    hide StageFinished, StageFailedBy, ErrorState, PatchState;
  }

  lemma QueuedMoves(record: Record, now: int, action: Action)
    requires RowSound(record) && record.run.status.Queued?
    ensures var outcome := Decide(record, now, action);
            || outcome == Unchanged(record)
            || outcome.record.run.attempt == record.run.attempt + 1
            || (outcome.record.run.status.Cancelled? && outcome.news == [RunCancelled(record.run.attempt)]
                && outcome.record.run.attempt == record.run.attempt && outcome.record.patch == record.patch
                && outcome.record.run.error == record.run.error && outcome.record.run.maxAttempts == record.run.maxAttempts)
  {
    hide Begun, StageFinished, StageFailedBy, ErrorState, PatchState;
  }

  lemma OnlyActiveRunsEnd(record: Record, now: int, action: Action)
    requires |Decide(record, now, action).news| == 1 && Terminal(Decide(record, now, action).news[0])
    ensures Active(record.run) && Decide(record, now, action).news[0].attempt == record.run.attempt
  {
    if action.BeginStage? {
      BeginKeepsStatus(record, action.name, action.digest, action.id);
    }
    hide Begun, StageFailedBy;
  }

  /** A claim is heard and spends the measure. */
  lemma QueuedClaimMoves(record: Record, mine: seq<News>, now: int, action: Action)
    requires RowSound(record) && record.run.status.Queued?
    requires Decide(record, now, action).record.run.attempt == record.run.attempt + 1
    ensures MovedBy(record, mine, Decide(record, now, action).record, HearAll(mine, Decide(record, now, action).news))
  {
    var outcome := Decide(record, now, action);
    ActionSpendsMeasure(record, now, action);
    ClaimIsTold(record, now, action);
    HearOne(mine, outcome.news[0]);
    assert outcome.news == [outcome.news[0]] && (mine + outcome.news)[|mine|..] == outcome.news;
    assert !Quiet(outcome.news);
    hide Decide, Ended, RowSound, HearAll, Quiet, Measure, Unclaimed;
  }

  /** A cancellation is heard, or silent when a failure of the attempt was. */
  lemma QueuedCancelMoves(record: Record, mine: seq<News>, after: Record, news: seq<News>)
    requires record.run.status.Queued? && after.run.status.Cancelled? && news == [RunCancelled(record.run.attempt)]
    requires after.run.attempt == record.run.attempt && after.patch == record.patch && after.run.error == record.run.error
    requires record.run.attempt <= record.run.maxAttempts == after.run.maxAttempts
    requires record.run.attempt == 0 ==> !Ended(mine, 0)
    requires 0 < record.run.attempt ==> Ended(mine, record.run.attempt)
    ensures MovedBy(record, mine, after, HearAll(mine, news))
  {
    HearOne(mine, news[0]);
    assert (mine + news)[|mine|..] == news && mine[|mine|..] == [];
    CancelSpends(record, after);
    hide Ended, HearAll, Measure;
  }

  lemma QueuedActionMoves(record: Record, mine: seq<News>, now: int, action: Action)
    requires RunSound(record, mine) && record.run.status.Queued?
    ensures MovedBy(record, mine, Decide(record, now, action).record, HearAll(mine, Decide(record, now, action).news))
  {
    var outcome := Decide(record, now, action);
    QueuedMoves(record, now, action);
    OpenAttempt(record, mine);
    MovedItself(record, mine);
    HearOne(mine, RunCancelled(0));
    hide Decide, Ended, Agrees, StageState, ErrorState, PatchState, HearAll, MovedBy;
    if outcome.record.run.attempt == record.run.attempt + 1 {
      QueuedClaimMoves(record, mine, now, action);
    } else if outcome != Unchanged(record) {
      QueuedCancelMoves(record, mine, outcome.record, outcome.news);
    }
  }

  lemma CancelSpends(before: Record, after: Record)
    requires before.run.status.Queued? && after.run.status.Cancelled? && after.run.attempt == before.run.attempt
    requires before.run.attempt <= before.run.maxAttempts == after.run.maxAttempts
    ensures Measure(after.run) < Measure(before.run)
  {
  }

  lemma ClaimIsTold(record: Record, now: int, action: Action)
    requires Decide(record, now, action).record.run.attempt == record.run.attempt + 1
    ensures var news := Decide(record, now, action).news;
            |news| == 1 && (news[0].RunStarted? || news[0].RunResumed?)
  {
    AttemptCountsClaims(record, now, action);
  }

  lemma {:induction false} ChatterIsHeard(mine: seq<News>, news: seq<News>)
    requires forall i :: 0 <= i < |news| ==> Chatter(news[i])
    ensures HearAll(mine, news) == mine + news && Quiet(news)
    decreases |news|
  {
    if news == [] {
      assert mine + news == mine;
    } else {
      ChatterIsHeard(mine, news[..|news| - 1]);
      assert mine + news == mine + news[..|news| - 1] + [news[|news| - 1]];
    }
  }

  lemma OtherActionMoves(record: Record, mine: seq<News>, now: int, action: Action)
    requires RunSound(record, mine) && !record.run.status.Queued? && !record.run.status.Cancelled?
    ensures MovedBy(record, mine, Decide(record, now, action).record, HearAll(mine, Decide(record, now, action).news))
  {
    var outcome := Decide(record, now, action);
    NewsOfAction(record, now, action);
    ActionSpendsMeasure(record, now, action);
    AttemptCountsClaims(record, now, action);
    OpenAttempt(record, mine);
    if outcome.news == [] {
      NoNewsNoChange(record, now, action);
      HearOne(mine, RunCancelled(0));
      assert mine[|mine|..] == [];
    } else if action.CompleteStage? && forall i :: 0 <= i < |outcome.news| ==> Chatter(outcome.news[i]) {
      ChatterIsHeard(mine, outcome.news);
      assert (mine + outcome.news)[|mine|..] == outcome.news;
    } else {
      OneEventMoves(record, mine, now, action);
    }
    hide Decide, Ended, EndsOnce, Agrees, StageState, RowSound, HearAll;
  }

  lemma OneEventMoves(record: Record, mine: seq<News>, now: int, action: Action)
    requires RunSound(record, mine) && !record.run.status.Queued? && !record.run.status.Cancelled?
    requires |Decide(record, now, action).news| == 1 && !action.CompleteStage?
    ensures MovedBy(record, mine, Decide(record, now, action).record, HearAll(mine, Decide(record, now, action).news))
  {
    var outcome := Decide(record, now, action);
    EventTellsPhase(record, now, action);
    ActionSpendsMeasure(record, now, action);
    AttemptCountsClaims(record, now, action);
    OpenAttempt(record, mine);
    if Terminal(outcome.news[0]) {
      OnlyActiveRunsEnd(record, now, action);
    }
    HearOne(mine, outcome.news[0]);
    assert outcome.news == [outcome.news[0]];
    assert (mine + outcome.news)[|mine|..] == outcome.news;
    hide Decide, Ended, EndsOnce, Agrees, StageState, RowSound, HearAll;
  }

  lemma ActionMoves(record: Record, mine: seq<News>, now: int, action: Action)
    requires RunSound(record, mine)
    ensures MovedBy(record, mine, Decide(record, now, action).record, HearAll(mine, Decide(record, now, action).news))
  {
    if record.run.status.Queued? {
      QueuedActionMoves(record, mine, now, action);
    } else if record.run.status.Cancelled? {
      CancelledIsFinal(record, now, action);
      HearOne(mine, RunCancelled(0));
      MovedItself(record, mine);
    } else {
      OtherActionMoves(record, mine, now, action);
    }
  }

  // ---- several transactions ----

  lemma QuietSplits(a: seq<News>, b: seq<News>)
    ensures Quiet(a + b) <==> Quiet(a) && Quiet(b)
  {
    assert forall i :: 0 <= i < |a| ==> (a + b)[i] == a[i];
    assert forall i :: 0 <= i < |b| ==> (a + b)[|a| + i] == b[i];
  }

  lemma UnclaimedStill(a: Record, x: seq<News>, b: Record, y: seq<News>, c: Record, z: seq<News>)
    requires MovedBy(a, x, b, y) && MovedBy(b, y, c, z)
    requires a.run.status.Queued? && c.run.attempt == a.run.attempt
    ensures Unclaimed(a, x, c, z)
  {
    hide Quiet, Measure;
  }

  lemma QuietStill(a: Record, x: seq<News>, b: Record, y: seq<News>, c: Record, z: seq<News>)
    requires MovedBy(a, x, b, y) && MovedBy(b, y, c, z) && RowSound(a) && RowSound(b)
    ensures if Quiet(z[|x|..]) then SameFacts(a, c) || SilentlyCancelled(a, c) else Measure(c.run) < Measure(a.run)
  {
    assert z[|x|..] == y[|x|..] + z[|y|..];
    QuietSplits(y[|x|..], z[|y|..]);
    hide Quiet, Unclaimed, LeaseState, ErrorState, PatchState;
  }

  lemma MovedStill(a: Record, x: seq<News>, b: Record, y: seq<News>, c: Record, z: seq<News>)
    requires MovedBy(a, x, b, y) && MovedBy(b, y, c, z) && RowSound(a) && RowSound(b)
    ensures MovedBy(a, x, c, z)
  {
    QuietStill(a, x, b, y, c, z);
    if a.run.status.Queued? && c.run.attempt == a.run.attempt {
      UnclaimedStill(a, x, b, y, c, z);
    }
    hide Quiet, Unclaimed, RowSound, Measure;
  }
}
