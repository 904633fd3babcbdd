/** Demo cleanup and reset: fence every active run of a session, then drop its canvas
    (proofgraph/demo/cleanup.py:55-156, proofgraph/demo/services.py:57-110). */
module DemoSessions {
  import opened Reachability
  import opened GraphTypes
  import opened RunModel
  import opened RunLog
  import opened RunTraces
  import opened RunDatabase
  import opened RunInvariant
  import RunOutcomes

  /** The active runs of a session, on one canvas or on all. */
  ghost predicate InScope(run: Run, session: Id, canvas: Option<Id>) {
    run.session == Some(session) && Active(run) && (canvas.Some? ==> run.canvas == canvas.value)
  }

  ghost function SessionRuns(s: State, session: Id, canvas: Option<Id>): set<Id> {
    set r | r in s.runs && InScope(s.runs[r].run, session, canvas)
  }

  /** The action was taken once on each run of done, on the rows as they were at the start. */
  ghost predicate Visited(s: State, t: State, action: Action, done: set<Id>) {
    && t.runs.Keys == s.runs.Keys && t.now == s.now && t.journals.Keys == s.journals.Keys
    && forall r :: r in s.runs ==>
         t.runs[r] == if r in done then Decide(s.runs[r], s.now, action).record else s.runs[r]
  }

  ghost predicate AllVisits(steps: seq<Step>, action: Action) {
    forall i :: 0 <= i < |steps| ==> steps[i].Act? && steps[i].action == action
  }

  ghost predicate SomeLive(s: State, runs: set<Id>) {
    exists r :: r in runs && r in s.runs && LiveOwner(s.runs[r].run, s.now)
  }

  lemma VisitedOneMore(s: State, t: State, u: State, action: Action, done: set<Id>, r: Id)
    requires Visited(s, t, action, done) && r in s.runs && r !in done
    requires u.runs == t.runs[r := Decide(t.runs[r], t.now, action).record]
    requires u.now == t.now && u.journals.Keys == t.journals.Keys
    ensures Visited(s, u, action, done + {r})
  {
    hide Decide;
  }

  lemma OneMoreVisit(s: State, steps: seq<Step>, action: Action, r: Id)
    requires AllVisits(steps, action)
    ensures After(s, steps + [Act(r, action)]) == Next(After(s, steps), Act(r, action))
    ensures AllVisits(steps + [Act(r, action)], action)
  {
    AfterOne(s, steps, Act(r, action));
  }

  lemma NothingVisited(s: State, action: Action)
    ensures Visited(s, s, action, {}) && After(s, []) == s && AllVisits([], action)
    ensures !SomeLive(s, {})
  {
  }

  /** An active run without a live owner is over after cleanup's visit; one with a live owner keeps its
      lease and carries a cancel request; a reset ends every active run. */
  lemma VisitEndsOrAsks(record: Record, now: int)
    requires Active(record.run)
    ensures var after := Decide(record, now, CleanupVisit).record.run;
            if LiveOwner(record.run, now)
            then after.status == record.run.status && after.epoch == record.run.epoch && after.token == record.run.token
                 && after.expiresAt == record.run.expiresAt && after.cancelRequestedAt.Some?
            else TerminalStatus(after.status) && after.epoch == record.run.epoch + 1
    ensures var after := Decide(record, now, ResetVisit).record.run;
            after.status.Cancelled? && after.epoch == record.run.epoch + 1
  {
  }

  method ActiveRuns(db: Database, session: Id, canvas: Option<Id>) returns (found: set<Id>)
    ensures found == SessionRuns(db.Contents(), session, canvas)
  {
    found := set r | r in db.runs && db.runs[r].run.session == Some(session) && Active(db.runs[r].run)
                     && (canvas.Some? ==> db.runs[r].run.canvas == canvas.value);
  }

  /** One turn of cleanup's or reset's loop: the first of the remaining runs. */
  method VisitNext(db: Database, action: Action, rest: set<Id>, ghost s: State, ghost done: set<Id>)
    returns (r: Id, owned: bool)
    requires db.OnCanvases() && (action.CleanupVisit? || action.ResetVisit?)
    requires Visited(s, db.Contents(), action, done) && rest != {} && rest !! done
    requires forall q :: q in rest ==> q in s.runs && Active(s.runs[q].run)
    modifies db`runs, db`journals
    ensures db.OnCanvases() && r in rest && db.Contents() == Next(old(db.Contents()), Act(r, action))
    ensures Visited(s, db.Contents(), action, done + {r})
    ensures owned ==> action.CleanupVisit?
    ensures action.CleanupVisit? ==> (SomeLive(s, done + {r}) <==> SomeLive(s, done) || owned)
  {
    hide Next, Decide, LiveOwner;
    ghost var t := db.Contents();
    r := db.First(rest);
    if action.CleanupVisit? {
      owned := db.CleanupRun(r);
    } else {
      db.ResetRun(r);
      owned := false;
    }
    VisitedOneMore(s, t, db.Contents(), action, done, r);
  }

  /** The loop over the locked runs in creation order. */
  method VisitRuns(db: Database, session: Id, canvas: Option<Id>, action: Action)
    returns (live: bool, ghost steps: seq<Step>)
    requires db.OnCanvases() && (action.CleanupVisit? || action.ResetVisit?)
    modifies db`runs, db`journals
    ensures db.OnCanvases() && db.Contents() == After(old(db.Contents()), steps) && AllVisits(steps, action)
    ensures Visited(old(db.Contents()), db.Contents(), action, SessionRuns(old(db.Contents()), session, canvas))
    ensures action.CleanupVisit? ==>
              (live <==> SomeLive(old(db.Contents()), SessionRuns(old(db.Contents()), session, canvas)))
  {
    hide *;
    ghost var s, done := db.Contents(), {};
    NothingVisited(s, action);
    var rest := ActiveRuns(db, session, canvas);
    ghost var scope := rest;
    ScopeIsActive(s, session, canvas);
    live, steps := false, [];
    while rest != {}
      invariant db.OnCanvases() && rest == scope - done && done <= scope
      invariant db.Contents() == After(s, steps) && AllVisits(steps, action)
      invariant Visited(s, db.Contents(), action, done)
      invariant action.CleanupVisit? ==> (live <==> SomeLive(s, done))
      decreases |rest|
    {
      var r, owned := VisitNext(db, action, rest, s, done);
      OneMoreVisit(s, steps, action, r);
      steps := steps + [Act(r, action)];
      live := live || owned;
      rest, done := rest - {r}, done + {r};
    }
    NoneLeft(scope, done);
  }

  lemma ScopeIsActive(s: State, session: Id, canvas: Option<Id>)
    ensures forall q :: q in SessionRuns(s, session, canvas) ==> q in s.runs && Active(s.runs[q].run)
  {
  }

  datatype ResetAnswer = SessionReset | SessionRequired | SessionExpired

  class DemoSession {
    const id: Id
    const expiresAt: int
    var activeCanvas: Option<Id>
    var deleted: bool

    constructor (session: Id, canvas: Id, expiry: int)
      ensures id == session && expiresAt == expiry && activeCanvas == Some(canvas) && !deleted
    {
      id, expiresAt, activeCanvas, deleted := session, expiry, Some(canvas), false;
    }

    /** The canvas and the session go exactly when no run of the session has a live lease; before that every
        run without a live owner is fenced, and every live one is asked to cancel. */
    method CleanupLockedSession(db: Database) returns (cleaned: bool, ghost steps: seq<Step>)
      requires db.OnCanvases() && !deleted
      requires activeCanvas.Some? ==> activeCanvas.value in db.journals
      modifies db`runs, db`journals, this
      ensures db.OnCanvases() && deleted == cleaned && AllVisits(steps, CleanupVisit)
      ensures var s := old(db.Contents()); var scope := SessionRuns(s, id, None);
              && (cleaned <==> !SomeLive(s, scope))
              && Visited(s, After(s, steps), CleanupVisit, scope)
              && (!cleaned ==> activeCanvas == old(activeCanvas) && db.Contents() == After(s, steps))
              && (cleaned ==> activeCanvas == None)
              && (cleaned && old(activeCanvas).Some? ==>
                    db.Contents() == Next(After(s, steps), DeleteCanvas(old(activeCanvas).value)))
              && (cleaned && old(activeCanvas).None? ==> db.Contents() == After(s, steps))
    {
      hide *;
      var live;
      live, steps := VisitRuns(db, id, None, CleanupVisit);
      if live { return false, steps; }
      var canvas := activeCanvas;
      activeCanvas := None;
      if canvas.Some? { db.DeleteCanvasRows(canvas.value); }
      deleted := true;
      return true, steps;
    }

    /** A session that is gone or has expired is refused; otherwise every active run of the session on the old
        canvas is fenced and cancelled before the canvas is swapped. */
    method ResetDemoSession(db: Database, newCanvas: Id) returns (answer: ResetAnswer, ghost steps: seq<Step>)
      requires db.OnCanvases() && newCanvas !in db.journals
      requires activeCanvas.Some? ==> activeCanvas.value in db.journals
      modifies db`runs, db`journals, this`activeCanvas
      ensures answer == if deleted then SessionRequired
                        else if expiresAt <= old(db.Contents().now) then SessionExpired else SessionReset
      ensures !answer.SessionReset? ==> db.Contents() == old(db.Contents()) && activeCanvas == old(activeCanvas)
      ensures db.OnCanvases() && AllVisits(steps, ResetVisit)
      ensures answer.SessionReset? ==>
                var s := old(db.Contents());
                && activeCanvas == Some(newCanvas)
                && if old(activeCanvas).Some? then
                     && Visited(s, After(s, steps), ResetVisit, SessionRuns(s, id, old(activeCanvas)))
                     && db.Contents() == Next(Next(After(s, steps), OpenCanvas(newCanvas)), DeleteCanvas(old(activeCanvas).value))
                   else db.Contents() == Next(s, OpenCanvas(newCanvas))
    {
      var now := db.now;
      assert now == db.Contents().now;
      hide *;
      steps := [];
      NothingVisited(db.Contents(), ResetVisit);
      if deleted { return SessionRequired, steps; }
      if expiresAt <= now { return SessionExpired, steps; }
      var previous := activeCanvas;
      if previous.Some? {
        var live;
        live, steps := VisitRuns(db, id, previous, ResetVisit);
      }
      db.OpenCanvasRows(newCanvas);
      activeCanvas := Some(newCanvas);
      if previous.Some? { db.DeleteCanvasRows(previous.value); }
      return SessionReset, steps;
    }
  }

  /** After the visits of a cleanup that may delete, no run of the session is active any more, and every lease
      that any of its runs ever had is fenced off: a step under it changes nothing at any later time. */
  lemma CleanedSessionIsFenced(s: State, t: State, session: Id, r: Id, steps: seq<Step>, late: Action)
    requires Visited(s, t, CleanupVisit, SessionRuns(s, session, None)) && Logged(t)
    requires !SomeLive(s, SessionRuns(s, session, None)) && r in t.runs && t.runs[r].run.session == Some(session)
    requires LeaseOf(late).Some? && LeaseOf(late).value.epoch <= s.runs[r].run.epoch
    ensures !Active(t.runs[r].run)
    ensures Active(s.runs[r].run) ==> t.runs[r].run.epoch == s.runs[r].run.epoch + 1
    ensures Next(After(t, steps), Act(r, late)) == After(t, steps)
  {
    hide Decide, After, Next, LeaseOf, EveryLogGapFree, RowsHaveRuns;
    SessionStays(s.runs[r], s.now, CleanupVisit);
    if Active(s.runs[r].run) {
      VisitEndsOrAsks(s.runs[r], s.now);
      assert r in SessionRuns(s, session, None);
    }
    OldLeaseNeverWrites(t, steps, r, late);
  }

  lemma SessionStays(record: Record, now: int, action: Action)
    ensures Decide(record, now, action).record.run.session == record.run.session
  {
  }

  // ---- read off one run ----

  /** The run belongs to the session and the canvas, and is still on its way. */
  predicate Concerns(run: Run, session: Id, canvas: Option<Id>) {
    && run.session == Some(session) && (canvas == None || canvas == Some(run.canvas))
    && (run.status == Queued || run.status == Running || run.status == PatchReady)
  }

  /** What cleanup or reset of a session makes of a run: the transaction's law for the runs it concerns, and nothing for
      any other. */
  lemma SessionVisited(s: State, t: State, session: Id, canvas: Option<Id>, action: Action, r: Id)
    requires Visited(s, t, action, SessionRuns(s, session, canvas)) && r in s.runs && RowSound(s.runs[r])
    ensures r in t.runs
    ensures if Concerns(s.runs[r].run, session, canvas) then
              && RunOutcomes.StatusLaw(s.runs[r].run, s.now, action, t.runs[r].run)
              && RunOutcomes.LeaseLaw(s.runs[r].run, s.now, action, t.runs[r].run)
              && RunOutcomes.TimesLaw(s.runs[r].run, s.now, action, t.runs[r].run)
            else t.runs[r] == s.runs[r]
  {
    assert r in SessionRuns(s, session, canvas) <==> Concerns(s.runs[r].run, session, canvas);
    hide Decide, RowSound, SessionRuns;
    RunOutcomes.StatusFollows(s.runs[r], s.now, action);
    RunOutcomes.LeaseFollows(s.runs[r], s.now, action);
    RunOutcomes.TimesFollow(s.runs[r], s.now, action);
    hide *;
  }

  /** A worker is on some run of the session under a lease whose time is not up. */
  ghost predicate Attended(s: State, session: Id, r: Id) {
    && r in s.runs && s.runs[r].run.session == Some(session)
    && (s.runs[r].run.status == Running || s.runs[r].run.status == PatchReady)
    && s.runs[r].run.expiresAt.Some? && s.now < s.runs[r].run.expiresAt.value
  }

  lemma LiveIffAttended(s: State, session: Id)
    ensures SomeLive(s, SessionRuns(s, session, None)) <==> exists r :: Attended(s, session, r)
  {
    if SomeLive(s, SessionRuns(s, session, None)) {
      var r :| r in SessionRuns(s, session, None) && r in s.runs && LiveOwner(s.runs[r].run, s.now);
      assert Attended(s, session, r);
    }
    if r :| Attended(s, session, r) {
      assert r in SessionRuns(s, session, None) && LiveOwner(s.runs[r].run, s.now);
    }
  }
}
