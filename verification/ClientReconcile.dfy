/** The browser's whole reducer: a page that is reloaded, or that has cancelled or retried a run, shows the
    server's answer at once while it is still replaying the log (web/src/generation.ts:223-285,
    web/src/App.tsx:412-510, proofgraph/generation/services.py:169-195). */
module ClientReconcile {
  import opened Reachability
  import opened GraphTypes
  import opened StagePlan
  import opened RunModel
  import opened RunLog
  import opened ClientReducer
  import opened RunInvariant
  import opened ServerClient
  import opened RunTraces
  import opened RunProgress
  import opened RunPhases

  datatype Connection = Idle | Connecting | Connected | Disconnected

  /** What the server answers about a run. */
  datatype Snapshot = Snapshot(run: Id, status: RunStatus, currentStage: Option<StageName>, attempt: nat, maxAttempts: nat,
                               cancellation: CancellationState, error: Option<RunError>, readyPatch: Option<Id>)

  function Serialized(r: Id, record: Record): Snapshot {
    var run := record.run;
    var cancellation := if run.status.Cancelled? then WasCancelled
                        else if run.cancelRequestedAt.Some? then Requested else NotRequested;
    Snapshot(r, run.status, run.currentStage, run.attempt, run.maxAttempts, cancellation, run.error, PatchIdOf(record))
  }

  datatype Progress = Progress(canvas: Option<Id>, connection: Connection, client: Client)

  datatype ProgressAction =
    | Reset(canvas: Option<Id>)
    | SetConnection(connection: Connection)
    | Track(run: Id, status: Option<RunStatus>)
    | Reconcile(snapshot: Snapshot)
    | Event(row: Row)

  function Reconciled(view: View, snapshot: Snapshot): View {
    view.(status := snapshot.status, currentStage := snapshot.currentStage, attempt := snapshot.attempt,
          maxAttempts := snapshot.maxAttempts, cancellation := snapshot.cancellation, error := snapshot.error,
          patchId := if snapshot.readyPatch.Some? then snapshot.readyPatch else view.patchId)
  }

  /** What is shown for a run, or the empty view it starts from. */
  function Shown(client: Client, r: Id): View {
    if r in client.runs then client.runs[r] else EmptyRun(Queued)
  }

  function Reduce(p: Progress, action: ProgressAction): Progress {
    match action
    case Reset(canvas) => Progress(canvas, if canvas.Some? then Connecting else Idle, Client(0, map[]))
    case SetConnection(connection) => p.(connection := connection)
    case Track(r, status) =>
      var view := if r in p.client.runs then p.client.runs[r] else EmptyRun(if status.Some? then status.value else Queued);
      p.(client := p.client.(runs := p.client.runs[r := view]))
    case Reconcile(snapshot) =>
      var view := Reconciled(Shown(p.client, snapshot.run), snapshot);
      p.(client := p.client.(runs := p.client.runs[snapshot.run := view]))
    case Event(row) => p.(client := Receive(p.client, row))
  }

  function ReduceAll(p: Progress, actions: seq<ProgressAction>): Progress
    decreases |actions|
  {
    if actions == [] then p else Reduce(ReduceAll(p, actions[..|actions| - 1]), actions[|actions| - 1])
  }

  function Events(rows: seq<Row>): (actions: seq<ProgressAction>)
    ensures |actions| == |rows| && forall i :: 0 <= i < |rows| ==> actions[i] == Event(rows[i])
  {
    seq(|rows|, i requires 0 <= i < |rows| => Event(rows[i]))
  }

  // ---- folding from any view ----

  function FoldFrom(view: View, news: seq<News>): View
    decreases |news|
  {
    if news == [] then view else ApplyNews(FoldFrom(view, news[..|news| - 1]), news[|news| - 1])
  }

  lemma {:induction false} FoldFromSplits(view: View, a: seq<News>, b: seq<News>)
    ensures FoldFrom(view, a + b) == FoldFrom(FoldFrom(view, a), b)
    decreases |b|
  {
    if b == [] {
      assert a + b == a;
    } else {
      FoldFromSplits(view, a, b[..|b| - 1]);
      assert (a + b)[..|a + b| - 1] == a + b[..|b| - 1];
    }
  }

  lemma {:induction false} FoldIsFoldFrom(mine: seq<News>)
    ensures Fold(mine) == FoldFrom(EmptyRun(Running), mine)
    decreases |mine|
  {
    if mine != [] {
      FoldIsFoldFrom(mine[..|mine| - 1]);
    }
  }

  /** The same events on two views: each field ends equal, or no event has touched it. */
  ghost predicate FollowsEvents(a: View, b: View, x: View, y: View) {
    && (x.status == y.status || (x.status == a.status && y.status == b.status && x.attempt == a.attempt))
    && (x.attempt == y.attempt || (x.attempt == a.attempt && y.attempt == b.attempt))
    && (x.error == y.error || (x.error == a.error && y.error == b.error))
    && (x.patchId == y.patchId || (x.patchId == a.patchId && y.patchId == b.patchId))
    && x.maxAttempts == a.maxAttempts && y.maxAttempts == b.maxAttempts
    && (a.patchId.Some? ==> x.patchId.Some?)
  }

  lemma OneMoreEvent(a: View, b: View, x: View, y: View, news: News)
    requires FollowsEvents(a, b, x, y)
    ensures FollowsEvents(a, b, ApplyNews(x, news), ApplyNews(y, news))
  {
    hide UpsertSource, UpsertClaim;
  }

  lemma {:induction false} SameEventsTwoViews(a: View, b: View, news: seq<News>)
    ensures FollowsEvents(a, b, FoldFrom(a, news), FoldFrom(b, news))
    decreases |news|
  {
    hide ApplyNews;
    if news != [] {
      SameEventsTwoViews(a, b, news[..|news| - 1]);
      OneMoreEvent(a, b, FoldFrom(a, news[..|news| - 1]), FoldFrom(b, news[..|news| - 1]), news[|news| - 1]);
    }
  }

  // ---- one run ----

  /** The row of a run and its events at two points of time. */
  ghost predicate Later(before: Record, mine: seq<News>, after: Record, later: seq<News>) {
    && RunSound(before, mine) && RunSound(after, later) && mine <= later
    && MovedBy(before, mine, after, later) && Keeps(before, after)
  }

  /** The status of the view is that of the row, except that it may still say "queued" for a run that was
      cancelled without an event, because its attempt had failed before; everything else the browser decides by
      is that of the row. */
  ghost predicate AgreesNow(view: View, record: Record, mine: seq<News>) {
    && view.attempt == record.run.attempt && view.maxAttempts == record.run.maxAttempts
    && view.error == record.run.error && view.patchId == PatchIdOf(record)
    && (view.status == record.run.status || (Stranded(record.run, view) && FailureOf(mine, record.run.attempt)))
  }

  /** All but the status of y; the status is that of y or the given one. */
  predicate Near(x: View, y: View, status: RunStatus) {
    && x.attempt == y.attempt && x.error == y.error && x.patchId == y.patchId && x.maxAttempts == y.maxAttempts
    && (x.status == y.status || x.status == status)
  }

  predicate KnowsPatch(view: View, record: Record) {
    view.patchId.Some? ==> view.patchId == PatchIdOf(record)
  }

  /** Replaying what the snapshot already knew leaves the view at the log's account of that moment, or at the
      snapshot's. */
  lemma NearSnapshot(r: Id, view: View, before: Record, mine: seq<News>, k: nat)
    requires RunSound(before, mine) && KnowsPatch(view, before) && k <= |mine|
    ensures Near(FoldFrom(Reconciled(view, Serialized(r, before)), mine[k..]), Fold(mine), before.run.status)
  {
    var base := Reconciled(view, Serialized(r, before));
    SameEventsTwoViews(base, Fold(mine[..k]), mine[k..]);
    FoldIsFoldFrom(mine);
    FoldIsFoldFrom(mine[..k]);
    FoldFromSplits(EmptyRun(Running), mine[..k], mine[k..]);
    assert mine[..k] + mine[k..] == mine;
    hide ApplyNews, FoldFrom, StageState, EndsOnce, FailureOf;
    if mine == [] {
      assert mine[k..] == [] && FoldFrom(base, []) == base by { NothingFolded(base); }
    }
  }

  lemma NothingFolded(view: View)
    ensures FoldFrom(view, []) == view && Fold([]) == EmptyRun(Running)
  {
  }

  lemma NearStaysNear(x: View, y: View, status: RunStatus, news: seq<News>)
    requires Near(x, y, status)
    ensures var z, u := FoldFrom(x, news), FoldFrom(y, news);
            && Near(z, u, status)
            && (z.status != u.status ==> x.status != y.status && u.status == y.status && z.attempt == x.attempt)
  {
    SameEventsTwoViews(x, y, news);
  }

  /** Whatever the browser showed before, a snapshot and then the rest of the log leave it in agreement with
      the server. */
  lemma SnapshotThenEvents(r: Id, view: View, before: Record, mine: seq<News>, after: Record, later: seq<News>, k: nat)
    requires Later(before, mine, after, later) && KnowsPatch(view, before) && k <= |mine|
    ensures var z := FoldFrom(Reconciled(view, Serialized(r, before)), later[k..]);
            && AgreesNow(z, after, later)
            && (before.run.status.Cancelled? && k == |mine| ==> z.status.Cancelled?)
  {
    var base := Reconciled(view, Serialized(r, before));
    var x, y := FoldFrom(base, mine[k..]), Fold(mine);
    NearSnapshot(r, view, before, mine, k);
    var rest := later[|mine|..];
    assert later[k..] == mine[k..] + rest && later == mine + rest;
    FoldFromSplits(base, mine[k..], rest);
    FoldFromSplits(EmptyRun(Running), mine, rest);
    FoldIsFoldFrom(mine);
    FoldIsFoldFrom(later);
    NearStaysNear(x, y, before.run.status, rest);
    NothingFolded(base);
    hide ApplyNews, FoldFrom, Fold, StageState, EndsOnce, FailureOf;
  }

  // ---- whole traces ----

  function RowsOf(s: State, canvas: Id): seq<Row> {
    if canvas in s.journals then s.journals[canvas].rows else []
  }

  ghost predicate LaterIn(s: State, t: State, r: Id) {
    && r in s.runs && r in t.runs && t.runs[r].run.canvas == s.runs[r].run.canvas
    && var canvas := s.runs[r].run.canvas;
    && canvas in s.journals && canvas in t.journals
    && s.journals[canvas].rows <= t.journals[canvas].rows
    && Later(s.runs[r], EventsOf(s, r), t.runs[r], EventsOf(t, r))
  }

  lemma {:induction false} HearAllExtends(mine: seq<News>, news: seq<News>)
    ensures mine <= HearAll(mine, news)
    decreases |news|
  {
    if news != [] {
      HearAllExtends(mine, news[..|news| - 1]);
    }
  }

  lemma ActionIsLater(record: Record, mine: seq<News>, now: int, action: Action)
    requires RunSound(record, mine)
    ensures Later(record, mine, Decide(record, now, action).record, HearAll(mine, Decide(record, now, action).news))
  {
    ActionKeepsSound(record, mine, now, action);
    ActionKeepsCheckpoints(record, now, action);
    ActionMoves(record, mine, now, action);
    HearAllExtends(mine, Decide(record, now, action).news);
    hide RunSound, MovedBy, Decide;
  }

  lemma SoundRun(s: State, r: Id)
    requires Sound(s) && r in s.runs
    ensures Logged(s) && s.runs[r].run.canvas in s.journals && RunSound(s.runs[r], EventsOf(s, r))
  {
  }

  lemma LaterItself(record: Record, mine: seq<News>)
    requires RunSound(record, mine)
    ensures Later(record, mine, record, mine)
  {
    MovedItself(record, mine);
    hide RunSound, MovedBy;
  }

  lemma OtherStepKeepsJournal(s: State, step: Step, canvas: Id)
    requires !step.Act? && canvas in s.journals && canvas in Next(s, step).journals
    ensures Next(s, step).journals[canvas] == s.journals[canvas]
  {
  }

  lemma OtherStepIsLater(s: State, step: Step, r: Id)
    requires Logged(s) && r in s.runs && r in Next(s, step).runs && !step.Act?
    requires s.runs[r].run.canvas in s.journals && RunSound(s.runs[r], EventsOf(s, r))
    ensures LaterIn(s, Next(s, step), r)
  {
    LaterItself(s.runs[r], EventsOf(s, r));
    OtherStepKeepsLog(s, step);
    var canvas := s.runs[r].run.canvas;
    assert canvas in Next(s, step).journals by { assert RunsAreOnCanvases(Next(s, step)); }
    OtherStepKeepsJournal(s, step, canvas);
    hide Next, Later, EventsOf, EveryLogGapFree, RowsHaveRuns;
  }

  lemma ActIsLater(s: State, q: Id, action: Action, r: Id)
    requires Logged(s) && r in s.runs && q in s.runs
    requires s.runs[r].run.canvas in s.journals && RunSound(s.runs[r], EventsOf(s, r))
    ensures r in Next(s, Act(q, action)).runs && LaterIn(s, Next(s, Act(q, action)), r)
  {
    ActKeepsLog(s, q, action);
    DecideKeepsCanvas(s.runs[q], s.now, action);
    if q == r {
      ActionIsLater(s.runs[r], EventsOf(s, r), s.now, action);
    } else {
      LaterItself(s.runs[r], EventsOf(s, r));
    }
    hide Next, Later, EventsOf, Decide, RunSound, Logged, HearAll;
  }

  lemma NextIsLater(s: State, step: Step, r: Id)
    requires Sound(s) && r in s.runs && r in Next(s, step).runs
    ensures LaterIn(s, Next(s, step), r)
  {
    SoundRun(s, r);
    if !step.Act? {
      OtherStepIsLater(s, step, r);
    } else if step.run in s.runs {
      ActIsLater(s, step.run, step.action, r);
    } else {
      LaterItself(s.runs[r], EventsOf(s, r));
      hide Sound, Logged, RunSound, Later, EventsOf;
      assert Next(s, step) == s;
    }
  }

  lemma LaterStill(s: State, t: State, u: State, r: Id)
    requires LaterIn(s, t, r) && LaterIn(t, u, r)
    ensures LaterIn(s, u, r)
  {
    KeepsTransitive(s.runs[r], t.runs[r], u.runs[r]);
    MovedStill(s.runs[r], EventsOf(s, r), t.runs[r], EventsOf(t, r), u.runs[r], EventsOf(u, r));
    hide RunSound, EventsOf, Keeps, MovedBy;
  }

  /** A run that is still there has kept its row's history: its events have only grown. */
  lemma {:induction false} AfterIsLater(s: State, steps: seq<Step>, r: Id)
    requires Sound(s) && r in s.runs
    ensures r in After(s, steps).used
    ensures r in After(s, steps).runs ==> LaterIn(s, After(s, steps), r)
    decreases |steps|
  {
    SoundRun(s, r);
    if steps == [] {
      LaterItself(s.runs[r], EventsOf(s, r));
      hide Later, EventsOf, RunSound, EveryLogGapFree, RowsHaveRuns;
    } else {
      var before, step := After(s, steps[..|steps| - 1]), steps[|steps| - 1];
      AfterIsLater(s, steps[..|steps| - 1], r);
      SoundStays(s, steps[..|steps| - 1]);
      EpochOverStep(before, step, r);
      hide Sound, LaterIn, Next;
      if r in Next(before, step).runs {
        NextIsLater(before, step, r);
        LaterStill(s, before, Next(before, step), r);
      }
    }
  }

  // ---- the browser ----

  lemma {:induction false} EventsAreReceived(p: Progress, rows: seq<Row>)
    ensures ReduceAll(p, Events(rows)) == p.(client := ReceiveAll(p.client, rows))
    decreases |rows|
  {
    if rows != [] {
      EventsAreReceived(p, rows[..|rows| - 1]);
      assert Events(rows)[..|rows| - 1] == Events(rows[..|rows| - 1]);
    }
  }

  ghost predicate ShowsFrom(client: Client, r: Id, view: View, mine: seq<News>, k: nat) {
    k <= |mine| && r in client.runs && SameView(client.runs[r], FoldFrom(view, mine[k..]))
  }

  lemma OneRowReceived(client: Client, row: Row, r: Id, view: View, mine: seq<News>, k: nat)
    requires ShowsFrom(client, r, view, mine, k) && client.cursor < row.canvasSequence
    ensures Receive(client, row).cursor == row.canvasSequence
    ensures ShowsFrom(Receive(client, row), r, view, if row.run == r then mine + [row.news] else mine, k)
  {
    if row.run == r {
      ApplyRespectsView(client.runs[r], FoldFrom(view, mine[k..]), row.news);
      assert (mine + [row.news])[k..] == mine[k..] + [row.news];
      assert (mine[k..] + [row.news])[..|mine| - k] == mine[k..];
      hide ApplyNews;
    }
  }

  /** From a cursor on, the rows of the log reach each shown run as its own events. */
  lemma {:induction false} ReceivedRows(client: Client, journal: Journal, r: Id, m: nat)
    requires GapFree(journal) && client.cursor <= m <= |journal.rows| && r in client.runs
    ensures var after := ReceiveAll(client, journal.rows[client.cursor..m]);
            && after.cursor == m
            && ShowsFrom(after, r, client.runs[r], Mine(journal.rows[..m], r), |Mine(journal.rows[..client.cursor], r)|)
    decreases m
  {
    hide *;
    var n := client.cursor;
    if m == n {
      NothingReceived(client, journal, r);
    } else {
      ReceivedRows(client, journal, r, m - 1);
      var row := journal.rows[m - 1];
      NextRow(client, journal, r, m);
      OneRowReceived(ReceiveAll(client, journal.rows[n..m - 1]), row, r, client.runs[r], Mine(journal.rows[..m - 1], r),
                     |Mine(journal.rows[..n], r)|);
    }
  }

  lemma NothingReceived(client: Client, journal: Journal, r: Id)
    requires client.cursor <= |journal.rows| && r in client.runs
    ensures var n := client.cursor;
            && ReceiveAll(client, journal.rows[n..n]) == client
            && ShowsFrom(client, r, client.runs[r], Mine(journal.rows[..n], r), |Mine(journal.rows[..n], r)|)
  {
    var mine := Mine(journal.rows[..client.cursor], r);
    assert journal.rows[client.cursor..client.cursor] == [] && mine[|mine|..] == [];
    NothingFolded(client.runs[r]);
    hide Mine, FoldFrom;
  }

  lemma NextRow(client: Client, journal: Journal, r: Id, m: nat)
    requires GapFree(journal) && client.cursor < m <= |journal.rows|
    ensures var n, row := client.cursor, journal.rows[m - 1];
            && row.canvasSequence == m
            && ReceiveAll(client, journal.rows[n..m]) == Receive(ReceiveAll(client, journal.rows[n..m - 1]), row)
            && Mine(journal.rows[..m], r)
               == if row.run == r then Mine(journal.rows[..m - 1], r) + [row.news] else Mine(journal.rows[..m - 1], r)
  {
    var n, row := client.cursor, journal.rows[m - 1];
    RowNumber(journal, m - 1);
    hide *;
    assert journal.rows[..m] == journal.rows[..m - 1] + [row];
    assert journal.rows[n..m] == journal.rows[n..m - 1] + [row];
    MineAppend(journal.rows[..m - 1], row, r);
    ReceiveOne(client, journal.rows[n..m - 1], row);
  }

  lemma RowNumber(journal: Journal, i: nat)
    requires GapFree(journal) && i < |journal.rows|
    ensures journal.rows[i].canvasSequence == i + 1
  {
    hide Mine;
  }

  lemma ReceiveOne(client: Client, rows: seq<Row>, row: Row)
    ensures ReceiveAll(client, rows + [row]) == Receive(ReceiveAll(client, rows), row)
  {
    assert (rows + [row])[..|rows|] == rows;
  }

  /** Ask for a run, show the answer, and read the log from the cursor on. */
  function AskAndReplay(p: Progress, snapshot: Snapshot, rows: seq<Row>): Progress {
    var rest := if p.client.cursor <= |rows| then rows[p.client.cursor..] else [];
    ReduceAll(Reduce(p, Reconcile(snapshot)), Events(rest))
  }

  ghost predicate CaughtUp(p: Progress, rows: seq<Row>, r: Id, record: Record) {
    p.client.cursor == |rows| && r in p.client.runs && AgreesNow(p.client.runs[r], record, Mine(rows, r))
  }

  lemma ReplayShows(p: Progress, r: Id, snapshot: Snapshot, journal: Journal)
    requires GapFree(journal) && p.client.cursor <= |journal.rows| && snapshot.run == r
    ensures var q := AskAndReplay(p, snapshot, journal.rows);
            && q.client.cursor == |journal.rows|
            && ShowsFrom(q.client, r, Reconciled(Shown(p.client, r), snapshot), Mine(journal.rows, r),
                         |Mine(journal.rows[..p.client.cursor], r)|)
  {
    var n := p.client.cursor;
    assert journal.rows[..|journal.rows|] == journal.rows && journal.rows[n..|journal.rows|] == journal.rows[n..];
    EventsAreReceived(Reduce(p, Reconcile(snapshot)), journal.rows[n..]);
    ReceivedRows(Reduce(p, Reconcile(snapshot)).client, journal, r, |journal.rows|);
    hide GapFree, ReceiveAll, ReduceAll, Mine, ShowsFrom;
  }

  lemma ReplayCatchesUp(p: Progress, r: Id, before: Record, known: seq<Row>, after: Record, journal: Journal)
    requires GapFree(journal) && known <= journal.rows && p.client.cursor <= |known|
    requires Later(before, Mine(known, r), after, Mine(journal.rows, r)) && KnowsPatch(Shown(p.client, r), before)
    ensures var q := AskAndReplay(p, Serialized(r, before), journal.rows);
            && CaughtUp(q, journal.rows, r, after)
            && (before.run.status.Cancelled? && p.client.cursor == |known| ==> q.client.runs[r].status.Cancelled?)
  {
    ReplayShows(p, r, Serialized(r, before), journal);
    assert known[..p.client.cursor] == journal.rows[..p.client.cursor];
    MineOfPrefix(known, p.client.cursor, r);
    WholeLogRead(known, p.client.cursor, r);
    SnapshotThenEvents(r, Shown(p.client, r), before, Mine(known, r), after, Mine(journal.rows, r),
                       |Mine(journal.rows[..p.client.cursor], r)|);
    hide GapFree, Later, AskAndReplay, Mine, FoldFrom, Reconciled, Serialized;
  }

  /** The browser at any point of its replay asks for a run, shows the answer, and reads on to the end of the
      log: it then agrees with the server of that later moment. A run that the log leaves at "queued" although
      it was cancelled is shown as cancelled when the browser asks after reading the log. */
  lemma SnapshotThenReplay(s: State, steps: seq<Step>, r: Id, p: Progress)
    requires Sound(s) && r in s.runs && r in After(s, steps).runs
    requires p.client.cursor <= |RowsOf(s, s.runs[r].run.canvas)| && KnowsPatch(Shown(p.client, r), s.runs[r])
    ensures var t := After(s, steps); var rows := RowsOf(t, s.runs[r].run.canvas);
            var q := AskAndReplay(p, Serialized(r, s.runs[r]), rows);
            && CaughtUp(q, rows, r, t.runs[r])
            && (s.runs[r].run.status.Cancelled? && p.client.cursor == |RowsOf(s, s.runs[r].run.canvas)| ==>
                  q.client.runs[r].status.Cancelled? && t.runs[r].run.status.Cancelled?)
  {
    var t, canvas := After(s, steps), s.runs[r].run.canvas;
    AfterIsLater(s, steps, r);
    SoundStays(s, steps);
    SoundRun(t, r);
    assert GapFree(t.journals[canvas]) by { assert EveryLogGapFree(t); }
    assert s.runs[r].run.status.Cancelled? ==> t.runs[r] == s.runs[r];
    hide Sound, Logged, Later, GapFree, After, Mine, AskAndReplay, CaughtUp, KnowsPatch;
    ReplayCatchesUp(p, r, s.runs[r], s.journals[canvas].rows, t.runs[r], t.journals[canvas]);
  }

  lemma WholeLogRead(rows: seq<Row>, n: nat, r: Id)
    requires n <= |rows|
    ensures n == |rows| ==> |Mine(rows[..n], r)| == |Mine(rows, r)|
  {
    assert n == |rows| ==> rows[..n] == rows;
  }

  // ---- an answer that arrives late ----

  /** An answer that arrives late puts the view back to the older row, and nothing in the log brings it forward
      again. It is right exactly when none of the events that came in between announces a phase of the run. */
  lemma LateSnapshotIsRightIff(r: Id, view: View, before: Record, mine: seq<News>, after: Record, later: seq<News>)
    requires Later(before, mine, after, later) && AgreesNow(view, after, later)
    ensures AgreesNow(Reconciled(view, Serialized(r, before)), after, later) <==> Quiet(later[|mine|..])
  {
    hide StageState, EndsOnce, Quiet;
    if Quiet(later[|mine|..]) {
      if SilentlyCancelled(before, after) {
        assert mine != [] && FailureOf(mine, before.run.attempt);
        FailureNotLost(mine, later, before.run.attempt);
      }
    } else if before.run.status.Queued? && after.run.status.Cancelled? && before.run.attempt == after.run.attempt {
      AnnouncedCancel(before, mine, after, later);
    }
    hide FailureOf, Agrees, Keeps;
  }

  /** A cancellation that was announced to a queued run leaves no failure of that attempt. */
  lemma AnnouncedCancel(before: Record, mine: seq<News>, after: Record, later: seq<News>)
    requires RunSound(before, mine) && before.run.status.Queued? && Unclaimed(before, mine, after, later)
    requires after.run.status.Cancelled? && !Quiet(later[|mine|..])
    ensures !FailureOf(later, before.run.attempt)
  {
    assert mine[|mine|..] == [];
    OpenAttempt(before, mine);
    FailureGrows(mine, RunCancelled(0), before.run.attempt);
    hide FailureOf, Agrees, EndsOnce, Ended, StageState;
  }

  /** The events of a run, if it is there. */
  ghost function NewsOf(s: State, r: Id): seq<News> {
    if r in s.runs && s.runs[r].run.canvas in s.journals then EventsOf(s, r) else []
  }

  /** Over any trace, for an answer given at s that arrives at the later t. */
  lemma LateSnapshotOverTrace(s: State, steps: seq<Step>, r: Id, view: View)
    requires Sound(s) && r in s.runs && r in After(s, steps).runs
    requires AgreesNow(view, After(s, steps).runs[r], NewsOf(After(s, steps), r))
    ensures var t := After(s, steps);
            && NewsOf(s, r) <= NewsOf(t, r)
            && (AgreesNow(Reconciled(view, Serialized(r, s.runs[r])), t.runs[r], NewsOf(t, r))
                <==> Quiet(NewsOf(t, r)[|NewsOf(s, r)|..]))
  {
    var t := After(s, steps);
    AfterIsLater(s, steps, r);
    assert NewsOf(t, r) == EventsOf(t, r) && NewsOf(s, r) == EventsOf(s, r);
    hide AgreesNow, EventsOf, Quiet, After, Sound, NewsOf, RunSound, MovedBy;
    LateSnapshotIsRightIff(r, view, s.runs[r], EventsOf(s, r), t.runs[r], EventsOf(t, r));
  }

  /** So an answer that was given before a claim and arrives after it hides the claim. */
  lemma LateSnapshotHidesClaim(s: State, r: Id, worker: Id, token: Id, view: View)
    requires Sound(s) && r in s.runs && s.runs[r].run.status.Queued?
    ensures r in Next(s, Act(r, ClaimRun(worker, token))).runs
    ensures forall mine ::
      !AgreesNow(Reconciled(view, Serialized(r, s.runs[r])), Next(s, Act(r, ClaimRun(worker, token))).runs[r], mine)
  {
    SoundRun(s, r);
    QueuedRunsAreClaimable(s.runs[r], s.now);
    ActKeepsLog(s, r, ClaimRun(worker, token));
    hide Sound, Logged, Next, EventsOf, StageState, EndsOnce, Agrees;
  }
}
