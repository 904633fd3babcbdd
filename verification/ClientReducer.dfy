/** The browser's fold of the event log (web/src/generation.ts:26-291). */
module ClientReducer {
  import opened Reachability
  import opened GraphTypes
  import opened StagePlan
  import opened RunModel
  import opened RunLog

  datatype CancellationState = NotRequested | Requested | WasCancelled

  datatype ProvisionalSource = ProvisionalSource(id: Id, url: string)
  datatype ProvisionalClaim = ProvisionalClaim(id: Id, text: string)

  datatype View = View(
    status: RunStatus, currentStage: Option<StageName>, attempt: nat, maxAttempts: nat,
    cancellation: CancellationState, error: Option<RunError>, patchId: Option<Id>,
    sources: seq<ProvisionalSource>, claims: seq<ProvisionalClaim>, lastSequence: nat)

  function EmptyRun(status: RunStatus): View {
    View(status, None, 0, 3, NotRequested, None, None, [], [], 0)
  }

  function UpsertSource(items: seq<ProvisionalSource>, item: ProvisionalSource): seq<ProvisionalSource> {
    if items == [] then [item]
    else if items[0].id == item.id then [item] + items[1..]
    else [items[0]] + UpsertSource(items[1..], item)
  }

  function UpsertClaim(items: seq<ProvisionalClaim>, item: ProvisionalClaim): seq<ProvisionalClaim> {
    if items == [] then [item]
    else if items[0].id == item.id then [item] + items[1..]
    else [items[0]] + UpsertClaim(items[1..], item)
  }

  function ApplyNews(run: View, news: News): View {
    match news
    case RunStarted(attempt, _, _) =>
      run.(status := Running, attempt := attempt, cancellation := NotRequested, error := None)
    case RunResumed(attempt, _, _) =>
      run.(status := Running, attempt := attempt, cancellation := NotRequested, error := None)
    case RetryRequested(_) =>
      run.(status := Queued, currentStage := None, cancellation := NotRequested, error := None)
    case StageStarted(stage, _) => run.(status := Running, currentStage := Some(stage))
    case StageDone(stage) => run.(currentStage := Some(stage))
    case StageNews(SourceFound(id, url)) => run.(sources := UpsertSource(run.sources, ProvisionalSource(id, url)))
    case StageNews(EvidenceExtracted(id, text)) => run.(claims := UpsertClaim(run.claims, ProvisionalClaim(id, text)))
    case StageNews(_) => run
    case PatchIsReady(patch, _) => run.(status := PatchReady, currentStage := None, patchId := Some(patch))
    case RunCompleted(patch, _) =>
      run.(status := Completed, currentStage := None, patchId := if patch.Some? then patch else run.patchId)
    case RunFailed(error, _) =>
      run.(status := Failed, currentStage := None, cancellation := NotRequested, error := Some(error))
    case RunCancelled(_) => run.(status := Cancelled, currentStage := None, cancellation := WasCancelled)
  }

  function ApplyEvent(run: View, row: Row): View {
    ApplyNews(run, row.news).(lastSequence := row.canvasSequence)
  }

  datatype Client = Client(cursor: nat, runs: map<Id, View>)

  /** The reducer's event action: an event at or before the cursor is ignored. */
  function Receive(client: Client, row: Row): Client {
    if row.canvasSequence <= client.cursor then client
    else
      var current := if row.run in client.runs then client.runs[row.run] else EmptyRun(Running);
      Client(row.canvasSequence, client.runs[row.run := ApplyEvent(current, row)])
  }

  function ReceiveAll(client: Client, rows: seq<Row>): Client
    decreases |rows|
  {
    if rows == [] then client else Receive(ReceiveAll(client, rows[..|rows| - 1]), rows[|rows| - 1])
  }

  predicate CanRetryRun(run: View) {
    run.status.Failed? && run.error.Some? && run.error.value.retryable && run.attempt < run.maxAttempts
  }

  // ---- one run at a time ----

  function Fold(mine: seq<News>): View
    decreases |mine|
  {
    if mine == [] then EmptyRun(Running) else ApplyNews(Fold(mine[..|mine| - 1]), mine[|mine| - 1])
  }

  /** A view up to the sequence number, which only records where the last event came from. */
  predicate SameView(a: View, b: View) {
    a.(lastSequence := 0) == b.(lastSequence := 0)
  }

  lemma ApplyRespectsView(a: View, b: View, news: News)
    requires SameView(a, b)
    ensures SameView(ApplyNews(a, news), ApplyNews(b, news))
  {
    var n := a.lastSequence;
    assert a == b.(lastSequence := n);
    assert ApplyNews(b.(lastSequence := n), news) == ApplyNews(b, news).(lastSequence := n);
  }

  /** The client shows exactly the fold of one run's events. */
  ghost predicate Shows(client: Client, r: Id, mine: seq<News>) {
    && (r in client.runs <==> mine != [])
    && (r in client.runs ==> SameView(client.runs[r], Fold(mine)))
  }

  lemma ReceiveShows(client: Client, row: Row, r: Id, mine: seq<News>)
    requires Shows(client, r, mine) && client.cursor < row.canvasSequence
    ensures Shows(Receive(client, row), r, if row.run == r then mine + [row.news] else mine)
  {
    if row.run == r {
      var current := if r in client.runs then client.runs[r] else EmptyRun(Running);
      ApplyRespectsView(current, Fold(mine), row.news);
      assert (mine + [row.news])[..|mine|] == mine;
    }
  }

  /** Folding a gap-free log from the start gives every run the fold of its own events, and nothing else. */
  lemma {:induction false} ReducerFoldsEachRun(journal: Journal, n: nat, r: Id)
    requires GapFree(journal) && n <= |journal.rows|
    ensures var client := ReceiveAll(Client(0, map[]), journal.rows[..n]);
            && client.cursor == n && Shows(client, r, Mine(journal.rows[..n], r))
    decreases n
  {
    if n > 0 {
      var rows, row := journal.rows[..n], journal.rows[n - 1];
      assert rows[..n - 1] == journal.rows[..n - 1];
      assert row.canvasSequence == n - 1 + 1;
      ReducerFoldsEachRun(journal, n - 1, r);
      hide Shows, GapFree;
      ReceiveShows(ReceiveAll(Client(0, map[]), rows[..n - 1]), row, r, Mine(rows[..n - 1], r));
    } else {
      assert journal.rows[..0] == [];
    }
  }
}
