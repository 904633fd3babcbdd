/** The event log of a canvas: gap-free numbering, and one terminal event per run and attempt
    (proofgraph/generation/events.py:24-55). */
module RunLog {
  import opened Reachability
  import opened RunModel

  /** The events of one run, in log order. */
  function Mine(rows: seq<Row>, run: Id): seq<News> {
    if rows == [] then []
    else
      var before := Mine(rows[..|rows| - 1], run);
      if rows[|rows| - 1].run == run then before + [rows[|rows| - 1].news] else before
  }

  ghost predicate Ended(mine: seq<News>, attempt: nat) {
    exists i :: 0 <= i < |mine| && Terminal(mine[i]) && mine[i].attempt == attempt
  }

  /** What one append does to the events of its own run. */
  ghost function Hear(mine: seq<News>, news: News): seq<News> {
    if Terminal(news) && Ended(mine, news.attempt) then mine else mine + [news]
  }

  ghost function HearAll(mine: seq<News>, news: seq<News>): seq<News>
    decreases |news|
  {
    if news == [] then mine else Hear(HearAll(mine, news[..|news| - 1]), news[|news| - 1])
  }

  /** Canvas sequences are 1..last in row order, and every row knows how many rows its run has so far. */
  ghost predicate GapFree(journal: Journal) {
    && journal.last == |journal.rows|
    && forall i :: 0 <= i < |journal.rows| ==>
         && journal.rows[i].canvasSequence == i + 1
         && journal.rows[i].runSequence == |Mine(journal.rows[..i + 1], journal.rows[i].run)|
  }

  lemma MineAppend(rows: seq<Row>, row: Row, run: Id)
    ensures Mine(rows + [row], run) == if row.run == run then Mine(rows, run) + [row.news] else Mine(rows, run)
  {
    assert (rows + [row])[..|rows|] == rows;
  }

  lemma {:induction false} MineOfPrefix(rows: seq<Row>, n: nat, run: Id)
    requires n <= |rows|
    ensures |Mine(rows[..n], run)| <= |Mine(rows, run)|
    ensures Mine(rows, run)[..|Mine(rows[..n], run)|] == Mine(rows[..n], run)
    decreases |rows|
  {
    if n == |rows| {
      assert rows[..n] == rows;
    } else {
      var shorter := rows[..|rows| - 1];
      MineOfPrefix(shorter, n, run);
      assert shorter[..n] == rows[..n];
    }
  }

  lemma {:induction false} MaxIsCount(journal: Journal, n: nat, run: Id)
    requires GapFree(journal) && n <= |journal.rows|
    ensures MaxRunSequence(journal.rows[..n], run) == |Mine(journal.rows[..n], run)|
    decreases n
  {
    if n > 0 {
      MaxIsCount(journal, n - 1, run);
      assert journal.rows[..n][..n - 1] == journal.rows[..n - 1];
      assert journal.rows[n - 1].runSequence == |Mine(journal.rows[..n - 1 + 1], journal.rows[n - 1].run)|;
    }
  }

  lemma RowIsHeard(rows: seq<Row>, i: nat) returns (k: nat)
    requires i < |rows|
    ensures k < |Mine(rows, rows[i].run)| && Mine(rows, rows[i].run)[k] == rows[i].news
  {
    var run := rows[i].run;
    var upTo := rows[..i + 1];
    assert upTo[..i] == rows[..i];
    MineOfPrefix(rows, i + 1, run);
    k := |Mine(upTo, run)| - 1;
    assert Mine(upTo, run)[k] == Mine(rows, run)[..|Mine(upTo, run)|][k];
  }

  lemma {:induction false} HeardIsRow(rows: seq<Row>, run: Id, k: nat) returns (i: nat)
    requires k < |Mine(rows, run)|
    ensures i < |rows| && rows[i].run == run && rows[i].news == Mine(rows, run)[k]
    decreases |rows|
  {
    var shorter := rows[..|rows| - 1];
    if k < |Mine(shorter, run)| {
      i := HeardIsRow(shorter, run, k);
    } else {
      i := |rows| - 1;
    }
  }

  lemma EndedInLog(rows: seq<Row>, run: Id, attempt: nat)
    ensures AlreadyEnded(rows, run, attempt) <==> Ended(Mine(rows, run), attempt)
  {
    if AlreadyEnded(rows, run, attempt) {
      var i :| 0 <= i < |rows| && rows[i].run == run && Terminal(rows[i].news) && rows[i].news.attempt == attempt;
      var k := RowIsHeard(rows, i);
    }
    if Ended(Mine(rows, run), attempt) {
      var k :| 0 <= k < |Mine(rows, run)| && Terminal(Mine(rows, run)[k]) && Mine(rows, run)[k].attempt == attempt;
      var i := HeardIsRow(rows, run, k);
    }
  }

  /** One append keeps the log gap-free, extends it, and is heard by its own run only. */
  lemma AppendKeepsLog(journal: Journal, run: Id, news: News)
    requires GapFree(journal)
    ensures var after := Append(journal, run, news);
            && GapFree(after) && journal.rows <= after.rows
            && Mine(after.rows, run) == Hear(Mine(journal.rows, run), news)
            && (forall other :: other != run ==> Mine(after.rows, other) == Mine(journal.rows, other))
            && (forall i :: |journal.rows| <= i < |after.rows| ==> after.rows[i].run == run)
  {
    var after := Append(journal, run, news);
    if Terminal(news) {
      EndedInLog(journal.rows, run, news.attempt);
    }
    if after != journal {
      var row := after.rows[|journal.rows|];
      forall other ensures Mine(after.rows, other)
                           == if row.run == other then Mine(journal.rows, other) + [row.news] else Mine(journal.rows, other) {
        MineAppend(journal.rows, row, other);
      }
      MaxIsCount(journal, |journal.rows|, run);
      assert journal.rows[..|journal.rows|] == journal.rows;
      NewRowKeepsGapFree(journal, row);
    }
  }

  lemma NewRowKeepsGapFree(journal: Journal, row: Row)
    requires GapFree(journal)
    requires row.canvasSequence == journal.last + 1 && row.runSequence == |Mine(journal.rows, row.run)| + 1
    ensures GapFree(Journal(journal.last + 1, journal.rows + [row]))
  {
    var rows := journal.rows + [row];
    forall i | 0 <= i < |rows|
      ensures rows[i].canvasSequence == i + 1 && rows[i].runSequence == |Mine(rows[..i + 1], rows[i].run)|
    {
      if i < |journal.rows| {
        assert rows[..i + 1] == journal.rows[..i + 1];
      } else {
        assert rows[..i + 1] == rows;
        MineAppend(journal.rows, row, row.run);
      }
    }
  }

  lemma {:induction false} AppendAllKeepsLog(journal: Journal, run: Id, news: seq<News>)
    requires GapFree(journal)
    ensures var after := AppendAll(journal, run, news);
            && GapFree(after) && journal.rows <= after.rows
            && Mine(after.rows, run) == HearAll(Mine(journal.rows, run), news)
            && (forall other :: other != run ==> Mine(after.rows, other) == Mine(journal.rows, other))
            && (forall i :: |journal.rows| <= i < |after.rows| ==> after.rows[i].run == run)
    decreases |news|
  {
    if news != [] {
      AppendAllKeepsLog(journal, run, news[..|news| - 1]);
      hide Mine, Append, GapFree;
      AppendKeepsLog(AppendAll(journal, run, news[..|news| - 1]), run, news[|news| - 1]);
    }
  }

  /** The run sequences of a run are 1..k in log order: row i is the runSequence-th event of its run. */
  lemma RunSequenceIsPosition(journal: Journal, i: nat)
    requires GapFree(journal) && i < |journal.rows|
    ensures var row := journal.rows[i]; var mine := Mine(journal.rows, row.run);
            && 1 <= row.runSequence <= |mine| && mine[row.runSequence - 1] == row.news
  {
    var row := journal.rows[i];
    var upTo := journal.rows[..i + 1];
    assert upTo[..i] == journal.rows[..i];
    MineOfPrefix(journal.rows, i + 1, row.run);
    var mine := Mine(journal.rows, row.run);
    var k := |Mine(upTo, row.run)|;
    assert mine[..k][k - 1] == mine[k - 1];
  }

  lemma RunSequencesIncrease(journal: Journal, i: nat, j: nat)
    requires GapFree(journal) && i < j < |journal.rows| && journal.rows[i].run == journal.rows[j].run
    ensures journal.rows[i].runSequence < journal.rows[j].runSequence
  {
    var run := journal.rows[j].run;
    var upTo := journal.rows[..j + 1];
    assert upTo[..j] == journal.rows[..j];
    assert journal.rows[..j][..i + 1] == journal.rows[..i + 1];
    MineOfPrefix(journal.rows[..j], i + 1, run);
  }

  // ---- the log over runs of the system ----

  ghost predicate EveryLogGapFree(s: State) {
    forall c :: c in s.journals ==> GapFree(s.journals[c])
  }

  ghost predicate RunsAreOnCanvases(s: State) {
    forall r :: r in s.runs ==> r in s.used && s.runs[r].run.canvas in s.journals
  }

  ghost predicate BelongsTo(s: State, row: Row, canvas: Id) {
    row.run in s.runs && s.runs[row.run].run.canvas == canvas
  }

  ghost predicate RowsHaveRuns(s: State) {
    forall c, i :: c in s.journals && 0 <= i < |s.journals[c].rows| ==> BelongsTo(s, s.journals[c].rows[i], c)
  }

  ghost predicate Logged(s: State) {
    EveryLogGapFree(s) && RunsAreOnCanvases(s) && RowsHaveRuns(s)
  }

  ghost function EventsOf(s: State, r: Id): seq<News>
    requires r in s.runs && s.runs[r].run.canvas in s.journals
  {
    Mine(s.journals[s.runs[r].run.canvas].rows, r)
  }

  lemma PerformKeepsRows(s: State, r: Id, outcome: Outcome)
    requires Logged(s) && r in s.runs && outcome.record.run.canvas == s.runs[r].run.canvas
    ensures var t := Perform(s, r, outcome);
            && Logged(t) && (forall c :: c in s.journals ==> s.journals[c].rows <= t.journals[c].rows)
  {
    var canvas := outcome.record.run.canvas;
    AppendAllKeepsLog(s.journals[canvas], r, outcome.news);
    hide GapFree, Mine, AppendAll, HearAll;
    var t := Perform(s, r, outcome);
    forall c, i | c in t.journals && 0 <= i < |t.journals[c].rows| ensures BelongsTo(t, t.journals[c].rows[i], c) {
      if i < |s.journals[c].rows| {
        assert BelongsTo(s, s.journals[c].rows[i], c);
        assert t.journals[c].rows[i] == s.journals[c].rows[i];
      }
    }
  }

  /** A transaction on one run is heard in that run's events and in no other's. */
  lemma PerformKeepsLog(s: State, r: Id, outcome: Outcome)
    requires Logged(s) && r in s.runs && outcome.record.run.canvas == s.runs[r].run.canvas
    ensures var t := Perform(s, r, outcome);
            && Logged(t) && (forall c :: c in s.journals ==> s.journals[c].rows <= t.journals[c].rows)
            && EventsOf(t, r) == HearAll(EventsOf(s, r), outcome.news)
            && (forall q :: q in s.runs && q != r ==> t.runs[q] == s.runs[q] && EventsOf(t, q) == EventsOf(s, q))
  {
    hide GapFree, Mine, AppendAll, HearAll, RowsHaveRuns;
    PerformKeepsRows(s, r, outcome);
    var canvas := outcome.record.run.canvas;
    assert GapFree(s.journals[canvas]);
    AppendAllKeepsLog(s.journals[canvas], r, outcome.news);
    hide EveryLogGapFree;
  }

  lemma DecideKeepsCanvas(record: Record, now: int, action: Action)
    ensures Decide(record, now, action).record.run.canvas == record.run.canvas
  {
  }

  lemma ActKeepsLog(s: State, r: Id, action: Action)
    requires Logged(s) && r in s.runs
    ensures var t := Next(s, Act(r, action)); var outcome := Decide(s.runs[r], s.now, action);
            && Logged(t) && t.runs.Keys == s.runs.Keys && t.used == s.used && t.now == s.now
            && t.runs[r] == outcome.record
            && EventsOf(t, r) == HearAll(EventsOf(s, r), outcome.news)
            && (forall q :: q in s.runs && q != r ==> t.runs[q] == s.runs[q] && EventsOf(t, q) == EventsOf(s, q))
            && t.journals.Keys == s.journals.Keys
            && (forall c :: c in s.journals ==> s.journals[c].rows <= t.journals[c].rows)
  {
    hide Decide, EventsOf, AppendAll, EveryLogGapFree, RowsHaveRuns;
    DecideKeepsCanvas(s.runs[r], s.now, action);
    PerformKeepsLog(s, r, Decide(s.runs[r], s.now, action));
  }

  lemma {:induction false} MineOfStranger(rows: seq<Row>, run: Id)
    requires forall i :: 0 <= i < |rows| ==> rows[i].run != run
    ensures Mine(rows, run) == []
    decreases |rows|
  {
    if rows != [] {
      MineOfStranger(rows[..|rows| - 1], run);
    }
  }

  lemma OtherStepKeepsRows(s: State, step: Step)
    requires Logged(s) && !step.Act?
    ensures Logged(Next(s, step))
  {
    var t := Next(s, step);
    assert GapFree(Journal(0, []));
    hide GapFree, Mine;
    forall c, i | c in t.journals && 0 <= i < |t.journals[c].rows| ensures BelongsTo(t, t.journals[c].rows[i], c) {
      assert BelongsTo(s, s.journals[c].rows[i], c);
    }
  }

  /** Steps that are not actions leave every surviving run and its events alone; a new run has none. */
  lemma OtherStepKeepsLog(s: State, step: Step)
    requires Logged(s) && !step.Act?
    ensures var t := Next(s, step);
            && Logged(t) && s.used <= t.used && s.now <= t.now
            && (forall q :: q in s.runs && q in t.runs ==> t.runs[q] == s.runs[q] && EventsOf(t, q) == EventsOf(s, q))
            && (forall q :: q in t.runs && q !in s.runs ==>
                  q !in s.used && step.Create? && t.runs[q] == Fresh(step.request, s.now) && EventsOf(t, q) == [])
  {
    hide EveryLogGapFree;
    OtherStepKeepsRows(s, step);
    if step.Create? && step.request.canvas in s.journals && step.id !in s.used {
      forall i | 0 <= i < |s.journals[step.request.canvas].rows|
        ensures s.journals[step.request.canvas].rows[i].run != step.id
      {
        assert BelongsTo(s, s.journals[step.request.canvas].rows[i], step.request.canvas);
      }
      MineOfStranger(s.journals[step.request.canvas].rows, step.id);
    }
    hide Mine, EveryLogGapFree, RowsHaveRuns;
  }

  /** Every canvas log of every reachable state is gap-free, whatever the actors do. */
  lemma {:induction false} LogsStayGapFree(s: State, steps: seq<Step>)
    requires Logged(s)
    ensures Logged(After(s, steps))
    decreases |steps|
  {
    if steps != [] {
      var before := After(s, steps[..|steps| - 1]);
      LogsStayGapFree(s, steps[..|steps| - 1]);
      var step := steps[|steps| - 1];
      assert step.Act? && step.run !in before.runs ==> Next(before, step) == before;
      hide Logged, Next;
      if step.Act? && step.run in before.runs {
        ActKeepsLog(before, step.run, step.action);
      } else if !step.Act? {
        OtherStepKeepsLog(before, step);
      }
    }
  }
}
