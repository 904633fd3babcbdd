/** Replay of the event log to a browser: batches, disconnects and reconnects
    (proofgraph/generation/sse.py:20-75, web/src/generation.ts:268-278, web/src/App.tsx:454-510). */
module EventDelivery {
  import opened Reachability
  import opened RunModel
  import opened RunLog
  import opened ClientReducer

  const BATCH := 100

  /** The query of `_fetch_event_batch`: the rows after a cursor in sequence order, at most a hundred. */
  ghost predicate IsBatch(rows: seq<Row>, after: nat, batch: seq<Row>) {
    && |batch| <= BATCH
    && (forall i :: 0 <= i < |batch| ==> batch[i] in rows && after < batch[i].canvasSequence)
    && (forall i, j :: 0 <= i < j < |batch| ==> batch[i].canvasSequence < batch[j].canvasSequence)
    && (forall i :: 0 <= i < |rows| && after < rows[i].canvasSequence && rows[i] !in batch ==>
          |batch| == BATCH && forall j :: 0 <= j < |batch| ==> batch[j].canvasSequence < rows[i].canvasSequence)
  }

  /** A gap-free log leaves that query one answer: the next slice of the log. */
  lemma {:induction false} BatchIsSlice(journal: Journal, after: nat, batch: seq<Row>, n: nat)
    requires GapFree(journal) && after <= |journal.rows| && IsBatch(journal.rows, after, batch) && n <= |batch|
    ensures after + n <= |journal.rows| && batch[..n] == journal.rows[after..after + n]
    decreases n
  {
    hide *;
    if n > 0 {
      BatchIsSlice(journal, after, batch, n - 1);
      NextOfBatch(journal, after, batch, n - 1);
      assert batch[..n] == batch[..n - 1] + [batch[n - 1]];
      assert journal.rows[after..after + n] == journal.rows[after..after + n - 1] + [journal.rows[after + n - 1]];
    }
  }

  lemma SequenceAt(journal: Journal, i: nat)
    requires GapFree(journal) && i < |journal.rows|
    ensures journal.rows[i].canvasSequence == i + 1
  {
  }

  /** Row k of a batch is a row of the log beyond everything the batch has covered so far. */
  lemma RowOfBatch(journal: Journal, after: nat, batch: seq<Row>, k: nat) returns (at: nat)
    requires GapFree(journal) && IsBatch(journal.rows, after, batch) && k < |batch|
    requires 0 < k ==> batch[k - 1].canvasSequence == after + k
    ensures after + k <= at < |journal.rows| && journal.rows[at] == batch[k]
  {
    at :| 0 <= at < |journal.rows| && journal.rows[at] == batch[k];
    SequenceAt(journal, at);
    hide GapFree;
    if 0 < k {
      assert batch[k - 1].canvasSequence < batch[k].canvasSequence;
    }
  }

  lemma NextOfBatch(journal: Journal, after: nat, batch: seq<Row>, k: nat)
    requires GapFree(journal) && after <= |journal.rows| && IsBatch(journal.rows, after, batch) && k < |batch|
    requires after + k <= |journal.rows| && batch[..k] == journal.rows[after..after + k]
    ensures after + k < |journal.rows| && batch[k] == journal.rows[after + k]
  {
    hide *;
    forall j: nat | j < k ensures batch[j].canvasSequence == after + j + 1 {
      SequenceAt(journal, after + j);
      assert batch[j] == batch[..k][j] == journal.rows[after..after + k][j];
    }
    var at := RowOfBatch(journal, after, batch, k);
    SequenceAt(journal, at);
    SkippedRow(journal, after, batch, k);
  }

  /** A batch that reaches past a row contains it. */
  lemma SkippedRow(journal: Journal, after: nat, batch: seq<Row>, k: nat)
    requires GapFree(journal) && IsBatch(journal.rows, after, batch) && k < |batch|
    requires after + k < |journal.rows| && after + k < batch[k].canvasSequence
    requires forall j: nat :: j < k ==> batch[j].canvasSequence <= after + k
    ensures batch[k] == journal.rows[after + k]
  {
    hide GapFree, IsBatch;
    var expected := journal.rows[after + k];
    SequenceAt(journal, after + k);
    NothingSkipped(journal.rows, after, batch, after + k, k);
    var j :| 0 <= j < |batch| && batch[j] == expected;
    BatchIncreases(journal.rows, after, batch, j, k);
  }

  lemma NothingSkipped(rows: seq<Row>, after: nat, batch: seq<Row>, i: nat, k: nat)
    requires IsBatch(rows, after, batch) && i < |rows| && k < |batch|
    requires after < rows[i].canvasSequence <= batch[k].canvasSequence
    ensures rows[i] in batch
  {
  }

  lemma BatchIncreases(rows: seq<Row>, after: nat, batch: seq<Row>, j: nat, k: nat)
    requires IsBatch(rows, after, batch) && j < |batch| && k < |batch|
    ensures j < k ==> batch[j].canvasSequence < batch[k].canvasSequence
    ensures k < j ==> batch[k].canvasSequence < batch[j].canvasSequence
  {
  }

  lemma BatchRow(journal: Journal, after: nat, batch: seq<Row>, i: nat)
    requires GapFree(journal) && after <= |journal.rows| && IsBatch(journal.rows, after, batch) && i < |batch|
    ensures after + |batch| <= |journal.rows| && batch[i] == journal.rows[after + i]
    ensures batch[i].canvasSequence == after + i + 1
  {
    BatchIsSlice(journal, after, batch, |batch|);
    assert batch[i] == batch[..|batch|][i] == journal.rows[after..after + |batch|][i];
    assert journal.rows[after + i].canvasSequence == after + i + 1;
  }

  /** A batch has a hundred rows, or all that were left. */
  lemma BatchIsFull(journal: Journal, after: nat, batch: seq<Row>)
    requires GapFree(journal) && after <= |journal.rows| && IsBatch(journal.rows, after, batch)
    ensures |batch| <= 100 && (|batch| < 100 ==> after + |batch| == |journal.rows|)
  {
    hide GapFree;
    BatchIsSlice(journal, after, batch, |batch|);
    var next := after + |batch|;
    if next < |journal.rows| {
      SequenceAt(journal, next);
      forall j | 0 <= j < |batch| ensures batch[j] != journal.rows[next] {
        BatchRow(journal, after, batch, j);
      }
    }
  }

  lemma SomethingLeft(journal: Journal, after: nat)
    requires GapFree(journal) && after < |journal.rows|
    ensures !IsBatch(journal.rows, after, [])
  {
    assert journal.rows[after].canvasSequence == after + 1;
    assert journal.rows[after] !in [];
  }

  /** One open stream. The source loops forever; Poll is one turn of that loop. */
  class CanvasEventStream {
    var cursor: nat

    constructor (after: nat)
      ensures cursor == after
    {
      cursor := after;
    }

    /** Sends one batch, event by event: the next slice of the log, which is empty only at its end. */
    method Poll(journal: Journal, batch: seq<Row>) returns (sent: seq<Row>)
      requires GapFree(journal) && cursor <= |journal.rows| && IsBatch(journal.rows, cursor, batch)
      modifies this
      ensures cursor == old(cursor) + |sent| <= |journal.rows|
      ensures sent == journal.rows[old(cursor)..cursor]
      ensures sent == [] <==> old(cursor) == |journal.rows|
      ensures |sent| <= 100 && (|sent| < 100 ==> cursor == |journal.rows|)
    {
      hide *;
      ghost var from := cursor;
      BatchIsSlice(journal, from, batch, |batch|);
      BatchIsFull(journal, from, batch);
      assert from < |journal.rows| ==> batch != [] by {
        if from < |journal.rows| { SomethingLeft(journal, from); }
      }
      sent := [];
      for i := 0 to |batch|
        invariant cursor == from + i && sent == batch[..i]
      {
        BatchRow(journal, from, batch, i);
        cursor := batch[i].canvasSequence;
        sent := sent + [batch[i]];
        assert batch[..i + 1] == batch[..i] + [batch[i]];
      }
      assert batch[..|batch|] == batch;
    }
  }

  // ---- any number of streams against one browser ----

  /** A stream: how far it has delivered, and the fetched events not delivered yet. */
  datatype Stream = Stream(cursor: nat, pending: seq<Row>)

  datatype Feed = Feed(journal: Journal, client: Client, streams: map<Id, Stream>)

  datatype Move =
    | Grow(journal: Journal)
    | Open(id: Id, after: nat)
    | Fetch(id: Id, batch: seq<Row>)
    | Deliver(id: Id)
    | Close(id: Id)

  /** The log grows by appends; a stream opens at any cursor the browser has reached; a disconnect loses
      whatever was fetched and not delivered. */
  ghost function Moved(feed: Feed, move: Move): Feed {
    match move
    case Grow(journal) =>
      if GapFree(journal) && feed.journal.rows <= journal.rows then feed.(journal := journal) else feed
    case Open(id, after) =>
      if after <= feed.client.cursor then feed.(streams := feed.streams[id := Stream(after, [])]) else feed
    case Fetch(id, batch) =>
      if id in feed.streams && feed.streams[id].pending == []
         && IsBatch(feed.journal.rows, feed.streams[id].cursor, batch)
      then feed.(streams := feed.streams[id := Stream(feed.streams[id].cursor, batch)]) else feed
    case Deliver(id) =>
      if id in feed.streams && feed.streams[id].pending != [] then
        var row := feed.streams[id].pending[0];
        feed.(client := Receive(feed.client, row),
              streams := feed.streams[id := Stream(row.canvasSequence, feed.streams[id].pending[1..])])
      else feed
    case Close(id) => feed.(streams := feed.streams - {id})
  }

  ghost function AfterMoves(feed: Feed, moves: seq<Move>): Feed
    decreases |moves|
  {
    if moves == [] then feed else Moved(AfterMoves(feed, moves[..|moves| - 1]), moves[|moves| - 1])
  }

  ghost predicate InStep(journal: Journal, client: Client, stream: Stream) {
    && stream.cursor <= client.cursor
    && stream.cursor + |stream.pending| <= |journal.rows|
    && stream.pending == journal.rows[stream.cursor..stream.cursor + |stream.pending|]
  }

  /** The browser's state is one in-order fold of a prefix of the log, each event once. */
  ghost predicate Delivered(feed: Feed) {
    && GapFree(feed.journal) && feed.client.cursor <= |feed.journal.rows|
    && feed.client == ReceiveAll(Client(0, map[]), feed.journal.rows[..feed.client.cursor])
  }

  ghost predicate Streaming(feed: Feed) {
    Delivered(feed) && forall id :: id in feed.streams ==> InStep(feed.journal, feed.client, feed.streams[id])
  }

  lemma ReceiveNext(journal: Journal, client: Client, p: nat)
    requires GapFree(journal) && p < |journal.rows| && p <= client.cursor <= |journal.rows|
    requires client == ReceiveAll(Client(0, map[]), journal.rows[..client.cursor])
    ensures var after := Receive(client, journal.rows[p]);
            && client.cursor <= after.cursor <= |journal.rows| && p + 1 <= after.cursor
            && after == ReceiveAll(Client(0, map[]), journal.rows[..after.cursor])
  {
    assert journal.rows[p].canvasSequence == p + 1;
    if p == client.cursor {
      assert journal.rows[..p + 1][..p] == journal.rows[..p];
    }
  }

  lemma DeliverKeepsStreaming(feed: Feed, id: Id)
    requires Streaming(feed) && id in feed.streams && feed.streams[id].pending != []
    ensures Streaming(Moved(feed, Deliver(id)))
  {
    var stream := feed.streams[id];
    assert InStep(feed.journal, feed.client, stream);
    var p := stream.cursor;
    assert stream.pending[0] == feed.journal.rows[p];
    assert feed.journal.rows[p].canvasSequence == p + 1;
    ReceiveNext(feed.journal, feed.client, p);
    assert stream.pending[1..] == feed.journal.rows[p + 1..p + |stream.pending|];
    hide GapFree, ReceiveAll, Receive;
  }

  lemma MoveKeepsStreaming(feed: Feed, move: Move)
    requires Streaming(feed)
    ensures Streaming(Moved(feed, move))
  {
    hide GapFree, ReceiveAll, Receive;
    match move
    case Grow(journal) =>
      if GapFree(journal) && feed.journal.rows <= journal.rows {
        assert journal.rows[..feed.client.cursor] == feed.journal.rows[..feed.client.cursor];
        forall id | id in feed.streams ensures InStep(journal, feed.client, feed.streams[id]) {
          var s := feed.streams[id];
          assert InStep(feed.journal, feed.client, s);
          assert journal.rows[s.cursor..s.cursor + |s.pending|] == feed.journal.rows[s.cursor..s.cursor + |s.pending|];
        }
      }
    case Open(id, after) =>
    case Fetch(id, batch) =>
      if id in feed.streams && feed.streams[id].pending == []
         && IsBatch(feed.journal.rows, feed.streams[id].cursor, batch) {
        assert InStep(feed.journal, feed.client, feed.streams[id]);
        BatchIsSlice(feed.journal, feed.streams[id].cursor, batch, |batch|);
        assert batch[..|batch|] == batch;
        hide IsBatch;
      }
    case Deliver(id) =>
      if id in feed.streams && feed.streams[id].pending != [] {
        hide Streaming, Moved;
        DeliverKeepsStreaming(feed, id);
      }
    case Close(id) =>
  }

  lemma {:induction false} StreamingStays(feed: Feed, moves: seq<Move>)
    requires Streaming(feed)
    ensures Streaming(AfterMoves(feed, moves))
    decreases |moves|
  {
    if moves != [] {
      StreamingStays(feed, moves[..|moves| - 1]);
      hide Streaming, Moved;
      MoveKeepsStreaming(AfterMoves(feed, moves[..|moves| - 1]), moves[|moves| - 1]);
    }
  }

  /** An empty log, and a browser that has seen nothing. */
  function Silent(): Feed {
    Feed(Journal(0, []), Client(0, map[]), map[])
  }

  ghost predicate Reached(feed: Feed) {
    exists moves :: feed == AfterMoves(Silent(), moves)
  }

  lemma ReachedIsStreaming(feed: Feed)
    requires Reached(feed)
    ensures Streaming(feed)
  {
    var moves :| feed == AfterMoves(Silent(), moves);
    assert Streaming(Silent());
    hide Streaming, AfterMoves;
    StreamingStays(Silent(), moves);
  }

  /** Exactly-once delivery: from an empty log on, whatever the batching, the disconnects and the reconnects, and
      however many streams overlap, the browser holds the fold of the log up to its cursor. */
  lemma ExactlyOnceDelivery(feed: Feed)
    requires Reached(feed)
    ensures feed.client.cursor <= |feed.journal.rows|
    ensures feed.client == ReceiveAll(Client(0, map[]), feed.journal.rows[..feed.client.cursor])
  {
    ReachedIsStreaming(feed);
  }

  /** A stream that has nothing left to send has brought the browser to the end of the log. */
  lemma IdleStreamMeansCaughtUp(feed: Feed, id: Id)
    requires Reached(feed) && id in feed.streams && feed.streams[id].pending == []
    requires IsBatch(feed.journal.rows, feed.streams[id].cursor, [])
    ensures feed.client == ReceiveAll(Client(0, map[]), feed.journal.rows)
  {
    ReachedIsStreaming(feed);
    var stream := feed.streams[id];
    assert InStep(feed.journal, feed.client, stream);
    if stream.cursor < |feed.journal.rows| {
      SomethingLeft(feed.journal, stream.cursor);
    }
    assert feed.journal.rows[..|feed.journal.rows|] == feed.journal.rows;
  }
}
