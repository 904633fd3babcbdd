/** Source ingestion under its own lease, beside the two other writers of a canvas: direct operations and
    patches (proofgraph/generation/source_ingestion.py:98-394, proofgraph/graph/operations.py:1014-1159,
    proofgraph/generation/patch_application.py:1095-1170). */
module SourceIngestion {
  import opened Reachability
  import opened GraphTypes
  import opened CanvasModel
  import opened CanvasInvariant
  import opened PatchCandidates
  import opened PatchInvariant

  const SOURCE_INGESTION_LEASE_SECONDS := 30

  datatype IngestionStatus = IngestionRunning | IngestionCompleted | IngestionFailed

  datatype Ingestion = Ingestion(
    key: Token, fingerprint: Token, status: IngestionStatus, worker: Option<Id>, token: Option<Id>, epoch: nat,
    expiresAt: Option<int>, source: Option<Id>, error: Option<string>)

  datatype SourceLease = SourceLease(request: Id, token: Id, epoch: nat, key: Token, fingerprint: Token)

  /** What retrieval returned; metadata is the server's own source metadata. */
  datatype Document = Document(title: string, excerpt: string, metadata: Metadata)

  /** issued holds every lease a reservation has returned; only its holder can finalize. */
  datatype System = System(now: int, canvas: Canvas, requests: map<Id, Ingestion>, issued: set<SourceLease>)

  datatype Reservation =
    | Leased(lease: SourceLease)
    | Answered(request: Id, status: IngestionStatus)
    | FingerprintConflict

  // ------------------------------------------------------------------ reserving

  predicate RequestWith(requests: map<Id, Ingestion>, key: Token, id: Id) {
    id in requests && requests[id].key == key
  }

  /** The row of an operation key; the table's unique constraint leaves no choice. */
  ghost function RequestFor(requests: map<Id, Ingestion>, key: Token): (r: Option<Id>)
    ensures r.Some? ==> RequestWith(requests, key, r.value)
    ensures r.None? ==> forall id :: id in requests ==> requests[id].key != key
  {
    assert forall id :: RequestWith(requests, key, id) <==> id in requests && requests[id].key == key;
    if id :| RequestWith(requests, key, id) then Some(id) else None
  }

  function Reclaimed(row: Ingestion, worker: Id, token: Id, now: int): Ingestion {
    row.(worker := Some(worker), token := Some(token), epoch := row.epoch + 1,
         expiresAt := Some(now + SOURCE_INGESTION_LEASE_SECONDS))
  }

  ghost function Reserved(sys: System, key: Token, fingerprint: Token, newId: Id, worker: Id, token: Id)
    : (System, Reservation)
  {
    match RequestFor(sys.requests, key)
    case None =>
      if newId in sys.requests then (sys, FingerprintConflict)
      else
        var row := Ingestion(key, fingerprint, IngestionRunning, Some(worker), Some(token), 1,
                             Some(sys.now + SOURCE_INGESTION_LEASE_SECONDS), None, None);
        var lease := SourceLease(newId, token, 1, key, fingerprint);
        (sys.(requests := sys.requests[newId := row], issued := sys.issued + {lease}), Leased(lease))
    case Some(id) =>
      var row := sys.requests[id];
      if row.fingerprint != fingerprint then (sys, FingerprintConflict)
      else if !row.status.IngestionRunning? then (sys, Answered(id, row.status))
      else if row.expiresAt.Some? && sys.now < row.expiresAt.value then (sys, Answered(id, row.status))
      else
        var again := Reclaimed(row, worker, token, sys.now);
        var lease := SourceLease(id, token, again.epoch, key, fingerprint);
        (sys.(requests := sys.requests[id := again], issued := sys.issued + {lease}), Leased(lease))
  }

  // ------------------------------------------------------------------ finalizing

  /** `_locked_fenced_ingestion`: the token and the epoch must match; the expiry is not looked at. */
  predicate HoldsIngestion(requests: map<Id, Ingestion>, lease: SourceLease) {
    && lease.request in requests && requests[lease.request].status.IngestionRunning?
    && requests[lease.request].token == Some(lease.token) && requests[lease.request].epoch == lease.epoch
  }

  function SourceNode(document: Document): Node {
    Node(Source, document.title, Some(document.excerpt), document.metadata, None, None, false, None, 1, 1)
  }

  /** The source node, the next revision and its log entry; nothing is staled. */
  function WithSource(c: Canvas, lease: SourceLease, document: Document, nodeId: Id): Canvas {
    c.(nodes := c.nodes[nodeId := SourceNode(document)], ingested := c.ingested + {nodeId},
       revision := c.revision + 1,
       log := c.log + [Entry(SourceKey(lease.key), FromIngestion(lease.fingerprint),
                             Payload(c.revision + 1, NodeSaved(nodeId), {}, {}))])
  }

  function Ended(row: Ingestion, status: IngestionStatus): Ingestion {
    row.(status := status, worker := None, token := None, expiresAt := None)
  }

  function Succeeded(sys: System, lease: SourceLease, document: Document, nodeId: Id): System {
    if !HoldsIngestion(sys.requests, lease) || nodeId in sys.canvas.nodes then sys
    else
      sys.(canvas := WithSource(sys.canvas, lease, document, nodeId),
           requests := sys.requests[lease.request :=
             Ended(sys.requests[lease.request], IngestionCompleted).(source := Some(nodeId))])
  }

  function FailedWith(sys: System, lease: SourceLease, error: string): System {
    if !HoldsIngestion(sys.requests, lease) then sys
    else sys.(requests := sys.requests[lease.request :=
                Ended(sys.requests[lease.request], IngestionFailed).(error := Some(error))])
  }

  // ------------------------------------------------------------------ the three writers

  datatype Step =
    | Tick(to: int)
    | Reserve(key: Token, fingerprint: Token, newId: Id, worker: Id, token: Id)
    | Succeed(lease: SourceLease, document: Document, nodeId: Id)
    | Fail(lease: SourceLease, error: string)
    | Directly(id: Id, request: Request, newId: Id)
    | ByPatch(patch: Id, operation: Id, candidate: Candidate, ids: IdMap, excluded: set<Id>)

  ghost function Next(sys: System, step: Step): System {
    match step
    case Tick(to) => if sys.now <= to then sys.(now := to) else sys
    case Reserve(key, fingerprint, newId, worker, token) => Reserved(sys, key, fingerprint, newId, worker, token).0
    case Succeed(lease, document, nodeId) =>
      if lease in sys.issued then Succeeded(sys, lease, document, nodeId) else sys
    case Fail(lease, error) => if lease in sys.issued then FailedWith(sys, lease, error) else sys
    case Directly(id, request, newId) =>
      var outcome := ApplyOperation(sys.canvas, id, request, newId);
      if outcome.Committed? then sys.(canvas := outcome.canvas) else sys
    case ByPatch(patch, operation, candidate, ids, excluded) =>
      var outcome := ApplyCandidate(sys.canvas, patch, operation, candidate, ids, excluded);
      if outcome.Fine? then sys.(canvas := outcome.value.0) else sys
  }

  ghost function After(sys: System, steps: seq<Step>): System
    decreases |steps|
  {
    if steps == [] then sys else Next(After(sys, steps[..|steps| - 1]), steps[|steps| - 1])
  }

  // ------------------------------------------------------------------ the invariant

  /** `ck_source_ingestion_state`: a lease only while running, a source only when completed, an error only
      when failed. */
  ghost predicate RowState(row: Ingestion) {
    && (row.status.IngestionRunning? <==> row.worker.Some?) && (row.status.IngestionRunning? <==> row.token.Some?)
    && (row.status.IngestionRunning? <==> row.expiresAt.Some?)
    && (row.status.IngestionCompleted? <==> row.source.Some?)
    && (row.status.IngestionFailed? <==> row.error.Some?)
    && 0 < row.epoch
  }

  ghost predicate KeysUnique(requests: map<Id, Ingestion>) {
    forall a, b :: a in requests && b in requests && requests[a].key == requests[b].key ==> a == b
  }

  /** The entry of a completed ingestion. */
  ghost predicate IsEntryOf(entry: Entry, row: Ingestion) {
    && row.source.Some? && entry.key == SourceKey(row.key) && entry.audit == FromIngestion(row.fingerprint)
    && entry.payload.change == NodeSaved(row.source.value)
  }

  ghost predicate HasEntry(log: seq<Entry>, row: Ingestion) {
    exists i :: 0 <= i < |log| && IsEntryOf(log[i], row)
  }

  ghost predicate Explained(requests: map<Id, Ingestion>, entry: Entry) {
    entry.key.SourceKey? ==> exists id :: id in requests && IsEntryOf(entry, requests[id])
  }

  ghost predicate AllExplained(requests: map<Id, Ingestion>, log: seq<Entry>) {
    forall i :: 0 <= i < |log| ==> Explained(requests, log[i])
  }

  ghost predicate RequestSound(c: Canvas, row: Ingestion) {
    RowState(row) && (row.status.IngestionCompleted? ==> row.source.value in c.ingested && HasEntry(c.log, row))
  }

  ghost predicate LeaseMatches(requests: map<Id, Ingestion>, lease: SourceLease) {
    && lease.request in requests && lease.epoch <= requests[lease.request].epoch
    && lease.key == requests[lease.request].key && lease.fingerprint == requests[lease.request].fingerprint
  }

  ghost predicate SystemSound(sys: System) {
    && Valid(sys.canvas) && KeysUnique(sys.requests)
    && (forall lease :: lease in sys.issued ==> LeaseMatches(sys.requests, lease))
    && (forall id :: id in sys.requests ==> RequestSound(sys.canvas, sys.requests[id]))
    && AllExplained(sys.requests, sys.canvas.log)
  }

  // ------------------------------------------------------------------ the canvas writers

  /** One more entry under this key, and the ingestion links as before. */
  ghost predicate OneMoreEntry(c: Canvas, d: Canvas, key: Key) {
    |d.log| == |c.log| + 1 && c.log <= d.log && d.log[|c.log|].key == key && d.ingested == c.ingested
  }

  lemma DirectLogs(c: Canvas, id: Id, request: Request, newId: Id)
    requires Valid(c) && ApplyOperation(c, id, request, newId).Committed?
    ensures OneMoreEntry(c, ApplyOperation(c, id, request, newId).canvas, DirectKey(id))
    ensures Valid(ApplyOperation(c, id, request, newId).canvas)
  {
    ApplyKeepsValid(c, id, request, newId);
    HandleKeepsValid(c, request, newId);
    hide Valid, Handle, CaptureInvalidation, ResolveInvalidation, MarkStale, Stamp;
    CommitAddsOne(Handle(c, request, newId).value.0, DirectKey(id), Direct(request), Handle(c, request, newId).value.1,
      ResolveInvalidation(Handle(c, request, newId).value.0, request, CaptureInvalidation(c, request)),
      OriginOf(CaptureInvalidation(c, request)));
  }

  lemma CommitAddsOne(c: Canvas, key: Key, audit: Audit, change: Change, affected: set<Id>, origin: Origin)
    ensures var d := Commit(c, key, audit, change, affected, origin);
            |d.log| == |c.log| + 1 && c.log <= d.log && d.log[|c.log|].key == key && d.log[|c.log|].audit == audit
            && d.ingested == c.ingested && d.revision == c.revision + 1
  {
  }

  lemma CandidateLogs(c: Canvas, patch: Id, operation: Id, op: Candidate, ids: IdMap, excluded: set<Id>)
    requires Valid(c) && ApplyCandidate(c, patch, operation, op, ids, excluded).Fine?
    ensures var d := ApplyCandidate(c, patch, operation, op, ids, excluded).value.0;
            Valid(d) && (d == c || OneMoreEntry(c, d, PatchKey(patch, operation)))
  {
    hide Valid, HandleCandidate, AffectedByCandidate, CaptureCandidate, Commit;
    ApplyCandidateKeepsValid(c, patch, operation, op, ids, excluded);
    if forall i: nat :: !KeyUsed(c.log, PatchKey(patch, operation), i) {
      HandleCandidateKeepsValid(c, patch, op, ids);
      var handled := HandleCandidate(c, patch, op, ids).value;
      CommitAddsOne(handled.0, PatchKey(patch, operation), FromPatch(patch, operation, op), handled.1,
                    AffectedByCandidate(c, handled.0, op, excluded), OriginOf(CaptureCandidate(c, op)));
    }
  }

  lemma OtherEntryKeepsRequests(c: Canvas, d: Canvas, key: Key, requests: map<Id, Ingestion>)
    requires OneMoreEntry(c, d, key) && !key.SourceKey? && AllExplained(requests, c.log)
    requires forall id :: id in requests ==> RequestSound(c, requests[id])
    ensures AllExplained(requests, d.log) && forall id :: id in requests ==> RequestSound(d, requests[id])
  {
    forall i | 0 <= i < |d.log| ensures Explained(requests, d.log[i]) {
      if i < |c.log| {
        assert d.log[i] == c.log[i];
        assert Explained(requests, c.log[i]);
      }
    }
    forall id | id in requests ensures RequestSound(d, requests[id]) {
      if requests[id].status.IngestionCompleted? {
        var i :| 0 <= i < |c.log| && IsEntryOf(c.log[i], requests[id]);
        assert d.log[i] == c.log[i];
      }
    }
  }

  lemma CanvasStepKeepsSound(sys: System, step: Step)
    requires SystemSound(sys) && (step.Directly? || step.ByPatch?)
    ensures SystemSound(Next(sys, step))
  {
    hide Valid, ApplyOperation, ApplyCandidate, OneMoreEntry, KeysUnique, AllExplained, RequestSound;
    var c, d := sys.canvas, Next(sys, step).canvas;
    match step
    case Directly(id, request, newId) =>
      if ApplyOperation(c, id, request, newId).Committed? {
        DirectLogs(c, id, request, newId);
        OtherEntryKeepsRequests(c, d, DirectKey(id), sys.requests);
      }
    case ByPatch(patch, operation, candidate, ids, excluded) =>
      if ApplyCandidate(c, patch, operation, candidate, ids, excluded).Fine? {
        CandidateLogs(c, patch, operation, candidate, ids, excluded);
        if d != c {
          OtherEntryKeepsRequests(c, d, PatchKey(patch, operation), sys.requests);
        }
      }
  }

  // ------------------------------------------------------------------ the ingestion's own steps

  lemma ReserveKeepsSound(sys: System, key: Token, fingerprint: Token, newId: Id, worker: Id, token: Id)
    requires SystemSound(sys)
    ensures SystemSound(Reserved(sys, key, fingerprint, newId, worker, token).0)
  {
    var reserved := Reserved(sys, key, fingerprint, newId, worker, token);
    assert forall id :: id in sys.requests ==> RowState(sys.requests[id]) by { RowsAreSound(sys); }
    hide *;
    LeasedIsRunning(sys, key, fingerprint, newId, worker, token);
    if reserved.1.Leased? {
      LeasedRowKeepsSound(sys, reserved.1.lease, reserved.0.requests[reserved.1.lease.request]);
    }
  }

  lemma RowsAreSound(sys: System)
    requires SystemSound(sys)
    ensures forall id :: id in sys.requests ==> RowState(sys.requests[id])
  {
    hide Valid, AllExplained, KeysUnique, HasEntry, RowState;
    forall id | id in sys.requests ensures RowState(sys.requests[id]) {
      assert RequestSound(sys.canvas, sys.requests[id]);
    }
  }

  /** The row of a lease that is given out. */
  ghost predicate RowForLease(requests: map<Id, Ingestion>, lease: SourceLease, row: Ingestion) {
    && row.status.IngestionRunning? && RowState(row)
    && lease.epoch == row.epoch && lease.key == row.key && lease.fingerprint == row.fingerprint
    && if lease.request in requests
       then (var was := requests[lease.request];
             was.source.None? && was.key == row.key && was.fingerprint == row.fingerprint && was.epoch <= row.epoch)
       else forall id :: id in requests ==> requests[id].key != row.key
  }

  lemma LeasedIsRunning(sys: System, key: Token, fingerprint: Token, newId: Id, worker: Id, token: Id)
    requires forall id :: id in sys.requests ==> RowState(sys.requests[id])
    ensures var (t, answer) := Reserved(sys, key, fingerprint, newId, worker, token);
            if answer.Leased?
            then answer.lease.request in t.requests
                 && RowForLease(sys.requests, answer.lease, t.requests[answer.lease.request])
                 && t == sys.(requests := sys.requests[answer.lease.request := t.requests[answer.lease.request]],
                              issued := sys.issued + {answer.lease})
            else t == sys
  {
    var answer := Reserved(sys, key, fingerprint, newId, worker, token).1;
    if answer.Leased? && RequestFor(sys.requests, key).Some? {
      assert RowState(sys.requests[answer.lease.request]);
    }
    hide RequestFor;
  }

  /** A row made or taken over for a new lease is running under its own key. */
  lemma LeasedRowKeepsSound(sys: System, lease: SourceLease, row: Ingestion)
    requires SystemSound(sys) && RowForLease(sys.requests, lease, row)
    ensures SystemSound(sys.(requests := sys.requests[lease.request := row], issued := sys.issued + {lease}))
  {
    hide Valid, RowState, HasEntry, AllExplained;
    RunningRowsKeepEntries(sys.requests, sys.requests[lease.request := row], sys.canvas.log);
  }

  /** New and reclaimed rows are running, and running rows have no entries. */
  lemma RunningRowsKeepEntries(before: map<Id, Ingestion>, after: map<Id, Ingestion>, log: seq<Entry>)
    requires AllExplained(before, log)
    requires forall id :: id in before && before[id].source.Some? ==> id in after && after[id] == before[id]
    ensures AllExplained(after, log)
  {
    forall i | 0 <= i < |log| ensures Explained(after, log[i]) {
      assert Explained(before, log[i]);
      if log[i].key.SourceKey? {
        var id :| id in before && IsEntryOf(log[i], before[id]);
        assert IsEntryOf(log[i], after[id]);
      }
    }
  }

  lemma FailKeepsSound(sys: System, lease: SourceLease, error: string)
    requires SystemSound(sys)
    ensures SystemSound(FailedWith(sys, lease, error))
  {
    hide Valid;
    if HoldsIngestion(sys.requests, lease) {
      RunningRowsKeepEntries(sys.requests, FailedWith(sys, lease, error).requests, sys.canvas.log);
    }
  }

  /** The operation key of a running request was never logged, so its unique constraint cannot fail. */
  lemma RunningKeyIsFree(sys: System, id: Id, i: nat)
    requires SystemSound(sys) && id in sys.requests && sys.requests[id].source.None?
    ensures !KeyUsed(sys.canvas.log, SourceKey(sys.requests[id].key), i)
  {
    if i < |sys.canvas.log| {
      assert Explained(sys.requests, sys.canvas.log[i]);
    }
  }

  lemma SourceKeepsValid(c: Canvas, lease: SourceLease, document: Document, nodeId: Id)
    requires Valid(c) && nodeId !in c.nodes && forall i: nat :: !KeyUsed(c.log, SourceKey(lease.key), i)
    ensures Valid(WithSource(c, lease, document, nodeId))
  {
    var d := c.(nodes := c.nodes[nodeId := SourceNode(document)]);
    NewNodeKeeps(c, nodeId, SourceNode(document));
    hide StalenessConsistent, RootsAnchored;
    CommitKeepsValid(d, SourceKey(lease.key), FromIngestion(lease.fingerprint), NodeSaved(nodeId), {}, NoOrigin);
    SourceIsCommit(c, lease, document, nodeId);
    LinkKeepsValid(Commit(d, SourceKey(lease.key), FromIngestion(lease.fingerprint), NodeSaved(nodeId), {}, NoOrigin), nodeId);
  }

  /** Finalizing is a commit that stales nothing, with one more node that ingestion refers to. */
  lemma SourceIsCommit(c: Canvas, lease: SourceLease, document: Document, nodeId: Id)
    ensures var d := c.(nodes := c.nodes[nodeId := SourceNode(document)]);
            var e := Commit(d, SourceKey(lease.key), FromIngestion(lease.fingerprint), NodeSaved(nodeId), {}, NoOrigin);
            WithSource(c, lease, document, nodeId) == e.(ingested := e.ingested + {nodeId})
  {
    var d := c.(nodes := c.nodes[nodeId := SourceNode(document)]);
    var e := Commit(d, SourceKey(lease.key), FromIngestion(lease.fingerprint), NodeSaved(nodeId), {}, NoOrigin);
    var payload := e.log[|c.log|].payload;
    assert payload.stale == {} && payload.newlyStale == {};
    assert e.nodes == d.nodes;
    assert e.causes == d.causes;
    assert e.log == WithSource(c, lease, document, nodeId).log;
  }

  lemma LinkKeepsValid(c: Canvas, nodeId: Id)
    requires Valid(c) && nodeId in c.nodes
    ensures Valid(c.(ingested := c.ingested + {nodeId}))
  {
    var d := c.(ingested := c.ingested + {nodeId});
    forall n | n in d.nodes ensures Anchored(d.nodes, n) {
      assert Anchored(c.nodes, n);
    }
  }

  lemma SucceedKeepsSound(sys: System, lease: SourceLease, document: Document, nodeId: Id)
    requires SystemSound(sys) && lease in sys.issued
    ensures SystemSound(Succeeded(sys, lease, document, nodeId))
  {
    if HoldsIngestion(sys.requests, lease) && nodeId !in sys.canvas.nodes {
      var t := Succeeded(sys, lease, document, nodeId);
      forall i: nat ensures !KeyUsed(sys.canvas.log, SourceKey(lease.key), i) {
        RunningKeyIsFree(sys, lease.request, i);
      }
      SourceKeepsValid(sys.canvas, lease, document, nodeId);
      hide Valid, KeyUsed;
      RunningRowsKeepEntries(sys.requests, t.requests, sys.canvas.log);
      NewEntryIsExplained(sys, t, lease, nodeId);
    }
  }

  lemma NewEntryIsExplained(sys: System, t: System, lease: SourceLease, nodeId: Id)
    requires lease.request in t.requests && AllExplained(t.requests, sys.canvas.log)
    requires |t.canvas.log| == |sys.canvas.log| + 1 && sys.canvas.log <= t.canvas.log
    requires IsEntryOf(t.canvas.log[|sys.canvas.log|], t.requests[lease.request])
    requires sys.canvas.ingested <= t.canvas.ingested && nodeId in t.canvas.ingested
    requires forall id :: id in sys.requests ==> RequestSound(sys.canvas, sys.requests[id])
    requires forall id :: id in t.requests && id != lease.request ==> id in sys.requests && t.requests[id] == sys.requests[id]
    requires RowState(t.requests[lease.request]) && t.requests[lease.request].source == Some(nodeId)
    ensures AllExplained(t.requests, t.canvas.log)
    ensures forall id :: id in t.requests ==> RequestSound(t.canvas, t.requests[id])
  {
    forall i | 0 <= i < |t.canvas.log| ensures Explained(t.requests, t.canvas.log[i]) {
      if i < |sys.canvas.log| {
        assert t.canvas.log[i] == sys.canvas.log[i];
        assert Explained(t.requests, sys.canvas.log[i]);
      }
    }
    forall id | id in t.requests ensures RequestSound(t.canvas, t.requests[id]) {
      if id != lease.request && t.requests[id].status.IngestionCompleted? {
        assert RequestSound(sys.canvas, sys.requests[id]);
        var i :| 0 <= i < |sys.canvas.log| && IsEntryOf(sys.canvas.log[i], t.requests[id]);
        assert t.canvas.log[i] == sys.canvas.log[i];
      }
    }
  }

  lemma NextKeepsSound(sys: System, step: Step)
    requires SystemSound(sys)
    ensures SystemSound(Next(sys, step))
  {
    hide Valid, KeysUnique, AllExplained, RequestSound, Reserved, Succeeded, FailedWith, ApplyOperation, ApplyCandidate;
    match step
    case Tick(_) =>
    case Reserve(key, fingerprint, newId, worker, token) =>
      ReserveKeepsSound(sys, key, fingerprint, newId, worker, token);
    case Succeed(lease, document, nodeId) =>
      if lease in sys.issued { SucceedKeepsSound(sys, lease, document, nodeId); }
    case Fail(lease, error) => FailKeepsSound(sys, lease, error);
    case Directly(_, _, _) => CanvasStepKeepsSound(sys, step);
    case ByPatch(_, _, _, _, _) => CanvasStepKeepsSound(sys, step);
  }

  lemma {:induction false} SoundStays(sys: System, steps: seq<Step>)
    requires SystemSound(sys)
    ensures SystemSound(After(sys, steps))
    decreases |steps|
  {
    if steps != [] {
      SoundStays(sys, steps[..|steps| - 1]);
      hide SystemSound, Next;
      NextKeepsSound(After(sys, steps[..|steps| - 1]), steps[|steps| - 1]);
    }
  }

  /** A canvas without rows, and no request. */
  function Blank(now: int): System {
    System(now, Canvas(map[], map[], map[], {}, 0, []), map[], {})
  }

  /** What any interleaving of the three writers makes of a blank canvas. */
  ghost predicate Reached(sys: System) {
    exists now, steps :: sys == After(Blank(now), steps)
  }

  lemma BlankIsSound(now: int)
    ensures SystemSound(Blank(now))
  {
  }

  lemma ReachedIsSound(sys: System)
    requires Reached(sys)
    ensures SystemSound(sys)
  {
    var now, steps :| sys == After(Blank(now), steps);
    BlankIsSound(now);
    hide SystemSound, After;
    SoundStays(Blank(now), steps);
  }

  // ------------------------------------------------------------------ a single effect

  ghost predicate LoggedKey(c: Canvas, key: Token, i: nat) {
    i < |c.log| && c.log[i].key == SourceKey(key)
  }

  /** In every state any interleaving reaches: an operation key has at most one request and at most one logged
      operation, it has the operation exactly when its request is completed, and then the node it created is
      that request's source and is still there. */
  lemma SingleEffect(sys: System, key: Token)
    requires Reached(sys)
    ensures forall i: nat, j: nat :: LoggedKey(sys.canvas, key, i) && LoggedKey(sys.canvas, key, j) ==> i == j
    ensures (exists i: nat :: LoggedKey(sys.canvas, key, i)) <==>
            exists id :: RequestWith(sys.requests, key, id) && sys.requests[id].status.IngestionCompleted?
    ensures forall id, i: nat :: RequestWith(sys.requests, key, id) && LoggedKey(sys.canvas, key, i) ==>
              sys.requests[id].status.IngestionCompleted?
              && sys.requests[id].source.Some? && sys.canvas.log[i].payload.change == NodeSaved(sys.requests[id].source.value)
              && sys.requests[id].source.value in sys.canvas.nodes
  {
    ReachedIsSound(sys);
    hide Reached;
    var c := sys.canvas;
    assert LogGapFree(c);
    forall i: nat | LoggedKey(c, key, i)
      ensures exists id :: RequestWith(sys.requests, key, id) && sys.requests[id].status.IngestionCompleted?
    {
      var id := LoggedIsCompleted(sys, key, i);
    }
    forall id | RequestWith(sys.requests, key, id) && sys.requests[id].status.IngestionCompleted?
      ensures exists i: nat :: LoggedKey(c, key, i)
    {
      var i := CompletedIsLogged(sys, key, id);
    }
    forall id, i: nat | RequestWith(sys.requests, key, id) && LoggedKey(c, key, i)
      ensures sys.requests[id].status.IngestionCompleted?
              && c.log[i].payload.change == NodeSaved(sys.requests[id].source.value)
              && sys.requests[id].source.value in c.nodes
    {
      var other := LoggedIsCompleted(sys, key, i);
      assert other == id;
    }
    hide Valid, RequestSound, AllExplained, KeysUnique;
  }

  lemma LoggedIsCompleted(sys: System, key: Token, i: nat) returns (id: Id)
    requires SystemSound(sys) && LoggedKey(sys.canvas, key, i)
    ensures RequestWith(sys.requests, key, id) && sys.requests[id].status.IngestionCompleted?
    ensures sys.requests[id].source.Some? && sys.requests[id].source.value in sys.canvas.nodes
            && sys.canvas.log[i].payload.change == NodeSaved(sys.requests[id].source.value)
  {
    assert sys.canvas.ingested <= sys.canvas.nodes.Keys;
    hide Valid, HasEntry, KeysUnique;
    assert Explained(sys.requests, sys.canvas.log[i]);
    id :| id in sys.requests && IsEntryOf(sys.canvas.log[i], sys.requests[id]);
    assert RequestSound(sys.canvas, sys.requests[id]);
  }

  lemma CompletedIsLogged(sys: System, key: Token, id: Id) returns (i: nat)
    requires SystemSound(sys) && RequestWith(sys.requests, key, id) && sys.requests[id].status.IngestionCompleted?
    ensures LoggedKey(sys.canvas, key, i)
  {
    hide Valid, KeysUnique, AllExplained;
    assert RequestSound(sys.canvas, sys.requests[id]);
    var j :| 0 <= j < |sys.canvas.log| && IsEntryOf(sys.canvas.log[j], sys.requests[id]);
    i := j;
  }

  ghost predicate Final(row: Ingestion) {
    row.status.IngestionCompleted? || row.status.IngestionFailed?
  }

  /** A finished request keeps its row for ever. */
  lemma {:induction false} FinishedStaysFinished(sys: System, steps: seq<Step>, id: Id)
    requires id in sys.requests && Final(sys.requests[id])
    ensures id in After(sys, steps).requests && After(sys, steps).requests[id] == sys.requests[id]
    decreases |steps|
  {
    if steps != [] {
      FinishedStaysFinished(sys, steps[..|steps| - 1], id);
      FinishedKept(After(sys, steps[..|steps| - 1]), steps[|steps| - 1], id);
      hide Next;
    }
  }

  lemma FinishedKept(sys: System, step: Step, id: Id)
    requires id in sys.requests && Final(sys.requests[id])
    ensures id in Next(sys, step).requests && Next(sys, step).requests[id] == sys.requests[id]
  {
    hide ApplyOperation, ApplyCandidate, RequestFor;
  }

  /** The lease's row has moved on to a later epoch, or is finished. */
  ghost predicate Superseded(sys: System, lease: SourceLease) {
    lease.request in sys.requests
    && (lease.epoch < sys.requests[lease.request].epoch || Final(sys.requests[lease.request]))
  }

  lemma SupersededKept(sys: System, step: Step, lease: SourceLease)
    requires Superseded(sys, lease)
    ensures Superseded(Next(sys, step), lease)
  {
    hide ApplyOperation, ApplyCandidate, RequestFor;
  }

  lemma {:induction false} SupersededStays(sys: System, steps: seq<Step>, lease: SourceLease)
    requires Superseded(sys, lease)
    ensures Superseded(After(sys, steps), lease)
    decreases |steps|
  {
    if steps != [] {
      SupersededStays(sys, steps[..|steps| - 1], lease);
      hide Next, Superseded;
      SupersededKept(After(sys, steps[..|steps| - 1]), steps[|steps| - 1], lease);
    }
  }

  /** A reclaimed holder, like the holder of a finished request, can finalize neither way at any later time. */
  lemma ReclaimedHolderIsFenced(sys: System, steps: seq<Step>, lease: SourceLease, document: Document, nodeId: Id, error: string)
    requires Superseded(sys, lease)
    ensures var t := After(sys, steps);
            Next(t, Succeed(lease, document, nodeId)) == t && Next(t, Fail(lease, error)) == t
  {
    SupersededStays(sys, steps, lease);
  }

  /** A reservation takes a running request over exactly when its lease has run out, and fences the old holder. */
  lemma ReclaimSupersedes(sys: System, key: Token, fingerprint: Token, newId: Id, worker: Id, token: Id, id: Id)
    requires Reached(sys) && RequestWith(sys.requests, key, id)
    requires sys.requests[id].status.IngestionRunning? && sys.requests[id].fingerprint == fingerprint
    ensures var (t, answer) := Reserved(sys, key, fingerprint, newId, worker, token);
            && sys.requests[id].expiresAt.Some? && (answer.Leased? <==> sys.requests[id].expiresAt.value <= sys.now)
            && (answer.Leased? ==> forall lease :: lease in sys.issued && lease.request == id ==> Superseded(t, lease))
            && (!answer.Leased? ==> t == sys && answer == Answered(id, IngestionRunning))
  {
    ReachedIsSound(sys);
    hide Reached;
    assert RequestFor(sys.requests, key) == Some(id);
    assert RequestSound(sys.canvas, sys.requests[id]);
    hide Valid, AllExplained, HasEntry;
  }

  /** Finalizing does not look at the expiry: a late holder that nobody reclaimed still finishes. */
  lemma LateHolderStillFinishes(sys: System, lease: SourceLease, document: Document, nodeId: Id)
    requires lease in sys.issued && HoldsIngestion(sys.requests, lease) && nodeId !in sys.canvas.nodes
    ensures var t := Next(sys, Succeed(lease, document, nodeId));
            && t.requests[lease.request].status.IngestionCompleted? && t.requests[lease.request].source == Some(nodeId)
            && t.canvas.revision == sys.canvas.revision + 1
  {
  }

  /** And such a holder is reached: one reservation, and then the clock. */
  lemma LateHolderReached(key: Token, fingerprint: Token, id: Id, worker: Id, token: Id) returns (sys: System, lease: SourceLease)
    ensures Reached(sys) && lease in sys.issued && HoldsIngestion(sys.requests, lease)
    ensures sys.requests[lease.request].expiresAt.Some? && sys.requests[lease.request].expiresAt.value < sys.now
  {
    var reserve, tick := Reserve(key, fingerprint, id, worker, token), Tick(SOURCE_INGESTION_LEASE_SECONDS + 1);
    var reserved := Next(Blank(0), reserve);
    assert After(Blank(0), []) == Blank(0) && [reserve][..0] == [] && [reserve, tick][..1] == [reserve];
    assert After(Blank(0), [reserve]) == reserved && After(Blank(0), [reserve, tick]) == Next(reserved, tick);
    assert RequestFor(Blank(0).requests, key).None?;
    sys, lease := Next(reserved, tick), SourceLease(id, token, 1, key, fingerprint);
  }

  // ------------------------------------------------------------------ replays and conservation

  /** The canvas revision counts the logged operations of all three writers, which are numbered without gaps. */
  lemma RevisionCountsOperations(sys: System, i: nat)
    requires Reached(sys)
    ensures sys.canvas.revision == |sys.canvas.log|
    ensures i < |sys.canvas.log| ==> sys.canvas.log[i].payload.revision == i + 1
  {
    ReachedIsSound(sys);
    hide Reached;
  }

  lemma LogOnlyGrows(sys: System, step: Step)
    requires SystemSound(sys)
    ensures sys.canvas.log <= Next(sys, step).canvas.log
  {
    hide Valid, ApplyOperation, ApplyCandidate, RequestFor;
    match step
    case Directly(id, request, newId) =>
      if ApplyOperation(sys.canvas, id, request, newId).Committed? { DirectLogs(sys.canvas, id, request, newId); }
    case ByPatch(patch, operation, candidate, ids, excluded) =>
      if ApplyCandidate(sys.canvas, patch, operation, candidate, ids, excluded).Fine? {
        CandidateLogs(sys.canvas, patch, operation, candidate, ids, excluded);
      }
    case _ =>
  }

  lemma {:induction false} LogIsPrefix(sys: System, steps: seq<Step>)
    requires SystemSound(sys)
    ensures SystemSound(After(sys, steps)) && sys.canvas.log <= After(sys, steps).canvas.log
    decreases |steps|
  {
    if steps != [] {
      LogIsPrefix(sys, steps[..|steps| - 1]);
      hide SystemSound, Next;
      NextKeepsSound(After(sys, steps[..|steps| - 1]), steps[|steps| - 1]);
      LogOnlyGrows(After(sys, steps[..|steps| - 1]), steps[|steps| - 1]);
    }
  }

  lemma OnlyIndexOfKey(c: Canvas, i: nat)
    requires Valid(c) && i < |c.log|
    ensures forall j: nat :: KeyUsed(c.log, c.log[i].key, j) <==> j == i
  {
  }

  /** A committed direct operation, repeated at any later point of any trace, returns its stored result and
      changes nothing. */
  lemma DirectReplays(sys: System, steps: seq<Step>, i: nat, id: Id, request: Request, newId: Id)
    requires Reached(sys) && i < |sys.canvas.log|
    requires sys.canvas.log[i].key == DirectKey(id) && sys.canvas.log[i].audit == Direct(request)
    ensures var t := After(sys, steps);
            && ApplyOperation(t.canvas, id, request, newId) == Replayed(sys.canvas.log[i].payload)
            && Next(t, Directly(id, request, newId)) == t
  {
    ReachedIsSound(sys);
    hide Reached;
    LogIsPrefix(sys, steps);
    var t := After(sys, steps);
    assert t.canvas.log[i] == sys.canvas.log[i];
    OnlyIndexOfKey(t.canvas, i);
    assert KeyUsed(t.canvas.log, DirectKey(id), i);
    hide Handle, Commit, Valid, LogGapFree;
  }

  /** The same for an operation of a patch. */
  lemma PatchReplays(sys: System, steps: seq<Step>, i: nat, patch: Id, operation: Id, op: Candidate, ids: IdMap, excluded: set<Id>)
    requires Reached(sys) && i < |sys.canvas.log|
    requires sys.canvas.log[i].key == PatchKey(patch, operation) && sys.canvas.log[i].audit == FromPatch(patch, operation, op)
    ensures var t := After(sys, steps);
            && ApplyCandidate(t.canvas, patch, operation, op, ids, excluded) == Fine((t.canvas, sys.canvas.log[i].payload))
            && Next(t, ByPatch(patch, operation, op, ids, excluded)) == t
  {
    ReachedIsSound(sys);
    hide Reached;
    LogIsPrefix(sys, steps);
    var t := After(sys, steps);
    assert t.canvas.log[i] == sys.canvas.log[i];
    OnlyIndexOfKey(t.canvas, i);
    assert KeyUsed(t.canvas.log, PatchKey(patch, operation), i);
    hide HandleCandidate, Commit, Valid, LogGapFree;
  }

  /** The same for an ingestion: once finished, the request answers its fingerprint with the stored row. */
  lemma IngestionReplays(sys: System, steps: seq<Step>, id: Id, newId: Id, worker: Id, token: Id)
    requires Reached(sys) && id in sys.requests && Final(sys.requests[id])
    ensures var t := After(sys, steps); var row := sys.requests[id];
            Reserved(t, row.key, row.fingerprint, newId, worker, token) == (t, Answered(id, row.status))
  {
    ReachedIsSound(sys);
    hide Reached;
    FinishedStaysFinished(sys, steps, id);
    SoundStays(sys, steps);
    assert RequestWith(After(sys, steps).requests, sys.requests[id].key, id);
  }
}
