/** What a step makes of an ingestion request and of the canvas: who is granted a lease, who may still finalize, and what
    a finished ingestion leaves behind (proofgraph/generation/source_ingestion.py:98-394). */
module IngestionOutcomes {
  import opened Reachability
  import opened GraphTypes
  import opened CanvasModel
  import opened CanvasInvariant
  import opened PatchCandidates
  import opened SourceIngestion

  // ---- a request ----

  ghost predicate FirstOfKey(sys: System, step: Step, id: Id)
    requires step.Reserve?
  {
    id == step.newId && forall other :: other in sys.requests ==> sys.requests[other].key != step.key
  }

  /** The same request again, after the lease of a running one has run out. */
  predicate TakesOver(row: Ingestion, now: int, step: Step) {
    && step.Reserve? && row.key == step.key && row.fingerprint == step.fingerprint && row.status == IngestionRunning
    && row.expiresAt.Some? && row.expiresAt.value <= now
  }

  /** The request is running under exactly this lease, which a reservation handed out. */
  predicate MayFinalize(sys: System, lease: SourceLease, id: Id) {
    && lease in sys.issued && lease.request == id && id in sys.requests && sys.requests[id].status == IngestionRunning
    && sys.requests[id].token == Some(lease.token) && sys.requests[id].epoch == lease.epoch
  }

  ghost predicate RowLaw(sys: System, step: Step, after: map<Id, Ingestion>, id: Id) {
    if id !in sys.requests then
      if step.Reserve? && FirstOfKey(sys, step, id) then
        id in after && after[id] == Ingestion(step.key, step.fingerprint, IngestionRunning, Some(step.worker), Some(step.token), 1,
                                              Some(sys.now + 30), None, None)
      else id !in after
    else
      var row := sys.requests[id];
      && id in after
      && if TakesOver(row, sys.now, step) then
           after[id] == Ingestion(row.key, row.fingerprint, IngestionRunning, Some(step.worker), Some(step.token), row.epoch + 1,
                                  Some(sys.now + 30), None, None)
         else if step.Succeed? && MayFinalize(sys, step.lease, id) && step.nodeId !in sys.canvas.nodes then
           after[id] == Ingestion(row.key, row.fingerprint, IngestionCompleted, None, None, row.epoch, None, Some(step.nodeId), None)
         else if step.Fail? && MayFinalize(sys, step.lease, id) then
           after[id] == Ingestion(row.key, row.fingerprint, IngestionFailed, None, None, row.epoch, None, None, Some(step.error))
         else after[id] == row
  }

  lemma ReservationFollows(sys: System, step: Step, id: Id)
    requires step.Reserve? && KeysUnique(sys.requests) && forall id :: id in sys.requests ==> RowState(sys.requests[id])
    ensures RowLaw(sys, step, Next(sys, step).requests, id)
  {
    hide ApplyOperation, ApplyCandidate, WithSource, Succeeded, FailedWith;
  }

  lemma FinalizationFollows(sys: System, step: Step, id: Id)
    requires !step.Reserve? && forall id :: id in sys.requests ==> RowState(sys.requests[id])
    ensures RowLaw(sys, step, Next(sys, step).requests, id)
  {
    hide ApplyOperation, ApplyCandidate, WithSource, Reserved;
  }

  lemma RowFollows(sys: System, step: Step, id: Id)
    requires SystemSound(sys)
    ensures RowLaw(sys, step, Next(sys, step).requests, id)
  {
    hide Next, RowLaw;
    RowsAreSound(sys);
    hide SystemSound, KeysUnique, RowState;
    if step.Reserve? {
      ReservationFollows(sys, step, id);
    } else {
      FinalizationFollows(sys, step, id);
    }
  }

  lemma RowsAreSound(sys: System)
    requires SystemSound(sys)
    ensures KeysUnique(sys.requests) && forall id :: id in sys.requests ==> RowState(sys.requests[id])
  {
    assert forall id :: id in sys.requests ==> RequestSound(sys.canvas, sys.requests[id]);
  }

  // ---- the canvas ----

  predicate Saves(sys: System, step: Step) {
    step.Succeed? && MayFinalize(sys, step.lease, step.lease.request) && step.nodeId !in sys.canvas.nodes
  }

  /** A finished ingestion puts one fresh source on the canvas, logs it under its own key as one more revision and makes
      nothing stale. */
  ghost predicate SavedLaw(c: Canvas, lease: SourceLease, document: Document, nodeId: Id, d: Canvas) {
    && d.nodes.Keys == c.nodes.Keys + {nodeId} && (forall n :: n in c.nodes ==> d.nodes[n] == c.nodes[n])
    && d.edges == c.edges && d.causes == c.causes && d.ingested == c.ingested + {nodeId} && d.revision == c.revision + 1
    && d.nodes[nodeId].kind == Source && d.nodes[nodeId].title == document.title
    && d.nodes[nodeId].body == Some(document.excerpt) && d.nodes[nodeId].metadata == document.metadata
    && d.nodes[nodeId].branchRoot == None && d.nodes[nodeId].position == None
    && !d.nodes[nodeId].stale && d.nodes[nodeId].staleSince == None
    && d.nodes[nodeId].version == 1 && d.nodes[nodeId].positionVersion == 1
    && |d.log| == |c.log| + 1 && c.log <= d.log
    && d.log[|c.log|] == Entry(SourceKey(lease.key), FromIngestion(lease.fingerprint),
                               Payload(c.revision + 1, NodeSaved(nodeId), {}, {}))
  }

  /** The three steps of ingestion touch the canvas only when the holder of the lease finishes it. */
  lemma CanvasFollows(sys: System, step: Step)
    requires SystemSound(sys) && !step.Directly? && !step.ByPatch?
    ensures var d := Next(sys, step).canvas;
            if Saves(sys, step) then SavedLaw(sys.canvas, step.lease, step.document, step.nodeId, d) else d == sys.canvas
  {
    hide Valid, ApplyOperation, ApplyCandidate;
  }

  /** A reservation answers with a lease exactly when it wrote the row, and then with the lease of that row. */
  lemma ReservationAnswers(sys: System, key: Token, fingerprint: Token, newId: Id, worker: Id, token: Id)
    requires SystemSound(sys)
    ensures var (after, answer) := Reserved(sys, key, fingerprint, newId, worker, token);
            match answer
            case Leased(lease) =>
              && after.requests != sys.requests && after.issued == sys.issued + {lease} && lease.key == key
              && lease.fingerprint == fingerprint && lease.request in after.requests
              && after.requests[lease.request].token == Some(token) && lease.token == token
              && after.requests[lease.request].epoch == lease.epoch && after.requests[lease.request].key == key
            case Answered(id, status) =>
              && after == sys && id in sys.requests && sys.requests[id].key == key && sys.requests[id].status == status
              && sys.requests[id].fingerprint == fingerprint
            case FingerprintConflict =>
              after == sys && (newId in sys.requests
                || exists id :: id in sys.requests && sys.requests[id].key == key && sys.requests[id].fingerprint != fingerprint)
  {
    hide Valid, AllExplained, RequestSound, LeaseMatches;
    RowsAreSound(sys);
    var r := RequestFor(sys.requests, key);
    var (after, answer) := Reserved(sys, key, fingerprint, newId, worker, token);
    if answer.Leased? {
      assert after.requests[answer.lease.request].epoch == answer.lease.epoch;
      assert answer.lease.request in sys.requests ==> sys.requests[answer.lease.request].epoch < answer.lease.epoch;
    }
  }
}
