/** The ingestion request table and the canvas store as mutable state
    (proofgraph/generation/source_ingestion.py:98-263, 301-394). */
module SourceService {
  import opened Reachability
  import opened GraphTypes
  import opened CanvasModel
  import opened CanvasStore
  import opened SourceIngestion

  class IngestionTable {
    const store: Store
    var now: int
    var requests: map<Id, Ingestion>
    ghost var issued: set<SourceLease>

    constructor (canvas: Store, at: int)
      ensures store == canvas && now == at && requests == map[] && issued == {}
    {
      store, now, requests, issued := canvas, at, map[], {};
    }

    ghost function Contents(): System
      reads this, store
    {
      System(now, store.State(), requests, issued)
    }

    /** `_reserve`: a new lease, a reclaimed one, or the answer the request already has. */
    method Reserve(key: Token, fingerprint: Token, newId: Id, worker: Id, token: Id) returns (answer: Reservation)
      requires KeysUnique(requests) && newId !in requests
      modifies this`requests, this`issued
      ensures (Contents(), answer) == Reserved(old(Contents()), key, fingerprint, newId, worker, token)
    {
      if id :| id in requests && requests[id].key == key {
        assert RequestWith(requests, key, id);
        var row := requests[id];
        if row.fingerprint != fingerprint { return FingerprintConflict; }
        if row.status.IngestionCompleted? { return Answered(id, IngestionCompleted); }
        if row.status.IngestionFailed? { return Answered(id, IngestionFailed); }
        if row.expiresAt.Some? && row.expiresAt.value > now { return Answered(id, IngestionRunning); }
        row := row.(worker := Some(worker));
        row := row.(token := Some(token));
        row := row.(epoch := row.epoch + 1);
        row := row.(expiresAt := Some(now + SOURCE_INGESTION_LEASE_SECONDS));
        requests := requests[id := row];
        var lease := SourceLease(id, token, row.epoch, key, fingerprint);
        issued := issued + {lease};
        return Leased(lease);
      }
      requests := requests[newId := Ingestion(key, fingerprint, IngestionRunning, Some(worker), Some(token), 1,
                                              Some(now + SOURCE_INGESTION_LEASE_SECONDS), None, None)];
      var lease := SourceLease(newId, token, 1, key, fingerprint);
      issued := issued + {lease};
      return Leased(lease);
    }

    /** Creates the source, advances the revision and logs the operation in the transaction that completes the
        request; a lost lease changes nothing. */
    method FinalizeSuccess(lease: SourceLease, document: Document, nodeId: Id) returns (ok: bool)
      requires nodeId !in store.nodes
      modifies this`requests, store
      ensures Contents() == Succeeded(old(Contents()), lease, document, nodeId)
      ensures ok <==> HoldsIngestion(old(requests), lease)
    {
      if !HoldsIngestion(requests, lease) { return false; }
      var row := requests[lease.request];
      store.nodes := store.nodes[nodeId := SourceNode(document)];
      store.revision := store.revision + 1;
      var payload := Payload(store.revision, NodeSaved(nodeId), {}, {});
      store.log := store.log + [Entry(SourceKey(lease.key), FromIngestion(lease.fingerprint), payload)];
      row := row.(status := IngestionCompleted);
      row := row.(worker := None, token := None, expiresAt := None);
      row := row.(source := Some(nodeId));
      store.ingested := store.ingested + {nodeId};
      requests := requests[lease.request := row];
      return true;
    }

    method FinalizeFailure(lease: SourceLease, error: string) returns (ok: bool)
      modifies this`requests
      ensures Contents() == FailedWith(old(Contents()), lease, error)
      ensures ok <==> HoldsIngestion(old(requests), lease)
    {
      if !HoldsIngestion(requests, lease) { return false; }
      var row := requests[lease.request];
      row := row.(status := IngestionFailed);
      row := row.(worker := None, token := None, expiresAt := None);
      row := row.(error := Some(error));
      requests := requests[lease.request := row];
      return true;
    }
  }
}
