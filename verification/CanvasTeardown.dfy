/** Forced teardown can always be carried out: direct operations take a node off the canvas together with its edges and
    the anchors on it, and leave the content of every other node alone (proofgraph/graph/operations.py:472-715,
    1014-1159). */
module CanvasTeardown {
  import opened Reachability
  import opened GraphTypes
  import opened CanvasModel
  import opened CanvasInvariant
  import opened PatchCandidates
  import opened SourceIngestion

  // ---- direct operations, one after the other ----

  ghost predicate OnlyDirect(steps: seq<Step>) {
    forall step :: step in steps ==> step.Directly?
  }

  /** What direct operations can make of the canvas. */
  ghost predicate ByDirect(sys: System, d: Canvas) {
    exists steps: seq<Step> :: OnlyDirect(steps) && After(sys, steps).canvas == d
  }

  /** What the three writers can make of it. */
  ghost predicate Later(sys: System, d: Canvas) {
    exists steps: seq<Step> :: After(sys, steps).canvas == d
  }

  lemma DirectIsLater(sys: System, d: Canvas)
    requires ByDirect(sys, d)
    ensures Later(sys, d)
  {
    hide After;
  }

  lemma ByNothing(sys: System)
    ensures ByDirect(sys, sys.canvas)
  {
    assert OnlyDirect([]) && After(sys, []).canvas == sys.canvas;
  }

  lemma ByOneMore(sys: System, d: Canvas, id: Id, request: Request, newId: Id)
    requires ByDirect(sys, d) && ApplyOperation(d, id, request, newId).Committed?
    ensures ByDirect(sys, ApplyOperation(d, id, request, newId).canvas)
  {
    hide ApplyOperation;
    var steps: seq<Step> :| OnlyDirect(steps) && After(sys, steps).canvas == d;
    var step := Directly(id, request, newId);
    assert (steps + [step])[..|steps|] == steps && OnlyDirect(steps + [step]);
    assert After(sys, steps + [step]).canvas == ApplyOperation(d, id, request, newId).canvas;
  }

  /** An operation key that nobody has used. */
  lemma FreshKey(log: seq<Entry>) returns (id: Id)
    ensures forall i: nat :: !KeyUsed(log, DirectKey(id), i)
  {
    var used := set i | 0 <= i < |log| && log[i].key.DirectKey? :: log[i].key.id;
    id := UnusedId(used);
    assert forall i :: 0 <= i < |log| && log[i].key.DirectKey? ==> log[i].key.id in used;
  }

  // ---- what one operation of a teardown does ----

  /** Title, body, metadata and anchor are as before, and staleness is not taken back. */
  predicate SameContent(a: Node, b: Node) {
    && b.kind == a.kind && b.title == a.title && b.body == a.body && b.metadata == a.metadata
    && b.branchRoot == a.branchRoot && (a.stale ==> b.stale)
  }

  ghost predicate Rewrote(c: Canvas, d: Canvas, except: set<Id>) {
    && d.ingested == c.ingested && d.nodes.Keys == c.nodes.Keys
    && forall x :: x in c.nodes && x !in except ==> SameContent(c.nodes[x], d.nodes[x])
  }

  lemma CommitKeepsContent(c: Canvas, key: Key, audit: Audit, change: Change, affected: set<Id>, origin: Origin)
    requires !change.EvidenceRejected?
    ensures Rewrote(c, Commit(c, key, audit, change, affected, origin), {})
    ensures Commit(c, key, audit, change, affected, origin).edges == c.edges
  {
  }

  /** A direct operation under a fresh key commits what its handler does. */
  lemma Commits(d: Canvas, id: Id, request: Request, newId: Id, handled: Canvas, change: Change)
    requires Valid(d) && (forall i: nat :: !KeyUsed(d.log, DirectKey(id), i)) && !change.EvidenceRejected?
    requires Handle(d, request, newId) == Ok((handled, change))
    ensures var outcome := ApplyOperation(d, id, request, newId);
            outcome.Committed? && Valid(outcome.canvas) && Rewrote(handled, outcome.canvas, {})
            && outcome.canvas.edges == handled.edges
  {
    ApplyCommits(d, id, request, newId, handled, change);
    hide *;
    var capture := CaptureInvalidation(d, request);
    CommitKeepsContent(handled, DirectKey(id), Direct(request), change, ResolveInvalidation(handled, request, capture), OriginOf(capture));
    ApplyKeepsValid(d, id, request, newId);
  }

  lemma ApplyCommits(d: Canvas, id: Id, request: Request, newId: Id, handled: Canvas, change: Change)
    requires (forall i: nat :: !KeyUsed(d.log, DirectKey(id), i)) && Handle(d, request, newId) == Ok((handled, change))
    ensures var capture := CaptureInvalidation(d, request);
            var outcome := ApplyOperation(d, id, request, newId);
            outcome.Committed? && outcome.canvas == Commit(handled, DirectKey(id), Direct(request), change,
                                                           ResolveInvalidation(handled, request, capture), OriginOf(capture))
  {
    hide Handle, Commit, CaptureInvalidation, ResolveInvalidation;
  }

  // ---- towards the deletion ----

  /** Every node is still there; those that are not anchored at n have kept their content, the others at most lost
      that anchor. */
  ghost predicate Stripped(c: Canvas, d: Canvas, n: Id) {
    && Valid(d) && d.ingested == c.ingested && d.nodes.Keys == c.nodes.Keys && d.edges.Keys <= c.edges.Keys
    && forall x :: x in c.nodes ==>
         && d.nodes[x].kind == c.nodes[x].kind && (c.nodes[x].stale ==> d.nodes[x].stale)
         && if c.nodes[x].branchRoot == Some(n) then d.nodes[x].branchRoot == None || d.nodes[x].branchRoot == Some(n)
            else SameContent(c.nodes[x], d.nodes[x])
  }

  function IncidentEdges(c: Canvas, n: Id): set<Id> {
    set e | e in c.edges && Incident(c.edges, e, n)
  }

  function AnchoredAt(c: Canvas, n: Id): set<Id> {
    set x | x in c.nodes && c.nodes[x].branchRoot == Some(n)
  }

  /** One operation that rewrites at most the node x, which is anchored at n and loses that anchor. */
  ghost predicate Releases(d: Canvas, e: Canvas, n: Id, x: Id) {
    && x in d.nodes && x in e.nodes && d.nodes[x].branchRoot == Some(n) && e.nodes[x].branchRoot == None
    && e.nodes[x].kind == d.nodes[x].kind && (d.nodes[x].stale ==> e.nodes[x].stale)
  }

  lemma StillStripped(c: Canvas, d: Canvas, e: Canvas, n: Id)
    requires Stripped(c, d, n) && Valid(e) && Rewrote(d, e, {}) && e.edges.Keys <= d.edges.Keys
    ensures Stripped(c, e, n) && AnchoredAt(e, n) == AnchoredAt(d, n)
  {
    hide Valid;
  }

  lemma StrippedFurther(c: Canvas, d: Canvas, e: Canvas, n: Id, x: Id)
    requires Stripped(c, d, n) && Valid(e) && Rewrote(d, e, {x}) && e.edges == d.edges && Releases(d, e, n, x)
    ensures Stripped(c, e, n) && AnchoredAt(e, n) == AnchoredAt(d, n) - {x}
  {
    hide Valid;
  }

  lemma CutIsHandled(d: Canvas, e: Id)
    requires e in d.edges
    ensures Handle(d, DeleteEdge(e, d.edges[e].version), e) == Ok((d.(edges := d.edges - {e}), EdgeDeleted(e)))
  {
  }

  lemma StrippedIsValid(c: Canvas, d: Canvas, n: Id)
    requires Stripped(c, d, n)
    ensures Valid(d)
  {
    hide Valid;
  }

  lemma IncidentAfterCut(d: Canvas, next: Canvas, n: Id, e: Id)
    requires next.edges == d.edges - {e}
    ensures IncidentEdges(next, n) == IncidentEdges(d, n) - {e} && next.edges.Keys <= d.edges.Keys
  {
  }

  lemma RewroteOnly(d: Canvas, handled: Canvas, next: Canvas)
    requires Rewrote(handled, next, {}) && handled.nodes == d.nodes && handled.ingested == d.ingested
    ensures Rewrote(d, next, {})
  {
  }

  lemma CutsOne(sys: System, d: Canvas, n: Id, e: Id) returns (next: Canvas)
    requires ByDirect(sys, d) && Stripped(sys.canvas, d, n) && e in IncidentEdges(d, n)
    ensures ByDirect(sys, next) && Stripped(sys.canvas, next, n)
    ensures IncidentEdges(next, n) == IncidentEdges(d, n) - {e} && AnchoredAt(next, n) == AnchoredAt(d, n)
  {
    assert e in d.edges && !EdgeDeleted(e).EvidenceRejected?;
    hide *;
    var id := FreshKey(d.log);
    var request := DeleteEdge(e, d.edges[e].version);
    StrippedIsValid(sys.canvas, d, n);
    CutIsHandled(d, e);
    Commits(d, id, request, e, d.(edges := d.edges - {e}), EdgeDeleted(e));
    next := ApplyOperation(d, id, request, e).canvas;
    ByOneMore(sys, d, id, request, e);
    RewroteOnly(d, d.(edges := d.edges - {e}), next);
    IncidentAfterCut(d, next, n, e);
    StillStripped(sys.canvas, d, next, n);
  }

  function Release(d: Canvas, x: Id): Request
    requires x in d.nodes
  {
    UpdateNode(x, d.nodes[x].version, None, None, Some(map[ContextScope := Text(GlobalScope), Pinned := Flag(true)]), NullRoot)
  }

  function Released(d: Canvas, x: Id): Node
    requires x in d.nodes
  {
    d.nodes[x].(metadata := d.nodes[x].metadata + map[ContextScope := Text(GlobalScope), Pinned := Flag(true)],
                branchRoot := None, version := d.nodes[x].version + 1)
  }

  lemma ReleaseIsHandled(d: Canvas, x: Id)
    requires x in d.nodes && d.nodes[x].kind == Constraint
    ensures Handle(d, Release(d, x), x) == Ok((d.(nodes := d.nodes[x := Released(d, x)]), NodeSaved(x)))
  {
  }

  lemma AnchoredAreConstraints(d: Canvas, n: Id, x: Id)
    requires Valid(d) && x in AnchoredAt(d, n)
    ensures x in d.nodes && d.nodes[x].kind == Constraint && d.nodes[x].branchRoot == Some(n)
  {
    hide EdgesAttached, StalenessConsistent, LogGapFree;
    assert Anchored(d.nodes, x);
  }

  lemma ReleaseRewrites(d: Canvas, next: Canvas, n: Id, x: Id)
    requires x in d.nodes && d.nodes[x].branchRoot == Some(n) && Rewrote(d.(nodes := d.nodes[x := Released(d, x)]), next, {})
    ensures Rewrote(d, next, {x}) && Releases(d, next, n, x)
  {
    var handled := d.(nodes := d.nodes[x := Released(d, x)]);
    assert SameContent(handled.nodes[x], next.nodes[x]);
  }

  lemma ReleasesOne(sys: System, d: Canvas, n: Id, x: Id) returns (next: Canvas)
    requires ByDirect(sys, d) && Stripped(sys.canvas, d, n) && x in AnchoredAt(d, n)
    ensures ByDirect(sys, next) && Stripped(sys.canvas, next, n)
    ensures IncidentEdges(next, n) == IncidentEdges(d, n) && AnchoredAt(next, n) == AnchoredAt(d, n) - {x}
  {
    assert !NodeSaved(x).EvidenceRejected? && forall e: Canvas :: e.edges == d.edges ==> IncidentEdges(e, n) == IncidentEdges(d, n);
    hide *;
    var id := FreshKey(d.log);
    StrippedIsValid(sys.canvas, d, n);
    AnchoredAreConstraints(d, n, x);
    ReleaseIsHandled(d, x);
    Commits(d, id, Release(d, x), x, d.(nodes := d.nodes[x := Released(d, x)]), NodeSaved(x));
    next := ApplyOperation(d, id, Release(d, x), x).canvas;
    ByOneMore(sys, d, id, Release(d, x), x);
    ReleaseRewrites(d, next, n, x);
    StrippedFurther(sys.canvas, d, next, n, x);
  }

  lemma {:induction false} Strips(sys: System, d: Canvas, n: Id) returns (bare: Canvas)
    requires ByDirect(sys, d) && Stripped(sys.canvas, d, n)
    ensures ByDirect(sys, bare) && Stripped(sys.canvas, bare, n) && IncidentEdges(bare, n) == {} && AnchoredAt(bare, n) == {}
    decreases IncidentEdges(d, n), AnchoredAt(d, n)
  {
    hide ByDirect, Stripped, IncidentEdges, AnchoredAt;
    if e :| e in IncidentEdges(d, n) {
      var next := CutsOne(sys, d, n, e);
      bare := Strips(sys, next, n);
    } else if x :| x in AnchoredAt(d, n) {
      var next := ReleasesOne(sys, d, n, x);
      bare := Strips(sys, next, n);
    } else {
      bare := d;
    }
  }

  // ---- and the node itself ----

  /** The node is gone; what was not anchored at it has kept its content. */
  ghost predicate WithoutNode(c: Canvas, d: Canvas, n: Id) {
    && Valid(d) && d.nodes.Keys == c.nodes.Keys - {n} && d.edges.Keys <= c.edges.Keys && d.ingested == c.ingested
    && forall x :: x in d.nodes ==>
         && d.nodes[x].kind == c.nodes[x].kind && (c.nodes[x].stale ==> d.nodes[x].stale)
         && if c.nodes[x].branchRoot == Some(n) then d.nodes[x].branchRoot == None else SameContent(c.nodes[x], d.nodes[x])
  }

  lemma BareIsHandled(d: Canvas, n: Id)
    requires n in d.nodes && n !in d.ingested && IncidentEdges(d, n) == {} && AnchoredAt(d, n) == {}
    ensures Handle(d, DeleteNode(n, d.nodes[n].version), n)
            == Ok((d.(nodes := d.nodes - {n}, causes := d.causes - {n}), NodeDeleted(n)))
  {
    forall e | e in d.edges ensures !Incident(d.edges, e, n) {
      assert e !in IncidentEdges(d, n);
    }
    forall x | x in d.nodes ensures d.nodes[x].branchRoot != Some(n) {
      assert x !in AnchoredAt(d, n);
    }
  }

  lemma GoneAtLast(c: Canvas, bare: Canvas, d: Canvas, n: Id)
    requires Stripped(c, bare, n) && AnchoredAt(bare, n) == {} && Valid(d) && d.edges == bare.edges
    requires Rewrote(bare.(nodes := bare.nodes - {n}, causes := bare.causes - {n}), d, {})
    ensures WithoutNode(c, d, n)
  {
    hide Valid;
    var handled := bare.(nodes := bare.nodes - {n}, causes := bare.causes - {n});
    forall x | x in d.nodes
      ensures d.nodes[x].kind == c.nodes[x].kind && (c.nodes[x].stale ==> d.nodes[x].stale)
      ensures if c.nodes[x].branchRoot == Some(n) then d.nodes[x].branchRoot == None else SameContent(c.nodes[x], d.nodes[x])
    {
      assert SameContent(handled.nodes[x], d.nodes[x]) && handled.nodes[x] == bare.nodes[x] && x !in AnchoredAt(bare, n);
    }
  }

  /** Every node that no ingestion refers to can be taken off the canvas by direct operations, whatever edges and
      constraints hang on it. */
  lemma AnyNodeCanGo(sys: System, n: Id) returns (d: Canvas)
    requires Valid(sys.canvas) && n in sys.canvas.nodes && n !in sys.canvas.ingested
    ensures ByDirect(sys, d) && WithoutNode(sys.canvas, d, n)
  {
    var c := sys.canvas;
    assert Stripped(c, c, n) by { hide Valid; }
    assert !NodeDeleted(n).EvidenceRejected?;
    hide *;
    ByNothing(sys);
    var bare := Strips(sys, c, n);
    StrippedIsValid(c, bare, n);
    StillThere(c, bare, n);
    var id := FreshKey(bare.log);
    var request := DeleteNode(n, bare.nodes[n].version);
    BareIsHandled(bare, n);
    Commits(bare, id, request, n, bare.(nodes := bare.nodes - {n}, causes := bare.causes - {n}), NodeDeleted(n));
    d := ApplyOperation(bare, id, request, n).canvas;
    ByOneMore(sys, bare, id, request, n);
    GoneAtLast(c, bare, d, n);
  }

  lemma StillThere(c: Canvas, d: Canvas, n: Id)
    requires Stripped(c, d, n) && n in c.nodes && n !in c.ingested
    ensures n in d.nodes && n !in d.ingested
  {
    hide Valid;
  }

  lemma {:induction false} IngestedStay(sys: System, steps: seq<Step>)
    requires SystemSound(sys)
    ensures sys.canvas.ingested <= After(sys, steps).canvas.ingested
    decreases |steps|
  {
    if steps != [] {
      var earlier, step := steps[..|steps| - 1], steps[|steps| - 1];
      IngestedStay(sys, earlier);
      SoundStays(sys, earlier);
      hide SystemSound, Next;
      StepKeepsIngested(After(sys, earlier), step);
    }
  }

  lemma StepKeepsIngested(sys: System, step: Step)
    requires SystemSound(sys)
    ensures sys.canvas.ingested <= Next(sys, step).canvas.ingested
  {
    hide Valid, ApplyOperation, ApplyCandidate, AllExplained, KeysUnique, RequestFor;
    match step
    case Directly(id, request, newId) =>
      if ApplyOperation(sys.canvas, id, request, newId).Committed? {
        DirectLogs(sys.canvas, id, request, newId);
      }
    case ByPatch(patch, operation, candidate, ids, excluded) =>
      if ApplyCandidate(sys.canvas, patch, operation, candidate, ids, excluded).Fine? {
        CandidateLogs(sys.canvas, patch, operation, candidate, ids, excluded);
      }
    case _ =>
  }

  lemma IngestedIsThere(sys: System, d: Canvas, n: Id)
    requires SystemSound(sys) && n in sys.canvas.ingested && Later(sys, d)
    ensures n in d.nodes
  {
    hide After, SystemSound;
    var steps: seq<Step> :| After(sys, steps).canvas == d;
    IngestedStay(sys, steps);
    SoundStays(sys, steps);
    IngestedIsNode(After(sys, steps), n);
  }

  lemma IngestedIsNode(sys: System, n: Id)
    requires SystemSound(sys) && n in sys.canvas.ingested
    ensures n in sys.canvas.nodes
  {
  }

  /** And only those: none of the three writers takes away the source of an ingestion. */
  lemma CanGoIff(sys: System, n: Id)
    requires SystemSound(sys) && n in sys.canvas.nodes
    ensures (exists d :: Later(sys, d) && n !in d.nodes) <==> n !in sys.canvas.ingested
  {
    assert Valid(sys.canvas);
    hide *;
    if n !in sys.canvas.ingested {
      var d := AnyNodeCanGo(sys, n);
      DirectIsLater(sys, d);
      NodeIsGone(sys.canvas, d, n);
    } else {
      forall d | Later(sys, d) ensures n in d.nodes {
        IngestedIsThere(sys, d, n);
      }
    }
  }

  lemma NodeIsGone(c: Canvas, d: Canvas, n: Id)
    requires WithoutNode(c, d, n)
    ensures n !in d.nodes
  {
    hide Valid;
  }
}
