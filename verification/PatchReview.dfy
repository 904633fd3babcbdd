/** The second pass of a patch review: candidates applied in dependency order, what it leaves in the
    canvas, and the check made after a regeneration patch
    (proofgraph/generation/patch_application.py:500-549, 1095-1170, 1357-1412). */
module PatchReview {
  import opened Reachability
  import opened GraphTypes
  import opened DependencyOrder
  import opened CanvasModel
  import opened CanvasInvariant
  import opened PatchCandidates
  import opened PatchInvariant
  import opened PatchPasses
  import opened RegenerationContract

  /** What both passes work with; strict means that a refusal aborts the whole review. */
  datatype Job = Job(patch: Id, ops: Operations, depends: Depends, ordered: seq<Id>, ids: IdMap,
                     excluded: set<Id>, strict: bool)

  /** The state of the second pass: the revision of every applied operation, and what is skipped. */
  datatype Walked = Walking(canvas: Canvas, applied: map<Id, nat>, skipped: set<Id>) | Broken(conflict: Conflict)

  ghost predicate JobSound(job: Job) {
    && WellOrdered(job.depends, job.ordered) && job.ops.Keys == job.depends.Keys
    && forall o, d :: o in job.ordered && d in job.depends[o] ==> d in job.ordered
  }

  ghost function Turn(job: Job, w: Walked, o: Id): Walked
    requires o in job.ops && o in job.depends
  {
    if w.Broken? || o in w.skipped then w
    else if job.depends[o] * w.skipped != {} then w.(skipped := w.skipped + {o})
    else
      match ApplyCandidate(w.canvas, job.patch, o, job.ops[o], job.ids, job.excluded)
      case Fine(done) => w.(canvas := done.0, applied := w.applied[o := done.1.revision])
      case Refused(conflict) => if job.strict then Broken(conflict) else w.(skipped := w.skipped + {o})
  }

  ghost function Pass(job: Job, c: Canvas, skipped: set<Id>, n: nat): Walked
    requires JobSound(job) && n <= |job.ordered|
  {
    if n == 0 then Walking(c, map[], skipped)
    else assert job.ordered[n - 1] in job.ordered; Turn(job, Pass(job, c, skipped, n - 1), job.ordered[n - 1])
  }

  lemma PassStarts(job: Job, c: Canvas, blocked: set<Id>)
    requires JobSound(job)
    ensures Pass(job, c, blocked, 0) == Walking(c, map[], blocked)
  {
  }

  lemma PassTurns(job: Job, c: Canvas, blocked: set<Id>, n: nat)
    requires JobSound(job) && n < |job.ordered|
    ensures job.ordered[n] in job.ops && job.ordered[n] in job.depends
    ensures Pass(job, c, blocked, n + 1) == Turn(job, Pass(job, c, blocked, n), job.ordered[n])
  {
    assert job.ordered[n] in job.ordered;
  }

  // ------------------------------------------------------------------ who is applied

  /** After n turns every operation so far is either applied or skipped, never both, and whatever an
      applied operation depends on is applied. */
  ghost predicate Settled(job: Job, w: Walked, skipped: set<Id>, n: nat)
    requires n <= |job.ordered|
  {
    w.Walking? ==>
      && skipped <= w.skipped && (forall o :: o in w.skipped ==> o in skipped || o in job.ordered[..n])
      && (forall o :: o in job.ordered[..n] ==> (o in w.applied <==> o !in w.skipped))
      && (forall o :: o in w.applied ==> o in job.ordered[..n] && o in job.depends && job.depends[o] <= w.applied.Keys)
  }

  lemma NextInOrder(job: Job, n: nat)
    requires JobSound(job) && n < |job.ordered|
    ensures var o := job.ordered[n];
            && o in job.ops && o in job.depends && o !in job.ordered[..n]
            && (forall d :: d in job.depends[o] ==> d in job.ordered[..n])
    ensures forall x :: x in job.ordered[..n + 1] <==> x in job.ordered[..n] || x == job.ordered[n]
  {
    var o := job.ordered[n];
    assert o in job.ordered && o !in job.ordered[..n];
    assert job.ordered[..n + 1] == job.ordered[..n] + [o];
  }

  lemma TurnSettles(job: Job, w: Walked, skipped: set<Id>, n: nat)
    requires JobSound(job) && n < |job.ordered| && Settled(job, w, skipped, n)
    ensures job.ordered[n] in job.ops && job.ordered[n] in job.depends && Settled(job, Turn(job, w, job.ordered[n]), skipped, n + 1)
  {
    hide ApplyCandidate, JobSound;
    NextInOrder(job, n);
    var o := job.ordered[n];
    if w.Walking? && o !in w.skipped && job.depends[o] * w.skipped == {} {
      assert forall d :: d in job.depends[o] ==> d !in job.depends[o] * w.skipped;
    }
  }

  lemma {:induction false} PassSettles(job: Job, c: Canvas, skipped: set<Id>, n: nat)
    requires JobSound(job) && n <= |job.ordered|
    ensures Settled(job, Pass(job, c, skipped, n), skipped, n)
    decreases n
  {
    hide *;
    if n == 0 {
      PassStarts(job, c, skipped);
      NothingSettled(job, c, skipped);
    } else {
      PassSettles(job, c, skipped, n - 1);
      PassTurns(job, c, skipped, n - 1);
      TurnSettles(job, Pass(job, c, skipped, n - 1), skipped, n - 1);
    }
  }

  lemma NothingSettled(job: Job, c: Canvas, skipped: set<Id>)
    ensures Settled(job, Walking(c, map[], skipped), skipped, 0)
  {
  }

  /** A strict pass that survives skips exactly what depends on something skipped before it. */
  ghost predicate SkipsDependents(job: Job, w: Walked, skipped: set<Id>, n: nat)
    requires n <= |job.ordered|
  {
    w.Walking? ==> forall o :: o in w.skipped <==>
      o in skipped || (o in job.ordered[..n] && DependsOnSome(job.depends, o, skipped))
  }

  lemma StrictTurnSkips(job: Job, w: Walked, skipped: set<Id>, n: nat, o: Id)
    requires JobSound(job) && job.strict && skipped <= job.depends.Keys
    requires n < |job.ordered| && o == job.ordered[n] && o in job.ops && o in job.depends
    requires SkipsDependents(job, w, skipped, n)
    ensures SkipsDependents(job, Turn(job, w, o), skipped, n + 1)
  {
    hide ApplyCandidate, DependsOnSome;
    assert o in job.ordered && job.ordered[..n + 1] == job.ordered[..n] + [o];
    assert forall d :: d in job.depends[o] ==> d in job.ordered[..n];
    hide JobSound;
    DependsUnfold(job.depends, o, skipped);
    AlreadyDepends(job.depends, skipped, {});
    assert skipped + {} == skipped;
    if w.Walking? {
      BlockedIffDepends(job, w, skipped, n, o);
    }
  }

  lemma BlockedIffDepends(job: Job, w: Walked, skipped: set<Id>, n: nat, o: Id)
    requires w.Walking? && n < |job.ordered| && SkipsDependents(job, w, skipped, n) && o in job.depends
    requires forall d :: d in job.depends[o] ==> d in job.ordered[..n]
    requires forall d :: d in skipped ==> DependsOnSome(job.depends, d, skipped)
    ensures job.depends[o] * w.skipped != {} <==> exists d :: d in job.depends[o] && DependsOnSome(job.depends, d, skipped)
  {
    hide DependsOnSome;
    if job.depends[o] * w.skipped != {} {
      var d :| d in job.depends[o] * w.skipped;
      assert DependsOnSome(job.depends, d, skipped);
    }
    if d :| d in job.depends[o] && DependsOnSome(job.depends, d, skipped) {
      assert d in job.depends[o] * w.skipped;
    }
  }

  lemma {:induction false} StrictPassSkipsDependents(job: Job, c: Canvas, skipped: set<Id>, n: nat)
    requires JobSound(job) && job.strict && skipped <= job.depends.Keys && n <= |job.ordered|
    ensures SkipsDependents(job, Pass(job, c, skipped, n), skipped, n)
    decreases n
  {
    if n > 0 {
      StrictPassSkipsDependents(job, c, skipped, n - 1);
      hide Turn, SkipsDependents;
      assert job.ordered[n - 1] in job.ordered;
      StrictTurnSkips(job, Pass(job, c, skipped, n - 1), skipped, n - 1, job.ordered[n - 1]);
    }
  }

  // ------------------------------------------------------------------ what it leaves in the canvas

  ghost predicate PatchUnlogged(log: seq<Entry>, patch: Id, except: set<Id>) {
    forall i :: 0 <= i < |log| && log[i].key.PatchKey? && log[i].key.patch == patch ==> log[i].key.operation in except
  }

  /** The canvas stays valid, the log only grows, by one entry for every applied operation, and the revision
      noted for an operation is that of its entry. */
  ghost predicate Conserved(job: Job, c: Canvas, w: Walked) {
    w.Walking? ==> Valid(w.canvas) && LoggedFor(job, c.log, w.canvas.log, w.applied)
  }

  ghost predicate RevisionsNoted(job: Job, from: nat, log: seq<Entry>, applied: map<Id, nat>) {
    forall o :: o in applied ==>
      from < applied[o] <= |log| && log[applied[o] - 1].key == PatchKey(job.patch, o)
  }

  ghost predicate OwnEntries(job: Job, from: nat, log: seq<Entry>, applied: map<Id, nat>) {
    forall i :: from <= i < |log| ==> EntryOf(job, log[i], i + 1, applied)
  }

  /** An entry the pass logged: of this patch, for the operation whose revision it is. */
  ghost predicate EntryOf(job: Job, entry: Entry, revision: nat, applied: map<Id, nat>) {
    && entry.key.PatchKey? && entry.key.patch == job.patch
    && entry.key.operation in applied && applied[entry.key.operation] == revision
  }

  lemma FreshKey(c: Canvas, patch: Id, o: Id, except: set<Id>)
    requires PatchUnlogged(c.log, patch, except) && o !in except
    ensures forall i: nat :: !KeyUsed(c.log, PatchKey(patch, o), i)
  {
  }

  /** Applying under a fresh key appends one entry with that key and the next revision. */
  lemma FreshApplyLogs(c: Canvas, patch: Id, o: Id, op: Candidate, ids: IdMap, excluded: set<Id>)
    requires Valid(c) && (forall i: nat :: !KeyUsed(c.log, PatchKey(patch, o), i))
    requires ApplyCandidate(c, patch, o, op, ids, excluded).Fine?
    ensures var (after, payload) := ApplyCandidate(c, patch, o, op, ids, excluded).value;
            && |after.log| == |c.log| + 1 && c.log <= after.log
            && after.log[|c.log|].key == PatchKey(patch, o) && payload.revision == |c.log| + 1
            && Valid(after)
  {
    ApplyCandidateKeepsValid(c, patch, o, op, ids, excluded);
    HandleCandidateKeepsValid(c, patch, op, ids);
    hide Valid, HandleCandidate, AffectedByCandidate, CaptureCandidate, MarkStale, Stamp;
    var handled := HandleCandidate(c, patch, op, ids).value.0;
    RevisionIsLogLength(c);
    assert handled.log == c.log && handled.revision == c.revision;
  }

  lemma RevisionIsLogLength(c: Canvas)
    requires Valid(c)
    ensures c.revision == |c.log|
  {
  }

  lemma TurnConserves(job: Job, c: Canvas, w: Walked, o: Id)
    requires o in job.ops && o in job.depends && Conserved(job, c, w)
    requires w.Walking? ==> o !in w.applied
    ensures Conserved(job, c, Turn(job, w, o))
  {
    hide ApplyCandidate, Valid, KeyUsed, LoggedFor, PatchUnlogged;
    if w.Walking? && o !in w.skipped && job.depends[o] * w.skipped == {}
       && ApplyCandidate(w.canvas, job.patch, o, job.ops[o], job.ids, job.excluded).Fine? {
      LoggedUnder(job, c.log, w.canvas.log, w.applied);
      FreshKey(w.canvas, job.patch, o, w.applied.Keys);
      FreshApplyLogs(w.canvas, job.patch, o, job.ops[o], job.ids, job.excluded);
      OneMoreLogged(job, c.log, w.canvas.log, Turn(job, w, o).canvas.log, w.applied, o);
    }
  }

  lemma LoggedUnder(job: Job, from: seq<Entry>, log: seq<Entry>, applied: map<Id, nat>)
    requires LoggedFor(job, from, log, applied)
    ensures PatchUnlogged(log, job.patch, applied.Keys)
  {
  }

  lemma OneMoreOwnEntry(job: Job, from: nat, log: seq<Entry>, longer: seq<Entry>, applied: map<Id, nat>, o: Id)
    requires OwnEntries(job, from, log, applied) && from <= |log| && log <= longer && |longer| == |log| + 1
    requires longer[|log|].key == PatchKey(job.patch, o) && o !in applied
    ensures OwnEntries(job, from, longer, applied[o := |log| + 1])
  {
    forall i | from <= i < |longer| ensures EntryOf(job, longer[i], i + 1, applied[o := |log| + 1]) {
      if i < |log| {
        assert EntryOf(job, log[i], i + 1, applied);
      }
    }
  }

  lemma OneMoreNoted(job: Job, from: nat, log: seq<Entry>, longer: seq<Entry>, applied: map<Id, nat>, o: Id)
    requires RevisionsNoted(job, from, log, applied) && from <= |log| && log <= longer && |longer| == |log| + 1
    requires longer[|log|].key == PatchKey(job.patch, o)
    ensures RevisionsNoted(job, from, longer, applied[o := |log| + 1])
  {
  }

  lemma OneMoreOfPatch(patch: Id, log: seq<Entry>, longer: seq<Entry>, except: set<Id>, o: Id)
    requires PatchUnlogged(log, patch, except) && log <= longer && |longer| == |log| + 1
    requires longer[|log|].key == PatchKey(patch, o)
    ensures PatchUnlogged(longer, patch, except + {o})
  {
    forall i | 0 <= i < |longer| && longer[i].key.PatchKey? && longer[i].key.patch == patch
      ensures longer[i].key.operation in except + {o}
    {
      if i < |log| {
        assert longer[i] == log[i];
      }
    }
  }

  /** What the pass wrote into the log, for the operations applied so far. */
  ghost predicate LoggedFor(job: Job, from: seq<Entry>, log: seq<Entry>, applied: map<Id, nat>) {
    && from <= log && |log| == |from| + |applied| && PatchUnlogged(log, job.patch, applied.Keys)
    && RevisionsNoted(job, |from|, log, applied) && OwnEntries(job, |from|, log, applied)
  }

  lemma OneMoreLogged(job: Job, from: seq<Entry>, log: seq<Entry>, longer: seq<Entry>, applied: map<Id, nat>, o: Id)
    requires LoggedFor(job, from, log, applied) && o !in applied
    requires |longer| == |log| + 1 && log <= longer && longer[|log|].key == PatchKey(job.patch, o)
    ensures LoggedFor(job, from, longer, applied[o := |log| + 1])
  {
    hide OwnEntries, EntryOf, RevisionsNoted, PatchUnlogged;
    assert applied[o := |log| + 1].Keys == applied.Keys + {o};
    OneMoreOwnEntry(job, |from|, log, longer, applied, o);
    OneMoreNoted(job, |from|, log, longer, applied, o);
    OneMoreOfPatch(job.patch, log, longer, applied.Keys, o);
  }

  lemma NothingLogged(job: Job, c: Canvas, skipped: set<Id>)
    requires Valid(c) && PatchUnlogged(c.log, job.patch, {})
    ensures Conserved(job, c, Walking(c, map[], skipped))
  {
    hide Valid;
  }

  lemma {:induction false} PassConserves(job: Job, c: Canvas, skipped: set<Id>, n: nat)
    requires JobSound(job) && n <= |job.ordered| && Valid(c) && PatchUnlogged(c.log, job.patch, {})
    ensures Conserved(job, c, Pass(job, c, skipped, n))
    decreases n
  {
    hide Turn, Conserved, Valid, PatchUnlogged;
    if n > 0 {
      PassConserves(job, c, skipped, n - 1);
      PassSettles(job, c, skipped, n - 1);
      var o := job.ordered[n - 1];
      assert o in job.ordered && o !in job.ordered[..n - 1];
      TurnConserves(job, c, Pass(job, c, skipped, n - 1), o);
    } else {
      NothingLogged(job, c, skipped);
    }
  }

  // ------------------------------------------------------------------ regeneration patches

  ghost predicate AllAddOnly(ops: Operations) {
    forall o :: o in ops ==> AddOnly(ops[o])
  }

  /** The node an applied ADD_NODE created, unless a later candidate changed it. */
  ghost predicate Created(job: Job, w: Walked, o: Id) {
    w.Walking? && o in job.ops && job.ops[o].AddNodeCandidate? ==>
      var id := Resolve(job.ops[o].local, job.ids);
      id.Fine? && id.value in w.canvas.nodes
      && w.canvas.nodes[id.value].metadata == AcceptedMetadata(job.patch, job.ops[o].metadata, job.ids)
  }

  ghost predicate FramesAndCreates(job: Job, c: Canvas, w: Walked) {
    w.Walking? ==> Framed(c, w.canvas) && forall o :: o in w.applied ==> Created(job, w, o)
  }

  lemma AppliedNodeIsCreated(job: Job, c: Canvas, o: Id)
    requires o in job.ops && job.ops[o].AddNodeCandidate? && (forall i: nat :: !KeyUsed(c.log, PatchKey(job.patch, o), i))
    requires ApplyCandidate(c, job.patch, o, job.ops[o], job.ids, job.excluded).Fine?
    ensures var after := ApplyCandidate(c, job.patch, o, job.ops[o], job.ids, job.excluded).value.0;
            var id := Resolve(job.ops[o].local, job.ids);
            id.Fine? && id.value in after.nodes
            && after.nodes[id.value].metadata == AcceptedMetadata(job.patch, job.ops[o].metadata, job.ids)
  {
    hide RewriteAll;
    var after := ApplyCandidate(c, job.patch, o, job.ops[o], job.ids, job.excluded).value.0;
    var handled := HandleCandidate(c, job.patch, job.ops[o], job.ids).value.0;
    assert after.nodes == handled.nodes;
  }

  lemma TurnFrames(job: Job, c: Canvas, w: Walked, o: Id)
    requires o in job.ops && o in job.depends && AllAddOnly(job.ops) && FramesAndCreates(job, c, w)
    requires w.Walking? ==> o !in w.applied && PatchUnlogged(w.canvas.log, job.patch, w.applied.Keys)
    ensures FramesAndCreates(job, c, Turn(job, w, o))
  {
    hide ApplyCandidate, AcceptedMetadata, Resolve;
    if w.Walking? && o !in w.skipped && job.depends[o] * w.skipped == {}
       && ApplyCandidate(w.canvas, job.patch, o, job.ops[o], job.ids, job.excluded).Fine? {
      FreshKey(w.canvas, job.patch, o, w.applied.Keys);
      AddOnlyIsFrameStep(w.canvas, job.patch, o, job.ops[o], job.ids, job.excluded);
      var after := Turn(job, w, o);
      FramedTransitive(c, w.canvas, after.canvas);
      if job.ops[o].AddNodeCandidate? {
        AppliedNodeIsCreated(job, w.canvas, o);
      }
      forall p | p in after.applied ensures Created(job, after, p) {
        if p != o { assert Created(job, w, p); }
      }
    }
  }

  /** An add-only patch is a frame step: no existing node, edge or cause changes, whatever is skipped. */
  lemma {:induction false} AddOnlyPassFrames(job: Job, c: Canvas, skipped: set<Id>, n: nat)
    requires JobSound(job) && n <= |job.ordered| && Valid(c) && PatchUnlogged(c.log, job.patch, {})
    requires AllAddOnly(job.ops)
    ensures FramesAndCreates(job, c, Pass(job, c, skipped, n))
    decreases n
  {
    if n == 0 {
      assert Framed(c, c);
    } else {
      hide *;
      AddOnlyPassFrames(job, c, skipped, n - 1);
      PassTurns(job, c, skipped, n - 1);
      BeforeTurn(job, c, skipped, n - 1);
      TurnFrames(job, c, Pass(job, c, skipped, n - 1), job.ordered[n - 1]);
    }
  }

  /** The next operation has not been applied, and nothing of the patch but what was applied is in the log. */
  lemma BeforeTurn(job: Job, c: Canvas, skipped: set<Id>, n: nat)
    requires JobSound(job) && n < |job.ordered| && Valid(c) && PatchUnlogged(c.log, job.patch, {})
    ensures var w := Pass(job, c, skipped, n);
            w.Walking? ==> job.ordered[n] !in w.applied && PatchUnlogged(w.canvas.log, job.patch, w.applied.Keys)
  {
    PassSettles(job, c, skipped, n);
    PassConserves(job, c, skipped, n);
    assert job.ordered[n] !in job.ordered[..n];
    hide Pass, PatchUnlogged, Valid, OwnEntries, RevisionsNoted;
  }

  // ---- the check after a regeneration patch ----

  /** Version and first stale revision of the frozen members, their staleness and their causes. */
  predicate MembersPreserved(before: Canvas, after: Canvas, w: Workset) {
    && (forall n :: n in w.targets + w.permitted && n in before.nodes ==>
          n in after.nodes && after.nodes[n].version == before.nodes[n].version
          && after.nodes[n].staleSince == before.nodes[n].staleSince)
    && (forall n :: n in w.permitted && n in after.nodes ==> after.nodes[n].stale)
    && (forall n :: n in w.permitted ==> CausesOf(after.causes, n) == CausesOf(before.causes, n))
  }

  /** An applied successor is accepted and still carries its lineage metadata. */
  predicate SuccessorKept(job: Job, after: Canvas, w: Workset, g: Group)
    requires g.root in job.ops && job.ops[g.root].AddNodeCandidate?
  {
    var id := Resolve(job.ops[g.root].local, job.ids);
    && id.Fine? && id.value in after.nodes
    && var metadata := after.nodes[id.value].metadata;
    && HasReview(metadata, Accepted)
    && Get(metadata, RegeneratedFrom) == Some(Text(IdText(g.target)))
    && Get(metadata, RegenerationScope) == Some(Text(w.scope))
    && Get(metadata, LineageMode) == Some(Text(Parallel))
  }

  ghost predicate GroupsSound(c: Canvas, job: Job, w: Workset, groups: seq<Group>, selected: set<Id>) {
    Disjoint(groups) && forall g :: g in groups ==> GroupSound(c, job.ops, job.depends, w, selected, g)
  }

  predicate RegenerationPreserved(job: Job, before: Canvas, after: Canvas, applied: set<Id>, w: Workset, groups: seq<Group>)
    requires forall g :: g in groups ==> g.root in job.ops && job.ops[g.root].AddNodeCandidate?
  {
    MembersPreserved(before, after, w)
    && forall g :: g in groups && g.root in applied ==> SuccessorKept(job, after, w, g)
  }

  /** The name is no patch-local identity, or stands for itself. */
  predicate NotRenamed(ids: IdMap, token: Token) {
    Renamed(token, ids) == token
  }

  lemma RewrittenField(metadata: Metadata, ids: IdMap, patch: Id, field: Field, token: Token)
    requires Get(metadata, field) == Some(Text(token)) && !field.ReviewStatus? && !field.SourcePatch?
    ensures Get(AcceptedMetadata(patch, metadata, ids), field) == Some(Text(Renamed(token, ids)))
    ensures Get(AcceptedMetadata(patch, metadata, ids), field) == Some(Text(token)) <==> NotRenamed(ids, token)
  {
  }

  lemma AcceptedIsAccepted(metadata: Metadata, ids: IdMap, patch: Id)
    ensures HasReview(AcceptedMetadata(patch, metadata, ids), Accepted)
  {
  }

  /** The predecessor comes out as its canonical text, and neither scope nor lineage mode is a local name. */
  predicate LineageStays(metadata: Metadata, ids: IdMap, target: Id, scope: Token) {
    && (match Get(metadata, RegeneratedFrom)
        case Some(Text(t)) => Renamed(t, ids) == IdText(target)
        case _ => false)
    && NotRenamed(ids, scope) && NotRenamed(ids, Parallel)
  }

  lemma SuccessorKeptIff(job: Job, c: Canvas, after: Walked, w: Workset, g: Group)
    requires g.root in job.ops && g.target in c.nodes && IsSuccessor(job.ops[g.root], g.target, c.nodes[g.target].kind, w)
    requires after.Walking? && Created(job, after, g.root)
    ensures SuccessorKept(job, after.canvas, w, g) <==> LineageStays(job.ops[g.root].metadata, job.ids, g.target, w.scope)
  {
    var metadata := job.ops[g.root].metadata;
    RewrittenField(metadata, job.ids, job.patch, RegeneratedFrom, Get(metadata, RegeneratedFrom).value.token);
    RewrittenField(metadata, job.ids, job.patch, RegenerationScope, w.scope);
    RewrittenField(metadata, job.ids, job.patch, LineageMode, Parallel);
    AcceptedIsAccepted(metadata, job.ids, job.patch);
    hide AcceptedMetadata, NotRenamed, Resolve;
  }

  /** The lineage values of these successors survive being applied. */
  ghost predicate LineageSurvives(job: Job, w: Workset, groups: seq<Group>, successors: set<Id>) {
    forall g :: g in groups && g.root in successors ==>
      g.root in job.ops && job.ops[g.root].AddNodeCandidate?
      && LineageStays(job.ops[g.root].metadata, job.ids, g.target, w.scope)
  }

  lemma RootsAreNodes(c: Canvas, job: Job, w: Workset, groups: seq<Group>, selected: set<Id>)
    requires GroupsSound(c, job, w, groups, selected)
    ensures forall g :: g in groups ==>
      g.root in job.ops && g.target in c.nodes && IsSuccessor(job.ops[g.root], g.target, c.nodes[g.target].kind, w)
      && job.ops[g.root].AddNodeCandidate?
  {
    hide Chained, TargetOf;
  }

  lemma FramedPreserves(before: Canvas, after: Canvas, w: Workset)
    requires Framed(before, after) && forall n :: n in w.permitted ==> n in before.nodes && before.nodes[n].stale
    ensures MembersPreserved(before, after, w)
  {
  }

  // ---- atomicity of groups after a review ----

  /** The skips of a review of a regeneration patch: first pass, one sweep over the groups, second pass. */
  lemma StrictReviewSkips(job: Job, c: Canvas, groups: seq<Group>, bad: set<Id>)
    requires JobSound(job) && job.strict && Disjoint(groups)
    requires forall g :: g in groups ==> g.members <= job.depends.Keys
    requires var blocked := Blocked(job.depends, job.ordered, groups, bad);
             Pass(job, c, blocked, |job.ordered|).Walking?
    ensures var blocked := Blocked(job.depends, job.ordered, groups, bad);
            Pass(job, c, blocked, |job.ordered|).skipped == FinallySkipped(job.depends, job.ordered, groups, bad)
  {
    var blocked := Blocked(job.depends, job.ordered, groups, bad);
    BlockedAreOperations(job.depends, job.ordered, groups, bad);
    StrictPassSkipsDependents(job, c, blocked, |job.ordered|);
    assert job.ordered[..|job.ordered|] == job.ordered;
    hide Blocked, DependsOnSome, Pass;
  }

  lemma BlockedAreOperations(depends: Depends, ordered: seq<Id>, groups: seq<Group>, bad: set<Id>)
    requires WellOrdered(depends, ordered) && forall g :: g in groups ==> g.members <= depends.Keys
    ensures Blocked(depends, ordered, groups, bad) <= depends.Keys
  {
    hide DependsOnSome;
  }

  /** What a review will accept, foreseen from the conflicts of the preflight: nothing here has been applied yet. */
  ghost function WillApply(job: Job, groups: seq<Group>, bad: set<Id>): set<Id> {
    set o | o in job.ordered && o !in FinallySkipped(job.depends, job.ordered, groups, bad)
  }

  lemma AppliedIsForeseen(job: Job, c: Canvas, groups: seq<Group>, bad: set<Id>)
    requires JobSound(job) && job.strict && Disjoint(groups)
    requires forall g :: g in groups ==> g.members <= job.depends.Keys
    requires Pass(job, c, Blocked(job.depends, job.ordered, groups, bad), |job.ordered|).Walking?
    ensures Pass(job, c, Blocked(job.depends, job.ordered, groups, bad), |job.ordered|).applied.Keys == WillApply(job, groups, bad)
  {
    PassSettles(job, c, Blocked(job.depends, job.ordered, groups, bad), |job.ordered|);
    StrictReviewSkips(job, c, groups, bad);
    assert job.ordered[..|job.ordered|] == job.ordered;
    hide Blocked, FinallySkipped, Pass, JobSound;
  }

  /** Without conflicts the whole selection is foreseen. */
  lemma AllForeseen(job: Job, groups: seq<Group>)
    ensures WillApply(job, groups, {}) == set o | o in job.ordered
  {
    NothingBadNothingBlocked(job.depends, job.ordered, groups);
    assert forall o :: !DependsOnSome(job.depends, o, {});
    hide Blocked, DependsOnSome;
  }

  /** Whether the check after a regeneration patch will succeed can be told before anything is applied: it fails
      exactly when for a successor that will be applied the scope or the lineage mode is a patch-local identity,
      because local references inside metadata are rewritten, or the predecessor does not come out as its canonical
      text: it is a patch-local identity, or is written in another spelling, which is parsed and then compared. */
  lemma PreservationCheckIff(job: Job, c: Canvas, w: Workset, groups: seq<Group>, selected: set<Id>, bad: set<Id>)
    requires JobSound(job) && job.strict && Valid(c) && PatchUnlogged(c.log, job.patch, {}) && AllAddOnly(job.ops)
    requires GroupsSound(c, job, w, groups, selected)
    requires forall n :: n in w.permitted ==> n in c.nodes && c.nodes[n].stale
    requires Pass(job, c, Blocked(job.depends, job.ordered, groups, bad), |job.ordered|).Walking?
    ensures forall g :: g in groups ==> g.root in job.ops && job.ops[g.root].AddNodeCandidate?
    ensures var after := Pass(job, c, Blocked(job.depends, job.ordered, groups, bad), |job.ordered|);
            RegenerationPreserved(job, c, after.canvas, after.applied.Keys, w, groups)
            <==> LineageSurvives(job, w, groups, WillApply(job, groups, bad))
  {
    var skipped := Blocked(job.depends, job.ordered, groups, bad);
    var after := Pass(job, c, skipped, |job.ordered|);
    AddOnlyPassFrames(job, c, skipped, |job.ordered|);
    RootsAreNodes(c, job, w, groups, selected);
    SoundGroupFacts(c, job, w, groups, selected);
    AppliedIsForeseen(job, c, groups, bad);
    hide JobSound, Valid, Pass, Created, LineageStays, AllAddOnly, WillApply, Blocked, Disjoint;
    assert MembersPreserved(c, after.canvas, w) by { FramedPreserves(c, after.canvas, w); }
    forall g | g in groups && g.root in after.applied
      ensures SuccessorKept(job, after.canvas, w, g) <==>
              LineageStays(job.ops[g.root].metadata, job.ids, g.target, w.scope)
    {
      SuccessorKeptIff(job, c, after, w, g);
    }
    hide SuccessorKept, GroupsSound, FramesAndCreates, MembersPreserved;
  }

  /** After a review a group is wholly accepted or wholly not accepted. */
  ghost predicate Atomic(g: Group, applied: set<Id>) {
    g.members <= applied || g.members !! applied
  }

  lemma GroupsAreAtomic(job: Job, c: Canvas, w: Workset, groups: seq<Group>, selected: set<Id>, bad: set<Id>, k: nat)
    requires JobSound(job) && job.strict && k < |groups| && GroupsSound(c, job, w, groups, selected)
    requires forall o :: o in job.ordered <==> o in selected
    requires KeepsTogether(job.depends, job.ordered, groups, groups[k])
    requires Pass(job, c, Blocked(job.depends, job.ordered, groups, bad), |job.ordered|).Walking?
    ensures Atomic(groups[k], Pass(job, c, Blocked(job.depends, job.ordered, groups, bad), |job.ordered|).applied.Keys)
  {
    hide Pass, Blocked, Chained, Rooted, DependsOnSome, KeepsTogether;
    var blocked := Blocked(job.depends, job.ordered, groups, bad);
    var after := Pass(job, c, blocked, |job.ordered|);
    var g := groups[k];
    SoundGroupFacts(c, job, w, groups, selected);
    PassSettles(job, c, blocked, |job.ordered|);
    StrictReviewSkips(job, c, groups, bad);
    assert job.ordered[..|job.ordered|] == job.ordered;
    assert g in groups;
    hide GroupsSound;
    if g.members <= selected {
      ChainedIsRooted(job.depends, g);
      GroupsStayWhole(job.depends, job.ordered, groups, bad, k);
    }
    hide FinallySkipped, JobSound, Rooted;
  }

  lemma SoundGroupFacts(c: Canvas, job: Job, w: Workset, groups: seq<Group>, selected: set<Id>)
    requires GroupsSound(c, job, w, groups, selected) && job.ops.Keys == job.depends.Keys
    ensures Disjoint(groups)
    ensures forall g :: g in groups ==>
      Chained(job.depends, g) && SelectedWhole(g, selected) && g.members <= job.depends.Keys
  {
    hide Chained, IsSuccessor, TargetOf, SelectedWhole;
  }

  // ------------------------------------------------------------------ the outcome of a review

  datatype PatchStatus = Pending | Applied | PartiallyApplied | PatchRejected

  datatype Ruling = AcceptedAt(revision: nat) | SkippedConflict | NotAccepted

  datatype Decision = Decision(operation: Id, ruling: Ruling)

  datatype ApplyRequest = ApplyRequest(selected: Option<set<Id>>, nonconflicting: bool)

  /** Everything a successful review went through. */
  datatype Review = Review(job: Job, selected: set<Id>, bad: set<Id>, groups: seq<Group>, after: Walked)

  function SelectedCandidates(ops: Operations, selected: set<Id>): set<Candidate> {
    set o | o in selected && o in ops :: ops[o]
  }

  /** Preflight looks at the canvas before any operation of the patch is applied. */
  function PreflightConflicts(c: Canvas, ops: Operations, selected: set<Id>, ids: IdMap): set<Id> {
    set o | o in selected && o in ops && Preflight(c, ops[o], ids, SelectedCandidates(ops, selected)).Some?
  }

  ghost predicate ReviewSound(c: Canvas, request: ApplyRequest, workset: Option<Workset>, r: Review) {
    && JobSound(r.job) && IsPermutationOf(r.job.ordered, r.selected)
    && r.selected == Requested(r.job.depends, request.selected)
    && (r.job.strict <==> workset.Some? || !request.nonconflicting)
    && r.bad == PreflightConflicts(c, r.job.ops, r.selected, r.job.ids)
    && (!request.nonconflicting ==> r.bad == {})
    && r.after == Pass(r.job, c, Blocked(r.job.depends, r.job.ordered, r.groups, r.bad), |r.job.ordered|)
    && r.after.Walking?
    && match workset
       case None => r.groups == []
       case Some(w) => GroupsSound(c, r.job, w, r.groups, r.selected) && AllAddOnly(r.job.ops)
                       && (forall n :: n in w.permitted ==> n in c.nodes && c.nodes[n].stale)
  }

  function RulingOf(o: Id, applied: map<Id, nat>, skipped: set<Id>): Ruling {
    if o in applied then AcceptedAt(applied[o]) else if o in skipped then SkippedConflict else NotAccepted
  }

  function DecisionsOf(order: seq<Id>, applied: map<Id, nat>, skipped: set<Id>): (r: seq<Decision>)
    ensures |r| == |order|
    ensures forall i :: 0 <= i < |order| ==> r[i] == Decision(order[i], RulingOf(order[i], applied, skipped))
  {
    seq(|order|, i requires 0 <= i < |order| => Decision(order[i], RulingOf(order[i], applied, skipped)))
  }

  function StatusFor(accepted: nat, total: nat): PatchStatus {
    if accepted > 0 && accepted == total then Applied else if accepted > 0 then PartiallyApplied else PatchRejected
  }

  /** The sweep touches selected groups only, so it skips selected operations only. */
  lemma BlockedAreSelected(c: Canvas, request: ApplyRequest, workset: Option<Workset>, r: Review)
    requires ReviewSound(c, request, workset, r)
    ensures Blocked(r.job.depends, r.job.ordered, r.groups, r.bad) <= r.selected
  {
    hide DependsOnSome, Pass, GroupsSound, AllAddOnly, PreflightConflicts, Chained, Preflight;
    var first := Downstream(r.job.depends, r.job.ordered, r.bad);
    if workset.Some? {
      SoundGroupFacts(c, r.job, workset.value, r.groups, r.selected);
    }
    hide JobSound;
    forall m | m in Touched(r.groups, first) ensures m in r.selected {
      var i :| 0 <= i < |r.groups| && m in r.groups[i].members && r.groups[i].members * first != {};
      assert r.groups[i] in r.groups && SelectedWhole(r.groups[i], r.selected);
      var o :| o in r.groups[i].members * first;
    }
  }

  /** Accepted, skipped and not selected partition the operations; what is accepted has its prerequisites
      accepted; and every accepted operation is one entry of the log. */
  lemma ReviewPartitions(c: Canvas, request: ApplyRequest, workset: Option<Workset>, r: Review)
    requires ReviewSound(c, request, workset, r)
    ensures r.after.applied.Keys !! r.after.skipped
    ensures r.after.applied.Keys + r.after.skipped == r.selected
    ensures forall o :: o in r.after.applied ==> o in r.job.depends && r.job.depends[o] <= r.after.applied.Keys
  {
    var blocked := Blocked(r.job.depends, r.job.ordered, r.groups, r.bad);
    BlockedAreSelected(c, request, workset, r);
    hide Blocked, Pass;
    PassSettles(r.job, c, blocked, |r.job.ordered|);
    assert r.job.ordered[..|r.job.ordered|] == r.job.ordered;
    hide JobSound, GroupsSound, AllAddOnly, PreflightConflicts;
  }

  /** The log grows by exactly the accepted operations, and the canvas stays valid. */
  lemma ReviewConservesLog(c: Canvas, request: ApplyRequest, workset: Option<Workset>, r: Review)
    requires ReviewSound(c, request, workset, r) && Valid(c) && PatchUnlogged(c.log, r.job.patch, {})
    ensures Valid(r.after.canvas) && c.log <= r.after.canvas.log
    ensures r.after.canvas.revision == c.revision + |r.after.applied|
    ensures forall o :: o in r.after.applied ==>
      c.revision < r.after.applied[o] <= r.after.canvas.revision
      && r.after.canvas.log[r.after.applied[o] - 1].key == PatchKey(r.job.patch, o)
    ensures PatchUnlogged(r.after.canvas.log, r.job.patch, r.after.applied.Keys)
    ensures OwnEntries(r.job, c.revision, r.after.canvas.log, r.after.applied)
  {
    var blocked := Blocked(r.job.depends, r.job.ordered, r.groups, r.bad);
    PassConserves(r.job, c, blocked, |r.job.ordered|);
    hide Blocked, Pass, JobSound, GroupsSound, AllAddOnly, PreflightConflicts, Valid;
    RevisionIsLogLength(c);
    RevisionIsLogLength(r.after.canvas);
  }

  lemma NothingBadNothingBlocked(depends: Depends, ordered: seq<Id>, groups: seq<Group>)
    ensures Blocked(depends, ordered, groups, {}) == {}
  {
    var first := Downstream(depends, ordered, {});
    assert forall o :: !DependsOnSome(depends, o, {});
    assert first == {};
    assert Touched(groups, first) == {};
  }

  /** Without apply_nonconflicting_only a review that succeeds accepts its whole selection. */
  lemma AllOrNothing(c: Canvas, request: ApplyRequest, workset: Option<Workset>, r: Review)
    requires ReviewSound(c, request, workset, r) && !request.nonconflicting
    ensures r.after.applied.Keys == r.selected && r.after.skipped == {}
  {
    NothingBadNothingBlocked(r.job.depends, r.job.ordered, r.groups);
    StrictPassSkipsDependents(r.job, c, {}, |r.job.ordered|);
    PassSettles(r.job, c, {}, |r.job.ordered|);
    assert r.job.ordered[..|r.job.ordered|] == r.job.ordered;
    hide Blocked, Pass, JobSound, GroupsSound, AllAddOnly, PreflightConflicts, Reaches;
    assert forall o :: !DependsOnSome(r.job.depends, o, {});
  }

  /** A regeneration patch changes nothing that was in the canvas before. */
  lemma RegenerationIsFrame(c: Canvas, request: ApplyRequest, workset: Option<Workset>, r: Review)
    requires ReviewSound(c, request, workset, r) && workset.Some? && Valid(c) && PatchUnlogged(c.log, r.job.patch, {})
    ensures Framed(c, r.after.canvas)
  {
    var blocked := Blocked(r.job.depends, r.job.ordered, r.groups, r.bad);
    hide Blocked, Pass;
    AddOnlyPassFrames(r.job, c, blocked, |r.job.ordered|);
  }

  /** Every group that keeps together is accepted wholly or not at all, in both modes and for every set of
      conflicts. */
  lemma GroupsReviewedAtomically(c: Canvas, request: ApplyRequest, workset: Option<Workset>, r: Review, k: nat)
    requires ReviewSound(c, request, workset, r) && workset.Some? && k < |r.groups|
    requires KeepsTogether(r.job.depends, r.job.ordered, r.groups, r.groups[k])
    ensures Atomic(r.groups[k], r.after.applied.Keys)
  {
    hide Blocked, Pass, JobSound, GroupsSound, AllAddOnly, PreflightConflicts, KeepsTogether;
    GroupsAreAtomic(r.job, c, workset.value, r.groups, r.selected, r.bad, k);
  }

  /** The condition is exact: a selected group is accepted as one for all conflicts only if it keeps together. */
  lemma ReviewedAtomicallyIff(c: Canvas, request: ApplyRequest, workset: Option<Workset>, r: Review, k: nat)
    requires ReviewSound(c, request, workset, r) && workset.Some? && k < |r.groups| && r.groups[k].members <= r.selected
    ensures (forall bad :: Atomic(r.groups[k], WillApply(r.job, r.groups, bad)))
            <==> KeepsTogether(r.job.depends, r.job.ordered, r.groups, r.groups[k])
  {
    hide Blocked, Pass, AllAddOnly, PreflightConflicts, KeepsTogether, FinallySkipped, Chained, Rooted;
    var g := r.groups[k];
    SoundGroupFacts(c, r.job, workset.value, r.groups, r.selected);
    assert g in r.groups && forall m :: m in g.members ==> m in r.job.ordered;
    ChainedIsRooted(r.job.depends, g);
    WholeForAllConflictsIff(r.job.depends, r.job.ordered, r.groups, k);
    hide JobSound, GroupsSound, Whole, Atomic, WillApply;
    forall bad ensures Atomic(g, WillApply(r.job, r.groups, bad))
                       <==> Whole(g, FinallySkipped(r.job.depends, r.job.ordered, r.groups, bad)) {
      AtomicIffWhole(r.job, r.groups, g, bad);
    }
  }

  lemma AtomicIffWhole(job: Job, groups: seq<Group>, g: Group, bad: set<Id>)
    requires forall m :: m in g.members ==> m in job.ordered
    ensures Atomic(g, WillApply(job, groups, bad)) <==> Whole(g, FinallySkipped(job.depends, job.ordered, groups, bad))
  {
    hide FinallySkipped;
  }

  // ------------------------------------------------------------------ versions over a review

  lemma {:induction false} WalkingSoFar(job: Job, c: Canvas, skipped: set<Id>, i: nat, n: nat)
    requires JobSound(job) && i <= n <= |job.ordered| && Pass(job, c, skipped, n).Walking?
    ensures Pass(job, c, skipped, i).Walking?
    decreases n
  {
    if i < n {
      PassTurns(job, c, skipped, n - 1);
      hide Pass, JobSound, ApplyCandidate;
      WalkingSoFar(job, c, skipped, i, n - 1);
    }
  }

  /** Between these canvases the node's version is raised by at most one, unless the node comes or goes. */
  predicate AtMostOneStep(a: Canvas, b: Canvas, n: Id) {
    n in a.nodes && n in b.nodes ==> a.nodes[n].version <= b.nodes[n].version <= a.nodes[n].version + 1
  }

  lemma TurnStepsOnce(job: Job, w: Walked, o: Id, before: Canvas, selected: set<Candidate>, n: Id)
    requires o in job.ops && o in job.depends && w.Walking? && Turn(job, w, o).Walking?
    requires o !in w.skipped ==> Preflight(before, job.ops[o], job.ids, selected) == None
    requires DerivedAreNew(before, job.ids)
    ensures AtMostOneStep(w.canvas, Turn(job, w, o).canvas, n)
  {
    hide ApplyCandidate, Preflight, DerivedAreNew;
    if o !in w.skipped && ApplyCandidate(w.canvas, job.patch, o, job.ops[o], job.ids, job.excluded).Fine?
       && job.depends[o] * w.skipped == {} && n in w.canvas.nodes && n in Turn(job, w, o).canvas.nodes {
      PreflightedStepsOnce(before, selected, w.canvas, job.patch, o, job.ops[o], job.ids, job.excluded, n);
    }
  }

  /** An operation that the second pass comes to without having skipped it has passed the preflight. */
  lemma UnskippedPassed(c: Canvas, request: ApplyRequest, workset: Option<Workset>, r: Review, i: nat)
    requires ReviewSound(c, request, workset, r) && i < |r.job.ordered|
    ensures var w := Pass(r.job, c, Blocked(r.job.depends, r.job.ordered, r.groups, r.bad), i); var o := r.job.ordered[i];
            w.Walking? && o in r.job.ops && o !in w.skipped ==>
              Preflight(c, r.job.ops[o], r.job.ids, SelectedCandidates(r.job.ops, r.selected)) == None
  {
    var blocked := Blocked(r.job.depends, r.job.ordered, r.groups, r.bad);
    PassSettles(r.job, c, blocked, i);
    BadAreBlocked(r.job.depends, r.job.ordered, r.groups, r.bad);
    assert r.job.ordered[i] in r.selected;
    hide Pass, JobSound, Preflight, GroupsSound, AllAddOnly, Blocked, SelectedCandidates;
  }

  /** As long as the identities a patch derives are not on the canvas, no turn of a review raises the semantic version
      of a surviving node by more than one. */
  lemma ReviewStepsOnce(c: Canvas, request: ApplyRequest, workset: Option<Workset>, r: Review, i: nat, n: Id)
    requires ReviewSound(c, request, workset, r) && DerivedAreNew(c, r.job.ids) && i < |r.job.ordered|
    ensures var blocked := Blocked(r.job.depends, r.job.ordered, r.groups, r.bad);
            var w, v := Pass(r.job, c, blocked, i), Pass(r.job, c, blocked, i + 1);
            w.Walking? && v.Walking? && AtMostOneStep(w.canvas, v.canvas, n)
  {
    var blocked := Blocked(r.job.depends, r.job.ordered, r.groups, r.bad);
    assert JobSound(r.job) && Pass(r.job, c, blocked, |r.job.ordered|).Walking?;
    hide *;
    WalkingSoFar(r.job, c, blocked, i, |r.job.ordered|);
    WalkingSoFar(r.job, c, blocked, i + 1, |r.job.ordered|);
    UnskippedPassed(c, request, workset, r, i);
    PassTurns(r.job, c, blocked, i);
    TurnStepsOnce(r.job, Pass(r.job, c, blocked, i), r.job.ordered[i], c, SelectedCandidates(r.job.ops, r.selected), n);
  }

  lemma BadAreBlocked(depends: Depends, ordered: seq<Id>, groups: seq<Group>, bad: set<Id>)
    ensures forall o :: o in bad && o in ordered ==> o in Blocked(depends, ordered, groups, bad)
  {
    forall o | o in bad && o in ordered ensures o in Blocked(depends, ordered, groups, bad) {
      ReachesSelf(Prerequisites(depends), o);
    }
  }
}
