/** A patch among the other writers of its canvas: a review is a run of patch steps, nobody else writes under the
    patch's keys, and a patch leaves PENDING at most once (proofgraph/generation/patch_application.py:1095-1170,
    1173-1486, proofgraph/generation/patches.py:215-261, 345-523). */
module PatchHistory {
  import opened Reachability
  import opened GraphTypes
  import opened CanvasModel
  import opened CanvasInvariant
  import opened PatchCandidates
  import opened PatchReview
  import opened PatchService
  import opened SourceIngestion

  // ------------------------------------------------------------------ a review among the three writers

  ghost predicate OwnSteps(patch: Id, steps: seq<Step>) {
    forall i :: 0 <= i < |steps| ==> steps[i].ByPatch? && steps[i].patch == patch
  }

  ghost predicate ForeignSteps(patch: Id, steps: seq<Step>) {
    forall i :: 0 <= i < |steps| ==> !(steps[i].ByPatch? && steps[i].patch == patch)
  }

  lemma AfterOneMore(sys: System, steps: seq<Step>, step: Step)
    ensures After(sys, steps + [step]) == Next(After(sys, steps), step)
  {
    assert (steps + [step])[..|steps|] == steps;
  }

  /** A turn that applies its operation is one patch step; any other turn leaves the canvas alone. */
  lemma TurnIsStep(job: Job, w: Walked, o: Id, sys: System)
    requires o in job.ops && o in job.depends && w.Walking? && Turn(job, w, o).Walking? && sys.canvas == w.canvas
    ensures Turn(job, w, o).canvas == w.canvas
            || Next(sys, ByPatch(job.patch, o, job.ops[o], job.ids, job.excluded)) == sys.(canvas := Turn(job, w, o).canvas)
  {
    hide ApplyCandidate;
  }

  /** What a pass makes of a canvas is what some patch steps of the three-writer system make of it. */
  lemma {:induction false} PassIsOwnSteps(job: Job, sys: System, skipped: set<Id>, n: nat) returns (steps: seq<Step>)
    requires JobSound(job) && n <= |job.ordered| && Pass(job, sys.canvas, skipped, n).Walking?
    ensures OwnSteps(job.patch, steps)
    ensures After(sys, steps) == sys.(canvas := Pass(job, sys.canvas, skipped, n).canvas)
    decreases n
  {
    if n == 0 {
      steps := [];
    } else {
      var o := job.ordered[n - 1];
      assert o in job.ordered;
      var w := Pass(job, sys.canvas, skipped, n - 1);
      assert w.Walking?;
      var before := PassIsOwnSteps(job, sys, skipped, n - 1);
      TurnIsStep(job, w, o, sys.(canvas := w.canvas));
      hide Turn, Next, After, JobSound;
      if Turn(job, w, o).canvas == w.canvas {
        steps := before;
      } else {
        var step := ByPatch(job.patch, o, job.ops[o], job.ids, job.excluded);
        AfterOneMore(sys, before, step);
        steps := before + [step];
      }
    }
  }

  /** A whole review is some patch steps of its patch, taken together. */
  lemma ReviewIsOwnSteps(sys: System, request: ApplyRequest, workset: Option<RegenerationContract.Workset>, r: Review)
    returns (steps: seq<Step>)
    requires ReviewSound(sys.canvas, request, workset, r)
    ensures OwnSteps(r.job.patch, steps) && After(sys, steps) == sys.(canvas := r.after.canvas)
  {
    var blocked := PatchPasses.Blocked(r.job.depends, r.job.ordered, r.groups, r.bad);
    hide Pass, After, OwnSteps, JobSound;
    steps := PassIsOwnSteps(r.job, sys, blocked, |r.job.ordered|);
  }

  // ------------------------------------------------------------------ nobody else writes under its keys

  /** The log from position k on holds no entry of the patch. */
  ghost predicate NoneSince(log: seq<Entry>, k: nat, patch: Id) {
    forall i :: k <= i < |log| && log[i].key.PatchKey? ==> log[i].key.patch != patch
  }

  lemma OneMoreForeign(c: Canvas, d: Canvas, key: Key, k: nat, patch: Id)
    requires OneMoreEntry(c, d, key) && NoneSince(c.log, k, patch) && !(key.PatchKey? && key.patch == patch)
    ensures NoneSince(d.log, k, patch)
  {
    forall i | k <= i < |d.log| && d.log[i].key.PatchKey? ensures d.log[i].key.patch != patch {
      if i < |c.log| {
        assert d.log[i] == c.log[i];
      }
    }
  }

  lemma ForeignStepKeeps(sys: System, step: Step, k: nat, patch: Id)
    requires SystemSound(sys) && NoneSince(sys.canvas.log, k, patch) && ForeignSteps(patch, [step])
    ensures NoneSince(Next(sys, step).canvas.log, k, patch)
  {
    assert [step][0] == step;
    var c, d := sys.canvas, Next(sys, step).canvas;
    hide Valid, ApplyOperation, ApplyCandidate, OneMoreEntry, NoneSince, RequestFor, AllExplained, KeysUnique;
    match step
    case Directly(id, request, newId) =>
      if ApplyOperation(c, id, request, newId).Committed? {
        DirectLogs(c, id, request, newId);
        OneMoreForeign(c, d, DirectKey(id), k, patch);
      }
    case ByPatch(other, operation, candidate, ids, excluded) =>
      if ApplyCandidate(c, other, operation, candidate, ids, excluded).Fine? {
        CandidateLogs(c, other, operation, candidate, ids, excluded);
        if d != c { OneMoreForeign(c, d, PatchKey(other, operation), k, patch); }
      }
    case Succeed(lease, document, nodeId) =>
      SourceLogsForeign(sys, lease, document, nodeId, k, patch);
    case _ =>
  }

  lemma SourceLogsForeign(sys: System, lease: SourceLease, document: Document, nodeId: Id, k: nat, patch: Id)
    requires NoneSince(sys.canvas.log, k, patch)
    ensures NoneSince(Succeeded(sys, lease, document, nodeId).canvas.log, k, patch)
  {
  }

  /** Direct operations, ingestion and the other patches write no entry under the keys of a patch. */
  lemma {:induction false} OthersLogNothingOfPatch(sys: System, steps: seq<Step>, k: nat, patch: Id)
    requires SystemSound(sys) && NoneSince(sys.canvas.log, k, patch) && ForeignSteps(patch, steps)
    ensures NoneSince(After(sys, steps).canvas.log, k, patch)
    decreases |steps|
  {
    if steps != [] {
      var shorter, step := steps[..|steps| - 1], steps[|steps| - 1];
      assert ForeignSteps(patch, shorter) && ForeignSteps(patch, [step]);
      OthersLogNothingOfPatch(sys, shorter, k, patch);
      SoundStays(sys, shorter);
      hide SystemSound, Next, NoneSince, ForeignSteps;
      ForeignStepKeeps(After(sys, shorter), step, k, patch);
    }
  }

  // ------------------------------------------------------------------ the history of one patch

  datatype Moment = Moment(row: PatchRow, sys: System)

  /** Between two moments either the others wrote and the patch row stayed, or a call on the patch decided it,
      writing at most patch steps of its own. */
  ghost predicate Moves(patch: Id, order: seq<Id>, a: Moment, b: Moment) {
    exists steps :: b.sys == After(a.sys, steps)
      && ((b.row == a.row && ForeignSteps(patch, steps))
          || (a.row.status.Pending? && !b.row.status.Pending? && DecidesOnce(order, a.row, b.row) && OwnSteps(patch, steps)))
  }

  ghost predicate History(patch: Id, order: seq<Id>, h: seq<Moment>) {
    h != [] && SystemSound(h[0].sys) && forall i :: 0 <= i < |h| - 1 ==> Moves(patch, order, h[i], h[i + 1])
  }

  /** An apply that succeeds is a move, and so is a call that leaves the canvas alone: a refused or repeated apply, a
      rejection and a regeneration. */
  lemma ApplyMoves(patch: Id, order: seq<Id>, a: Moment, request: ApplyRequest,
                   workset: Option<RegenerationContract.Workset>, r: Review, row: PatchRow)
    requires ReviewSound(a.sys.canvas, request, workset, r) && r.job.patch == patch
    requires a.row.status.Pending? && !row.status.Pending? && DecidesOnce(order, a.row, row)
    ensures Moves(patch, order, a, Moment(row, a.sys.(canvas := r.after.canvas)))
  {
    hide ReviewSound, DecidesOnce;
    var steps := ReviewIsOwnSteps(a.sys, request, workset, r);
  }

  lemma QuietCallMoves(patch: Id, order: seq<Id>, a: Moment, row: PatchRow)
    requires DecidesOnce(order, a.row, row)
    ensures Moves(patch, order, a, Moment(row, a.sys))
  {
    assert After(a.sys, []) == a.sys && ForeignSteps(patch, []) && OwnSteps(patch, []);
  }

  lemma {:induction false} HistoryIsSound(patch: Id, order: seq<Id>, h: seq<Moment>, i: nat)
    requires History(patch, order, h) && i < |h|
    ensures SystemSound(h[i].sys)
    decreases i
  {
    if i > 0 {
      HistoryIsSound(patch, order, h, i - 1);
      assert Moves(patch, order, h[i - 1], h[i - 1 + 1]);
      hide SystemSound, After, DecidesOnce;
      var steps :| h[i].sys == After(h[i - 1].sys, steps);
      SoundStays(h[i - 1].sys, steps);
    }
  }

  /** A patch leaves PENDING at most once. That the row of a decided patch stays is what a move allows (ApplyMoves and
      QuietCallMoves show that every call is one); what takes the proof is that nothing is logged under its keys any
      more, however often it is applied, rejected or regenerated and whoever else writes. */
  lemma {:induction false} DecidedOnceForAll(patch: Id, order: seq<Id>, h: seq<Moment>, i: nat, j: nat)
    requires History(patch, order, h) && i <= j < |h| && !h[i].row.status.Pending?
    ensures h[j].row == h[i].row
    ensures NoneSince(h[j].sys.canvas.log, |h[i].sys.canvas.log|, patch)
    decreases j
  {
    if i < j {
      DecidedOnceForAll(patch, order, h, i, j - 1);
      HistoryIsSound(patch, order, h, j - 1);
      assert Moves(patch, order, h[j - 1], h[j - 1 + 1]);
      hide SystemSound, After, NoneSince, DecidesOnce, ForeignSteps;
      var steps :| h[j].sys == After(h[j - 1].sys, steps) && ForeignSteps(patch, steps);
      OthersLogNothingOfPatch(h[j - 1].sys, steps, |h[i].sys.canvas.log|, patch);
    }
  }

  /** As long as a patch is pending nothing of it is in the log, whatever the other writers did: what applying it
      relies on holds whenever it is called. */
  lemma {:induction false} PendingIsUnlogged(patch: Id, order: seq<Id>, h: seq<Moment>, j: nat)
    requires History(patch, order, h) && j < |h| && h[j].row.status.Pending?
    requires PatchUnlogged(h[0].sys.canvas.log, patch, {})
    ensures PatchUnlogged(h[j].sys.canvas.log, patch, {})
    decreases j
  {
    if j > 0 {
      assert Moves(patch, order, h[j - 1], h[j - 1 + 1]);
      PendingIsUnlogged(patch, order, h, j - 1);
      HistoryIsSound(patch, order, h, j - 1);
      assert NoneSince(h[j - 1].sys.canvas.log, 0, patch);
      hide SystemSound, After, DecidesOnce, ForeignSteps;
      var steps :| h[j].sys == After(h[j - 1].sys, steps) && ForeignSteps(patch, steps);
      OthersLogNothingOfPatch(h[j - 1].sys, steps, 0, patch);
    }
  }
}
