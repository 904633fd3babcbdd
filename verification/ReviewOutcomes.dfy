/** What applying a patch decides, operation by operation, read off the request, the patch and the canvases it went through
    (proofgraph/generation/patch_application.py:1173-1486). */
module ReviewOutcomes {
  import opened Reachability
  import opened GraphTypes
  import opened DependencyOrder
  import opened CanvasModel
  import opened CanvasInvariant
  import opened PatchCandidates
  import opened PatchPasses
  import opened RegenerationContract
  import opened PatchReview
  import opened PatchService
  import opened CandidateOutcomes
  import opened CandidateChecks

  // ---- the second pass ----

  lemma TurnDecides(job: Job, w: Walked, o: Id)
    requires o in job.ops && o in job.depends && w.Walking? && Turn(job, w, o).Walking? && o !in w.applied
    requires forall i :: 0 <= i < |w.canvas.log| ==> w.canvas.log[i].key != PatchKey(job.patch, o)
    ensures o in Turn(job, w, o).applied
            <==> o !in w.skipped && job.depends[o] !! w.skipped && Applicable(w.canvas, job.ops[o], job.ids)
  {
    hide ApplyCandidate, Applicable;
    AppliesIff(w.canvas, job.patch, o, job.ops[o], job.ids, job.excluded);
    assert job.depends[o] * w.skipped == {} <==> job.depends[o] !! w.skipped;
  }

  lemma {:induction false} DecidedOnce(job: Job, c: Canvas, blocked: set<Id>, i: nat, n: nat)
    requires JobSound(job) && i < n <= |job.ordered| && Pass(job, c, blocked, n).Walking?
    ensures Pass(job, c, blocked, i).Walking? && Pass(job, c, blocked, i + 1).Walking?
    ensures job.ordered[i] in Pass(job, c, blocked, n).applied <==> job.ordered[i] in Pass(job, c, blocked, i + 1).applied
    decreases n
  {
    WalkingSoFar(job, c, blocked, i, n);
    WalkingSoFar(job, c, blocked, i + 1, n);
    if i + 1 < n {
      PassTurns(job, c, blocked, n - 1);
      WalkingSoFar(job, c, blocked, n - 1, n);
      DecidedOnce(job, c, blocked, i, n - 1);
      assert job.ordered[i] != job.ordered[n - 1];
      hide Pass, JobSound, ApplyCandidate;
    }
  }

  /** The operation is applied when nothing blocks it, everything it depends on has been applied, and it can be applied to
      the canvas that its turn finds. */
  lemma PassDecides(job: Job, c: Canvas, blocked: set<Id>, i: nat)
    requires JobSound(job) && i < |job.ordered| && Valid(c) && PatchUnlogged(c.log, job.patch, {})
    requires Pass(job, c, blocked, |job.ordered|).Walking?
    ensures var o, w, after := job.ordered[i], Pass(job, c, blocked, i), Pass(job, c, blocked, |job.ordered|);
            && o in job.ops && o in job.depends && w.Walking?
            && (o in after.applied <==>
                  o !in blocked && job.depends[o] <= after.applied.Keys && Applicable(w.canvas, job.ops[o], job.ids))
  {
    var o, n := job.ordered[i], |job.ordered|;
    NextInOrder(job, i);
    PassTurns(job, c, blocked, i);
    PassSettles(job, c, blocked, i);
    PassSettles(job, c, blocked, n);
    PassConserves(job, c, blocked, i);
    WalkingSoFar(job, c, blocked, i, n);
    assert job.ordered[..n] == job.ordered;
    forall d | d in job.depends[o] ensures d in Pass(job, c, blocked, i).skipped <==> d !in Pass(job, c, blocked, n).applied {
      var k :| 0 <= k < i && job.ordered[..i][k] == d;
      DecidedOnce(job, c, blocked, k, n);
      DecidedOnce(job, c, blocked, k, i);
    }
    DecidedOnce(job, c, blocked, i, n);
    hide JobSound, Pass, Turn, Applicable;
    LoggedUnder(job, c.log, Pass(job, c, blocked, i).canvas.log, Pass(job, c, blocked, i).applied);
    TurnDecides(job, Pass(job, c, blocked, i), o);
  }

  // ---- references ----

  function Given(token: Option<Token>): set<Token> {
    match token case Some(t) => {t} case None => {}
  }

  /** The nodes and edges that a candidate refers to outside its metadata; the root of an addition is not looked at here. */
  function References(op: Candidate): set<Token> {
    match op
    case AddNodeCandidate(_, _, _, _, _, _, _) => {}
    case UpdateNodeCandidate(n, _, _, _, _, root) => {n} + (match root case Some(r) => Given(r) case None => {})
    case PatchMetadataCandidate(n, _, _) => {n}
    case MoveNodeCandidate(n, _, _) => {n}
    case DeleteNodeCandidate(n, _) => {n}
    case AddEdgeCandidate(_, source, target, _, _) => {source, target}
    case UpdateEdgeCandidate(e, _, source, target, _, _) => {e} + Given(source) + Given(target)
    case DeleteEdgeCandidate(e, _) => {e}
  }

  /** What has to parse before a selection is looked at: every reference is a local name of the selection or spells an
      identity. */
  lemma ReferencesAre(ops: Operations, chosen: set<Id>, o: Id)
    requires o in ops
    ensures ReferencesParse(ops[o], LocalNames(ops, chosen))
            <==> forall t :: t in References(ops[o]) ==> NamedAmong(ops, chosen, t) || Meant(t, map[]).Some?
  {
    forall t ensures t in LocalNames(ops, chosen) <==> NamedAmong(ops, chosen, t) {
      NameIsLocal(ops, chosen, t);
    }
    hide LocalNames, NamedAmong;
  }

  // ---- what an apply stores ----

  predicate Chosen(request: ApplyRequest, o: Id) {
    match request.selected
    case Some(picked) => o in picked
    case None => true
  }

  /** One of these additions gives its node or edge this local name. */
  predicate NamedAmong(ops: Operations, among: set<Id>, token: Token) {
    exists o :: o in among && o in ops && (ops[o].AddNodeCandidate? || ops[o].AddEdgeCandidate?) && ops[o].local == token
  }

  /** Exactly the local names of these additions, with the identity derived for each. */
  ghost predicate NamesLaw(ops: Operations, among: set<Id>, derive: Token -> Id, ids: IdMap) {
    forall t :: (t in ids <==> NamedAmong(ops, among, t)) && (t in ids ==> ids[t] == derive(t))
  }

  lemma NameIsLocal(ops: Operations, among: set<Id>, token: Token)
    ensures token in LocalNames(ops, among) <==> NamedAmong(ops, among, token)
  {
    if NamedAmong(ops, among, token) {
      var o :| o in among && o in ops && (ops[o].AddNodeCandidate? || ops[o].AddEdgeCandidate?) && ops[o].local == token;
      assert LocalName(ops[o]) == Some(token);
    }
  }

  lemma NamesAre(ops: Operations, among: set<Id>, derive: Token -> Id)
    ensures NamesLaw(ops, among, derive, map t | t in LocalNames(ops, among) :: derive(t))
  {
    forall t ensures t in LocalNames(ops, among) <==> NamedAmong(ops, among, t) {
      NameIsLocal(ops, among, t);
    }
    hide LocalNames, NamedAmong;
  }

  /** The nodes that the chosen operations mean to delete; nothing else of the patch makes them stale. */
  ghost predicate DoomedLaw(ops: Operations, chosen: set<Id>, ids: IdMap, doomed: set<Id>) {
    forall n :: n in doomed <==>
      exists o :: o in chosen && o in ops && ops[o].DeleteNodeCandidate? && Meant(ops[o].node, ids) == Some(n)
  }

  lemma DoomedAre(ops: Operations, chosen: set<Id>, ids: IdMap)
    ensures DoomedLaw(ops, chosen, ids, DeletedNodes(ops, chosen, ids))
  {
    forall n ensures n in DeletedNodes(ops, chosen, ids) <==>
        exists o :: o in chosen && o in ops && ops[o].DeleteNodeCandidate? && Meant(ops[o].node, ids) == Some(n) {
      if o :| o in chosen && o in ops && ops[o].DeleteNodeCandidate? && Meant(ops[o].node, ids) == Some(n) {
        assert Resolve(ops[o].node, ids) == Fine(n);
      }
    }
  }

  /** The conflicts: the chosen operations that do not pass the check against the canvas before, and no other. */
  ghost predicate ConflictsLaw(before: Canvas, ops: Operations, chosen: set<Id>, ids: IdMap, bad: set<Id>) {
    forall o :: o in bad <==>
      o in chosen && o in ops && !Passes(before, ops[o], ids, set q | q in chosen && q in ops :: ops[q])
  }

  lemma ConflictsAre(before: Canvas, ops: Operations, chosen: set<Id>, ids: IdMap)
    ensures ConflictsLaw(before, ops, chosen, ids, PreflightConflicts(before, ops, chosen, ids))
  {
    hide Preflight, Passes;
    forall o | o in chosen && o in ops
      ensures Preflight(before, ops[o], ids, SelectedCandidates(ops, chosen)).Some?
              <==> !Passes(before, ops[o], ids, set q | q in chosen && q in ops :: ops[q]) {
      PassesIff(before, ops[o], ids, SelectedCandidates(ops, chosen));
    }
  }

  /** What a decision says: not accepted when it was not chosen, a conflict when chosen and not applied, and otherwise the
      revision of its own log entry. */
  ghost predicate RulingLaw(request: ApplyRequest, patch: Id, before: Canvas, after: Canvas, applied: map<Id, nat>,
                            o: Id, ruling: Ruling) {
    match ruling
    case NotAccepted => !Chosen(request, o)
    case SkippedConflict => Chosen(request, o) && o !in applied
    case AcceptedAt(r) =>
      && Chosen(request, o) && o in applied
      && before.revision < r <= after.revision == |after.log| && after.log[r - 1].key == PatchKey(patch, o)
  }

  lemma RulingHolds(request: ApplyRequest, job: Job, patch: Id, depends: Depends, before: Canvas, after: Canvas,
                    order: seq<Id>,
                    applied: map<Id, nat>, skipped: set<Id>, i: nat)
    requires i < |order| && order[i] in depends && after.revision == |after.log| && job.patch == patch
    requires applied.Keys !! skipped && applied.Keys + skipped == Requested(depends, request.selected)
    requires forall o :: o in applied ==>
      before.revision < applied[o] <= after.revision && after.log[applied[o] - 1].key == PatchKey(job.patch, o)
    ensures RulingLaw(request, patch, before, after, applied, order[i], DecisionsOf(order, applied, skipped)[i].ruling)
  {
    assert order[i] in Requested(depends, request.selected) <==> Chosen(request, order[i]);
  }

  lemma RecordsFacts(p: GraphPatch, before: Canvas, after: Canvas, request: ApplyRequest, review: PatchReview.Review)
    requires p.Coherent() && p.Records(before, after, request, review)
    ensures p.JobFor(request, review.job) && ReviewSound(before, request, p.regeneration, review)
    ensures review.job.patch == p.id && review.after.Walking? && after == review.after.canvas
    ensures p.decisions == DecisionsOf(p.order, review.after.applied, review.after.skipped)
    ensures forall i :: 0 <= i < |p.order| ==> p.order[i] in p.depends
  {
    hide JobSound, Pass, GroupsSound, PreflightConflicts, LocalNames, StatusFor, AcceptedIn, SkippedIn, Decided;
  }

  /** The decisions of an apply. */
  lemma RulingsSay(p: GraphPatch, before: Canvas, after: Canvas, request: ApplyRequest, review: PatchReview.Review, i: nat)
    requires p.Coherent() && Valid(before) && PatchUnlogged(before.log, p.id, {})
    requires p.Records(before, after, request, review) && i < |p.order|
    ensures |p.decisions| == |p.order| && p.decisions[i].operation == p.order[i]
    ensures RulingLaw(request, p.id, before, after, review.after.applied, p.order[i], p.decisions[i].ruling)
  {
    hide *;
    RecordsFacts(p, before, after, request, review);
    p.ReviewFacts(before, request, review);
    ReviewConservesLog(before, request, p.regeneration, review);
    RevisionIsLogLength(after);
    RulingHolds(request, review.job, p.id, p.depends, before, after, p.order, review.after.applied, review.after.skipped, i);
  }

  /** The names, the doomed nodes and the conflicts an apply worked with, and the names it reports. */
  lemma NamesSay(p: GraphPatch, before: Canvas, after: Canvas, request: ApplyRequest, review: PatchReview.Review)
    requires p.Coherent() && p.Records(before, after, request, review)
    ensures review.selected == set o | o in p.ops && Chosen(request, o)
    ensures NamesLaw(p.ops, review.selected, p.derive, review.job.ids)
    ensures NamesLaw(p.ops, review.after.applied.Keys, p.derive, p.clientIds)
    ensures DoomedLaw(p.ops, review.selected, review.job.ids, review.job.excluded)
    ensures ConflictsLaw(before, p.ops, review.selected, review.job.ids, review.bad)
    ensures review.job.strict <==> p.regeneration.Some? || !request.nonconflicting
  {
    p.ReviewFacts(before, request, review);
    NamesAre(p.ops, review.selected, p.derive);
    NamesAre(p.ops, review.after.applied.Keys, p.derive);
    DoomedAre(p.ops, review.selected, review.job.ids);
    ConflictsAre(before, p.ops, review.selected, review.job.ids);
    SelectedOnly(p, before, request, review);
    hide JobSound, Valid, NamesLaw, DoomedLaw, ConflictsLaw, LocalNames, DeletedNodes, PreflightConflicts, StatusFor, Pass,
         GroupsSound;
  }

  lemma SelectedOnly(p: GraphPatch, before: Canvas, request: ApplyRequest, review: PatchReview.Review)
    requires p.Coherent() && p.JobFor(request, review.job) && ReviewSound(before, request, p.regeneration, review)
    ensures review.selected == set o | o in p.ops && Chosen(request, o)
  {
    p.ReviewFacts(before, request, review);
    hide ReviewSound, JobSound;
  }

  /** Which of the chosen operations are accepted: those that nothing blocks, whose prerequisites are accepted, and that can
      be applied to the canvas their turn finds. */
  lemma AcceptedExactly(p: GraphPatch, before: Canvas, after: Canvas, request: ApplyRequest, review: PatchReview.Review,
                        i: nat)
    requires p.Coherent() && Valid(before) && PatchUnlogged(before.log, p.id, {})
    requires p.Records(before, after, request, review) && i < |review.job.ordered|
    ensures var job, o := review.job, review.job.ordered[i];
            var blocked := Blocked(job.depends, job.ordered, review.groups, review.bad);
            && JobSound(job) && o in p.ops && o in p.depends && Pass(job, before, blocked, i).Walking?
            && (o in AcceptedIn(p.decisions) <==>
                  && o !in blocked && p.depends[o] <= AcceptedIn(p.decisions)
                  && Applicable(Pass(job, before, blocked, i).canvas, p.ops[o], job.ids))
  {
    p.OurJob(request, review.job);
    hide Valid, PatchUnlogged, Pass, JobSound, Blocked, Applicable, GroupsSound, PreflightConflicts, LocalNames, StatusFor;
    PassDecides(review.job, before, Blocked(review.job.depends, review.job.ordered, review.groups, review.bad), i);
  }
}
