/** Deciding a patch once: apply, reject, regenerate, and the repeats of each
    (proofgraph/generation/patch_application.py:1173-1486, proofgraph/generation/patches.py:215-261, 345-523). */
module PatchService {
  import opened Reachability
  import opened GraphTypes
  import opened DependencyOrder
  import opened CanvasModel
  import opened CanvasInvariant
  import opened CanvasStore
  import opened PatchCandidates
  import opened PatchInvariant
  import opened PatchPasses
  import opened RegenerationContract
  import opened PatchReview

  datatype ReviewError =
    | UnknownOperations | MissingPrerequisites | CyclicContract | AlreadyDecided | ReviewedDifferently
    | BadRegeneration | RegenerationInPart | BadReference | ApplyConflict | LineageLost | NotPending | RegenerationKeyConflict | InvalidOriginalInputs

  /** canvas_revision, client_id_map and the conflicts of the response. */
  datatype ReviewResult =
    | Reviewed(status: PatchStatus, revision: nat, clientIds: IdMap, skipped: set<Id>)
    | ReviewRefused(error: ReviewError)

  // ------------------------------------------------------------------ references that must parse

  predicate Parses(token: Token, locals: set<Token>) {
    token in locals || SpellsId(token)
  }

  predicate OptionParses(token: Option<Token>, locals: set<Token>) {
    token.Some? ==> Parses(token.value, locals)
  }

  /** `_lock_touched_entities`: every reference of a selected operation is local or an identity. */
  predicate ReferencesParse(op: Candidate, locals: set<Token>) {
    match op
    case AddNodeCandidate(_, _, _, _, _, _, _) => true
    case UpdateNodeCandidate(node, _, _, _, _, newRoot) =>
      Parses(node, locals) && (newRoot.Some? ==> OptionParses(newRoot.value, locals))
    case PatchMetadataCandidate(node, _, _) => Parses(node, locals)
    case MoveNodeCandidate(node, _, _) => Parses(node, locals)
    case DeleteNodeCandidate(node, _) => Parses(node, locals)
    case AddEdgeCandidate(_, source, target, _, _) => Parses(source, locals) && Parses(target, locals)
    case UpdateEdgeCandidate(edge, _, source, target, _, _) =>
      Parses(edge, locals) && OptionParses(source, locals) && OptionParses(target, locals)
    case DeleteEdgeCandidate(edge, _) => Parses(edge, locals)
  }

  function LocalName(op: Candidate): Option<Token> {
    if op.AddNodeCandidate? || op.AddEdgeCandidate? then Some(op.local) else None
  }

  function LocalNames(ops: Operations, selected: set<Id>): set<Token> {
    set o | o in selected && o in ops && LocalName(ops[o]).Some? :: LocalName(ops[o]).value
  }

  /** Nodes the selection deletes are not staled by the rest of the patch. */
  function DeletedNodes(ops: Operations, selected: set<Id>, ids: IdMap): set<Id> {
    set o | o in selected && o in ops && ops[o].DeleteNodeCandidate? && Resolve(ops[o].node, ids).Fine?
      :: Resolve(ops[o].node, ids).value
  }

  // ------------------------------------------------------------------ decided patches

  function AcceptedIn(decisions: seq<Decision>): set<Id> {
    set i | 0 <= i < |decisions| && decisions[i].ruling.AcceptedAt? :: decisions[i].operation
  }

  function SkippedIn(decisions: seq<Decision>): set<Id> {
    set i | 0 <= i < |decisions| && decisions[i].ruling.SkippedConflict? :: decisions[i].operation
  }

  ghost predicate SomeAccepted(decisions: seq<Decision>) {
    exists i :: 0 <= i < |decisions| && decisions[i].ruling.AcceptedAt?
  }

  ghost predicate SomeNotAccepted(decisions: seq<Decision>) {
    exists i :: 0 <= i < |decisions| && !decisions[i].ruling.AcceptedAt?
  }

  /** APPLIED when every operation was accepted, PARTIALLY_APPLIED when some were and some were not, REJECTED when none
      was; a patch without operations is rejected. */
  ghost predicate StatusSays(decisions: seq<Decision>, status: PatchStatus) {
    && (status.Applied? <==> SomeAccepted(decisions) && !SomeNotAccepted(decisions))
    && (status.PartiallyApplied? <==> SomeAccepted(decisions) && SomeNotAccepted(decisions))
    && (status.PatchRejected? <==> !SomeAccepted(decisions))
  }

  /** One decision per operation in stored order, and the status that they give. */
  ghost predicate Decided(order: seq<Id>, decisions: seq<Decision>, status: PatchStatus) {
    && |decisions| == |order| && (forall i :: 0 <= i < |order| ==> decisions[i].operation == order[i])
    && StatusSays(decisions, status)
  }

  /** What a patch stores of its decision. */
  datatype PatchRow = PatchRow(status: PatchStatus, decisions: seq<Decision>, clientIds: IdMap)

  /** One call on a patch: a decided patch stays as it is, a pending one stays or is decided as a whole. */
  ghost predicate DecidesOnce(order: seq<Id>, before: PatchRow, after: PatchRow) {
    after == before
    || (before.status.Pending? && !after.status.Pending? && Decided(order, after.decisions, after.status))
  }

  /** The same request again: the same selection, and skips only if skips were allowed. */
  predicate Repeats(selected: set<Id>, nonconflicting: bool, decisions: seq<Decision>) {
    selected == AcceptedIn(decisions) + SkippedIn(decisions) && (SkippedIn(decisions) == {} || nonconflicting)
  }

  lemma DecisionsSayWhich(order: seq<Id>, applied: map<Id, nat>, skipped: set<Id>)
    requires applied.Keys !! skipped && (forall o :: o in applied || o in skipped ==> o in order)
    ensures AcceptedIn(DecisionsOf(order, applied, skipped)) == applied.Keys
    ensures SkippedIn(DecisionsOf(order, applied, skipped)) == skipped
  {
    var d := DecisionsOf(order, applied, skipped);
    forall o | o in applied.Keys ensures o in AcceptedIn(d) {
      var i :| 0 <= i < |order| && order[i] == o;
      assert d[i].ruling.AcceptedAt?;
    }
    forall o | o in skipped ensures o in SkippedIn(d) {
      var i :| 0 <= i < |order| && order[i] == o;
      assert d[i].ruling.SkippedConflict?;
    }
  }

  lemma {:induction false} DistinctCount(order: seq<Id>)
    requires NoDuplicates(order)
    ensures |set o | o in order| == |order|
    decreases order
  {
    if order != [] {
      DistinctCount(order[1..]);
      assert (set o | o in order) == {order[0]} + (set o | o in order[1..]);
      assert order[0] !in order[1..] by {
        forall i | 0 <= i < |order[1..]| ensures order[1..][i] != order[0] {
          assert order[1..][i] == order[i + 1];
        }
      }
    } else {
      assert (set o | o in order) == {};
    }
  }

  /** Counting the accepted operations tells whether all, some or none were accepted. */
  lemma CountsSay(order: seq<Id>, applied: map<Id, nat>, skipped: set<Id>)
    requires NoDuplicates(order) && forall o :: o in applied ==> o in order
    ensures StatusSays(DecisionsOf(order, applied, skipped), StatusFor(|applied|, |order|))
  {
    var all := set o | o in order;
    var d := DecisionsOf(order, applied, skipped);
    DistinctCount(order);
    assert |applied.Keys| == |applied| && applied.Keys <= all;
    SubsetCardinality(applied.Keys, all);
    forall i | 0 <= i < |order| ensures d[i].ruling.AcceptedAt? <==> order[i] in applied {}
    if o :| o in applied {
      var i :| 0 <= i < |order| && order[i] == o;
      assert d[i].ruling.AcceptedAt?;
    } else {
      assert applied.Keys == {};
    }
    if i :| 0 <= i < |order| && order[i] !in applied {
      assert !d[i].ruling.AcceptedAt? && order[i] in all;
      SubsetSmaller(applied.Keys, all);
    } else {
      assert all <= applied.Keys;
      SubsetCardinality(all, applied.Keys);
    }
  }

  /** One ruling per operation, in order, with the revision of an accepted one; and a repeat of the same selection is
      recognised. */
  lemma RulingsRecorded(order: seq<Id>, selected: set<Id>, applied: map<Id, nat>, skipped: set<Id>, nonconflicting: bool)
    requires NoDuplicates(order) && applied.Keys !! skipped && applied.Keys + skipped == selected && (!nonconflicting ==> skipped == {})
    requires forall o :: o in selected ==> o in order
    ensures var d := DecisionsOf(order, applied, skipped);
            && AcceptedIn(d) == applied.Keys && SkippedIn(d) == skipped
            && Decided(order, d, StatusFor(|applied|, |order|)) && Repeats(selected, nonconflicting, d)
            && !StatusFor(|applied|, |order|).Pending?
            && forall i :: 0 <= i < |order| && order[i] in applied ==> d[i].ruling == AcceptedAt(applied[order[i]])
  {
    CountsSay(order, applied, skipped);
    assert forall o :: o in applied || o in skipped ==> o in selected;
    DecisionsSayWhich(order, applied, skipped);
    assert |applied.Keys| == |applied|;
    hide AcceptedIn, SkippedIn;
  }

  /** `max` of the accepted revisions, or the current one when nothing was accepted. */
  method LastRevision(decisions: seq<Decision>, current: nat) returns (r: nat)
    ensures AcceptedIn(decisions) == {} ==> r == current
    ensures forall i :: 0 <= i < |decisions| && decisions[i].ruling.AcceptedAt? ==> decisions[i].ruling.revision <= r
    ensures AcceptedIn(decisions) != {} ==>
      exists i :: 0 <= i < |decisions| && decisions[i].ruling == AcceptedAt(r)
  {
    var best: Option<nat> := None;
    for i := 0 to |decisions|
      invariant best.None? ==> forall k :: 0 <= k < i ==> !decisions[k].ruling.AcceptedAt?
      invariant best.Some? ==>
        && (forall k :: 0 <= k < i && decisions[k].ruling.AcceptedAt? ==> decisions[k].ruling.revision <= best.value)
        && (exists k :: 0 <= k < i && decisions[k].ruling == AcceptedAt(best.value))
    {
      if decisions[i].ruling.AcceptedAt? && (best.None? || best.value < decisions[i].ruling.revision) {
        best := Some(decisions[i].ruling.revision);
      }
    }
    if best.None? {
      return current;
    }
    ghost var k :| 0 <= k < |decisions| && decisions[k].ruling == AcceptedAt(best.value);
    assert decisions[k].operation in AcceptedIn(decisions);
    return best.value;
  }

  /** The revision a repeat reports is the one the first answer reported, unless nothing was accepted. */
  lemma RepeatReportsSameRevision(c: Canvas, request: ApplyRequest, workset: Option<Workset>, r: PatchReview.Review,
                                  order: seq<Id>, again: nat)
    requires ReviewSound(c, request, workset, r) && Valid(c) && PatchUnlogged(c.log, r.job.patch, {})
    requires r.after.applied != map[] && (forall o :: o in r.after.applied ==> o in order)
    requires var d := DecisionsOf(order, r.after.applied, r.after.skipped);
             && (forall i :: 0 <= i < |d| && d[i].ruling.AcceptedAt? ==> d[i].ruling.revision <= again)
             && exists i :: 0 <= i < |d| && d[i].ruling == AcceptedAt(again)
    ensures again == r.after.canvas.revision
  {
    assert r.after.Walking?;
    hide ReviewSound, Valid, PatchUnlogged;
    ReviewConservesLog(c, request, workset, r);
    RevisionIsLogLength(r.after.canvas);
    LastEntryApplied(r.job, c.revision, r.after.canvas, r.after.applied, order);
    var d, last := DecisionsOf(order, r.after.applied, r.after.skipped), r.after.canvas.revision;
    var i :| 0 <= i < |order| && order[i] in r.after.applied && r.after.applied[order[i]] == last;
    assert d[i].ruling == AcceptedAt(last);
    var k :| 0 <= k < |d| && d[k].ruling == AcceptedAt(again);
    assert order[k] in r.after.applied;
    hide OwnEntries;
  }

  /** The last revision is that of an applied operation. */
  lemma LastEntryApplied(job: Job, from: nat, after: Canvas, applied: map<Id, nat>, order: seq<Id>)
    requires OwnEntries(job, from, after.log, applied) && after.revision == |after.log| == from + |applied|
    requires applied != map[] && forall o :: o in applied ==> o in order
    ensures exists i :: 0 <= i < |order| && order[i] in applied && applied[order[i]] == after.revision
  {
    assert |applied| > 0;
    var last := after.revision;
    assert EntryOf(job, after.log[last - 1], last - 1 + 1, applied);
    var o := after.log[last - 1].key.operation;
    var i :| 0 <= i < |order| && order[i] == o;
  }

  // ------------------------------------------------------------------ the second pass

  /** The store follows the pass turn by turn; a broken pass leaves it to the caller to roll back. */
  method SecondPass(store: Store, job: Job, blocked: set<Id>)
    returns (r: Checked<map<Id, nat>>, skipped: set<Id>)
    requires JobSound(job) && Valid(store.State())
    modifies store
    ensures match Pass(job, old(store.State()), blocked, |job.ordered|)
            case Walking(c, a, s) => r == Fine(a) && skipped == s && store.State() == c
            case Broken(conflict) => r.Refused?
  {
    var applied: map<Id, nat> := map[];
    skipped := blocked;
    ghost var c := store.State();
    hide Pass, ApplyCandidate, Valid;
    PassStarts(job, c, blocked);
    for i := 0 to |job.ordered|
      invariant Pass(job, c, blocked, i) == Walking(store.State(), applied, skipped) && Valid(store.State())
    {
      var o := job.ordered[i];
      PassTurns(job, c, blocked, i);
      if o in skipped {
        continue;
      }
      if job.depends[o] * skipped != {} {
        skipped := skipped + {o};
        continue;
      }
      ghost var at := store.State();
      KeysAreDistinct(at);
      var done := store.ApplyCandidateOperation(job.patch, o, job.ops[o], job.ids, job.excluded);
      if done.Fine? {
        applied := applied[o := done.value.revision];
        ApplyCandidateKeepsValid(at, job.patch, o, job.ops[o], job.ids, job.excluded);
      } else if job.strict {
        BrokenStays(job, c, blocked, i + 1, |job.ordered|);
        return Refused(done.conflict), skipped;
      } else {
        skipped := skipped + {o};
      }
    }
    return Fine(applied), skipped;
  }

  /** The first pass and the one sweep over the groups. */
  method FirstPass(job: Job, groups: seq<Group>, bad: set<Id>) returns (blocked: set<Id>)
    requires JobSound(job) && Disjoint(groups)
    ensures blocked == Blocked(job.depends, job.ordered, groups, bad)
  {
    hide DependsOnSome;
    var first := SkipPass(job.depends, job.ordered, {}, bad);
    assert {} + bad == bad;
    blocked := PropagateGroupSkips(groups, first);
  }

  lemma {:induction false} OnlyStrictPassesBreak(job: Job, c: Canvas, blocked: set<Id>, n: nat)
    requires JobSound(job) && n <= |job.ordered| && Pass(job, c, blocked, n).Broken?
    ensures job.strict
    decreases n
  {
    if Pass(job, c, blocked, n - 1).Broken? {
      OnlyStrictPassesBreak(job, c, blocked, n - 1);
    }
  }

  lemma {:induction false} BrokenStays(job: Job, c: Canvas, blocked: set<Id>, n: nat, m: nat)
    requires JobSound(job) && n <= m <= |job.ordered| && Pass(job, c, blocked, n).Broken?
    ensures Pass(job, c, blocked, m).Broken?
    decreases m
  {
    if n < m {
      BrokenStays(job, c, blocked, n, m - 1);
    }
  }

  lemma KeysAreDistinct(c: Canvas)
    requires Valid(c)
    ensures forall i, j :: 0 <= i < j < |c.log| ==> c.log[i].key != c.log[j].key
  {
  }

  // ------------------------------------------------------------------ the patch

  /** The run that a regeneration request created for the patch. */
  datatype Link = Link(run: Id, key: Id, instruction: Option<string>)

  predicate SelectionAccepted(depends: Depends, request: ApplyRequest) {
    Requested(depends, request.selected) <= depends.Keys && DependencyClosed(depends, Requested(depends, request.selected))
  }

  ghost predicate NoCycleIn(depends: Depends, ids: set<Id>) {
    forall o :: o in ids ==> !StrictlyReaches(Prerequisites(depends), o, o)
  }

  lemma SelectedJobIsSound(job: Job, ids: set<Id>)
    requires job.ops.Keys == job.depends.Keys && ids <= job.depends.Keys && DependencyClosed(job.depends, ids)
    requires IsPermutationOf(job.ordered, ids) && DependenciesFirst(job.depends, job.ordered)
    ensures JobSound(job)
  {
  }

  class GraphPatch {
    const id: Id
    const order: seq<Id>
    const ops: Operations
    const depends: Depends
    const regeneration: Option<Workset>
    const declared: Workset
    const derive: Token -> Id
    var status: PatchStatus
    var decisions: seq<Decision>
    var clientIds: IdMap
    var regeneratedBy: Option<Link>

    /** derive is uuid5 of the patch and a local name. */
    constructor (patch: Id, operations: seq<Id>, candidates: Operations, prerequisites: Depends,
                 frozen: Option<Workset>, declaration: Workset, uuid5: Token -> Id)
      requires NoDuplicates(operations) && (forall o :: o in operations <==> o in candidates)
      requires prerequisites.Keys == candidates.Keys
      ensures Coherent() && status == Pending && decisions == [] && id == patch && order == operations
    {
      id, order, ops, depends := patch, operations, candidates, prerequisites;
      regeneration, declared, derive := frozen, declaration, uuid5;
      status, decisions, clientIds, regeneratedBy := Pending, [], map[], None;
    }

    /** Pending without decisions, or decided operation by operation. */
    ghost predicate Coherent()
      reads this
    {
      && NoDuplicates(order) && (forall o :: o in order <==> o in ops) && depends.Keys == ops.Keys
      && (status.Pending? ==> decisions == [] && regeneratedBy.None?)
      && (!status.Pending? ==> Decided(order, decisions, status))
    }

    ghost function Row(): PatchRow
      reads this
    {
      PatchRow(status, decisions, clientIds)
    }

    /** The job of a request: its selection in dependency order, the identities of its local names, and the
        nodes it deletes. */
    ghost predicate JobFor(request: ApplyRequest, job: Job) {
      var selected := Requested(depends, request.selected);
      && job.patch == id && job.ops == ops && job.depends == depends && JobSound(job)
      && IsPermutationOf(job.ordered, selected)
      && job.ids == (map t | t in LocalNames(ops, selected) :: derive(t))
      && job.excluded == DeletedNodes(ops, selected, job.ids)
      && (job.strict <==> regeneration.Some? || !request.nonconflicting)
    }

    /** A regeneration patch meets its contract; a patch of another operation declares no targets. */
    ghost predicate RegenerationMet(c: Canvas, selected: set<Id>) {
      match regeneration
      case None => declared.targets == {} && declared.permitted == {}
      case Some(w) => ContractMet(c, ops, depends, w, declared, selected)
    }

    /** Whatever of the patch is selected. */
    ghost predicate RegenerationFits(c: Canvas) {
      match regeneration
      case None => declared.targets == {} && declared.permitted == {}
      case Some(w) => PatchFits(c, ops, depends, w, declared)
    }

    /** Every successor that will be applied keeps its lineage values. */
    ghost predicate NamesSafe(review: Review) {
      regeneration.Some? ==>
        LineageSurvives(review.job, regeneration.value, review.groups, WillApply(review.job, review.groups, review.bad))
    }

    /** The job, the conflicts and the groups that a review of the request starts from. */
    ghost predicate Reviewable(before: Canvas, request: ApplyRequest, review: Review) {
      var selected := Requested(depends, request.selected);
      && JobFor(request, review.job)
      && review.bad == PreflightConflicts(before, ops, selected, review.job.ids)
      && (regeneration.None? ==> review.groups == [])
      && (regeneration.Some? ==> GroupsSound(before, review.job, regeneration.value, review.groups, selected))
    }

    /** A conflict of the preflight that may not be skipped, or one of the second pass that aborts it. */
    ghost predicate Conflicting(before: Canvas, request: ApplyRequest, review: Review)
      requires JobFor(request, review.job)
    {
      || (!request.nonconflicting && review.bad != {})
      || (review.job.strict && Pass(review.job, before, Blocked(depends, review.job.ordered, review.groups, review.bad),
                                    |review.job.ordered|).Broken?)
    }

    /** Why a pending patch is refused; every reason can be read off the canvas before. */
    ghost predicate Justified(before: Canvas, request: ApplyRequest, error: ReviewError, review: Review) {
      var selected := Requested(depends, request.selected);
      var selectable := SelectionAccepted(depends, request) && NoCycleIn(depends, selected);
      match error
      case UnknownOperations => !(selected <= depends.Keys)
      case MissingPrerequisites => selected <= depends.Keys && !DependencyClosed(depends, selected)
      case CyclicContract => SelectionAccepted(depends, request) && !NoCycleIn(depends, selected)
      case BadRegeneration => selectable && !RegenerationFits(before)
      case RegenerationInPart => selectable && RegenerationFits(before) && !RegenerationMet(before, selected)
      case BadReference =>
        selectable && exists o :: o in selected && o in ops && !ReferencesParse(ops[o], LocalNames(ops, selected))
      case ApplyConflict => selectable && Reviewable(before, request, review) && Conflicting(before, request, review)
      case LineageLost =>
        selectable && Reviewable(before, request, review) && !Conflicting(before, request, review) && !NamesSafe(review)
      case _ => false
    }

    /** Everything a successful apply stores: the pass as the canvas, one decision per operation, the status
        of the accepted count and the identities of the accepted local names. */
    ghost predicate Records(before: Canvas, after: Canvas, request: ApplyRequest, review: Review)
      reads this
    {
      && JobFor(request, review.job)
      && ReviewSound(before, request, regeneration, review)
      && NamesSafe(review)
      && after == review.after.canvas
      && decisions == DecisionsOf(order, review.after.applied, review.after.skipped)
      && AcceptedIn(decisions) == review.after.applied.Keys && SkippedIn(decisions) == review.after.skipped
      && status == StatusFor(|review.after.applied|, |order|)
      && clientIds == map t | t in LocalNames(ops, review.after.applied.Keys) :: derive(t)
    }

    /** The selection of a request, or the error it is refused with. */
    method Select(request: ApplyRequest) returns (error: Option<ReviewError>, ordered: seq<Id>)
      requires Coherent()
      ensures error.None? <==> SelectionAccepted(depends, request)
                               && NoCycleIn(depends, Requested(depends, request.selected))
      ensures error.None? ==>
        IsPermutationOf(ordered, Requested(depends, request.selected)) && DependenciesFirst(depends, ordered)
      ensures error == Some(UnknownOperations) <==> !(Requested(depends, request.selected) <= depends.Keys)
      ensures error == Some(MissingPrerequisites) <==>
        Requested(depends, request.selected) <= depends.Keys && !DependencyClosed(depends, Requested(depends, request.selected))
      ensures error.Some? ==> error.value in {UnknownOperations, MissingPrerequisites, CyclicContract}
    {
      hide StrictlyReaches;
      var selection := Selection(order, depends, request.selected);
      match selection
      case UnknownOperation => return Some(UnknownOperations), [];
      case IncompleteDependencies => return Some(MissingPrerequisites), [];
      case CyclicDependencies => return Some(CyclicContract), [];
      case Selected(_, sequence) => return None, sequence;
    }

    /** A patch that is already decided answers the same request again and refuses any other. */
    method RetryResult(request: ApplyRequest, current: nat) returns (result: ReviewResult)
      ensures result.Reviewed? <==> Repeats(Requested(depends, request.selected), request.nonconflicting, decisions)
      ensures result.ReviewRefused? ==> result.error.ReviewedDifferently?
      ensures result.Reviewed? ==> result.status == status && result.clientIds == clientIds
                                   && result.skipped == SkippedIn(decisions)
      ensures result.Reviewed? && AcceptedIn(decisions) == {} ==> result.revision == current
      ensures result.Reviewed? && AcceptedIn(decisions) != {} ==>
        && (forall i :: 0 <= i < |decisions| && decisions[i].ruling.AcceptedAt? ==>
              decisions[i].ruling.revision <= result.revision)
        && exists i :: 0 <= i < |decisions| && decisions[i].ruling == AcceptedAt(result.revision)
    {
      if !Repeats(Requested(depends, request.selected), request.nonconflicting, decisions) {
        return ReviewRefused(ReviewedDifferently);
      }
      var revision := LastRevision(decisions, current);
      return Reviewed(status, revision, clientIds, SkippedIn(decisions));
    }

    /** `_validate_regeneration_application`; a patch of another operation may not declare targets. */
    method CheckRegeneration(c: Canvas, selected: set<Id>) returns (error: Option<ReviewError>, groups: seq<Group>)
      requires Coherent()
      ensures error.None? && regeneration.None? ==> groups == []
      ensures error.None? ==> Disjoint(groups)
      ensures error.None? <==> RegenerationMet(c, selected)
      ensures error.Some? ==> error == Some(if RegenerationFits(c) then RegenerationInPart else BadRegeneration)
      ensures error.None? && regeneration.Some? ==>
        && Disjoint(groups) && (forall g :: g in groups ==> GroupSound(c, ops, depends, regeneration.value, selected, g))
        && AllAddOnly(ops) && (forall n :: n in regeneration.value.permitted ==> n in c.nodes && c.nodes[n].stale)
    {
      hide GroupSound, Decomposes, GroupsAre;
      if regeneration.None? {
        return if declared.targets == {} && declared.permitted == {} then None else Some(BadRegeneration), [];
      }
      var checked := ValidateRegeneration(c, order, ops, depends, regeneration.value, declared, selected);
      match checked
      case ContractInvalid => return Some(BadRegeneration), [];
      case SelectedInPart => return Some(RegenerationInPart), [];
      case Groups(groups) => return None, groups;
    }

    /** Names, identities and order of a selection that may be applied. */
    method Prepare(request: ApplyRequest, ordered: seq<Id>) returns (job: Option<Job>)
      requires Coherent() && SelectionAccepted(depends, request)
      requires IsPermutationOf(ordered, Requested(depends, request.selected)) && DependenciesFirst(depends, ordered)
      ensures job.None? <==> exists o :: (o in Requested(depends, request.selected) && o in ops
                && !ReferencesParse(ops[o], LocalNames(ops, Requested(depends, request.selected))))
      ensures job.Some? ==> JobFor(request, job.value)
    {
      hide ReferencesParse, LocalName;
      var selected := Requested(depends, request.selected);
      var locals := LocalNames(ops, selected);
      if exists o :: o in selected && o in ops && !ReferencesParse(ops[o], locals) { return None; }
      var ids := map t | t in locals :: derive(t);
      var excludedIds := DeletedNodes(ops, selected, ids);
      var made := Job(id, ops, depends, ordered, ids, excludedIds, regeneration.Some? || !request.nonconflicting);
      SelectedJobIsSound(made, selected);
      return Some(made);
    }

    /** Both passes and the check after them, on the store; rolled back when anything aborts the review. */
    method Review(store: Store, request: ApplyRequest, job: Job, groups: seq<Group>)
      returns (applied: Option<map<Id, nat>>, skipped: set<Id>, lost: bool, ghost review: PatchReview.Review)
      requires Coherent() && Valid(store.State()) && JobFor(request, job) && PatchUnlogged(store.log, id, {})
      requires SelectionAccepted(depends, request) && NoCycleIn(depends, Requested(depends, request.selected))
      requires Disjoint(groups) && (regeneration.None? ==> groups == [])
      requires regeneration.Some? ==>
        && GroupsSound(store.State(), job, regeneration.value, groups, Requested(depends, request.selected))
        && AllAddOnly(ops) && (forall n :: n in regeneration.value.permitted ==>
                                 n in store.State().nodes && store.State().nodes[n].stale)
      modifies store
      ensures applied.None? ==> store.State() == old(store.State())
                                && Justified(old(store.State()), request, if lost then LineageLost else ApplyConflict, review)
      ensures applied.Some? ==>
        && ReviewSound(old(store.State()), request, regeneration, review) && review.job == job
        && store.State() == review.after.canvas && review.after.applied == applied.value && review.after.skipped == skipped
        && NamesSafe(review)
    {
      hide Valid, AllAddOnly, GroupsSound, Blocked, Pass, JobSound, PreflightConflicts, LineageSurvives, WillApply;
      var selected := Requested(depends, request.selected);
      var saved := Canvas(store.nodes, store.edges, store.causes, store.ingested, store.revision, store.log);
      var bad := PreflightConflicts(saved, ops, selected, job.ids);
      review := PatchReview.Review(job, selected, bad, groups, Walking(saved, map[], {}));
      skipped, lost := {}, false;
      if !request.nonconflicting && bad != {} { return None, {}, false, review; }
      var blocked := FirstPass(job, groups, bad);
      var second;
      second, skipped := SecondPass(store, job, blocked);
      review := PatchReview.Review(job, selected, bad, groups, Pass(job, saved, blocked, |job.ordered|));
      if second.Refused? {
        OnlyStrictPassesBreak(job, saved, blocked, |job.ordered|);
        store.Restore(saved);
        return None, {}, false, review;
      }
      if regeneration.Some? {
        PreservationCheckIff(job, saved, regeneration.value, groups, selected, bad);
        if !RegenerationPreserved(job, saved, Canvas(store.nodes, store.edges, store.causes, store.ingested, store.revision, store.log),
                                  second.value.Keys, regeneration.value, groups) {
          store.Restore(saved);
          return None, {}, true, review;
        }
      }
      return Some(second.value), skipped, false, review;
    }

    /** One decision per patch, once. A pending patch is applied as a whole review or not at all; a decided one
        answers the request it was decided by and nothing else changes. */
    method ApplyGraphPatch(store: Store, request: ApplyRequest)
      returns (result: ReviewResult, ghost review: PatchReview.Review)
      requires Coherent() && Valid(store.State()) && (status.Pending? ==> PatchUnlogged(store.log, id, {}))
      modifies store, this`status, this`decisions, this`clientIds
      ensures Coherent() && Valid(store.State()) && DecidesOnce(order, old(Row()), Row())
      ensures result.ReviewRefused? || !old(status).Pending? ==>
        store.State() == old(store.State())
        && status == old(status) && decisions == old(decisions) && clientIds == old(clientIds)
      ensures old(status).Pending? && result.Reviewed? ==>
        && Records(old(store.State()), store.State(), request, review) && !status.Pending?
        && result == Reviewed(status, store.revision, clientIds, review.after.skipped)
        && Repeats(Requested(depends, request.selected), request.nonconflicting, decisions)
        && RegenerationMet(old(store.State()), Requested(depends, request.selected))
      ensures !status.Pending? ==> StatusSays(decisions, status)
      ensures old(status).Pending? && result.ReviewRefused? ==>
        Justified(old(store.State()), request, result.error, review)
      ensures !old(status).Pending? ==>
        (result.Reviewed? <==>
           SelectionAccepted(depends, request) && NoCycleIn(depends, Requested(depends, request.selected))
           && Repeats(Requested(depends, request.selected), request.nonconflicting, decisions))
      ensures !old(status).Pending? && result.ReviewRefused? ==>
        if SelectionAccepted(depends, request) && NoCycleIn(depends, Requested(depends, request.selected))
        then result.error.ReviewedDifferently?
        else Justified(old(store.State()), request, result.error, review) && !result.error.ReviewedDifferently?
    {
      hide RegenerationMet, RegenerationFits, Valid, GroupSound, AllAddOnly, Disjoint, IsPermutationOf, NoCycleIn, Repeats,
           JobFor, ReviewSound, Reviewable, Conflicting, NamesSafe, PatchUnlogged, ReferencesParse, StatusFor;
      ghost var c := store.State();
      review := NoReview(c);
      var error, ordered := Select(request);
      if error.Some? { return ReviewRefused(error.value), review; }
      var selected := Requested(depends, request.selected);
      if !status.Pending? {
        result := RetryResult(request, store.revision);
        return;
      }
      var refusal, groups := CheckRegeneration(
        Canvas(store.nodes, store.edges, store.causes, store.ingested, store.revision, store.log), selected);
      if refusal.Some? { return ReviewRefused(refusal.value), review; }
      var job := Prepare(request, ordered);
      if job.None? { return ReviewRefused(BadReference), review; }
      OurJob(request, job.value);
      var applied, skipped, lost;
      applied, skipped, lost, review := Review(store, request, job.value, groups);
      if applied.None? { return ReviewRefused(if lost then LineageLost else ApplyConflict), review; }
      RecordDecisions(c, request, applied.value, skipped, review);
      ReviewConservesLog(c, request, regeneration, review);
      return Reviewed(status, store.revision, clientIds, skipped), review;
    }

    lemma OurJob(request: ApplyRequest, job: Job)
      requires JobFor(request, job)
      ensures job.patch == id && job.ops == ops && job.depends == depends
    {
    }

    /** The decisions, the accepted local identities and the status. */
    method RecordDecisions(ghost c: Canvas, request: ApplyRequest, applied: map<Id, nat>, skipped: set<Id>,
                           ghost review: PatchReview.Review)
      requires Coherent() && status.Pending? && JobFor(request, review.job)
      requires ReviewSound(c, request, regeneration, review)
      requires review.after.applied == applied && review.after.skipped == skipped
      requires NamesSafe(review)
      modifies this`status, this`decisions, this`clientIds
      ensures Coherent() && !status.Pending? && Records(c, review.after.canvas, request, review)
      ensures Repeats(Requested(depends, request.selected), request.nonconflicting, decisions)
    {
      hide ReviewSound, JobFor, NamesSafe, LocalName, LocalNames, AcceptedIn, SkippedIn, Decided, Repeats,
           StatusFor, StatusSays, Requested, NoDuplicates, RulingOf;
      ReviewFacts(c, request, review);
      RulingsRecorded(order, review.selected, applied, skipped, request.nonconflicting);
      decisions := DecisionsOf(order, applied, skipped);
      clientIds := map t | t in LocalNames(ops, applied.Keys) :: derive(t);
      status := StatusFor(|applied|, |order|);
    }

    lemma ReviewFacts(c: Canvas, request: ApplyRequest, review: PatchReview.Review)
      requires Coherent() && JobFor(request, review.job) && ReviewSound(c, request, regeneration, review)
      ensures review.selected == Requested(depends, request.selected) && review.after.Walking?
      ensures forall o :: o in review.selected ==> o in order
      ensures review.after.applied.Keys !! review.after.skipped
      ensures review.after.applied.Keys + review.after.skipped == review.selected
      ensures !request.nonconflicting ==> review.after.skipped == {}
    {
      hide JobSound, Blocked, Pass, GroupsSound, AllAddOnly, PreflightConflicts, LocalNames, DeletedNodes;
      ReviewPartitions(c, request, regeneration, review);
      if !request.nonconflicting {
        AllOrNothing(c, request, regeneration, review);
      }
      SelectedAreOperations(c, request, review);
    }

    lemma SelectedAreOperations(c: Canvas, request: ApplyRequest, review: PatchReview.Review)
      requires Coherent() && JobFor(request, review.job) && ReviewSound(c, request, regeneration, review)
      ensures review.selected == Requested(depends, request.selected)
      ensures forall o :: o in review.selected ==> o in order
    {
      forall o | o in review.selected ensures o in order {
        assert o in review.job.ordered;
      }
    }

    ghost function NoReview(c: Canvas): PatchReview.Review {
      PatchReview.Review(Job(id, ops, depends, [], map[], {}, false), {}, {}, [], Walking(c, map[], {}))
    }

    /** One decision per operation, and none of them an acceptance or a conflict. */
    ghost predicate NothingAccepted()
      reads this
    {
      && |decisions| == |order| && (forall i :: 0 <= i < |order| ==> decisions[i] == Decision(order[i], NotAccepted))
      && AcceptedIn(decisions) == {}
    }

    method RejectGraphPatch() returns (result: Option<ReviewError>)
      requires Coherent()
      modifies this`status, this`decisions
      ensures Coherent() && DecidesOnce(order, old(Row()), Row())
      ensures old(status).Pending? ==> status == PatchRejected && NothingAccepted()
      ensures !old(status).Pending? ==> status == old(status) && decisions == old(decisions)
      ensures result == if old(status).Pending? || old(status).PatchRejected? then None else Some(NotPending)
    {
      if status.PatchRejected? { return None; }
      if !status.Pending? { return Some(NotPending); }
      DecideAll(NotAccepted);
      return None;
    }

    method DecideAll(ruling: Ruling)
      requires Coherent() && status.Pending? && ruling.NotAccepted?
      modifies this`status, this`decisions
      ensures status == PatchRejected && Coherent() && NothingAccepted()
    {
      decisions := seq(|order|, i requires 0 <= i < |order| => Decision(order[i], ruling));
      status := PatchRejected;
      assert AcceptedIn(decisions) == {};
    }

    /** inputsValid and keyFree are the answers of the graph, profile and run tables. */
    method RegenerateGraphPatch(run: Id, key: Id, instruction: Option<string>, inputsValid: bool, keyFree: bool)
      returns (result: Option<ReviewError>)
      requires Coherent()
      modifies this`status, this`decisions, this`regeneratedBy
      ensures Coherent() && DecidesOnce(order, old(Row()), Row())
      ensures !old(status).Pending? ==>
        status == old(status) && decisions == old(decisions) && regeneratedBy == old(regeneratedBy)
      ensures old(status).Pending? && result.None? ==>
        status == PatchRejected && NothingAccepted() && regeneratedBy == Some(Link(run, key, instruction))
      ensures old(status).Pending? && result.Some? ==> status == Pending && decisions == [] && regeneratedBy == None
      ensures old(status).Pending? ==>
        result == if !inputsValid then Some(InvalidOriginalInputs) else if !keyFree then Some(RegenerationKeyConflict) else None
      ensures !old(status).Pending? && regeneratedBy.None? ==> result == Some(NotPending)
      ensures !old(status).Pending? && regeneratedBy.Some? ==>
        result == if regeneratedBy.value.key == key && regeneratedBy.value.instruction == instruction then None
                  else Some(RegenerationKeyConflict)
    {
      if regeneratedBy.Some? {
        if regeneratedBy.value.key == key && regeneratedBy.value.instruction == instruction { return None; }
        return Some(RegenerationKeyConflict);
      }
      if !status.Pending? { return Some(NotPending); }
      if !inputsValid { return Some(InvalidOriginalInputs); }
      if !keyFree { return Some(RegenerationKeyConflict); }
      DecideAll(NotAccepted);
      regeneratedBy := Some(Link(run, key, instruction));
      return None;
    }
  }
}
