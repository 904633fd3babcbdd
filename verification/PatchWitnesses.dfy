/** One concrete regeneration patch whose review goes wrong in the ways the general results allow: a group is
    split, and - under another patch-local name, or with its predecessor in another spelling - the check after the
    second pass fails. */
module PatchWitnesses {
  import opened Reachability
  import opened GraphTypes
  import opened DependencyOrder
  import opened CanvasModel
  import opened CanvasInvariant
  import opened PatchCandidates
  import opened PatchInvariant
  import opened PatchPasses
  import opened RegenerationContract
  import opened PatchReview
  import opened PatchConflicts
  import CanvasTeardown
  import SourceIngestion

  // ------------------------------------------------------------------ the canvas and the patch

  const TARGET := Uuid(21)
  const OTHER := Uuid(22)
  const ANCHORED := Uuid(23)
  const LINK := Uuid(24)
  const CUT := Uuid(25)
  const GONE := Uuid(29)
  const RUN := Uuid(31)
  const PATCH := Uuid(32)

  function FreshNode(): Node {
    Node(Strategy, "strategy", None, map[], None, None, false, None, 1, 1)
  }

  /** Staled by the first operation on the canvas. */
  function StaleNode(): Node {
    Node(Strategy, "strategy", None, map[], None, None, true, Some(1), 2, 1)
  }

  function AnchoredNode(): Node {
    Node(Constraint, "constraint", None, map[ContextScope := Text(BranchScope), Pinned := Flag(true)],
         Some(TARGET), None, false, None, 1, 1)
  }

  function CutOff(): Cause {
    Cause(1, FromEdge(CUT))
  }

  /** The node GONE was cut off from the first strategy and then deleted. */
  function History(): seq<Entry> {
    [Entry(DirectKey(Uuid(41)), Direct(DeleteEdge(CUT, 1)), Payload(1, EdgeDeleted(CUT), {TARGET, OTHER}, {TARGET, OTHER})),
     Entry(DirectKey(Uuid(42)), Direct(DeleteNode(GONE, 1)), Payload(2, NodeDeleted(GONE), {}, {}))]
  }

  /** Two stale strategies, the second below the first, and a constraint anchored at the first. */
  function Before(): Canvas {
    Canvas(map[TARGET := StaleNode(), OTHER := StaleNode(), ANCHORED := AnchoredNode()],
           map[LINK := Edge(TARGET, OTHER, Supports, map[], 1)],
           map[TARGET := [CutOff()], OTHER := [CutOff()]], {}, 2, History())
  }

  /** Where it came from: two fresh strategies, and GONE above the first. */
  function Seeded(): Canvas {
    Canvas(map[TARGET := FreshNode(), OTHER := FreshNode(), ANCHORED := AnchoredNode(), GONE := FreshNode()],
           map[LINK := Edge(TARGET, OTHER, Supports, map[], 1), CUT := Edge(GONE, TARGET, Supports, map[], 1)],
           map[], {}, 0, [])
  }

  function Frozen(): Workset {
    Workset(RUN, BranchScope, {TARGET, OTHER}, {TARGET, OTHER})
  }

  function ByRun(): Value {
    Text(IdText(RUN))
  }

  function SuccessorMetadata(origin: Token): Metadata {
    map[RegeneratedFrom := Text(origin), RegenerationScope := Text(BranchScope), LineageMode := Text(Parallel),
        GeneratedByRun := ByRun()]
  }

  function CloneMetadata(): Metadata {
    map[ContextScope := Text(BranchScope), Pinned := Flag(true), GeneratedByRun := ByRun(),
        ReviewStatus := Text(Provisional), ProvenanceNodes := Items([Text(IdText(ANCHORED))])]
  }

  function Successor(local: Token, origin: Token): Candidate {
    AddNodeCandidate(local, Strategy, "again", None, SuccessorMetadata(origin), None, None)
  }

  function LineageEdge(local: Token, from: Id, to: Token): Candidate {
    AddEdgeCandidate(local, IdText(from), to, EvolvesInto, map[GeneratedByRun := ByRun()])
  }

  function Clone(local: Token): Candidate {
    AddNodeCandidate(Word("c"), Constraint, "constraint", None, CloneMetadata(), Some(local), None)
  }

  /** An edge to a node that has been deleted since. */
  function Dangling(): Candidate {
    AddEdgeCandidate(Word("x"), IdText(TARGET), IdText(GONE), Supports, map[])
  }

  /** What the first successor is called, and how it writes its predecessor. */
  datatype Variation = Plain | NamedLikeMode | OtherSpelling

  function Local(v: Variation): Token {
    if v.NamedLikeMode? then Parallel else Word("s1")
  }

  function OriginText(v: Variation): Token {
    if v.OtherSpelling? then IdSpelling(TARGET, 0) else IdText(TARGET)
  }

  function First(v: Variation): Candidate {
    Successor(Local(v), OriginText(v))
  }

  function Second(): Candidate {
    Successor(Word("s2"), IdText(OTHER))
  }

  /** Successor, lineage edge and clone of the first target, successor and lineage edge of the second, and the
      dangling edge. */
  function Candidates(v: Variation): Operations {
    map[Uuid(1) := First(v), Uuid(2) := LineageEdge(Word("e1"), TARGET, Local(v)), Uuid(3) := Clone(Local(v)),
        Uuid(4) := Second(), Uuid(5) := LineageEdge(Word("e2"), OTHER, Word("s2")), Uuid(6) := Dangling()]
  }

  function Everything(): set<Id> {
    {Uuid(1), Uuid(2), Uuid(3), Uuid(4), Uuid(5), Uuid(6)}
  }

  function LocalIds(v: Variation): IdMap {
    map[Local(v) := Uuid(11), Word("e1") := Uuid(12), Word("c") := Uuid(13), Word("s2") := Uuid(14), Word("e2") := Uuid(15),
        Word("x") := Uuid(16)]
  }

  function TheJob(v: Variation): Job {
    Job(PATCH, Candidates(v), SplitDepends(), SplitOrder(), LocalIds(v), {}, true)
  }

  lemma TheCandidates(v: Variation)
    ensures var ops := Candidates(v);
            && ops.Keys == Everything() && ops.Keys == SplitDepends().Keys
            && ops[Uuid(1)] == First(v) && ops[Uuid(2)] == LineageEdge(Word("e1"), TARGET, Local(v))
            && ops[Uuid(3)] == Clone(Local(v)) && ops[Uuid(4)] == Second()
            && ops[Uuid(5)] == LineageEdge(Word("e2"), OTHER, Word("s2")) && ops[Uuid(6)] == Dangling()
  {
  }

  lemma TheNodes()
    ensures Before().nodes.Keys == {TARGET, OTHER, ANCHORED} && Before().edges.Keys == {LINK}
    ensures Before().nodes[TARGET] == StaleNode() && Before().nodes[OTHER] == StaleNode()
    ensures Before().nodes[ANCHORED] == AnchoredNode()
  {
  }

  lemma TheBooks()
    ensures var c := Before(); c.log == History() && |History()| == 2 && c.revision == 2 && c.ingested == {}
    ensures forall i :: 0 <= i < 2 ==> History()[i].key.DirectKey? && History()[i].payload.revision == i + 1
    ensures History()[0].key != History()[1].key
    ensures Before().causes.Keys == {TARGET, OTHER}
    ensures Before().causes[TARGET] == [CutOff()] && Before().causes[OTHER] == [CutOff()]
    ensures Before().edges[LINK] == Edge(TARGET, OTHER, Supports, map[], 1)
  {
  }

  lemma TheNames(v: Variation)
    ensures !SpellsId(Local(v)) && Local(v) != Word("e1") && Local(v) != Word("c") && Local(v) != Word("s2")
            && Local(v) != Word("e2") && Local(v) != Word("x")
    ensures SpellsId(OriginText(v)) && OriginText(v).id == TARGET
  {
  }

  // ------------------------------------------------------------------ the canvas is reached

  lemma BelowTarget()
    ensures Dependents({(TARGET, OTHER)}, {TARGET}, true, {}) == {TARGET, OTHER}
  {
    var rel: Relation := {(TARGET, OTHER)};
    ReachesSelf(rel, TARGET);
    ReachesStep(rel, TARGET, TARGET, OTHER);
    var closed := iset{TARGET, OTHER};
    forall y | Reaches(rel, TARGET, y) ensures y in closed {
      ClosedReaches(rel, TARGET, y, closed);
    }
  }

  /** After the edge is cut. */
  function Severed(): Canvas {
    Canvas(map[TARGET := StaleNode(), OTHER := StaleNode(), ANCHORED := AnchoredNode(), GONE := FreshNode()],
           map[LINK := Edge(TARGET, OTHER, Supports, map[], 1)],
           map[TARGET := [CutOff()], OTHER := [CutOff()]], {}, 1, History()[..1])
  }

  function Uncut(): Canvas {
    Seeded().(edges := map[LINK := Edge(TARGET, OTHER, Supports, map[], 1)])
  }

  lemma OneDependency()
    ensures Dependencies(Uncut().edges) == {(TARGET, OTHER)}
  {
    var edges := Uncut().edges;
    assert LINK in edges && edges.Keys == {LINK};
    assert PairOf(edges[LINK]) == (TARGET, OTHER);
  }

  lemma StalingSevers()
    ensures MarkStale(Uncut(), {TARGET, OTHER}, 1, FromEdge(CUT)).nodes == Severed().nodes
    ensures MarkStale(Uncut(), {TARGET, OTHER}, 1, FromEdge(CUT)).causes == Severed().causes
  {
    var c, d, e := Uncut(), Severed(), MarkStale(Uncut(), {TARGET, OTHER}, 1, FromEdge(CUT));
    assert [] + [CutOff()] == [CutOff()];
    assert e.causes.Keys == {TARGET, OTHER} && d.causes.Keys == {TARGET, OTHER};
    assert e.causes[TARGET] == [CutOff()] && e.causes[OTHER] == [CutOff()];
  }

  lemma CommitSevers()
    ensures Commit(Uncut(), DirectKey(Uuid(41)), Direct(DeleteEdge(CUT, 1)), EdgeDeleted(CUT), {TARGET, OTHER}, FromEdge(CUT))
            == Severed()
  {
    var c, d := Uncut(), Severed();
    var stale := StaleTargets(c.nodes, {TARGET, OTHER});
    assert TARGET in c.nodes && OTHER in c.nodes && stale == {TARGET, OTHER} && NewlyStale(c.nodes, stale) == {TARGET, OTHER};
    assert d.causes.Keys == {TARGET, OTHER};
    StalingSevers();
    assert History()[..1] == [Entry(DirectKey(Uuid(41)), Direct(DeleteEdge(CUT, 1)),
                                    Payload(1, EdgeDeleted(CUT), {TARGET, OTHER}, {TARGET, OTHER}))];
    assert [] + History()[..1] == History()[..1];
  }

  lemma CutIsHandled(x: Id)
    ensures Handle(Seeded(), DeleteEdge(CUT, 1), x) == Ok((Uncut(), EdgeDeleted(CUT)))
    ensures CaptureInvalidation(Seeded(), DeleteEdge(CUT, 1)) == Captured(FromEdge(CUT), {TARGET}, true, {}, {})
  {
    assert Seeded().edges - {CUT} == Uncut().edges;
  }

  lemma OperationCommits(c: Canvas, id: Id, request: Request, newId: Id, after: Canvas, change: Change, affected: set<Id>)
    requires forall i :: 0 <= i < |c.log| ==> c.log[i].key != DirectKey(id)
    requires Handle(c, request, newId) == Ok((after, change))
    requires ResolveInvalidation(after, request, CaptureInvalidation(c, request)) == affected
    ensures var r := ApplyOperation(c, id, request, newId);
            && r.Committed?
            && r.canvas == Commit(after, DirectKey(id), Direct(request), change, affected, OriginOf(CaptureInvalidation(c, request)))
  {
    hide Handle, Commit, CaptureInvalidation, ResolveInvalidation;
    assert forall i: nat :: !KeyUsed(c.log, DirectKey(id), i);
  }

  lemma CutIsResolved()
    ensures ResolveInvalidation(Uncut(), DeleteEdge(CUT, 1), Captured(FromEdge(CUT), {TARGET}, true, {}, {})) == {TARGET, OTHER}
  {
    OneDependency();
    BelowTarget();
    hide Uncut, Dependencies;
  }

  lemma CuttingStales(x: Id)
    ensures var r := ApplyOperation(Seeded(), Uuid(41), DeleteEdge(CUT, 1), x); r.Committed? && r.canvas == Severed()
  {
    assert Seeded().log == [] && OriginOf(Captured(FromEdge(CUT), {TARGET}, true, {}, {})) == FromEdge(CUT);
    hide *;
    CutIsHandled(x);
    CutIsResolved();
    CommitSevers();
    OperationCommits(Seeded(), Uuid(41), DeleteEdge(CUT, 1), x, Uncut(), EdgeDeleted(CUT), {TARGET, OTHER});
  }

  lemma NothingBelowGone()
    ensures Dependents({(TARGET, OTHER)}, {GONE}, false, {GONE}) == {}
    ensures Dependents({(TARGET, OTHER)}, {}, false, {}) == {}
  {
    var closed := iset{GONE};
    forall y | Reaches({(TARGET, OTHER)}, GONE, y) ensures y == GONE {
      ClosedReaches({(TARGET, OTHER)}, GONE, y, closed);
    }
  }

  lemma GoneIsHandled(x: Id)
    ensures Handle(Severed(), DeleteNode(GONE, 1), x) == Ok((Severed().(nodes := Before().nodes), NodeDeleted(GONE)))
    ensures Severed().edges == Uncut().edges
  {
    var c := Severed();
    assert c.edges.Keys == {LINK} && c.nodes.Keys == {TARGET, OTHER, ANCHORED, GONE};
    assert c.nodes - {GONE} == Before().nodes && c.causes - {GONE} == c.causes;
  }

  lemma GoneIsResolved()
    ensures var capture := CaptureInvalidation(Severed(), DeleteNode(GONE, 1));
            && capture == Captured(FromNode(GONE), {}, false, {}, {})
            && ResolveInvalidation(Severed().(nodes := Before().nodes), DeleteNode(GONE, 1), capture) == {}
  {
    OneDependency();
    NothingBelowGone();
    assert Severed().edges == Uncut().edges;
    hide Severed, Uncut, Before, Dependencies;
  }

  lemma CommitIsBefore()
    ensures Commit(Severed().(nodes := Before().nodes), DirectKey(Uuid(42)), Direct(DeleteNode(GONE, 1)), NodeDeleted(GONE), {},
                   FromNode(GONE)) == Before()
  {
    var c, d := Severed().(nodes := Before().nodes), Before();
    assert StaleTargets(c.nodes, {}) == {} && NewlyStale(c.nodes, {}) == {};
    var e := MarkStale(c, {}, 2, FromNode(GONE));
    assert e.nodes == d.nodes;
    assert e.causes == d.causes;
    assert History() == History()[..1] + [History()[1]];
  }

  /** Two direct operations make the canvas: the edge to the first strategy is cut, which stales both, and the node
      above it is deleted. */
  lemma BeforeIsReached(x: Id, y: Id)
    ensures var r := ApplyOperation(Seeded(), Uuid(41), DeleteEdge(CUT, 1), x);
            r.Committed? && var q := ApplyOperation(r.canvas, Uuid(42), DeleteNode(GONE, 1), y); q.Committed? && q.canvas == Before()
  {
    assert Severed().log == History()[..1] && History()[0].key == DirectKey(Uuid(41));
    assert OriginOf(Captured(FromNode(GONE), {}, false, {}, {})) == FromNode(GONE);
    hide *;
    CuttingStales(x);
    GoneIsHandled(y);
    GoneIsResolved();
    CommitIsBefore();
    OperationCommits(Severed(), Uuid(42), DeleteNode(GONE, 1), y, Severed().(nodes := Before().nodes), NodeDeleted(GONE), {});
  }

  // ------------------------------------------------------------------ an edit that stales itself

  /** Names the first strategy, under a map that takes that text for the second one. */
  function Misnamed(): Candidate {
    UpdateNodeCandidate(IdText(TARGET), 1, Some("renamed"), None, None, None)
  }

  function Misnaming(): IdMap {
    map[IdText(TARGET) := OTHER]
  }

  lemma MisnamedStales()
    ensures HandleCandidate(Seeded(), PATCH, Misnamed(), Misnaming()).Fine? && OTHER in Seeded().nodes
    ensures StalesItsOwnEdit(Seeded(), PATCH, Misnamed(), Misnaming(), {}, OTHER)
  {
    MisnamedIsHandled();
    var c := Seeded();
    assert OTHER in c.nodes && !c.nodes[OTHER].stale;
    assert PairOf(c.edges[LINK]) == (TARGET, OTHER) && LINK in c.edges;
    ReachesSelf(Dependencies(c.edges), TARGET);
    ReachesStep(Dependencies(c.edges), TARGET, TARGET, OTHER);
    hide Seeded, HandleCandidate, Misnaming, Dependencies, Preflight, Edits, Eligible;
  }

  lemma MisnamedApplies()
    ensures var r := ApplyCandidate(Seeded(), PATCH, Uuid(1), Misnamed(), Misnaming(), {});
            r.Fine? && OTHER in r.value.0.nodes
    ensures forall i: nat :: !KeyUsed(Seeded().log, PatchKey(PATCH, Uuid(1)), i)
  {
    MisnamedIsHandled();
    assert Seeded().log == [];
    hide Seeded, HandleCandidate, Commit, AffectedByCandidate, CaptureCandidate, Misnaming, Preflight, Edits;
    var c, handled := Seeded(), HandleCandidate(Seeded(), PATCH, Misnamed(), Misnaming()).value;
    assert forall i: nat :: !KeyUsed(c.log, PatchKey(PATCH, Uuid(1)), i);
    CanvasStaleness.CommitKeepsKeys(handled.0, PatchKey(PATCH, Uuid(1)), FromPatch(PATCH, Uuid(1), Misnamed()), handled.1,
                                    AffectedByCandidate(c, handled.0, Misnamed(), {}), OriginOf(CaptureCandidate(c, Misnamed())));
  }

  /** It edits the second strategy and stales it as a dependent of the first: two versions in one operation. It
      passes the preflight, which would refuse it if the identity that the map gives were new. */
  lemma OwnEditStaled()
    ensures Preflight(Seeded(), Misnamed(), Misnaming(), {}) == None && !DerivedAreNew(Seeded(), Misnaming())
    ensures HandleCandidate(Seeded(), PATCH, Misnamed(), Misnaming()).Fine? && OTHER in Seeded().nodes
    ensures StalesItsOwnEdit(Seeded(), PATCH, Misnamed(), Misnaming(), {}, OTHER)
    ensures var r := ApplyCandidate(Seeded(), PATCH, Uuid(1), Misnamed(), Misnaming(), {});
            r.Fine? && OTHER in r.value.0.nodes && r.value.0.nodes[OTHER].version == Seeded().nodes[OTHER].version + 2
  {
    assert IdText(TARGET) in Misnaming() && Misnaming()[IdText(TARGET)] == OTHER;
    MisnamedStales();
    assert !DerivedAreNew(Seeded(), Misnaming());
    hide *;
    MisnamedIsHandled();
    MisnamedApplies();
    CandidateVersionSteps(Seeded(), PATCH, Uuid(1), Misnamed(), Misnaming(), {}, OTHER);
  }

  lemma MisnamedIsHandled()
    ensures var handled := HandleCandidate(Seeded(), PATCH, Misnamed(), Misnaming());
            && handled.Fine? && OTHER in handled.value.0.nodes && Eligible(handled.value.0.nodes, OTHER)
    ensures Edits(Misnamed(), Misnaming(), OTHER) && Preflight(Seeded(), Misnamed(), Misnaming(), {}) == None
  {
    assert Seeded().nodes[OTHER] == FreshNode();
    assert map[] + RewriteAll(map[], Misnaming()) == map[];
  }

  // ------------------------------------------------------------------ the contract is met

  function Successors(): map<Id, Id> {
    map[TARGET := Uuid(1), OTHER := Uuid(4)]
  }

  function Lineages(): map<Id, Id> {
    map[TARGET := Uuid(2), OTHER := Uuid(5)]
  }

  function Clones(): map<Id, Id> {
    map[ANCHORED := Uuid(3)]
  }

  lemma SuccessorSucceeds(local: Token, origin: Token, target: Id)
    requires SpellsId(origin) && origin.id == target
    ensures IsSuccessor(Successor(local, origin), target, Strategy, Frozen())
    ensures OBSOLETE !in Successor(local, origin).metadata && OBSOLETE !in Clone(local).metadata
    ensures Get(Clone(local).metadata, RegeneratedFrom).None?
  {
  }

  lemma TheSuccessors()
    ensures Successors().Keys == {TARGET, OTHER} && Successors()[TARGET] == Uuid(1) && Successors()[OTHER] == Uuid(4)
    ensures Uuid(1) in Successors().Values && Uuid(4) in Successors().Values
  {
    assert TARGET in Successors() && OTHER in Successors();
  }

  lemma SuccessorsFit(v: Variation)
    ensures SuccessorsAre(Before(), Candidates(v), Frozen(), Successors())
  {
    hide Candidates, IsSuccessor, Before, SuccessorMetadata, CloneMetadata, Get, SplitDepends, Successors, Local, OriginText;
    TheCandidates(v);
    TheNodes();
    TheNames(v);
    SuccessorSucceeds(Local(v), OriginText(v), TARGET);
    SuccessorSucceeds(Word("s2"), IdText(OTHER), OTHER);
    TheSuccessors();
  }

  lemma OneLineageEach(v: Variation)
    ensures OnlyMatch(Candidates(v), TARGET, Local(v), Frozen(), Uuid(2))
    ensures OnlyMatch(Candidates(v), OTHER, Word("s2"), Frozen(), Uuid(5))
  {
    hide Candidates, SuccessorMetadata, CloneMetadata, Local, OriginText;
    TheCandidates(v);
    TheNames(v);
  }

  lemma LineageFits(v: Variation)
    ensures LineageIs(Candidates(v), SplitDepends(), Successors(), Frozen(), Lineages())
  {
    hide Candidates, SuccessorMetadata, CloneMetadata, Local, OriginText, OnlyMatch;
    TheCandidates(v);
    OneLineageEach(v);
  }

  lemma CloneClones(v: Variation)
    ensures IsClone(Clone(Local(v)), AnchoredNode(), Local(v), Frozen()) && Predecessor(Clone(Local(v))) == Some(ANCHORED)
  {
    assert ConstraintSemantics(CloneMetadata()) == ConstraintSemantics(AnchoredNode().metadata);
  }

  lemma OnlyAnchored()
    ensures AnchoredConstraints(Before(), Frozen().targets) == {ANCHORED}
  {
    TheNodes();
    hide Before;
  }

  lemma CloneFits(v: Variation)
    ensures CloneOf(Before(), Candidates(v), SplitDepends(), Successors(), Lineages(), Frozen(), Uuid(3), ANCHORED)
  {
    TheCandidates(v);
    TheNodes();
    OnlyAnchored();
    CloneClones(v);
    hide Candidates, Before, SuccessorMetadata, CloneMetadata, IsClone, Predecessor, AnchoredConstraints;
  }

  lemma TheClones()
    ensures Clones().Keys == {ANCHORED} && Clones()[ANCHORED] == Uuid(3) && Uuid(3) in Clones().Values
  {
    assert ANCHORED in Clones();
  }

  lemma OnlyClone(v: Variation)
    ensures forall o :: o in Candidates(v) && CloneCandidate(Candidates(v)[o]) ==> o == Uuid(3)
  {
    TheCandidates(v);
    hide Candidates, SuccessorMetadata, CloneMetadata, SplitDepends;
  }

  lemma ClonesFit(v: Variation)
    ensures ClonesAre(Before(), Candidates(v), SplitDepends(), Successors(), Lineages(), Frozen(), Clones())
  {
    hide Candidates, Before, SuccessorMetadata, CloneMetadata, AnchoredConstraints, CloneOf, Clones, SplitDepends,
         Successors, Lineages, Frozen, CloneCandidate;
    TheClones();
    OnlyClone(v);
    OnlyAnchored();
    CloneFits(v);
  }

  lemma TheGroups()
    ensures GroupFor(Before(), Successors(), Lineages(), Clones(), TARGET) == SplitGroup()
    ensures GroupFor(Before(), Successors(), Lineages(), Clones(), OTHER) == OtherGroup()
  {
    TheNodes();
    hide Before;
    assert GroupFor(Before(), Successors(), Lineages(), Clones(), TARGET).members == SplitGroup().members by {
      assert ANCHORED in Clones() && Clones()[ANCHORED] == Uuid(3);
    }
    assert GroupFor(Before(), Successors(), Lineages(), Clones(), OTHER).members == OtherGroup().members;
  }

  lemma SelectedAsOne()
    ensures SelectedWhole(SplitGroup(), Everything()) && SelectedWhole(OtherGroup(), Everything())
  {
  }

  lemma TargetsKnown()
    ensures Frozen().targets == {TARGET, OTHER} && Frozen().permitted == {TARGET, OTHER} && WorksetSound(Frozen())
    ensures TARGET in Successors() && OTHER in Successors() && TARGET in Lineages() && OTHER in Lineages()
    ensures {TARGET, OTHER} <= Before().nodes.Keys
    ensures forall n :: n in {TARGET, OTHER} ==> Before().nodes[n].stale && CausesOf(Before().causes, n) != []
  {
    TheNodes();
    TheBooks();
    hide Before;
    assert TARGET in Frozen().targets;
  }

  lemma AllAdditions(v: Variation)
    ensures forall o :: o in Candidates(v) ==> AddOnly(Candidates(v)[o])
  {
    TheCandidates(v);
    hide Candidates, SplitDepends;
  }

  lemma MeetsContract(v: Variation)
    ensures MembersFit(Before(), Candidates(v), SplitDepends(), Frozen(), Successors(), Lineages(), Clones())
    ensures ContractMet(Before(), Candidates(v), SplitDepends(), Frozen(), Frozen(), Everything())
  {
    hide *;
    SuccessorsFit(v);
    LineageFits(v);
    ClonesFit(v);
    ThreeFit(Before(), Candidates(v), SplitDepends(), Frozen(), Successors(), Lineages(), Clones());
    TheGroups();
    SelectedAsOne();
    TargetsKnown();
    AllAdditions(v);
    MembersStand(Before(), Candidates(v), Frozen());
    DecompositionMeets(Before(), Candidates(v), SplitDepends(), Frozen(), Everything(), Successors(), Lineages(), Clones());
  }

  lemma MembersStand(c: Canvas, ops: Operations, w: Workset)
    requires WorksetSound(w) && (forall o :: o in ops ==> AddOnly(ops[o])) && w.targets == w.permitted <= c.nodes.Keys
    requires forall n :: n in w.permitted ==> c.nodes[n].stale && CausesOf(c.causes, n) != []
    ensures WorksetHolds(c, ops, w, w)
  {
    hide AddOnly, WorksetSound;
  }

  lemma ThreeFit(c: Canvas, ops: Operations, depends: Depends, w: Workset, s: map<Id, Id>, l: map<Id, Id>, k: map<Id, Id>)
    requires SuccessorsAre(c, ops, w, s) && LineageIs(ops, depends, s, w, l) && ClonesAre(c, ops, depends, s, l, w, k)
    ensures MembersFit(c, ops, depends, w, s, l, k)
  {
    hide SuccessorsAre, LineageIs, ClonesAre;
  }

  lemma DecompositionMeets(c: Canvas, ops: Operations, depends: Depends, w: Workset, selected: set<Id>,
                           s: map<Id, Id>, l: map<Id, Id>, k: map<Id, Id>)
    requires MembersFit(c, ops, depends, w, s, l, k) && w.targets <= s.Keys && w.targets <= l.Keys
    requires forall t :: t in w.targets ==> SelectedWhole(GroupFor(c, s, l, k, t), selected)
    requires WorksetHolds(c, ops, w, w)
    ensures ContractMet(c, ops, depends, w, w, selected)
  {
    hide SuccessorsAre, LineageIs, ClonesAre, GroupFor, SelectedWhole, WorksetHolds;
    assert Decomposes(c, ops, depends, w, selected, s, l, k);
  }

  lemma GroupsFit(v: Variation)
    ensures GroupsSound(Before(), TheJob(v), Frozen(), [SplitGroup(), OtherGroup()], Everything())
  {
    assert TheJob(v).ops == Candidates(v) && TheJob(v).depends == SplitDepends();
    hide *;
    MeetsContract(v);
    TheGroups();
    SelectedAsOne();
    SplitMembers();
    TargetsKnown();
    GroupIsSound(Before(), Candidates(v), SplitDepends(), Frozen(), Successors(), Lineages(), Clones(), TARGET, Everything());
    GroupIsSound(Before(), Candidates(v), SplitDepends(), Frozen(), Successors(), Lineages(), Clones(), OTHER, Everything());
    TwoGroupsSound(Before(), TheJob(v), Frozen(), SplitGroup(), OtherGroup(), Everything());
  }

  lemma TwoGroupsSound(c: Canvas, job: Job, w: Workset, g: Group, h: Group, selected: set<Id>)
    requires Disjoint([g, h])
    requires GroupSound(c, job.ops, job.depends, w, selected, g) && GroupSound(c, job.ops, job.depends, w, selected, h)
    ensures GroupsSound(c, job, w, [g, h], selected)
  {
    hide GroupSound, Disjoint;
  }

  // ------------------------------------------------------------------ preflight

  lemma LocalNamesResolve(v: Variation)
    ensures var ids := LocalIds(v);
            && Local(v) in ids && ids[Local(v)] == Uuid(11) && Word("e1") in ids && ids[Word("e1")] == Uuid(12)
            && Word("c") in ids && ids[Word("c")] == Uuid(13) && Word("s2") in ids && ids[Word("s2")] == Uuid(14)
            && Word("e2") in ids && ids[Word("e2")] == Uuid(15) && Word("x") in ids && ids[Word("x")] == Uuid(16)
            && (forall t :: t in ids ==> !SpellsId(t))
  {
    TheNames(v);
    hide Local, OriginText;
  }

  lemma SuccessorPasses(v: Variation, name: Token, origin: Token, selected: set<Candidate>)
    requires name == Local(v) || name == Word("s2")
    ensures Preflight(Before(), Successor(name, origin), LocalIds(v), selected).None?
  {
    LocalNamesResolve(v);
    TheNodes();
    hide LocalIds, Before, Local;
  }

  lemma LineagePasses(v: Variation, name: Token, from: Id, to: Token, selected: set<Candidate>)
    requires (name == Word("e1") || name == Word("e2")) && (from == TARGET || from == OTHER)
    requires to == Local(v) || to == Word("s2")
    ensures Preflight(Before(), LineageEdge(name, from, to), LocalIds(v), selected).None?
  {
    LocalNamesResolve(v);
    TheNodes();
    hide LocalIds, Before;
  }

  lemma CloneProvenance(ids: IdMap)
    requires forall t :: t in ids ==> !SpellsId(t)
    ensures KnownProvenance(Before(), CloneMetadata(), ids).None?
  {
    TheNodes();
    hide Before;
    var items := [Text(IdText(ANCHORED))];
    assert CloneMetadata()[ProvenanceNodes] == Items(items) && items[1..] == [];
    assert KnownNodes(Before(), [], ids).None?;
    assert KnownNode(Before(), IdText(ANCHORED), ids).None?;
    hide CloneMetadata, KnownNode;
  }

  lemma ClonePasses(v: Variation, selected: set<Candidate>)
    requires First(v) in selected
    ensures Preflight(Before(), Clone(Local(v)), LocalIds(v), selected).None?
  {
    LocalNamesResolve(v);
    CloneProvenance(LocalIds(v));
    TheNodes();
    assert CreatesRoot(selected, Local(v));
    assert Get(CloneMetadata(), ContextScope) == Some(Text(BranchScope));
    hide LocalIds, Before, CreatesRoot, CloneMetadata, KnownProvenance, Get;
  }

  lemma DanglingFails(v: Variation, selected: set<Candidate>)
    ensures Preflight(Before(), Dangling(), LocalIds(v), selected).Some?
  {
    LocalNamesResolve(v);
    TheNodes();
    hide LocalIds, Before;
  }

  lemma OneConflict(v: Variation)
    ensures PreflightConflicts(Before(), Candidates(v), Everything(), LocalIds(v)) == {Uuid(6)}
  {
    var selected := SelectedCandidates(Candidates(v), Everything());
    TheCandidates(v);
    hide Candidates, SplitDepends, Preflight;
    assert Candidates(v)[Uuid(1)] in selected;
    SuccessorPasses(v, Local(v), OriginText(v), selected);
    SuccessorPasses(v, Word("s2"), IdText(OTHER), selected);
    LineagePasses(v, Word("e1"), TARGET, Local(v), selected);
    LineagePasses(v, Word("e2"), OTHER, Word("s2"), selected);
    ClonePasses(v, selected);
    DanglingFails(v, selected);
    hide Successor, LineageEdge, Clone, Dangling, SelectedCandidates, LocalIds, Before;
  }

  // ------------------------------------------------------------------ the review

  lemma JobFits(v: Variation)
    ensures JobSound(TheJob(v)) && IsPermutationOf(SplitOrder(), Everything())
  {
    TheCandidates(v);
    SplitOrdered();
    var order := SplitOrder();
    assert order[0] == Uuid(1) && order[1] == Uuid(4) && order[2] == Uuid(6) && order[3] == Uuid(2) && order[4] == Uuid(5)
           && order[5] == Uuid(3);
    hide Candidates;
  }

  /** The canvas after the first successor: one node more, one entry more, still no edge. */
  ghost predicate AfterFirst(c: Canvas) {
    && c.nodes.Keys == Before().nodes.Keys + {Uuid(11)} && c.edges == Before().edges
    && |c.log| == 3 && c.log[0].key.DirectKey? && c.log[1].key.DirectKey? && c.log[2].key == PatchKey(PATCH, Uuid(1))
  }

  lemma FirstApplies(v: Variation)
    ensures var r := ApplyCandidate(Before(), PATCH, Uuid(1), First(v), LocalIds(v), {});
            r.Fine? && AfterFirst(r.value.0)
  {
    FirstIsHandled(v);
    FirstKeyIsNew();
    TheBooks();
    hide LocalIds, Before, HandleCandidate, Local, OriginText, History, First, Commit, AffectedByCandidate, CaptureCandidate;
    var handled := HandleCandidate(Before(), PATCH, First(v), LocalIds(v)).value;
    var affected, origin := AffectedByCandidate(Before(), handled.0, First(v), {}), OriginOf(CaptureCandidate(Before(), First(v)));
    CommitBooks(handled.0, PatchKey(PATCH, Uuid(1)), FromPatch(PATCH, Uuid(1), First(v)), handled.1, affected, origin);
  }

  lemma CommitBooks(c: Canvas, key: Key, audit: Audit, change: Change, affected: set<Id>, origin: CanvasModel.Origin)
    ensures var d := Commit(c, key, audit, change, affected, origin);
            d.nodes.Keys == c.nodes.Keys && d.edges == c.edges && |d.log| == |c.log| + 1 && c.log <= d.log && d.log[|c.log|].key == key
  {
  }

  lemma FirstKeyIsNew()
    ensures forall i: nat :: !KeyUsed(Before().log, PatchKey(PATCH, Uuid(1)), i)
  {
    TheBooks();
    hide Before, History;
  }

  lemma FirstIsHandled(v: Variation)
    ensures var handled := HandleCandidate(Before(), PATCH, First(v), LocalIds(v));
            && handled.Fine? && handled.value.0.nodes.Keys == Before().nodes.Keys + {Uuid(11)}
            && handled.value.0.edges == Before().edges && handled.value.0.log == Before().log
  {
    LocalNamesResolve(v);
    TheNodes();
    hide LocalIds, Before, SuccessorMetadata, RewriteAll, Local, OriginText;
  }

  lemma SecondApplies(v: Variation, c: Canvas)
    requires AfterFirst(c)
    ensures ApplyCandidate(c, PATCH, Uuid(2), LineageEdge(Word("e1"), TARGET, Local(v)), LocalIds(v), {}).Fine?
  {
    LocalNamesResolve(v);
    TheNodes();
    hide LocalIds, Before, Commit, Local;
    assert forall i: nat :: !KeyUsed(c.log, PatchKey(PATCH, Uuid(2)), i);
  }

  lemma TheJobIs(v: Variation)
    ensures var job := TheJob(v);
            && job.strict && job.patch == PATCH && job.ids == LocalIds(v) && job.excluded == {}
            && job.ordered == [Uuid(1), Uuid(4), Uuid(6), Uuid(2), Uuid(5), Uuid(3)]
            && job.ops.Keys == Everything() && job.depends.Keys == Everything()
            && job.depends[Uuid(1)] == {} && job.depends[Uuid(2)] == {Uuid(1)} && job.depends[Uuid(3)] == {Uuid(2), Uuid(4)}
            && job.ops[Uuid(1)] == First(v) && job.ops[Uuid(2)] == LineageEdge(Word("e1"), TARGET, Local(v))
  {
    TheCandidates(v);
    hide Candidates;
  }

  function SweptAway(): set<Id> {
    {Uuid(4), Uuid(5), Uuid(6)}
  }

  lemma SkippedTurn(job: Job, c: Canvas, skipped: set<Id>, n: nat)
    requires JobSound(job) && n < |job.ordered| && Pass(job, c, skipped, n).Walking?
    requires job.ordered[n] in Pass(job, c, skipped, n).skipped
    ensures Pass(job, c, skipped, n + 1) == Pass(job, c, skipped, n)
  {
    PassTurns(job, c, skipped, n);
    hide Pass, JobSound, ApplyCandidate;
  }

  lemma BlockedTurn(job: Job, c: Canvas, skipped: set<Id>, n: nat)
    requires JobSound(job) && n < |job.ordered| && Pass(job, c, skipped, n).Walking?
    requires job.ordered[n] in job.depends && job.depends[job.ordered[n]] * Pass(job, c, skipped, n).skipped != {}
    ensures Pass(job, c, skipped, n + 1).Walking?
    ensures Pass(job, c, skipped, n + 1).applied == Pass(job, c, skipped, n).applied
  {
    PassTurns(job, c, skipped, n);
    hide Pass, JobSound, ApplyCandidate;
  }

  lemma AppliedTurn(job: Job, c: Canvas, skipped: set<Id>, n: nat, o: Id)
    requires JobSound(job) && n < |job.ordered| && o == job.ordered[n] && o in job.depends && o in job.ops
    requires Pass(job, c, skipped, n).Walking? && o !in Pass(job, c, skipped, n).skipped
    requires job.depends[o] * Pass(job, c, skipped, n).skipped == {}
    requires ApplyCandidate(Pass(job, c, skipped, n).canvas, job.patch, o, job.ops[o], job.ids, job.excluded).Fine?
    ensures var w, v := Pass(job, c, skipped, n), Pass(job, c, skipped, n + 1);
            && v.Walking? && v.skipped == w.skipped && v.applied.Keys == w.applied.Keys + {o}
            && v.canvas == ApplyCandidate(w.canvas, job.patch, o, job.ops[o], job.ids, job.excluded).value.0
  {
    PassTurns(job, c, skipped, n);
    hide Pass, JobSound, ApplyCandidate;
  }

  /** Six turns of which the second, third and fifth are skipped beforehand and the last is blocked by them. */
  ghost predicate SplitShape(job: Job, skipped: set<Id>, a: Id, b: Id, z: Id) {
    && JobSound(job) && |job.ordered| == 6 && job.ordered[0] == a && job.ordered[3] == b && job.ordered[5] == z
    && job.ordered[1] in skipped && job.ordered[2] in skipped && job.ordered[4] in skipped
    && a !in skipped && b !in skipped && z !in skipped
    && a in job.ops && b in job.ops && a in job.depends && b in job.depends && z in job.depends
    && job.depends[a] * skipped == {} && job.depends[b] * skipped == {} && job.depends[z] * skipped != {}
  }

  lemma SplitWalk(job: Job, c: Canvas, skipped: set<Id>, a: Id, b: Id, z: Id)
    requires SplitShape(job, skipped, a, b, z)
    requires ApplyCandidate(c, job.patch, a, job.ops[a], job.ids, job.excluded).Fine?
    requires var d := ApplyCandidate(c, job.patch, a, job.ops[a], job.ids, job.excluded).value.0;
             ApplyCandidate(d, job.patch, b, job.ops[b], job.ids, job.excluded).Fine?
    ensures Pass(job, c, skipped, 6).Walking? && Pass(job, c, skipped, 6).applied.Keys == {a, b}
  {
    PassStarts(job, c, skipped);
    hide Pass, JobSound, ApplyCandidate;
    AppliedTurn(job, c, skipped, 0, a);
    SkippedTurn(job, c, skipped, 1);
    SkippedTurn(job, c, skipped, 2);
    AppliedTurn(job, c, skipped, 3, b);
    SkippedTurn(job, c, skipped, 4);
    BlockedTurn(job, c, skipped, 5);
  }

  lemma TheShape(v: Variation)
    ensures SplitShape(TheJob(v), SweptAway(), Uuid(1), Uuid(2), Uuid(3))
  {
    hide TheJob, JobSound;
    JobFits(v);
    TheJobIs(v);
    assert Uuid(4) in TheJob(v).depends[Uuid(3)] * SweptAway();
  }

  /** The second pass applies 1 and 2 and skips 3 because of 4. */
  lemma SecondPassSplits(v: Variation) returns (w: Walked)
    ensures JobSound(TheJob(v)) && |TheJob(v).ordered| == 6 && w == Pass(TheJob(v), Before(), SweptAway(), 6)
    ensures w.Walking? && w.applied.Keys == {Uuid(1), Uuid(2)}
  {
    TheShape(v);
    TheJobIs(v);
    FirstApplies(v);
    hide *;
    var job, first := TheJob(v), ApplyCandidate(Before(), PATCH, Uuid(1), First(v), LocalIds(v), {});
    SecondApplies(v, first.value.0);
    ShapeIsSound(job, SweptAway(), Uuid(1), Uuid(2), Uuid(3));
    SplitWalk(job, Before(), SweptAway(), Uuid(1), Uuid(2), Uuid(3));
    w := Pass(job, Before(), SweptAway(), 6);
  }

  lemma ShapeIsSound(job: Job, skipped: set<Id>, a: Id, b: Id, z: Id)
    requires SplitShape(job, skipped, a, b, z)
    ensures JobSound(job) && |job.ordered| == 6 && a in job.ops && b in job.ops
  {
    hide JobSound;
  }

  lemma SoundReview(c: Canvas, request: ApplyRequest, w: Workset, r: Review)
    requires JobSound(r.job) && IsPermutationOf(r.job.ordered, r.selected) && r.job.strict && request.nonconflicting
    requires r.selected == Requested(r.job.depends, request.selected)
    requires r.bad == PreflightConflicts(c, r.job.ops, r.selected, r.job.ids)
    requires r.after == Pass(r.job, c, Blocked(r.job.depends, r.job.ordered, r.groups, r.bad), |r.job.ordered|)
    requires r.after.Walking? && GroupsSound(c, r.job, w, r.groups, r.selected) && AllAddOnly(r.job.ops)
    requires forall n :: n in w.permitted ==> n in c.nodes && c.nodes[n].stale
    ensures ReviewSound(c, request, Some(w), r)
  {
    hide JobSound, IsPermutationOf, PreflightConflicts, Pass, Blocked, GroupsSound, AllAddOnly, Requested;
  }

  /** Everything selected, conflicting operations to be skipped. */
  const Request := ApplyRequest(None, true)

  lemma TheParts(v: Variation)
    ensures TheJob(v).ordered == SplitOrder() && TheJob(v).depends == SplitDepends() && TheJob(v).ops == Candidates(v)
    ensures TheJob(v).ids == LocalIds(v) && TheJob(v).strict && TheJob(v).patch == PATCH
    ensures SweptAway() == {Uuid(4), Uuid(5), Uuid(6)}
    ensures Requested(SplitDepends(), Request.selected) == Everything() && Request.nonconflicting
  {
    TheCandidates(v);
    hide Candidates, LocalIds, SplitOrder;
  }

  lemma TheReview(v: Variation) returns (r: Review)
    ensures r.job == TheJob(v) && r.groups == [SplitGroup(), OtherGroup()] && r.selected == Everything() && r.bad == {Uuid(6)}
    ensures ReviewSound(Before(), Request, Some(Frozen()), r) && r.after.Walking?
    ensures Uuid(1) in r.after.applied && Uuid(2) in r.after.applied && Uuid(3) !in r.after.applied
  {
    hide *;
    JobFits(v);
    TheParts(v);
    var w := SecondPassSplits(v);
    r := Review(TheJob(v), Everything(), {Uuid(6)}, [SplitGroup(), OtherGroup()], w);
    GroupsFit(v);
    OneConflict(v);
    AllAdditions(v);
    AdditionsOnly(Candidates(v));
    SplitBlocked();
    TargetsKnown();
    SoundReview(Before(), Request, Frozen(), r);
  }

  lemma AdditionsOnly(ops: Operations)
    requires forall o :: o in ops ==> AddOnly(ops[o])
    ensures AllAddOnly(ops)
  {
    hide AddOnly;
  }

  /** A patch that meets the regeneration contract, and its review in the nonconflicting mode, which accepts the
      successor and the lineage edge of a group without its clone. */
  lemma ReviewSplitsGroup() returns (r: Review)
    ensures Valid(Before()) && ContractMet(Before(), r.job.ops, r.job.depends, Frozen(), Frozen(), r.selected)
    ensures ReviewSound(Before(), Request, Some(Frozen()), r)
    ensures |r.groups| == 2 && r.groups[0].members <= r.selected && !Atomic(r.groups[0], r.after.applied.Keys)
  {
    hide *;
    r := TheReview(Plain);
    BeforeIsValid();
    TheParts(Plain);
    MeetsContract(Plain);
    SplitMembers();
    AllSelected();
    AcceptedInPart(SplitGroup(), r.after.applied.Keys, Uuid(1), Uuid(3));
  }

  lemma AllSelected()
    ensures SplitGroup().members <= Everything() && OtherGroup().members <= Everything()
  {
  }

  lemma AcceptedInPart(g: Group, applied: set<Id>, a: Id, b: Id)
    requires a in g.members && b in g.members && a in applied && b !in applied
    ensures !Atomic(g, applied)
  {
  }

  lemma BeforeIsValid()
    ensures Valid(Before()) && PatchUnlogged(Before().log, PATCH, {})
  {
    TheNodes();
    TheBooks();
    hide Before, History;
    assert Anchored(Before().nodes, ANCHORED) && Anchored(Before().nodes, TARGET) && Anchored(Before().nodes, OTHER);
    hide Anchored;
  }

  // ------------------------------------------------------------------ made before the node was deleted

  lemma SeveredFacts()
    ensures var c := Severed();
            && c.nodes.Keys == Before().nodes.Keys + {GONE} && GONE !in Before().nodes && c.edges.Keys == {LINK}
            && (forall n :: n in Before().nodes ==> c.nodes[n] == Before().nodes[n]) && c.nodes[GONE].kind == Strategy
            && c.causes == Before().causes && c.ingested == {}
  {
    TheNodes();
  }

  lemma SeededIsValid()
    ensures Valid(Seeded())
  {
    var c := Seeded();
    assert c.nodes.Keys == {TARGET, OTHER, ANCHORED, GONE} && c.edges.Keys == {LINK, CUT};
    assert Anchored(c.nodes, ANCHORED) && Anchored(c.nodes, TARGET) && Anchored(c.nodes, OTHER) && Anchored(c.nodes, GONE);
    hide Anchored;
  }

  lemma SeveredIsValid()
    ensures Valid(Severed())
  {
    hide *;
    SeededIsValid();
    CuttingStales(GONE);
    ApplyKeepsValid(Seeded(), Uuid(41), DeleteEdge(CUT, 1), GONE);
  }

  lemma DerivedAreFresh(v: Variation)
    ensures DerivedUnused(Severed(), LocalIds(v)) && SameKinds(Before(), Severed()) && SameKinds(Severed(), Before())
    ensures DerivedUnused(Before(), LocalIds(v))
  {
    TheNodes();
    SeveredFacts();
    assert forall t :: t in LocalIds(v) ==> 11 <= LocalIds(v)[t].value <= 16;
    hide LocalIds, Severed, Before;
  }

  lemma FitsSeveredToo(v: Variation, o: Id)
    requires o in Everything() && o != Uuid(6)
    ensures o in Candidates(v) && AddOnly(Candidates(v)[o]) && LocalKnown(Candidates(v)[o], LocalIds(v))
    ensures Preflight(Severed(), Candidates(v)[o], LocalIds(v), SelectedCandidates(Candidates(v), Everything())) == None
  {
    var op, selected := Candidates(v)[o], SelectedCandidates(Candidates(v), Everything());
    LocalsAreKnown(v, o);
    OneConflict(v);
    DerivedAreFresh(v);
    SeveredFacts();
    assert o !in PreflightConflicts(Before(), Candidates(v), Everything(), LocalIds(v));
    hide Preflight, LocalIds, Severed, Before, Mentions, DerivedUnused, LocalKnown, SelectedCandidates, Candidates, AddOnly;
    RefusedIffGone(Before(), Severed(), op, LocalIds(v), selected);
  }

  lemma LocalsAreKnown(v: Variation, o: Id)
    requires o in Everything()
    ensures o in Candidates(v) && AddOnly(Candidates(v)[o]) && LocalKnown(Candidates(v)[o], LocalIds(v))
  {
    TheCandidates(v);
    LocalNamesResolve(v);
    hide Candidates, LocalIds, SplitDepends, Local, OriginText;
  }

  lemma EdgeFitsSevered(v: Variation, selected: set<Candidate>)
    ensures Preflight(Severed(), Dangling(), LocalIds(v), selected) == None
  {
    LocalNamesResolve(v);
    TheNodes();
    SeveredFacts();
    hide LocalIds, Severed, Before;
  }

  /** While that node is there the whole patch fits. */
  lemma FitsSevered(v: Variation)
    ensures FitsNow(Severed(), TheJob(v), Everything())
  {
    var selected := SelectedCandidates(Candidates(v), Everything());
    TheParts(v);
    TheCandidates(v);
    EdgeFitsSevered(v, selected);
    AllAdditions(v);
    AdditionsOnly(Candidates(v));
    DerivedAreFresh(v);
    hide Candidates, LocalIds, Severed, Preflight, DerivedUnused, LocalKnown, SelectedCandidates, AddOnly, AllAddOnly, TheJob, Dangling;
    forall o | o in Everything()
      ensures LocalKnown(Candidates(v)[o], LocalIds(v)) && Preflight(Severed(), Candidates(v)[o], LocalIds(v), selected) == None
    {
      LocalsAreKnown(v, o);
      if o != Uuid(6) { FitsSeveredToo(v, o); }
    }
  }

  lemma SeveredSameContract()
    ensures SameForContract(Before(), Severed(), Frozen())
  {
    TheNodes();
    TheBooks();
    TargetsKnown();
    OnlyAnchored();
    SeveredFacts();
    hide Before, Severed, Frozen;
  }

  lemma DeletedLater()
    ensures CanvasTeardown.Later(SourceIngestion.System(0, Severed(), map[], {}), Before())
  {
    BeforeIsReached(GONE, GONE);
    CuttingStales(GONE);
    var sys := SourceIngestion.System(0, Severed(), map[], {});
    hide ApplyOperation, Severed, Before;
    CanvasTeardown.ByNothing(sys);
    CanvasTeardown.ByOneMore(sys, Severed(), Uuid(42), DeleteNode(GONE, 1), GONE);
    CanvasTeardown.DirectIsLater(sys, Before());
  }

  function Made(): SourceIngestion.System {
    SourceIngestion.System(0, Severed(), map[], {})
  }

  lemma MadeIsSound()
    ensures SourceIngestion.SystemSound(Made()) && Made().canvas == Severed()
  {
    SeveredIsValid();
    assert Severed().log == History()[..1] && |Severed().log| == 1 && Severed().log[0].key == DirectKey(Uuid(41));
    hide Valid, Severed;
  }

  lemma StillReviewableBefore(v: Variation)
    ensures ContractMet(Severed(), Candidates(v), SplitDepends(), Frozen(), Frozen(), Everything())
    ensures StillReviewable(Made(), Before(), TheJob(v), Frozen(), Frozen(), Everything())
  {
    TheParts(v);
    assert Made() == SourceIngestion.System(0, Severed(), map[], {});
    hide *;
    MadeIsSound();
    MeetsContract(v);
    SeveredSameContract();
    ContractStillMet(Before(), Severed(), Candidates(v), SplitDepends(), Frozen(), Frozen(), Everything());
    DeletedLater();
    DerivedAreFresh(v);
    Reviewable(Made(), Before(), TheJob(v), Frozen(), Frozen(), Everything());
  }

  /** The patch fits the canvas and meets its contract there. Then somebody deletes one node that is neither a target
      nor to be cloned, and the review, sound as it is, splits a group. */
  lemma OthersSplitGroup() returns (r: Review)
    ensures SourceIngestion.SystemSound(Made()) && FitsNow(Made().canvas, r.job, r.selected)
    ensures ContractMet(Made().canvas, r.job.ops, r.job.depends, Frozen(), Frozen(), r.selected)
    ensures StillReviewable(Made(), Before(), r.job, Frozen(), Frozen(), r.selected)
    ensures ReviewSound(Before(), Request, Some(Frozen()), r)
    ensures |r.groups| == 2 && r.groups[0].members <= r.selected && !Atomic(r.groups[0], r.after.applied.Keys)
  {
    hide *;
    r := TheReview(Plain);
    TheParts(Plain);
    MadeIsSound();
    FitsSevered(Plain);
    StillReviewableBefore(Plain);
    SplitMembers();
    AllSelected();
    AcceptedInPart(SplitGroup(), r.after.applied.Keys, Uuid(1), Uuid(3));
  }

  lemma FirstSuccessor(v: Variation)
    ensures Uuid(1) in Candidates(v) && Candidates(v)[Uuid(1)] == First(v) && First(v).AddNodeCandidate?
    ensures SplitGroup().root == Uuid(1) && SplitGroup().target == TARGET && Frozen().scope == BranchScope
  {
    TheCandidates(v);
    hide Candidates;
  }

  lemma LosesLineage(v: Variation)
    requires !v.Plain?
    ensures First(v).AddNodeCandidate? && !LineageStays(First(v).metadata, LocalIds(v), TARGET, BranchScope)
  {
    LocalNamesResolve(v);
    assert Get(SuccessorMetadata(OriginText(v)), RegeneratedFrom) == Some(Text(OriginText(v)));
    assert v.OtherSpelling? ==> OriginText(v) !in LocalIds(v);
    hide LocalIds;
  }

  /** The same patch with its first successor named like the lineage mode, or with its predecessor written in
      another spelling, meets the contract as well, and the check after its second pass fails: the successor no longer
      says how it continues its predecessor, or says it in other letters. */
  lemma LineageFailsCheck(v: Variation) returns (r: Review)
    requires !v.Plain?
    ensures Valid(Before()) && ContractMet(Before(), r.job.ops, r.job.depends, Frozen(), Frozen(), r.selected)
    ensures ReviewSound(Before(), Request, Some(Frozen()), r)
    ensures forall g :: g in r.groups ==> g.root in r.job.ops && r.job.ops[g.root].AddNodeCandidate?
    ensures !RegenerationPreserved(r.job, Before(), r.after.canvas, r.after.applied.Keys, Frozen(), r.groups)
  {
    hide *;
    r := TheReview(v);
    LosesLineage(v);
    FirstSuccessor(v);
    TheParts(v);
    MeetsContract(v);
    BeforeIsValid();
    SplitMembers();
    ReviewFails(Before(), Request, Frozen(), r, r.groups[0]);
  }

  lemma JobKeys(job: Job)
    requires JobSound(job)
    ensures job.ops.Keys == job.depends.Keys
  {
    hide WellOrdered;
  }

  lemma ReviewFails(c: Canvas, request: ApplyRequest, w: Workset, r: Review, g: Group)
    requires ReviewSound(c, request, Some(w), r) && Valid(c) && PatchUnlogged(c.log, r.job.patch, {})
    requires g in r.groups && g.root in r.after.applied && g.root in r.job.ops && r.job.ops[g.root].AddNodeCandidate?
    requires !LineageStays(r.job.ops[g.root].metadata, r.job.ids, g.target, w.scope)
    ensures forall h :: h in r.groups ==> h.root in r.job.ops && r.job.ops[h.root].AddNodeCandidate?
    ensures !RegenerationPreserved(r.job, c, r.after.canvas, r.after.applied.Keys, w, r.groups)
  {
    hide Pass, JobSound, Blocked, PreflightConflicts, Valid, PatchUnlogged, AllAddOnly, RegenerationPreserved, WillApply, LineageStays;
    JobKeys(r.job);
    SoundGroupFacts(c, r.job, w, r.groups, r.selected);
    hide GroupsSound;
    AppliedIsForeseen(r.job, c, r.groups, r.bad);
    PreservationCheckIff(r.job, c, w, r.groups, r.selected, r.bad);
  }
}
