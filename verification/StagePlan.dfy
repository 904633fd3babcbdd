/** The stage plan of a run (proofgraph/generation/execution.py:39-163). */
module StagePlan {
  import opened Reachability
  import opened GraphTypes

  datatype StageName = Planning | Researching | Extracting | Clustering | Synthesizing | Critiquing | ConstructingPatch

  datatype Phase = StrategyPhase | ClaimEvidencePhase | OpportunityFamilyPhase | PatchPhase

  datatype Target = Target(node: Id, kind: NodeKind)

  datatype PlanStep = PlanStep(stage: StageName, phase: Option<Phase>, targets: seq<Target>)

  datatype Operation =
    | GenerateStrategies | ResearchEvidence | SynthesizeOpportunities
    | RegenerateStale(branch: bool, targets: seq<Target>)

  /** The key under which a step's output enters `prior_outputs`. */
  datatype OutputKey = OutputKey(phase: Option<Phase>, stage: StageName)

  function KeyOf(step: PlanStep): OutputKey {
    OutputKey(step.phase, step.stage)
  }

  function PlanSteps(names: seq<StageName>, phase: Option<Phase>, targets: seq<Target>): (steps: seq<PlanStep>)
    ensures |steps| == |names|
    ensures forall i :: 0 <= i < |names| ==> steps[i] == PlanStep(names[i], phase, targets)
  {
    seq(|names|, i requires 0 <= i < |names| => PlanStep(names[i], phase, targets))
  }

  function PhaseOf(kind: NodeKind): Phase {
    if kind.Strategy? then StrategyPhase
    else if kind.Claim? then ClaimEvidencePhase
    else OpportunityFamilyPhase
  }

  predicate Supported(kind: NodeKind) {
    kind in {Strategy, Claim, Opportunity, Assumption, Risk, ValidationExperiment}
  }

  function PhaseStages(phase: Phase): seq<StageName> {
    match phase
    case StrategyPhase => [Planning]
    case ClaimEvidencePhase => [Planning, Researching, Extracting, Clustering]
    case OpportunityFamilyPhase => [Synthesizing, Critiquing]
    case PatchPhase => [ConstructingPatch]
  }

  function OfPhase(targets: seq<Target>, phase: Phase): (r: seq<Target>)
    ensures forall t :: t in r <==> t in targets && Supported(t.kind) && PhaseOf(t.kind) == phase
  {
    if targets == [] then []
    else
      var rest := OfPhase(targets[1..], phase);
      if Supported(targets[0].kind) && PhaseOf(targets[0].kind) == phase then [targets[0]] + rest else rest
  }

  function PhaseSteps(targets: seq<Target>, phase: Phase): seq<PlanStep> {
    var mine := OfPhase(targets, phase);
    if mine == [] then [] else PlanSteps(PhaseStages(phase), Some(phase), mine)
  }

  function OperationStages(operation: Operation): seq<StageName>
    requires !operation.RegenerateStale?
  {
    match operation
    case GenerateStrategies => [Planning, ConstructingPatch]
    case ResearchEvidence => [Planning, Researching, Extracting, Clustering, ConstructingPatch]
    case SynthesizeOpportunities => [Synthesizing, Critiquing, ConstructingPatch]
  }

  /** None where the source raises: no first target, or a first target of a kind without a plan. */
  function PlanFor(operation: Operation): Option<seq<PlanStep>> {
    if !operation.RegenerateStale? then Some(PlanSteps(OperationStages(operation), None, []))
    else if !operation.branch then
      if operation.targets == [] || !Supported(operation.targets[0].kind) then None
      else
        var phase := PhaseOf(operation.targets[0].kind);
        Some(PlanSteps(PhaseStages(phase), Some(phase), operation.targets)
             + [PlanStep(ConstructingPatch, Some(PatchPhase), operation.targets)])
    else
      Some(PhaseSteps(operation.targets, StrategyPhase)
           + PhaseSteps(operation.targets, ClaimEvidencePhase)
           + PhaseSteps(operation.targets, OpportunityFamilyPhase)
           + [PlanStep(ConstructingPatch, Some(PatchPhase), operation.targets)])
  }

  /** A plan ends with the one step that builds the patch, and no two steps share a key. */
  ghost predicate Keyed(plan: seq<PlanStep>) {
    && plan != []
    && (forall i :: 0 <= i < |plan| ==> (plan[i].stage == ConstructingPatch <==> i == |plan| - 1))
    && (forall i, j :: 0 <= i < j < |plan| ==> KeyOf(plan[i]) != KeyOf(plan[j]))
  }

  lemma PhaseStepsShape(targets: seq<Target>, phase: Phase)
    requires !phase.PatchPhase?
    ensures var steps := PhaseSteps(targets, phase);
            && (forall i :: 0 <= i < |steps| ==> steps[i].phase == Some(phase) && !steps[i].stage.ConstructingPatch?)
            && (forall i, j :: 0 <= i < j < |steps| ==> steps[i].stage != steps[j].stage)
  {
  }

  lemma KeyedAppend(a: seq<PlanStep>, b: seq<PlanStep>)
    requires forall i, j :: 0 <= i < j < |a| ==> KeyOf(a[i]) != KeyOf(a[j])
    requires forall i, j :: 0 <= i < j < |b| ==> KeyOf(b[i]) != KeyOf(b[j])
    requires forall i, j :: 0 <= i < |a| && 0 <= j < |b| ==> a[i].phase != b[j].phase
    ensures forall i, j :: 0 <= i < j < |a + b| ==> KeyOf((a + b)[i]) != KeyOf((a + b)[j])
  {
    forall i, j | 0 <= i < j < |a + b| ensures KeyOf((a + b)[i]) != KeyOf((a + b)[j]) {
      if i < |a| <= j {
        assert a[i].phase != b[j - |a|].phase;
      }
    }
  }

  lemma BranchPlanIsKeyed(targets: seq<Target>)
    ensures Keyed(PlanFor(RegenerateStale(true, targets)).value)
  {
    var last := [PlanStep(ConstructingPatch, Some(PatchPhase), targets)];
    var s, c, o := PhaseSteps(targets, StrategyPhase), PhaseSteps(targets, ClaimEvidencePhase),
                   PhaseSteps(targets, OpportunityFamilyPhase);
    PhaseStepsShape(targets, StrategyPhase);
    PhaseStepsShape(targets, ClaimEvidencePhase);
    PhaseStepsShape(targets, OpportunityFamilyPhase);
    hide PhaseSteps, PlanSteps;
    KeyedAppend(s, c);
    KeyedAppend(s + c, o);
    KeyedAppend(s + c + o, last);
    assert forall i :: 0 <= i < |s + c + o| ==> !(s + c + o)[i].stage.ConstructingPatch?;
  }

  lemma EveryPlanIsKeyed(operation: Operation)
    requires PlanFor(operation).Some?
    ensures Keyed(PlanFor(operation).value)
  {
    if operation.RegenerateStale? && operation.branch {
      BranchPlanIsKeyed(operation.targets);
      hide *;
    }
  }

  lemma StepsOfPhase(targets: seq<Target>, phase: Phase, t: Target)
    requires t in targets && Supported(t.kind)
    ensures forall i :: 0 <= i < |PhaseSteps(targets, phase)| ==>
      var step := PhaseSteps(targets, phase)[i];
      step.phase == Some(phase) && (t in step.targets <==> PhaseOf(t.kind) == phase)
    ensures phase == PhaseOf(t.kind) ==>
      |PhaseSteps(targets, phase)| == |PhaseStages(phase)|
      && forall k :: 0 <= k < |PhaseStages(phase)| ==> PhaseSteps(targets, phase)[k].stage == PhaseStages(phase)[k]
  {
    hide PhaseStages;
    assert t in OfPhase(targets, PhaseOf(t.kind));
    hide OfPhase, PhaseOf;
  }

  /** A branch plan works on every supported target in the steps of its own phase, and nowhere else
      before the patch is built. */
  lemma BranchTargetsInTheirPhase(targets: seq<Target>, t: Target)
    requires t in targets && Supported(t.kind)
    ensures var plan := PlanFor(RegenerateStale(true, targets)).value;
            && (forall i :: 0 <= i < |plan| - 1 ==>
                  (t in plan[i].targets <==> plan[i].phase == Some(PhaseOf(t.kind))))
            && (forall name :: name in PhaseStages(PhaseOf(t.kind)) ==>
                  exists i :: 0 <= i < |plan| - 1 && plan[i].stage == name && t in plan[i].targets)
  {
    hide PhaseSteps, PlanSteps, PhaseStages;
    var s := PhaseSteps(targets, StrategyPhase);
    var c := PhaseSteps(targets, ClaimEvidencePhase);
    var o := PhaseSteps(targets, OpportunityFamilyPhase);
    var plan := PlanFor(RegenerateStale(true, targets)).value;
    var phase := PhaseOf(t.kind);
    StepsOfPhase(targets, StrategyPhase, t);
    StepsOfPhase(targets, ClaimEvidencePhase, t);
    StepsOfPhase(targets, OpportunityFamilyPhase, t);
    var at := if phase.StrategyPhase? then 0 else if phase.ClaimEvidencePhase? then |s| else |s| + |c|;
    forall name | name in PhaseStages(phase)
      ensures exists i :: 0 <= i < |plan| - 1 && plan[i].stage == name && t in plan[i].targets
    {
      var k :| 0 <= k < |PhaseStages(phase)| && PhaseStages(phase)[k] == name;
      assert plan[at + k] == PhaseSteps(targets, phase)[k];
    }
  }

  // ---- which stages, in which order ----

  /** What each stage builds on: sources are looked for after planning, read after they were found, and so on. */
  function StageRank(stage: StageName): nat {
    match stage
    case Planning => 0
    case Researching => 1
    case Extracting => 2
    case Clustering => 3
    case Synthesizing => 4
    case Critiquing => 5
    case ConstructingPatch => 6
  }

  /** A plan without phases is one phase. */
  function PhaseRank(phase: Option<Phase>): nat {
    match phase
    case None => 0
    case Some(StrategyPhase) => 1
    case Some(ClaimEvidencePhase) => 2
    case Some(OpportunityFamilyPhase) => 3
    case Some(PatchPhase) => 4
  }

  /** The first step builds on nothing the second one makes. */
  predicate Precedes(a: PlanStep, b: PlanStep) {
    || PhaseRank(a.phase) < PhaseRank(b.phase)
    || (a.phase == b.phase && StageRank(a.stage) < StageRank(b.stage))
  }

  ghost predicate InOrder(plan: seq<PlanStep>) {
    forall i, j :: 0 <= i < j < |plan| ==> Precedes(plan[i], plan[j])
  }

  ghost predicate Has(plan: seq<PlanStep>, phase: Option<Phase>, stage: StageName) {
    exists i :: 0 <= i < |plan| && plan[i].phase == phase && plan[i].stage == stage
  }

  lemma NamesInOrder(names: seq<StageName>, phase: Option<Phase>, targets: seq<Target>)
    requires forall i, j :: 0 <= i < j < |names| ==> StageRank(names[i]) < StageRank(names[j])
    ensures InOrder(PlanSteps(names, phase, targets))
    ensures forall p, stage :: Has(PlanSteps(names, phase, targets), p, stage) <==> p == phase && stage in names
  {
    var steps := PlanSteps(names, phase, targets);
    forall p, stage ensures Has(steps, p, stage) <==> p == phase && stage in names {
      if stage in names && p == phase {
        var i :| 0 <= i < |names| && names[i] == stage;
        assert steps[i].phase == p && steps[i].stage == stage;
      }
    }
  }

  lemma PhaseInOrder(targets: seq<Target>, phase: Phase)
    ensures InOrder(PhaseSteps(targets, phase))
    ensures forall p, stage :: Has(PhaseSteps(targets, phase), p, stage) <==>
              OfPhase(targets, phase) != [] && p == Some(phase) && stage in PhaseStages(phase)
  {
    NamesInOrder(PhaseStages(phase), Some(phase), OfPhase(targets, phase));
    hide OfPhase;
  }

  /** The steps of one phase after those of an earlier one. */
  lemma OrderedAppend(a: seq<PlanStep>, b: seq<PlanStep>)
    requires InOrder(a) && InOrder(b)
    requires forall i, j :: 0 <= i < |a| && 0 <= j < |b| ==> PhaseRank(a[i].phase) < PhaseRank(b[j].phase)
    ensures InOrder(a + b)
    ensures forall p, stage :: Has(a + b, p, stage) <==> Has(a, p, stage) || Has(b, p, stage)
  {
    forall i, j | 0 <= i < j < |a + b| ensures Precedes((a + b)[i], (a + b)[j]) {
      if j < |a| {
        assert Precedes(a[i], a[j]);
      } else if |a| <= i {
        assert Precedes(b[i - |a|], b[j - |a|]);
      } else {
        assert PhaseRank(a[i].phase) < PhaseRank(b[j - |a|].phase);
      }
    }
    forall p, stage ensures Has(a + b, p, stage) <==> Has(a, p, stage) || Has(b, p, stage) {
      if i :| 0 <= i < |a + b| && (a + b)[i].phase == p && (a + b)[i].stage == stage {
        if i < |a| { assert a[i] == (a + b)[i]; } else { assert b[i - |a|] == (a + b)[i]; }
      }
      if i :| 0 <= i < |a| && a[i].phase == p && a[i].stage == stage { assert (a + b)[i] == a[i]; }
      if i :| 0 <= i < |b| && b[i].phase == p && b[i].stage == stage { assert (a + b)[|a| + i] == b[i]; }
    }
  }

  /** A node regeneration works for its first target, a branch regeneration for every target. */
  predicate WorksOn(operation: Operation, kind: NodeKind)
    requires operation.RegenerateStale?
  {
    if operation.branch then exists i :: 0 <= i < |operation.targets| && operation.targets[i].kind == kind
    else operation.targets != [] && operation.targets[0].kind == kind
  }

  /** The stages of a run: a first run plans and builds, researches in between, or works on opportunities; a
      regeneration does so for the kinds of node it works on. */
  predicate Runs(operation: Operation, phase: Option<Phase>, stage: StageName) {
    match operation
    case GenerateStrategies => phase.None? && (stage.Planning? || stage.ConstructingPatch?)
    case ResearchEvidence => phase.None? && !stage.Synthesizing? && !stage.Critiquing?
    case SynthesizeOpportunities => phase.None? && (stage.Synthesizing? || stage.Critiquing? || stage.ConstructingPatch?)
    case RegenerateStale(_, _) =>
      match phase
      case None => false
      case Some(StrategyPhase) => stage.Planning? && WorksOn(operation, Strategy)
      case Some(ClaimEvidencePhase) =>
        (stage.Planning? || stage.Researching? || stage.Extracting? || stage.Clustering?) && WorksOn(operation, Claim)
      case Some(OpportunityFamilyPhase) =>
        (stage.Synthesizing? || stage.Critiquing?)
        && (WorksOn(operation, Opportunity) || WorksOn(operation, Assumption) || WorksOn(operation, Risk)
            || WorksOn(operation, ValidationExperiment))
      case Some(PatchPhase) => stage.ConstructingPatch?
  }

  ghost predicate RunsExactly(plan: seq<PlanStep>, operation: Operation) {
    forall phase, stage :: Has(plan, phase, stage) <==> Runs(operation, phase, stage)
  }

  lemma FirstRunInOrder(operation: Operation)
    requires !operation.RegenerateStale?
    ensures PlanFor(operation).Some? && InOrder(PlanFor(operation).value) && RunsExactly(PlanFor(operation).value, operation)
  {
    NamesInOrder(OperationStages(operation), None, []);
    hide InOrder, Has, PlanSteps;
  }

  lemma LastInOrder(targets: seq<Target>)
    ensures var last := [PlanStep(ConstructingPatch, Some(PatchPhase), targets)];
            && InOrder(last)
            && forall p, stage :: Has(last, p, stage) <==> p == Some(PatchPhase) && stage.ConstructingPatch?
  {
    var last := [PlanStep(ConstructingPatch, Some(PatchPhase), targets)];
    assert last[0].phase == Some(PatchPhase) && last[0].stage == ConstructingPatch;
  }

  lemma NodePlanInOrder(operation: Operation)
    requires operation.RegenerateStale? && !operation.branch && PlanFor(operation).Some?
    ensures InOrder(PlanFor(operation).value) && RunsExactly(PlanFor(operation).value, operation)
  {
    var phase := PhaseOf(operation.targets[0].kind);
    var steps := PlanSteps(PhaseStages(phase), Some(phase), operation.targets);
    NamesInOrder(PhaseStages(phase), Some(phase), operation.targets);
    LastInOrder(operation.targets);
    hide InOrder, Has, PlanSteps;
    OrderedAppend(steps, [PlanStep(ConstructingPatch, Some(PatchPhase), operation.targets)]);
  }

  lemma WorksOnPhase(targets: seq<Target>, phase: Phase)
    ensures OfPhase(targets, phase) != [] <==>
      var operation := RegenerateStale(true, targets);
      match phase
      case StrategyPhase => WorksOn(operation, Strategy)
      case ClaimEvidencePhase => WorksOn(operation, Claim)
      case OpportunityFamilyPhase =>
        WorksOn(operation, Opportunity) || WorksOn(operation, Assumption) || WorksOn(operation, Risk)
        || WorksOn(operation, ValidationExperiment)
      case PatchPhase => false
  {
    if t :| t in targets && Supported(t.kind) && PhaseOf(t.kind) == phase {
      var i :| 0 <= i < |targets| && targets[i] == t;
      assert t in OfPhase(targets, phase);
    } else if OfPhase(targets, phase) != [] {
      assert OfPhase(targets, phase)[0] in OfPhase(targets, phase);
    }
  }

  lemma PhasesApart(targets: seq<Target>, phase: Phase)
    ensures forall i :: 0 <= i < |PhaseSteps(targets, phase)| ==> PhaseSteps(targets, phase)[i].phase == Some(phase)
  {
    hide OfPhase;
  }

  lemma BranchPlanInOrder(targets: seq<Target>)
    ensures var operation := RegenerateStale(true, targets);
            PlanFor(operation).Some? && InOrder(PlanFor(operation).value) && RunsExactly(PlanFor(operation).value, operation)
  {
    var last := [PlanStep(ConstructingPatch, Some(PatchPhase), targets)];
    var s, c, o := PhaseSteps(targets, StrategyPhase), PhaseSteps(targets, ClaimEvidencePhase),
                   PhaseSteps(targets, OpportunityFamilyPhase);
    PhaseInOrder(targets, StrategyPhase);
    PhaseInOrder(targets, ClaimEvidencePhase);
    PhaseInOrder(targets, OpportunityFamilyPhase);
    LastInOrder(targets);
    PhasesApart(targets, StrategyPhase);
    PhasesApart(targets, ClaimEvidencePhase);
    PhasesApart(targets, OpportunityFamilyPhase);
    WorksOnPhase(targets, StrategyPhase);
    WorksOnPhase(targets, ClaimEvidencePhase);
    WorksOnPhase(targets, OpportunityFamilyPhase);
    hide InOrder, Has, PhaseSteps, OfPhase, WorksOn;
    OrderedAppend(s, c);
    OrderedAppend(s + c, o);
    OrderedAppend(s + c + o, last);
  }

  /** For every operation: there is a plan unless a node regeneration has no target of a kind that can be regenerated;
      it runs exactly the stages of the operation, phase by phase, each stage after those it builds on. */
  lemma PlanIsPipeline(operation: Operation)
    ensures PlanFor(operation).None? <==>
      operation.RegenerateStale? && !operation.branch
      && !WorksOn(operation, Strategy) && !WorksOn(operation, Claim) && !WorksOn(operation, Opportunity)
      && !WorksOn(operation, Assumption) && !WorksOn(operation, Risk) && !WorksOn(operation, ValidationExperiment)
    ensures PlanFor(operation).Some? ==>
      InOrder(PlanFor(operation).value) && RunsExactly(PlanFor(operation).value, operation)
  {
    hide InOrder, RunsExactly, PhaseSteps, PlanSteps;
    if !operation.RegenerateStale? {
      FirstRunInOrder(operation);
    } else if operation.branch {
      BranchPlanInOrder(operation.targets);
    } else if PlanFor(operation).Some? {
      NodePlanInOrder(operation);
    }
  }

  // ---- what each step works on ----

  /** A target of this kind belongs to this phase. */
  predicate Belongs(kind: NodeKind, phase: Phase) {
    match phase
    case StrategyPhase => kind == Strategy
    case ClaimEvidencePhase => kind == Claim
    case OpportunityFamilyPhase => kind == Opportunity || kind == Assumption || kind == Risk || kind == ValidationExperiment
    case PatchPhase => false
  }

  /** The targets of the phase and no others, in their order. */
  predicate Takes(part: seq<Target>, whole: seq<Target>, phase: Phase)
    decreases whole
  {
    if whole == [] then part == []
    else if Belongs(whole[0].kind, phase) then part != [] && part[0] == whole[0] && Takes(part[1..], whole[1..], phase)
    else Takes(part, whole[1..], phase)
  }

  lemma {:induction false} OfPhaseTakes(targets: seq<Target>, phase: Phase)
    requires !phase.PatchPhase?
    ensures Takes(OfPhase(targets, phase), targets, phase)
    decreases targets
  {
    if targets != [] {
      OfPhaseTakes(targets[1..], phase);
    }
  }

  lemma PhaseStepTargets(targets: seq<Target>, phase: Phase)
    requires !phase.PatchPhase?
    ensures forall i :: 0 <= i < |PhaseSteps(targets, phase)| ==>
              var step := PhaseSteps(targets, phase)[i];
              step.phase == Some(phase) && !step.stage.ConstructingPatch? && Takes(step.targets, targets, phase)
  {
    OfPhaseTakes(targets, phase);
    hide OfPhase, Takes;
  }

  /** A step of a branch regeneration works on the targets of its phase, in their order, every other step on all. */
  lemma StepTargets(operation: Operation, i: nat)
    requires operation.RegenerateStale? && PlanFor(operation).Some? && i < |PlanFor(operation).value|
    ensures var step := PlanFor(operation).value[i];
            if operation.branch && !step.stage.ConstructingPatch?
            then step.phase.Some? && Takes(step.targets, operation.targets, step.phase.value)
            else step.targets == operation.targets
  {
    var targets := operation.targets;
    PhaseStepTargets(targets, StrategyPhase);
    PhaseStepTargets(targets, ClaimEvidencePhase);
    PhaseStepTargets(targets, OpportunityFamilyPhase);
    hide Takes, PhaseSteps;
    if operation.branch {
      BranchTargets(targets, i);
    }
  }

  lemma BranchTargets(targets: seq<Target>, i: nat)
    requires i < |PlanFor(RegenerateStale(true, targets)).value|
    ensures var step := PlanFor(RegenerateStale(true, targets)).value[i];
            || step in PhaseSteps(targets, StrategyPhase) || step in PhaseSteps(targets, ClaimEvidencePhase)
            || step in PhaseSteps(targets, OpportunityFamilyPhase)
            || step == PlanStep(ConstructingPatch, Some(PatchPhase), targets)
  {
    hide PhaseSteps;
  }
}
