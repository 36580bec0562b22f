/** Automation intents: nested trees of work, their risk, their validation, the tasks they become. */
module Intents {
  import opened Prelude
  import opened Json

  datatype RiskLevel =
    | SafeReadOnly | LocalRead | LocalWrite | NetworkRead | NetworkWrite | PeripheralMaintenance | CoreMutationDenied
  {
    function Rank(): nat {
      match this
      case SafeReadOnly => 0
      case LocalRead => 1
      case LocalWrite => 2
      case NetworkRead => 3
      case NetworkWrite => 4
      case PeripheralMaintenance => 5
      case CoreMutationDenied => 6
    }
  }

  datatype WritePolicy = InspectOnly | ProposeDiff | EditWithApproval

  datatype CommitPolicy = NeverCommit | CommitWithApproval

  datatype DependencyPolicy = NoDependencyChanges | ProposeDependencyChanges | InstallWithApproval

  datatype Intent =
    | RunCapability(capability: string, args: Value, risk: RiskLevel)
    | ConsultMode(targetMode: string, question: string)
    | SpawnSubagent(mode: string, goal: string, risk: RiskLevel)
    | DreamingReview(mode: string, signalWindow: string)
    | DiagnosticSweep(profile: string)
    | CodingAutomation(workspacePath: string, mode: string, goal: string, maxSubagents: nat, write: WritePolicy,
                       commit: CommitPolicy, dependency: DependencyPolicy, risk: RiskLevel)
    | Maintenance(capability: string, args: Value, risk: RiskLevel)
    | Composite(steps: seq<Intent>)

  datatype ApprovalPolicy = Never | Always | AtOrAbove(threshold: RiskLevel) | ManualOnly {
    predicate RequiresFor(risk: RiskLevel) {
      match this
      case Never => false
      case Always => true
      case ManualOnly => true
      case AtOrAbove(threshold) => risk.Rank() >= threshold.Rank()
    }
  }

  /** The risk levels, lowest first. */
  const LEVELS: seq<RiskLevel> :=
    [SafeReadOnly, LocalRead, LocalWrite, NetworkRead, NetworkWrite, PeripheralMaintenance, CoreMutationDenied]

  /** A threshold asks for approval at itself and upwards, and for nothing below; the other policies
      ask for all or nothing. */
  lemma ThresholdExactly(i: nat, j: nat)
    requires i < |LEVELS| && j < |LEVELS|
    ensures AtOrAbove(LEVELS[i]).RequiresFor(LEVELS[j]) <==> i <= j
    ensures !Never.RequiresFor(LEVELS[j]) && Always.RequiresFor(LEVELS[j]) && ManualOnly.RequiresFor(LEVELS[j])
    ensures forall level: RiskLevel :: level in LEVELS
  {
    forall k: nat | k < |LEVELS| ensures LEVELS[k].Rank() == k {
    }
    forall level: RiskLevel ensures level in LEVELS {
      assert LEVELS[level.Rank()] == level;
    }
  }

  datatype ValidationError =
    | MissingName | EmptyInterval | EmptyCron | EmptyEventTopic | EmptyWebhookPath | EmptyLocalSignal
    | EmptyCapability | EmptyTargetMode | EmptySubagentGoal | EmptyWorkspacePath | EmptyCodingGoal
    | CodingCoreMutationDenied | CoreMutationForbidden

  function MaxRisk(a: RiskLevel, b: RiskLevel): RiskLevel {
    if a.Rank() <= b.Rank() then b else a
  }

  function Risk(intent: Intent): RiskLevel {
    match intent
    case RunCapability(_, _, risk) => risk
    case ConsultMode(_, _) => SafeReadOnly
    case SpawnSubagent(_, _, risk) => risk
    case DreamingReview(_, _) => LocalRead
    case DiagnosticSweep(_) => SafeReadOnly
    case CodingAutomation(_, _, _, _, _, _, _, risk) => risk
    case Maintenance(_, _, risk) => risk
    case Composite(steps) => RiskOfSteps(steps)
  }

  /** `steps.iter().map(risk).max().unwrap_or(SafeReadOnly)` */
  function RiskOfSteps(steps: seq<Intent>): RiskLevel {
    if steps == [] then SafeReadOnly else MaxRisk(Risk(steps[0]), RiskOfSteps(steps[1..]))
  }

  function Flatten(intent: Intent): seq<Intent> {
    if intent.Composite? then FlattenSteps(intent.steps) else [intent]
  }

  function FlattenSteps(steps: seq<Intent>): seq<Intent> {
    if steps == [] then [] else Flatten(steps[0]) + FlattenSteps(steps[1..])
  }

  /** Flattening keeps every leaf and adds none. */
  lemma FlattenKeeps(intent: Intent, leaf: Intent)
    ensures !intent.Composite? ==> Flatten(intent) == [intent]
    ensures intent.Composite? ==>
      (leaf in Flatten(intent) <==> exists step :: step in intent.steps && leaf in Flatten(step))
  {
    if intent.Composite? {
      StepsKeep(intent.steps, leaf);
    }
  }

  lemma {:induction false} StepsKeep(steps: seq<Intent>, leaf: Intent)
    ensures leaf in FlattenSteps(steps) <==> exists step :: step in steps && leaf in Flatten(step)
  {
    if steps != [] {
      StepsKeep(steps[1..], leaf);
      assert FlattenSteps(steps) == Flatten(steps[0]) + FlattenSteps(steps[1..]);
      hide Flatten, FlattenSteps;
      if step :| step in steps && leaf in Flatten(step) {
        assert step == steps[0] || step in steps[1..];
      }
      if step :| step in steps[1..] && leaf in Flatten(step) {
        assert step in steps;
      }
      assert steps[0] in steps;
    }
  }

  function CapabilityProblem(capability: string, risk: RiskLevel): Option<ValidationError> {
    if IsBlank(capability) then Some(EmptyCapability)
    else if risk == CoreMutationDenied then Some(CoreMutationForbidden)
    else None
  }

  function CodingProblem(workspacePath: string, mode: string, goal: string, maxSubagents: nat, write: WritePolicy,
                         commit: CommitPolicy, dependency: DependencyPolicy, risk: RiskLevel): Option<ValidationError> {
    if IsBlank(workspacePath) then Some(EmptyWorkspacePath)
    else if IsBlank(mode) then Some(EmptyTargetMode)
    else if IsBlank(goal) then Some(EmptyCodingGoal)
    else if maxSubagents == 0 then Some(EmptySubagentGoal)
    else if risk == CoreMutationDenied
            || (write != InspectOnly && risk.Rank() < LocalWrite.Rank())
            || (commit == CommitWithApproval && risk.Rank() < LocalWrite.Rank())
            || (dependency == InstallWithApproval && risk.Rank() < LocalWrite.Rank())
    then Some(CodingCoreMutationDenied)
    else None
  }

  /** `validate_intent`: the error, if there is one. */
  function Problem(intent: Intent): Option<ValidationError> {
    match intent
    case RunCapability(capability, _, risk) => CapabilityProblem(capability, risk)
    case Maintenance(capability, _, risk) => CapabilityProblem(capability, risk)
    case ConsultMode(targetMode, _) => if IsBlank(targetMode) then Some(EmptyTargetMode) else None
    case SpawnSubagent(mode, goal, risk) =>
      if IsBlank(mode) then Some(EmptyTargetMode)
      else if IsBlank(goal) then Some(EmptySubagentGoal)
      else if risk == CoreMutationDenied then Some(CoreMutationForbidden)
      else None
    case DreamingReview(mode, _) => if IsBlank(mode) then Some(EmptyTargetMode) else None
    case DiagnosticSweep(_) => None
    case CodingAutomation(path, mode, goal, maxSubagents, write, commit, dependency, risk) =>
      CodingProblem(path, mode, goal, maxSubagents, write, commit, dependency, risk)
    case Composite(steps) => ProblemOfSteps(steps)
  }

  function ProblemOfSteps(steps: seq<Intent>): Option<ValidationError> {
    if steps == [] then None
    else if Problem(steps[0]).Some? then Problem(steps[0])
    else ProblemOfSteps(steps[1..])
  }

  datatype JobTask = JobTask(capability: string, requiresApproval: bool)

  function CapabilityFor(intent: Intent): string {
    match intent
    case RunCapability(capability, _, _) => capability
    case ConsultMode(_, _) => "assistant.consult_mode_agent"
    case SpawnSubagent(_, _, _) => "assistant.spawn_subagent"
    case DreamingReview(_, _) => "memory.dreaming.review"
    case DiagnosticSweep(_) => "runtime.diagnostic_sweep"
    case CodingAutomation(_, _, _, _, _, _, _, _) => "assistant.coding_automation"
    case Maintenance(capability, _, _) => capability
    case Composite(_) => "automation.composite"
  }

  function Tasks(intent: Intent, approval: ApprovalPolicy): (tasks: seq<JobTask>)
    ensures |tasks| == |Flatten(intent)|
  {
    var leaves := Flatten(intent);
    seq(|leaves|, i requires 0 <= i < |leaves| =>
      JobTask(CapabilityFor(leaves[i]), approval.RequiresFor(Risk(leaves[i]))))
  }

  // ---- Trees and their leaves ------------------------------------------------------------------

  /** Flattening leaves nothing nested. */
  lemma {:induction false} FlattenedAreLeaves(intent: Intent)
    ensures forall leaf :: leaf in Flatten(intent) ==> !leaf.Composite?
  {
    if intent.Composite? {
      StepsAreLeaves(intent.steps);
    }
  }

  lemma {:induction false} StepsAreLeaves(steps: seq<Intent>)
    ensures forall leaf :: leaf in FlattenSteps(steps) ==> !leaf.Composite?
  {
    if steps != [] {
      FlattenedAreLeaves(steps[0]);
      StepsAreLeaves(steps[1..]);
    }
  }

  /** `risk` is the least upper bound of `leaves`, and the lowest level when there are none. */
  ghost predicate Bounds(leaves: seq<Intent>, risk: RiskLevel) {
    && (forall leaf :: leaf in leaves ==> Risk(leaf).Rank() <= risk.Rank())
    && (if leaves == [] then risk == SafeReadOnly else exists leaf :: leaf in leaves && Risk(leaf) == risk)
  }

  lemma BoundsAppend(a: seq<Intent>, b: seq<Intent>, ra: RiskLevel, rb: RiskLevel)
    requires Bounds(a, ra) && Bounds(b, rb)
    ensures Bounds(a + b, MaxRisk(ra, rb))
  {
    var (side, risk) := if ra.Rank() <= rb.Rank() && b != [] then (b, rb) else (a, ra);
    if side != [] {
      var leaf :| leaf in side && Risk(leaf) == risk;
      assert leaf in a + b;
    }
  }

  /** The risk of a tree is the highest risk among its leaves. */
  lemma {:induction false} RiskIsHighestLeaf(intent: Intent)
    ensures Bounds(Flatten(intent), Risk(intent))
  {
    if intent.Composite? {
      RiskOfStepsIsHighestLeaf(intent.steps);
    } else {
      assert intent in Flatten(intent);
    }
  }

  lemma {:induction false} RiskOfStepsIsHighestLeaf(steps: seq<Intent>)
    ensures Bounds(FlattenSteps(steps), RiskOfSteps(steps))
  {
    if steps != [] {
      RiskIsHighestLeaf(steps[0]);
      RiskOfStepsIsHighestLeaf(steps[1..]);
      BoundsAppend(Flatten(steps[0]), FlattenSteps(steps[1..]), Risk(steps[0]), RiskOfSteps(steps[1..]));
    }
  }

  function FirstProblem(leaves: seq<Intent>): Option<ValidationError> {
    if leaves == [] then None
    else if Problem(leaves[0]).Some? then Problem(leaves[0])
    else FirstProblem(leaves[1..])
  }

  lemma {:induction false} FirstProblemAppend(a: seq<Intent>, b: seq<Intent>)
    ensures FirstProblem(a + b) == if FirstProblem(a).Some? then FirstProblem(a) else FirstProblem(b)
  {
    if a == [] {
      assert a + b == b;
    } else {
      assert (a + b)[1..] == a[1..] + b;
      FirstProblemAppend(a[1..], b);
    }
  }

  /** Validation reports the first leaf error in flattened order, or nothing. */
  lemma {:induction false} ProblemIsFirstLeafProblem(intent: Intent)
    ensures Problem(intent) == FirstProblem(Flatten(intent))
  {
    if intent.Composite? {
      StepsProblemIsFirst(intent.steps);
    } else {
      assert Flatten(intent)[1..] == [];
    }
  }

  lemma {:induction false} StepsProblemIsFirst(steps: seq<Intent>)
    ensures ProblemOfSteps(steps) == FirstProblem(FlattenSteps(steps))
  {
    if steps != [] {
      ProblemIsFirstLeafProblem(steps[0]);
      StepsProblemIsFirst(steps[1..]);
      FirstProblemAppend(Flatten(steps[0]), FlattenSteps(steps[1..]));
    }
  }

  /** The texts that a leaf must not leave blank. */
  function Texts(leaf: Intent): seq<string> {
    match leaf
    case RunCapability(capability, _, _) => [capability]
    case ConsultMode(targetMode, _) => [targetMode]
    case SpawnSubagent(mode, goal, _) => [mode, goal]
    case DreamingReview(mode, _) => [mode]
    case DiagnosticSweep(_) => []
    case CodingAutomation(path, mode, goal, _, _, _, _, _) => [path, mode, goal]
    case Maintenance(capability, _, _) => [capability]
    case Composite(_) => []
  }

  /** The leaf may change files, history or dependencies. */
  predicate Writes(leaf: Intent) {
    leaf.CodingAutomation?
    && (leaf.write != InspectOnly || leaf.commit == CommitWithApproval || leaf.dependency == InstallWithApproval)
  }

  predicate Proper(leaf: Intent) {
    && (forall text :: text in Texts(leaf) ==> !IsBlank(text))
    && Risk(leaf) != CoreMutationDenied
    && (Writes(leaf) ==> Risk(leaf) !in {SafeReadOnly, LocalRead})
    && (leaf.CodingAutomation? ==> leaf.maxSubagents > 0)
  }

  lemma ProperLeaf(leaf: Intent)
    requires !leaf.Composite?
    ensures Problem(leaf) == None <==> Proper(leaf)
  {
    hide IsBlank;
  }

  /** A tree is valid exactly if every leaf says what it must, is below the forbidden risk, and has
      the risk of a writer if it writes. */
  lemma ValidExactly(intent: Intent)
    ensures Problem(intent) == None <==> forall leaf :: leaf in Flatten(intent) ==> Proper(leaf)
  {
    ProblemIsFirstLeafProblem(intent);
    FlattenedAreLeaves(intent);
    hide Problem, Proper;
    NoProblemExactly(Flatten(intent));
    forall leaf | leaf in Flatten(intent) ensures Problem(leaf) == None <==> Proper(leaf) {
      ProperLeaf(leaf);
    }
  }

  lemma {:induction false} NoProblemExactly(leaves: seq<Intent>)
    ensures FirstProblem(leaves) == None <==> forall leaf :: leaf in leaves ==> Problem(leaf) == None
  {
    if FirstProblem(leaves) == None {
      forall leaf | leaf in leaves ensures Problem(leaf) == None {
        NoProblemAmong(leaves, leaf);
      }
    } else {
      hide Problem;
      NoProblemExactly(leaves[1..]);
      assert leaves[0] in leaves;
      if Problem(leaves[0]) == None {
        var leaf :| leaf in leaves[1..] && Problem(leaf) != None;
        assert leaf in leaves;
      }
    }
  }

  /** A task runs the capability its leaf names, if it names one, and asks for approval exactly if the
      policy does for the leaf. */
  lemma TaskTells(intent: Intent, approval: ApprovalPolicy, i: nat)
    requires i < |Flatten(intent)|
    ensures var leaf, task := Flatten(intent)[i], Tasks(intent, approval)[i];
      && (leaf.RunCapability? || leaf.Maintenance? ==> task.capability == leaf.capability)
      && (task.requiresApproval <==> approval.RequiresFor(Risk(leaf)))
  {
  }

  lemma {:induction false} NoProblemAmong(leaves: seq<Intent>, leaf: Intent)
    requires FirstProblem(leaves) == None && leaf in leaves
    ensures Problem(leaf) == None
  {
    if leaf != leaves[0] {
      NoProblemAmong(leaves[1..], leaf);
    }
  }

  /** A valid tree never carries the forbidden risk level. */
  lemma ValidIsBelowCoreMutation(intent: Intent)
    requires Problem(intent) == None
    ensures Risk(intent).Rank() < CoreMutationDenied.Rank()
  {
    ProblemIsFirstLeafProblem(intent);
    FlattenedAreLeaves(intent);
    RiskIsHighestLeaf(intent);
    if Flatten(intent) != [] {
      var leaf :| leaf in Flatten(intent) && Risk(leaf) == Risk(intent);
      NoProblemAmong(Flatten(intent), leaf);
    }
  }

  predicate SomeTaskRequires(tasks: seq<JobTask>) {
    exists i :: 0 <= i < |tasks| && tasks[i].requiresApproval
  }

  /** Approval of the whole agrees with approval of its parts exactly when there is a part, or the
      policy lets the lowest risk through. A tree without leaves and a stricter policy asks for
      approval of nothing. */
  lemma ApprovalAgrees(intent: Intent, approval: ApprovalPolicy)
    ensures (approval.RequiresFor(Risk(intent)) <==> SomeTaskRequires(Tasks(intent, approval)))
       <==> Flatten(intent) != [] || !approval.RequiresFor(SafeReadOnly)
  {
    var leaves, tasks := Flatten(intent), Tasks(intent, approval);
    RiskIsHighestLeaf(intent);
    if leaves != [] {
      var leaf :| leaf in leaves && Risk(leaf) == Risk(intent);
      var i :| 0 <= i < |leaves| && leaves[i] == leaf;
      assert tasks[i].requiresApproval == approval.RequiresFor(Risk(intent));
      if SomeTaskRequires(tasks) {
        var j :| 0 <= j < |tasks| && tasks[j].requiresApproval;
        assert leaves[j] in leaves;
      }
    }
  }

  /** The failing input at its smallest: an empty composite is valid, needs approval as a whole, and
      asks for approval of nothing. */
  lemma EmptyCompositeDisagrees()
    ensures var intent := Composite([]);
      Problem(intent) == None && Always.RequiresFor(Risk(intent)) && !SomeTaskRequires(Tasks(intent, Always))
  {
  }
}
