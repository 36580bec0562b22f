/** The gated build pipeline: one ledger, moved by gate results. */
module BuildPlanner {
  import opened Prelude

  type Uuid = nat
  type Time = int

  datatype BuildStep = Intake | Blueprint | CrateBuild | CrateCouple | BuildTest | LaunchProof {
    function Ordinal(): (n: nat)
      ensures 1 <= n <= 6
    {
      match this
      case Intake => 1
      case Blueprint => 2
      case CrateBuild => 3
      case CrateCouple => 4
      case BuildTest => 5
      case LaunchProof => 6
    }

    /** The skill that a build works with at this step. */
    function SkillId(): string {
      match this
      case Intake => "ordo-build-intake"
      case Blueprint => "ordo-build-blueprint"
      case CrateBuild => "ordo-crate-build"
      case CrateCouple => "ordo-crate-couple"
      case BuildTest => "ordo-build-test"
      case LaunchProof => "ordo-launch-proof"
    }

    function Next(): Option<BuildStep> {
      match this
      case Intake => Some(Blueprint)
      case Blueprint => Some(CrateBuild)
      case CrateBuild => Some(CrateCouple)
      case CrateCouple => Some(BuildTest)
      case BuildTest => Some(LaunchProof)
      case LaunchProof => None
    }
  }

  datatype ErrorClass =
    | BoundedMechanical | BlueprintAmendment | CompileErrors | CompileWarnings | ArchitecturalViolation | StubDetected
    | CoupleDebt | LaunchProofMissing | RuntimePanic | UnboundedOwnership | RetryExhausted | Unknown
  {
    predicate IsBoundedCandidate() { this in {BoundedMechanical, BlueprintAmendment, CompileWarnings} }
  }

  datatype GateOutcome =
    | Pass(summary: string)
    | Fail(errorClass: ErrorClass, summary: string)
    | Deferred(reason: string)

  datatype GateResult = GateResult(buildId: Uuid, projectId: string, step: BuildStep, outcome: GateOutcome)

  datatype RunStatus = Active | Halted | Complete

  datatype StepOutput = StepOutput(summary: string, recordedAt: Time, skill: string)

  datatype DeferredDebt = DeferredDebt(step: BuildStep, reason: string, recordedAt: Time)

  /** The part of a ledger that gate results read or write. */
  datatype Ledger = Ledger(
    buildId: Uuid, projectId: string, status: RunStatus, currentStep: BuildStep, autonomousCorrection: bool,
    stepOutputs: map<BuildStep, StepOutput>, deferredDebt: seq<DeferredDebt>, coupleMarkers: seq<string>,
    createdAt: Time, updatedAt: Time)

  datatype PlannerError =
    | WrongBuild(expected: Uuid, actual: Uuid)
    | WrongProject(expectedProject: string, actualProject: string)
    | WrongStep(expectedStep: BuildStep, actualStep: BuildStep)
    | DeferredOutsideCouple
    | DeferredDebtRemaining
    | CoupleMarkersRemaining
    | BuildNotActive

  datatype Decision =
    | Advance(completed: BuildStep, next: Option<BuildStep>, releasedSkill: Option<string>)
    | HardHalt(failed: BuildStep, haltClass: ErrorClass, haltSummary: string)
    | DebtRecorded(deferredStep: BuildStep, reason: string)
    | AutonomousRetryEligible(retryStep: BuildStep, retryClass: ErrorClass, retrySummary: string)

  /** Passing `step` releases the skill of the step after it. */
  function AdvanceFrom(step: BuildStep): Decision {
    Advance(step, step.Next(), match step.Next() case Some(next) => Some(next.SkillId()) case None => None)
  }

  function NewLedger(buildId: Uuid, projectId: string, now: Time): Ledger {
    Ledger(buildId, projectId, Active, Intake, false, map[], [], [], now, now)
  }

  /** A new build is active at its first step, has nothing behind it, and does not correct itself. */
  lemma NewBuild(buildId: Uuid, projectId: string, now: Time)
    ensures var l := NewLedger(buildId, projectId, now);
      && l.buildId == buildId && l.projectId == projectId && l.status == Active && l.currentStep.Ordinal() == 1
      && !l.autonomousCorrection && l.stepOutputs == map[] && l.deferredDebt == [] && l.coupleMarkers == []
  {
  }

  // ---- The judgement, as one function --------------------------------------------------------

  function HeaderError(ledger: Ledger, result: GateResult): Option<PlannerError> {
    if result.buildId != ledger.buildId then Some(WrongBuild(ledger.buildId, result.buildId))
    else if result.projectId != ledger.projectId then Some(WrongProject(ledger.projectId, result.projectId))
    else if result.step != ledger.currentStep then Some(WrongStep(ledger.currentStep, result.step))
    else None
  }

  predicate Blocked(ledger: Ledger, step: BuildStep, byDebt: bool) {
    if byDebt then step in {BuildTest, LaunchProof} && ledger.deferredDebt != []
    else step in {CrateCouple, LaunchProof} && ledger.coupleMarkers != []
  }

  /** The refusal, or the decision. */
  function Judge(ledger: Ledger, result: GateResult): Result<Decision, PlannerError> {
    if HeaderError(ledger, result).Some? then Err(HeaderError(ledger, result).value)
    else if ledger.status != Active then Err(BuildNotActive)
    else match result.outcome
      case Pass(_) =>
        if Blocked(ledger, result.step, true) then Err(DeferredDebtRemaining)
        else if Blocked(ledger, result.step, false) then Err(CoupleMarkersRemaining)
        else Ok(AdvanceFrom(result.step))
      case Fail(class_, summary) =>
        if ledger.autonomousCorrection && class_.IsBoundedCandidate()
        then Ok(AutonomousRetryEligible(result.step, class_, summary))
        else Ok(HardHalt(result.step, class_, summary))
      case Deferred(reason) =>
        if result.step != CrateCouple then Err(DeferredOutsideCouple) else Ok(DebtRecorded(result.step, reason))
  }

  /** The ledger afterwards. */
  function After(ledger: Ledger, result: GateResult, now: Time): Ledger {
    match Judge(ledger, result)
    case Err(_) => ledger
    case Ok(AutonomousRetryEligible(_, _, _)) => ledger
    case Ok(HardHalt(_, _, _)) => ledger.(status := Halted, updatedAt := now)
    case Ok(DebtRecorded(step, reason)) =>
      ledger.(deferredDebt := ledger.deferredDebt + [DeferredDebt(step, reason, now)], updatedAt := now)
    case Ok(Advance(step, _, _)) => Advanced(ledger, step, SummaryOf(result.outcome), now)
  }

  function Advanced(ledger: Ledger, step: BuildStep, summary: string, now: Time): Ledger {
    var next := step.Next();
    ledger.(stepOutputs := ledger.stepOutputs[step := StepOutput(summary, now, step.SkillId())],
            currentStep := if next.Some? then next.value else ledger.currentStep,
            status := if next.Some? then Active else Complete,
            updatedAt := now)
  }

  function SummaryOf(outcome: GateOutcome): string {
    match outcome
    case Pass(summary) => summary
    case Fail(_, summary) => summary
    case Deferred(reason) => reason
  }

  /** A planner and its ledger, updated in place. */
  class BuildPlanner {
    var ledger: Ledger

    constructor (ledger: Ledger)
      ensures this.ledger == ledger
    {
      this.ledger := ledger;
    }

    method HandleGateResult(result: GateResult, now: Time) returns (r: Result<Decision, PlannerError>)
      modifies this
      ensures r == Judge(old(ledger), result)
      ensures ledger == After(old(ledger), result, now)
      ensures r.Err? ==> ledger == old(ledger)
    {
      if result.buildId != ledger.buildId {
        return Err(WrongBuild(ledger.buildId, result.buildId));
      }
      if result.projectId != ledger.projectId {
        return Err(WrongProject(ledger.projectId, result.projectId));
      }
      if result.step != ledger.currentStep {
        return Err(WrongStep(ledger.currentStep, result.step));
      }
      if ledger.status != Active {
        return Err(BuildNotActive);
      }
      match result.outcome
      case Pass(summary) =>
        r := HandlePass(result.step, summary, now);
      case Fail(class_, summary) =>
        var decision := HandleFail(result.step, class_, summary, now);
        return Ok(decision);
      case Deferred(reason) =>
        r := HandleDeferred(result.step, reason, now);
    }

    method HandlePass(step: BuildStep, summary: string, now: Time) returns (r: Result<Decision, PlannerError>)
      requires ledger.status == Active && step == ledger.currentStep
      modifies this
      ensures var result := GateResult(old(ledger).buildId, old(ledger).projectId, step, Pass(summary));
        r == Judge(old(ledger), result) && ledger == After(old(ledger), result, now)
    {
      if (step.BuildTest? || step.LaunchProof?) && ledger.deferredDebt != [] {
        return Err(DeferredDebtRemaining);
      }
      if (step.CrateCouple? || step.LaunchProof?) && ledger.coupleMarkers != [] {
        return Err(CoupleMarkersRemaining);
      }
      ledger := ledger.(stepOutputs := ledger.stepOutputs[step := StepOutput(summary, now, step.SkillId())]);
      var next := step.Next();
      if next.Some? {
        ledger := ledger.(currentStep := next.value);
      } else {
        ledger := ledger.(status := Complete);
      }
      ledger := ledger.(updatedAt := now);
      return Ok(Advance(step, next, if next.Some? then Some(next.value.SkillId()) else None));
    }

    method HandleFail(step: BuildStep, class_: ErrorClass, summary: string, now: Time) returns (r: Decision)
      requires ledger.status == Active && step == ledger.currentStep
      modifies this
      ensures var result := GateResult(old(ledger).buildId, old(ledger).projectId, step, Fail(class_, summary));
        Ok(r) == Judge(old(ledger), result) && ledger == After(old(ledger), result, now)
    {
      if ledger.autonomousCorrection && class_.IsBoundedCandidate() {
        return AutonomousRetryEligible(step, class_, summary);
      }
      ledger := ledger.(status := Halted);
      ledger := ledger.(updatedAt := now);
      return HardHalt(step, class_, summary);
    }

    method HandleDeferred(step: BuildStep, reason: string, now: Time) returns (r: Result<Decision, PlannerError>)
      requires ledger.status == Active && step == ledger.currentStep
      modifies this
      ensures var result := GateResult(old(ledger).buildId, old(ledger).projectId, step, Deferred(reason));
        r == Judge(old(ledger), result) && ledger == After(old(ledger), result, now)
    {
      if step != CrateCouple {
        return Err(DeferredOutsideCouple);
      }
      ledger := ledger.(deferredDebt := ledger.deferredDebt + [DeferredDebt(step, reason, now)]);
      ledger := ledger.(updatedAt := now);
      return Ok(DebtRecorded(step, reason));
    }
  }

  // ---- Runs -----------------------------------------------------------------------------------

  datatype Arrival = Arrival(result: GateResult, at: Time)

  /** The ledger after a sequence of gate results. */
  function RunOf(ledger: Ledger, arrivals: seq<Arrival>): Ledger {
    if arrivals == [] then ledger
    else
      var last := arrivals[|arrivals| - 1];
      After(RunOf(ledger, arrivals[..|arrivals| - 1]), last.result, last.at)
  }

  /** How many of the results moved the build on. */
  function Advances(ledger: Ledger, arrivals: seq<Arrival>): nat {
    if arrivals == [] then 0
    else
      var before := arrivals[..|arrivals| - 1];
      var judged := Judge(RunOf(ledger, before), arrivals[|arrivals| - 1].result);
      Advances(ledger, before) + (if judged.Ok? && judged.value.Advance? then 1 else 0)
  }

  ghost predicate WellKept(l: Ledger) {
    && (forall s: BuildStep :: s in l.stepOutputs <==> s.Ordinal() < l.currentStep.Ordinal() || l.status == Complete)
    && (forall s :: s in l.stepOutputs ==> l.stepOutputs[s].skill == s.SkillId())
    && (l.status == Complete ==> l.currentStep == LaunchProof)
    && (l.deferredDebt != [] ==> l.currentStep in {CrateCouple, BuildTest} && l.status != Complete)
    && (forall d :: d in l.deferredDebt ==> d.step == CrateCouple)
  }

  lemma AdvancedKeeps(l: Ledger, summary: string, now: Time)
    requires WellKept(l) && l.status == Active && !Blocked(l, l.currentStep, true)
    ensures WellKept(Advanced(l, l.currentStep, summary, now)) && l.currentStep !in l.stepOutputs
  {
    var step, after := l.currentStep, Advanced(l, l.currentStep, summary, now);
    forall s: BuildStep
      ensures s in after.stepOutputs <==> s.Ordinal() < after.currentStep.Ordinal() || after.status == Complete
    {
      assert s.Ordinal() == step.Ordinal() ==> s == step;
    }
  }

  /** One gate result keeps the ledger in order and never rewrites a recorded output. */
  lemma StepKeeps(l: Ledger, result: GateResult, now: Time)
    requires WellKept(l)
    ensures WellKept(After(l, result, now))
    ensures forall s :: s in l.stepOutputs ==>
      s in After(l, result, now).stepOutputs && After(l, result, now).stepOutputs[s] == l.stepOutputs[s]
  {
    var judged := Judge(l, result);
    if judged.Ok? && judged.value.Advance? {
      AdvancedKeeps(l, SummaryOf(result.outcome), now);
      hide WellKept;
    }
  }

  /** How many steps are behind a build. */
  function Passed(l: Ledger): int { l.currentStep.Ordinal() - 1 + (if l.status == Complete then 1 else 0) }

  lemma StepCounts(l: Ledger, result: GateResult, now: Time)
    requires WellKept(l)
    ensures var judged := Judge(l, result);
      Passed(After(l, result, now)) == Passed(l) + (if judged.Ok? && judged.value.Advance? then 1 else 0)
  {
  }

  /** Over any sequence of gate results from a fresh build: outputs exist for exactly the steps
      before the current one (for all of them once complete), and the build has advanced exactly as
      often as its step says. */
  lemma {:induction false} RunKeeps(buildId: Uuid, projectId: string, start: Time, arrivals: seq<Arrival>)
    ensures var l := RunOf(NewLedger(buildId, projectId, start), arrivals);
      && WellKept(l)
      && Advances(NewLedger(buildId, projectId, start), arrivals) == Passed(l)
    decreases |arrivals|
  {
    if arrivals != [] {
      var n := |arrivals| - 1;
      hide After, Judge, WellKept, Passed;
      var before := RunOf(NewLedger(buildId, projectId, start), arrivals[..n]);
      RunKeeps(buildId, projectId, start, arrivals[..n]);
      StepKeeps(before, arrivals[n].result, arrivals[n].at);
      StepCounts(before, arrivals[n].result, arrivals[n].at);
    }
  }

  /** A build that has left Active stays exactly as it is. */
  lemma {:induction false} InactiveIsFinal(l: Ledger, arrivals: seq<Arrival>)
    requires l.status != Active
    ensures RunOf(l, arrivals) == l
    decreases |arrivals|
  {
    if arrivals != [] {
      InactiveIsFinal(l, arrivals[..|arrivals| - 1]);
    }
  }

  /** Deferred debt is never paid off: once recorded, the build never becomes complete and never
      gets past its test step, whatever arrives. */
  lemma {:induction false} DebtIsForever(l: Ledger, arrivals: seq<Arrival>)
    requires WellKept(l) && l.deferredDebt != []
    ensures var after := RunOf(l, arrivals);
      && WellKept(after) && l.deferredDebt <= after.deferredDebt
      && after.status != Complete && after.currentStep in {CrateCouple, BuildTest}
    decreases |arrivals|
  {
    if arrivals != [] {
      var n := |arrivals| - 1;
      DebtIsForever(l, arrivals[..n]);
      StepKeeps(RunOf(l, arrivals[..n]), arrivals[n].result, arrivals[n].at);
    }
  }

  /** Coupling markers are only ever read: a build that carries one at or before coupling never gets
      past it. */
  lemma {:induction false} MarkersHold(l: Ledger, arrivals: seq<Arrival>)
    requires l.coupleMarkers != [] && l.status != Complete && l.currentStep.Ordinal() <= CrateCouple.Ordinal()
    ensures var after := RunOf(l, arrivals);
      after.coupleMarkers == l.coupleMarkers && after.status != Complete
      && after.currentStep.Ordinal() <= CrateCouple.Ordinal()
    decreases |arrivals|
  {
    if arrivals != [] {
      MarkersHold(l, arrivals[..|arrivals| - 1]);
    }
  }

  predicate FitsHeader(l: Ledger, result: GateResult) {
    result.buildId == l.buildId && result.projectId == l.projectId && result.step == l.currentStep
  }

  /** Exactly when a gate result halts an active build: a failure that is not to be corrected by the
      build itself. A failure that is leaves the ledger as it is. */
  lemma HaltsExactly(l: Ledger, result: GateResult, now: Time)
    requires l.status == Active
    ensures var corrects := l.autonomousCorrection && result.outcome.Fail?
        && result.outcome.errorClass in {BoundedMechanical, BlueprintAmendment, CompileWarnings};
      && (After(l, result, now).status == Halted <==> FitsHeader(l, result) && result.outcome.Fail? && !corrects)
      && (After(l, result, now).status == Halted ==> After(l, result, now) == l.(status := Halted, updatedAt := now))
      && (FitsHeader(l, result) && corrects ==>
           && After(l, result, now) == l
           && Judge(l, result)
              == Ok(AutonomousRetryEligible(l.currentStep, result.outcome.errorClass, result.outcome.summary)))
  {
  }

  /** Exactly when debt is recorded, and then exactly one entry with the reason given. */
  lemma DebtExactly(l: Ledger, result: GateResult, now: Time)
    ensures var defers := FitsHeader(l, result) && l.status == Active && result.outcome.Deferred?
        && l.currentStep == CrateCouple;
      After(l, result, now).deferredDebt == l.deferredDebt +
        if defers then [DeferredDebt(CrateCouple, result.outcome.reason, now)] else []
  {
    assert l.deferredDebt + [] == l.deferredDebt;
  }

  /** Exactly when a gate result is refused, and which of several reasons is given. */
  lemma RefusedExactly(l: Ledger, result: GateResult)
    ensures var judged := Judge(l, result);
      && (judged.Ok? <==>
           && FitsHeader(l, result) && l.status == Active
           && match result.outcome
              case Fail(_, _) => true
              case Deferred(_) => l.currentStep == CrateCouple
              case Pass(_) =>
                && (l.deferredDebt == [] || l.currentStep.Ordinal() < BuildTest.Ordinal())
                && (l.coupleMarkers == [] || l.currentStep !in {CrateCouple, LaunchProof}))
      && (judged.Err? && FitsHeader(l, result) && l.status == Active ==>
           judged.error == (if result.outcome.Deferred? then DeferredOutsideCouple
                            else if l.deferredDebt != [] && l.currentStep in {BuildTest, LaunchProof}
                            then DeferredDebtRemaining else CoupleMarkersRemaining))
      && (FitsHeader(l, result) && l.status != Active ==> judged == Err(BuildNotActive))
      && (result.buildId != l.buildId ==> judged == Err(WrongBuild(l.buildId, result.buildId)))
  {
  }

  /** Exactly when a gate result moves the build on. */
  lemma AdvanceExactly(l: Ledger, result: GateResult)
    ensures Judge(l, result) == Ok(AdvanceFrom(l.currentStep))
       <==> && result.buildId == l.buildId && result.projectId == l.projectId && result.step == l.currentStep
            && l.status == Active && result.outcome.Pass?
            && (l.deferredDebt == [] || l.currentStep.Ordinal() < BuildTest.Ordinal())
            && (l.coupleMarkers == [] || l.currentStep !in {CrateCouple, LaunchProof})
  {
  }
}
