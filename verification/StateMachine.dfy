// The transition table (router/state_machine.py): for a state and an event type, the specs in the
// order in which their guards are tried.
module StateMachine {
  import opened Common
  import opened Events
  import opened Guards

  datatype Guard =
    | Always
    | AutoApprove
    | ValidatorOverGuard
    | PlanMatches
    | CriticalIsFalse
    | CriticalOffGuard
    | LeaseAcquired
    | ExecutorClean
    | ExecutorOutOfScope
    | ExecutorFailed
    | WorktreeClean
    | WorktreeDirtyOk
    | WithinGrace
    | NoReplan
    | PassAllClear
    | PassManualGate
    | GateApproved
    | ResumeTargetPresent

  datatype Target = To(state: TaskState) | ToRecovered

  // One per apply_* function of router/transitions.py.
  datatype Handler =
    | NewToPlanning
    | PlanReadyAutoApproved
    | PlanReadyPending
    | PlanApprovedByHand
    | DispatchToImplementing
    | DispatchDeferred
    | ImplementingToReviewing
    | Finish
    | FinishAfterGate
    | Degrade
    | RequireHumanReview
    | CancelTask
    | RetryToPlanning
    | CriticalOnSameState
    | CriticalOnManualGate
    | CriticalOnReapproval
    | CriticalOffSameState
    | RequireFix
    | ResumeCleanToPlanApproved
    | ResumePending
    | ResumeGraceContinue
    | RetryToImplementing
    | Recover

  datatype Spec = Spec(guard: Guard, to: Target, handler: Handler)

  function Eval(ctx: Ctx, g: Guard): Verdict {
    match g
    case Always => Holds
    case AutoApprove => AutoApproveOk(ctx)
    case ValidatorOverGuard => ValidatorIsOver(ctx)
    case PlanMatches => PlanRevMatches(ctx, Get(ctx.event.payload, "plan_rev"))
    case CriticalIsFalse => Judge(!ctx.task.critical)
    case CriticalOffGuard => CriticalOffAllowed(ctx)
    case LeaseAcquired => BranchLeaseAcquired(ctx)
    case ExecutorClean => And(ExecutorExitZero(ctx), ExecutorInScope(ctx))
    case ExecutorOutOfScope => Not(ExecutorInScope(ctx))
    case ExecutorFailed => ExecutorNonInfraError(ctx)
    case WorktreeClean => ResumeWorktreeClean(ctx)
    case WorktreeDirtyOk => ResumeWorktreeDirtyOk(ctx)
    case WithinGrace => Judge(ResumeGraceOk(ctx))
    case NoReplan => Judge(!ReplanRequired(ctx))
    case PassAllClear => ReviewerPassAllClear(ctx)
    case PassManualGate => ReviewerPassManualGate(ctx)
    case GateApproved => ManualGateApproved(ctx)
    case ResumeTargetPresent => Judge(ctx.task.resume.Some?)
  }

  // The specs of each state, without the final loop that adds /cancel.
  function NewSpecs(kind: EventType): seq<Spec> {
    match kind
    case IssuesOpened => [Spec(Always, To(Planning), NewToPlanning)]
    case CriticalOn => [Spec(Always, To(New), CriticalOnSameState)]
    case CriticalOff => [Spec(CriticalOffGuard, To(New), CriticalOffSameState)]
    case _ => []
  }

  function PlanningSpecs(kind: EventType): seq<Spec> {
    match kind
    case PlanReady =>
      [Spec(AutoApprove, To(PlanApproved), PlanReadyAutoApproved),
          Spec(Always, To(PlanPendingApproval), PlanReadyPending)]
    case ValidatorOver => [Spec(ValidatorOverGuard, To(HumanReviewRequired), RequireHumanReview)]
    case InfraFatal => [Spec(Always, To(SystemDegraded), Degrade)]
    case PlannerTimeout => [Spec(Always, To(HumanReviewRequired), RequireHumanReview)]
    case CriticalOn => [Spec(Always, To(Planning), CriticalOnSameState)]
    case CriticalOff => [Spec(CriticalOffGuard, To(Planning), CriticalOffSameState)]
    case _ => []
  }

  function PlanPendingApprovalSpecs(kind: EventType): seq<Spec> {
    match kind
    case Approve => [Spec(PlanMatches, To(PlanApproved), PlanApprovedByHand)]
    case CriticalOn => [Spec(CriticalIsFalse, To(PlanPendingApproval), CriticalOnSameState)]
    case CriticalOff => [Spec(CriticalOffGuard, To(PlanPendingApproval), CriticalOffSameState)]
    case RetryReplan => [Spec(Always, To(Planning), RetryToPlanning)]
    case _ => []
  }

  function PlanApprovedSpecs(kind: EventType): seq<Spec> {
    match kind
    case DispatchAttempt =>
      [Spec(LeaseAcquired, To(Implementing), DispatchToImplementing), Spec(Always, To(PlanApproved), DispatchDeferred)]
    case CriticalOn => [Spec(Always, To(PlanPendingApproval), CriticalOnReapproval)]
    case CriticalOff => [Spec(CriticalOffGuard, To(PlanApproved), CriticalOffSameState)]
    case _ => []
  }

  function ImplementingSpecs(kind: EventType): seq<Spec> {
    match kind
    case ExecutorFinished =>
      [Spec(ExecutorClean, To(Reviewing), ImplementingToReviewing),
       Spec(ExecutorOutOfScope, To(NeedsFix), RequireFix),
       Spec(ExecutorFailed, To(NeedsFix), RequireFix)]
    case ReconcileResume =>
      [Spec(WorktreeClean, To(PlanApproved), ResumeCleanToPlanApproved),
       Spec(WorktreeDirtyOk, To(ImplementingResumePending), ResumePending),
       Spec(Always, To(HumanReviewRequired), RequireHumanReview)]
    case LeaseLost => [Spec(Always, To(HumanReviewRequired), RequireHumanReview)]
    case InfraFatal => [Spec(Always, To(SystemDegraded), Degrade)]
    case CriticalOn => [Spec(Always, To(Implementing), CriticalOnManualGate)]
    case CriticalOff => [Spec(CriticalOffGuard, To(Implementing), CriticalOffSameState)]
    case _ => []
  }

  function ImplementingResumePendingSpecs(kind: EventType): seq<Spec> {
    match kind
    case ReconcileResume =>
      [Spec(WithinGrace, To(Implementing), ResumeGraceContinue),
          Spec(Always, To(HumanReviewRequired), RequireHumanReview)]
    case _ => []
  }

  function NeedsFixSpecs(kind: EventType): seq<Spec> {
    match kind
    case Retry => [Spec(NoReplan, To(Implementing), RetryToImplementing)]
    case RetryReplan => [Spec(Always, To(Planning), RetryToPlanning)]
    case CriticalOff => [Spec(CriticalOffGuard, To(NeedsFix), CriticalOffSameState)]
    case _ => []
  }

  function ReviewingSpecs(kind: EventType): seq<Spec> {
    match kind
    case ReviewerPass =>
      [Spec(PassAllClear, To(Done), Finish), Spec(PassManualGate, To(HumanReviewRequired), RequireHumanReview)]
    case ReviewerFail => [Spec(Always, To(NeedsFix), RequireFix)]
    case ReviewerHumanReview => [Spec(Always, To(HumanReviewRequired), RequireHumanReview)]
    case ReviewerTimeout => [Spec(Always, To(HumanReviewRequired), RequireHumanReview)]
    case CriticalOn => [Spec(Always, To(Reviewing), CriticalOnManualGate)]
    case CriticalOff => [Spec(CriticalOffGuard, To(Reviewing), CriticalOffSameState)]
    case _ => []
  }

  function HumanReviewRequiredSpecs(kind: EventType): seq<Spec> {
    match kind
    case Approve => [Spec(GateApproved, To(Done), FinishAfterGate)]
    case Retry => [Spec(NoReplan, To(Implementing), RetryToImplementing)]
    case RetryReplan => [Spec(Always, To(Planning), RetryToPlanning)]
    case CriticalOff => [Spec(CriticalOffGuard, To(HumanReviewRequired), CriticalOffSameState)]
    case _ => []
  }

  function SystemDegradedSpecs(kind: EventType): seq<Spec> {
    match kind
    case SystemRecovered => [Spec(ResumeTargetPresent, ToRecovered, Recover)]
    case CriticalOff => [Spec(CriticalOffGuard, To(SystemDegraded), CriticalOffSameState)]
    case _ => []
  }

  function CancelledSpecs(kind: EventType): seq<Spec> {
    match kind
    case CriticalOff => [Spec(CriticalOffGuard, To(Cancelled), CriticalOffSameState)]
    case _ => []
  }

  function KeyedSpecs(state: TaskState, kind: EventType): seq<Spec> {
    match state
    case New => NewSpecs(kind)
    case Planning => PlanningSpecs(kind)
    case PlanPendingApproval => PlanPendingApprovalSpecs(kind)
    case PlanApproved => PlanApprovedSpecs(kind)
    case Implementing => ImplementingSpecs(kind)
    case ImplementingResumePending => ImplementingResumePendingSpecs(kind)
    case NeedsFix => NeedsFixSpecs(kind)
    case Reviewing => ReviewingSpecs(kind)
    case HumanReviewRequired => HumanReviewRequiredSpecs(kind)
    case SystemDegraded => SystemDegradedSpecs(kind)
    case Cancelled => CancelledSpecs(kind)
    case Done => []
  }

  // TRANSITIONS.get(key): the keyed specs, and /cancel in every state but done.
  function Specs(state: TaskState, kind: EventType): seq<Spec> {
    if kind == Cancel && state != Done then [Spec(Always, To(Cancelled), CancelTask)] else KeyedSpecs(state, kind)
  }

  datatype Pick = Picked(spec: Spec) | Unmatched | GuardRaised

  // The first spec whose guard holds; a guard that raises before that ends the search.
  function Choose(ctx: Ctx, specs: seq<Spec>): Pick {
    if specs == [] then Unmatched
    else match Eval(ctx, specs[0].guard)
      case Holds => Picked(specs[0])
      case Raises => GuardRaised
      case Fails => Choose(ctx, specs[1..])
  }

  // Spec k decides: every guard before it is false, and its own answers v.
  predicate Decides(ctx: Ctx, specs: seq<Spec>, k: nat, v: Verdict) {
    k < |specs| && Eval(ctx, specs[k].guard) == v && forall j :: 0 <= j < k ==> Eval(ctx, specs[j].guard) == Fails
  }

  lemma {:induction false} ChosenHolds(ctx: Ctx, specs: seq<Spec>)
    ensures var p := Choose(ctx, specs); p.Picked? ==> p.spec in specs && Eval(ctx, p.spec.guard) == Holds
    ensures match Choose(ctx, specs)
            case Picked(spec) => exists k: nat :: Decides(ctx, specs, k, Holds) && specs[k] == spec
            case GuardRaised => exists k: nat :: Decides(ctx, specs, k, Raises)
            case Unmatched => forall j :: 0 <= j < |specs| ==> Eval(ctx, specs[j].guard) == Fails
  {
    if specs != [] {
      var v := Eval(ctx, specs[0].guard);
      if v == Fails {
        ChosenHolds(ctx, specs[1..]);
        var p := Choose(ctx, specs);
        if p.Picked? {
          var k: nat :| Decides(ctx, specs[1..], k, Holds) && specs[1..][k] == p.spec;
          DecidesLater(ctx, specs, k, Holds);
        } else if p.GuardRaised? {
          var k: nat :| Decides(ctx, specs[1..], k, Raises);
          DecidesLater(ctx, specs, k, Raises);
        } else {
          forall j | 0 <= j < |specs| ensures Eval(ctx, specs[j].guard) == Fails {
            if j > 0 { assert specs[1..][j - 1] == specs[j]; }
          }
        }
      } else {
        assert Decides(ctx, specs, 0, v);
      }
    }
  }

  lemma DecidesLater(ctx: Ctx, specs: seq<Spec>, k: nat, v: Verdict)
    requires specs != [] && Eval(ctx, specs[0].guard) == Fails && Decides(ctx, specs[1..], k, v)
    ensures Decides(ctx, specs, k + 1, v) && specs[k + 1] == specs[1..][k]
  {
    forall j | 0 <= j < k + 1 ensures Eval(ctx, specs[j].guard) == Fails {
      if j > 0 { assert specs[1..][j - 1] == specs[j]; }
    }
  }
}
