// What the rows of the transition table have in common, read off state by state.
module HandlerFacts {
  import opened Common
  import opened Events
  import opened Guards
  import opened StateMachine
  import opened Transitions

  // A spec of the table whose guard holds in the context.
  predicate Fires(ctx: Ctx, spec: Spec) {
    spec in Specs(ctx.task.state, ctx.event.kind) && Eval(ctx, spec.guard) == Holds
  }

  // States that only work after a start of implementation can be in.
  const AFTER_START: set<TaskState> := {Implementing, ImplementingResumePending, NeedsFix, Reviewing, Done}

  // The table read from its handlers: where and on what each of them can fire.
  predicate Placed(s: TaskState, kind: EventType, spec: Spec) {
    match spec.handler
    case NewToPlanning => s == New && kind == IssuesOpened
    case PlanReadyAutoApproved => s == Planning && kind == PlanReady && spec.guard == AutoApprove
    case PlanReadyPending => s == Planning && kind == PlanReady
    case PlanApprovedByHand => s == PlanPendingApproval && kind == Approve && spec.guard == PlanMatches
    case DispatchToImplementing => s == PlanApproved && kind == DispatchAttempt && spec.guard == LeaseAcquired
    case DispatchDeferred => s == PlanApproved && kind == DispatchAttempt
    case ImplementingToReviewing => s == Implementing && kind == ExecutorFinished && spec.guard == ExecutorClean
    case Finish => s == Reviewing && kind == ReviewerPass && spec.guard == PassAllClear
    case FinishAfterGate => s == HumanReviewRequired && kind == Approve && spec.guard == GateApproved
    case Degrade => (s == Planning || s == Implementing) && kind == InfraFatal
    case RequireHumanReview => s == Planning || s == Implementing || s == ImplementingResumePending || s == Reviewing
    case CancelTask => s != Done && kind == Cancel
    case RetryToPlanning =>
      (s == PlanPendingApproval || s == NeedsFix || s == HumanReviewRequired) && kind == RetryReplan
    case CriticalOnSameState => (s == New || s == Planning || s == PlanPendingApproval) && kind == CriticalOn
    case CriticalOnManualGate => (s == Implementing || s == Reviewing) && kind == CriticalOn
    case CriticalOnReapproval => s == PlanApproved && kind == CriticalOn
    case CriticalOffSameState =>
      s != Done && s != ImplementingResumePending && kind == CriticalOff && spec.guard == CriticalOffGuard
    case RequireFix => (s == Implementing && kind == ExecutorFinished) || (s == Reviewing && kind == ReviewerFail)
    case ResumeCleanToPlanApproved => s == Implementing && kind == ReconcileResume && spec.guard == WorktreeClean
    case ResumePending => s == Implementing && kind == ReconcileResume && spec.guard == WorktreeDirtyOk
    case ResumeGraceContinue => s == ImplementingResumePending && kind == ReconcileResume && spec.guard == WithinGrace
    case RetryToImplementing => (s == NeedsFix || s == HumanReviewRequired) && kind == Retry && spec.guard == NoReplan
    case Recover => s == SystemDegraded && kind == SystemRecovered && spec.guard == ResumeTargetPresent
  }

  lemma SpecPlaced(ctx: Ctx, spec: Spec)
    requires spec in Specs(ctx.task.state, ctx.event.kind)
    ensures Placed(ctx.task.state, ctx.event.kind, spec)
    ensures ctx.event.kind == CriticalOn && (ctx.task.state == Implementing || ctx.task.state == Reviewing) ==>
      spec.handler == CriticalOnManualGate
    ensures ctx.task.state == New && ctx.event.kind == IssuesOpened ==> spec.handler == NewToPlanning
  {
    if ctx.event.kind != Cancel {
      var specs := KeyedSpecs(ctx.task.state, ctx.event.kind);
      var k :| 0 <= k < |specs| && specs[k] == spec;
      match ctx.task.state
      case New => case Planning => case PlanPendingApproval => case PlanApproved => case Implementing =>
      case ImplementingResumePending => case NeedsFix => case Reviewing => case HumanReviewRequired =>
      case Done => case Cancelled => case SystemDegraded =>
    }
  }

  lemma StateFacts(ctx: Ctx, spec: Spec)
    requires Fires(ctx, spec)
    ensures var s, c := ctx.task.state, Handle(ctx, spec.handler);
            && s != Done
            && (c.state == New ==> s == New || ctx.task.resume == Some(New))
            && (s == Cancelled ==> c.state == Cancelled)
            && (s == New && ctx.event.kind == IssuesOpened ==> c.state == Planning)
  {
    SpecPlaced(ctx, spec);
  }

  // The resume target is set on entering system_degraded, cleared by recovery, and kept otherwise.
  lemma ResumeFacts(ctx: Ctx, spec: Spec)
    requires Fires(ctx, spec)
    ensures var s, c := ctx.task.state, Handle(ctx, spec.handler);
            match c.resume
            case None =>
              (c.state == SystemDegraded <==> s == SystemDegraded) || (s == SystemDegraded && c.state == Cancelled)
            case Some(Some(r)) => c.state == SystemDegraded && r == s && (s == Planning || s == Implementing)
            case Some(None) =>
              s == SystemDegraded && ctx.event.kind == SystemRecovered && c.state == RecoveredState(ctx)
  {
    SpecPlaced(ctx, spec);
  }

  // The manual gate is raised only while implementing or reviewing, and lowered only on the way to done.
  lemma GateFacts(ctx: Ctx, spec: Spec)
    requires Fires(ctx, spec)
    ensures var s, c := ctx.task.state, Handle(ctx, spec.handler);
            && (c.gate == Some(true) ==> s == c.state && (s == Implementing || s == Reviewing))
            && (c.gate == Some(false) ==> s == HumanReviewRequired && c.state == Done && ctx.task.gate)
            && (ctx.event.kind == CriticalOn && (s == Implementing || s == Reviewing) ==>
                 c.gate == Some(true) && c.critical == Some(true))
            && (c.state == Done ==>
                 (s == HumanReviewRequired && spec.handler == FinishAfterGate)
                 || (s == Reviewing && spec.handler == Finish))
  {
    SpecPlaced(ctx, spec);
  }

  lemma DoneFacts(ctx: Ctx, spec: Spec)
    requires Fires(ctx, spec) && Handle(ctx, spec.handler).state == Done
    requires !(ctx.task.state == SystemDegraded)
    ensures match spec.handler
            case FinishAfterGate =>
              ctx.task.state == HumanReviewRequired && ctx.event.kind == Approve && ManualGateApproved(ctx) == Holds
            case Finish =>
              ctx.task.state == Reviewing && ctx.event.kind == ReviewerPass && ReviewerPassAllClear(ctx) == Holds
            case _ => false
  {
    SpecPlaced(ctx, spec);
  }

  // Such a state is entered from implementing itself, from another such state, or through the gate.
  lemma StartFacts(ctx: Ctx, spec: Spec)
    requires Fires(ctx, spec) && ctx.task.state != SystemDegraded
    ensures var s, c := ctx.task.state, Handle(ctx, spec.handler);
            c.state in AFTER_START ==> c.state == Implementing || s in AFTER_START || ctx.task.gate
  {
    SpecPlaced(ctx, spec);
  }

  // A handler that writes no label row leaves the facts behind the labels alone.
  lemma LabelFacts(ctx: Ctx, spec: Spec)
    requires Fires(ctx, spec)
    ensures var s, c := ctx.task.state, Handle(ctx, spec.handler);
            EmitLabels !in c.emits ==>
              c.critical.None? && c.state != HumanReviewRequired && c.state != Cancelled && s != Cancelled
  {
    SpecPlaced(ctx, spec);
  }

  function StreamRank(e: Emit): nat {
    match e case EmitSnapshot => 0 case EmitAlert(_) => 1 case EmitLabels => 2
  }

  // No handler writes two rows of one stream.
  lemma EmitFacts(ctx: Ctx, h: Handler)
    ensures var emits := Handle(ctx, h).emits;
            1 <= |emits| <= 2 && forall i, j :: 0 <= i < j < |emits| ==> StreamRank(emits[i]) != StreamRank(emits[j])
  {
  }
}
