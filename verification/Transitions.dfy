// The apply_* handlers (router/transitions.py): what each writes to the task row, and which outbox
// rows it adds.
module Transitions {
  import opened Common
  import opened Events
  import opened Guards
  import opened StateMachine
  import I = Idempotency
  import O = Outbox
  import R = Rebuild

  datatype Emit = EmitSnapshot | EmitAlert(kind: AlertKind) | EmitLabels

  // The arguments a handler gives to bump_state (None: keep the column), and its outbox rows.
  datatype Change = Change(
    state: TaskState, critical: Option<bool>, gate: Option<bool>, resume: Option<Option<TaskState>>,
    branches: Option<Branches>, emits: seq<Emit>)

  function Plain(state: TaskState, emits: seq<Emit>): Change {
    Change(state, None, None, None, None, emits)
  }

  function DispatchBranches(ctx: Ctx): Branches {
    var p := ctx.event.payload;
    Branches(if Truthy(Get(p, "lease_branch")) then Some(Text(Get(p, "lease_branch"))) else ctx.task.branches.lease,
             OptText(Get(p, "feature_branch")), OptText(Get(p, "worktree_path")))
  }

  // resume_recovered_state
  function RecoveredState(ctx: Ctx): TaskState {
    match ctx.task.resume
    case None => HumanReviewRequired
    case Some(Implementing) => PlanApproved
    case Some(ImplementingResumePending) => if ResumeGraceOk(ctx) then Implementing else HumanReviewRequired
    case Some(Done) => HumanReviewRequired
    case Some(Cancelled) => HumanReviewRequired
    case Some(SystemDegraded) => HumanReviewRequired
    case Some(target) => target
  }

  function ToState(ctx: Ctx, t: Target): TaskState {
    match t case To(state) => state case ToRecovered => RecoveredState(ctx)
  }

  function Handle(ctx: Ctx, h: Handler): Change {
    var here := ctx.task.state;
    var flagged := [EmitSnapshot, EmitLabels];
    var human := [EmitAlert(HumanReviewAlert), EmitLabels];
    match h
    case NewToPlanning => Plain(Planning, [EmitSnapshot])
    case PlanReadyAutoApproved => Plain(PlanApproved, [EmitSnapshot])
    case PlanReadyPending => Plain(PlanPendingApproval, [EmitSnapshot])
    case PlanApprovedByHand => Plain(PlanApproved, [EmitSnapshot])
    case DispatchToImplementing => Plain(Implementing, [EmitSnapshot]).(branches := Some(DispatchBranches(ctx)))
    case DispatchDeferred => Plain(PlanApproved, [EmitSnapshot])
    case ImplementingToReviewing => Plain(Reviewing, [EmitSnapshot])
    case Finish => Plain(Done, flagged)
    case FinishAfterGate => Plain(Done, flagged).(gate := Some(false))
    case Degrade => Plain(SystemDegraded, [EmitSnapshot, EmitAlert(SystemDegradedAlert)]).(resume := Some(Some(here)))
    case RequireHumanReview => Plain(HumanReviewRequired, human)
    case CancelTask => Plain(Cancelled, [EmitLabels])
    case RetryToPlanning => Plain(Planning, [EmitSnapshot])
    case CriticalOnSameState => Plain(here, flagged).(critical := Some(true))
    case CriticalOnManualGate => Plain(here, flagged).(critical := Some(true), gate := Some(true))
    case CriticalOnReapproval => Plain(PlanPendingApproval, flagged).(critical := Some(true))
    case CriticalOffSameState => Plain(here, flagged).(critical := Some(false))
    case RequireFix => Plain(NeedsFix, [EmitSnapshot, EmitAlert(NeedsFixAlert)])
    case ResumeCleanToPlanApproved => Plain(PlanApproved, [EmitSnapshot])
    case ResumePending => Plain(ImplementingResumePending, [EmitSnapshot])
    case ResumeGraceContinue => Plain(Implementing, [EmitSnapshot])
    case RetryToImplementing => Plain(Implementing, [EmitSnapshot])
    case Recover =>
      var target := RecoveredState(ctx);
      Plain(target, if target == HumanReviewRequired then human else [EmitSnapshot]).(resume := Some(None))
  }

  function OrKeep<T>(new_value: Option<T>, kept: T): T {
    match new_value case None => kept case Some(v) => v
  }

  // The UPDATE of bump_state.
  function Bumped(task: Task, c: Change): Task {
    task.(state := c.state, rev := task.rev + 1,
          critical := OrKeep(c.critical, task.critical), gate := OrKeep(c.gate, task.gate),
          resume := OrKeep(c.resume, task.resume), branches := OrKeep(c.branches, task.branches))
  }

  function ViewOf(task: Task, plan: Option<Plan>): R.View {
    R.View(task.id, task.sourceIssue, task.state, task.rev, task.critical, if plan.None? then None
        else Some(plan.value.rev))
  }

  function AlertTarget(task: Task): string {
    if task.notificationTarget.Some? && task.notificationTarget.value != "" then task.notificationTarget.value
        else "admin_user_ids"
  }

  // The outbox row of one emit, for the task as bump_state left it.
  function DraftOf(ctx: Ctx, after: Task, e: Emit): O.Draft {
    var due := ctx.event.receivedAt + ctx.settings.retryInitial;
    var q := R.Request(ViewOf(after, ctx.plan), false, due, ctx.event.id, ctx.settings.baseUrl);
    match e
    case EmitSnapshot => R.SnapshotDraft(q)
    case EmitLabels => R.LabelDraft(q)
    case EmitAlert(kind) =>
      O.Draft(O.Lane(after.id, I.DiscordAlert, AlertTarget(after)), ctx.event.id, O.Alert(kind, after.state), after.rev,
              I.AlertKey(after.id, AlertTarget(after), after.rev, kind), due)
  }

  function EmitAll(t: O.Table, ctx: Ctx, after: Task, emits: seq<Emit>): O.Table
    decreases |emits|
  {
    if emits == [] then t else EmitAll(O.Insert(t, DraftOf(ctx, after, emits[0])), ctx, after, emits[1..])
  }

  // The state that the router reports is the one the handler writes.
  lemma ReportedStateIsWritten(ctx: Ctx, spec: Spec)
    requires spec in Specs(ctx.task.state, ctx.event.kind)
    ensures Handle(ctx, spec.handler).state == ToState(ctx, spec.to)
  {
    match ctx.task.state
    case New => case Planning => case PlanPendingApproval => case PlanApproved => case Implementing =>
    case ImplementingResumePending => case NeedsFix => case Reviewing => case HumanReviewRequired =>
    case Done => case Cancelled => case SystemDegraded =>
  }
}
