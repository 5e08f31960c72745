/**
 What each event comes to on the task it names, event by event and by the task's state, the columns of
 its plan and the payload: a second reading of the transition table (router/state_machine.py,
 router/guards.py, router/transitions.py), which is keyed by state and tries guards in turn. The two
 agree on every context.
 */
module Outcomes {
  import opened Common
  import opened Events
  import opened Guards
  import opened StateMachine
  import opened Transitions

  // Why an event that names a task leaves it alone.
  datatype Reason = NoEntry | NoGuardHeld

  // The task row and the outbox rows that an event leaves, or a skip, or a guard that raises.
  datatype Outcome = Effect(after: Task, writes: seq<Emit>) | Ignored(why: Reason) | Failure

  // ---- what payloads say

  // The key is there with a true value.
  predicate Given(p: Payload, key: string) {
    key in p && Truthy(p[key])
  }

  predicate AutoApproves(t: Task, plan: Option<Plan>) {
    && plan.Some? && plan.value.errors == 0 && plan.value.score >= 85 && !t.critical
    && (Given(plan.value.json, "allowed_files") || Given(plan.value.json, "auto_allowed_patterns"))
    && Given(plan.value.json, "acceptance_criteria")
  }

  // Who opened the task may lift its critical flag, and so may an administrator.
  predicate MayLift(ctx: Ctx) {
    OpenedBySender(ctx.task, ctx.event) || IsAdmin(ctx.event.payload, ctx.settings)
  }

  predicate OpenedBySender(t: Task, ev: Event) {
    var p := ev.payload;
    match ev.source
    case Discord => Get(p, "actor") != Null && t.requestedBy == "discord:" + Text(p["actor"])
    case Forgejo =>
      t.requestedBy == "forgejo:" + (if "sender_login" in p then Text(p["sender_login"]) else "unknown")
    case Cli => t.requestedBy == "cli:" + (if "actor" in p then Text(p["actor"]) else "unknown")
    case Internal => Get(p, "requested_by") != Null && t.requestedBy == Text(p["requested_by"])
  }

  predicate IsAdmin(p: Payload, st: Settings) {
    var who :=
      if Given(p, "actor_user_id") then p["actor_user_id"]
      else if Given(p, "user_id") then p["user_id"]
      else Get(p, "actor_id");
    IntOf(who).Some? && IntOf(who).value in st.adminIds
  }

  // No criterion is left unchecked: by the count, where the payload has one, else by the list.
  predicate AllChecked(p: Payload) {
    if "unchecked" in p then IntOf(p["unchecked"]) == Some(0)
    else
      Get(p, "criteria").List? ==>
        forall v :: v in Get(p, "criteria").items ==> !(v.Obj? && Get(v.fields, "status") == Str("unchecked"))
  }

  predicate GateRaised(t: Task, p: Payload) {
    if "manual_gate_required" in p then Truthy(p["manual_gate_required"]) else t.gate
  }

  predicate Clean(p: Payload) {
    Given(p, "worktree_clean") || Get(p, "worktree_status") == Str("clean")
  }

  // A dirty worktree at the commit last seen, with a live heartbeat.
  predicate Resumable(p: Payload) {
    var notClean := Get(p, "worktree_clean") == Bool(false);
    && (notClean || Get(p, "worktree_status") == Str("dirty") || Given(p, "worktree_dirty"))
    && (Given(p, "head_matches") || (notClean && Get(p, "last_known_head_commit") != Null))
    && Given(p, "heartbeat_fresh")
  }

  predicate NamesPlan(ctx: Ctx) {
    ctx.plan.Some? && Get(ctx.event.payload, "plan_rev") != Null
  }

  // Work goes on in a worktree of the current plan that did not leave its scope.
  function GoesOn(ctx: Ctx): Verdict {
    var p := ctx.event.payload;
    if !Resumable(p) || !NamesPlan(ctx) then Fails
    else if IntOf(p["plan_rev"]).None? then Raises
    else if IntOf(p["plan_rev"]).value == ctx.plan.value.rev && !Given(p, "out_of_scope_files") then Holds
    else Fails
  }

  predicate InGrace(ev: Event) {
    var p := ev.payload;
    if "resume_grace_ok" in p then Truthy(p["resume_grace_ok"])
    else if "within_grace" in p then Truthy(p["within_grace"])
    else Get(p, "grace_deadline_at").Instant? && ev.receivedAt <= p["grace_deadline_at"].at
  }

  // ---- event by event

  // The task moves on and its snapshot is mirrored.
  function Moves(t: Task, next: TaskState): Outcome {
    Effect(t.(state := next, rev := t.rev + 1), [EmitSnapshot])
  }

  // A human is asked, by an alert and by the labels.
  function Escalates(t: Task): Outcome {
    Effect(t.(state := HumanReviewRequired, rev := t.rev + 1), [EmitAlert(HumanReviewAlert), EmitLabels])
  }

  function NeedsFixing(t: Task): Outcome {
    Effect(t.(state := NeedsFix, rev := t.rev + 1), [EmitSnapshot, EmitAlert(NeedsFixAlert)])
  }

  function Flags(t: Task): Outcome {
    Effect(t.(rev := t.rev + 1), [EmitSnapshot, EmitLabels])
  }

  // A /cancel takes effect on a task in any state but done.
  function OnCancel(ctx: Ctx): Outcome {
    var t := ctx.task;
    if t.state != Done then Effect(t.(state := Cancelled, rev := t.rev + 1), [EmitLabels]) else Ignored(NoEntry)
  }

  // /critical on asks for a new approval of an approved plan, and for a manual gate of work that has begun.
  function OnCriticalOn(ctx: Ctx): Outcome {
    var t := ctx.task;
    match t.state
    case New => Flags(t.(critical := true))
    case Planning => Flags(t.(critical := true))
    case PlanPendingApproval => if !t.critical then Flags(t.(critical := true)) else Ignored(NoGuardHeld)
    case PlanApproved => Flags(t.(critical := true, state := PlanPendingApproval))
    case Implementing => Flags(t.(critical := true, gate := true))
    case Reviewing => Flags(t.(critical := true, gate := true))
    case _ => Ignored(NoEntry)
  }

  function OnCriticalOff(ctx: Ctx): Outcome {
    var t := ctx.task;
    if t.state == Done || t.state == ImplementingResumePending then Ignored(NoEntry)
    else if MayLift(ctx) then Flags(t.(critical := false))
    else Ignored(NoGuardHeld)
  }

  // /approve names the plan that it approves; behind a manual gate it says that the work was reviewed.
  function OnApprove(ctx: Ctx): Outcome {
    var t, p := ctx.task, ctx.event.payload;
    match t.state
    case PlanPendingApproval =>
      if !NamesPlan(ctx) then Ignored(NoGuardHeld)
      else if IntOf(p["plan_rev"]).None? then Failure
      else if IntOf(p["plan_rev"]).value != ctx.plan.value.rev then Ignored(NoGuardHeld)
      else Moves(t, PlanApproved)
    case HumanReviewRequired =>
      if t.gate && (if "reviewed" in p then Truthy(p["reviewed"]) else Given(p, "manual_gate_approved")) then
        Effect(t.(state := Done, gate := false, rev := t.rev + 1), [EmitSnapshot, EmitLabels])
      else Ignored(NoGuardHeld)
    case _ => Ignored(NoEntry)
  }

  function OnRetry(ctx: Ctx): Outcome {
    if ctx.task.state != NeedsFix && ctx.task.state != HumanReviewRequired then Ignored(NoEntry)
    else if Given(ctx.event.payload, "replan_required") then Ignored(NoGuardHeld)
    else Moves(ctx.task, Implementing)
  }

  function OnReplan(ctx: Ctx): Outcome {
    if ctx.task.state in {PlanPendingApproval, NeedsFix, HumanReviewRequired} then Moves(ctx.task, Planning)
    else Ignored(NoEntry)
  }

  // A plan that is good enough is approved at once.
  function OnPlanReady(ctx: Ctx): Outcome {
    if ctx.task.state != Planning then Ignored(NoEntry)
    else if AutoApproves(ctx.task, ctx.plan) then Moves(ctx.task, PlanApproved)
    else Moves(ctx.task, PlanPendingApproval)
  }

  function OnValidatorOver(ctx: Ctx): Outcome {
    var p := ctx.event.payload;
    if ctx.task.state != Planning then Ignored(NoEntry)
    else if "validator_over" in p && !Truthy(p["validator_over"]) then Ignored(NoGuardHeld)
    else Escalates(ctx.task)
  }

  // A lost lease, a timeout and a doubtful review go to a human from the state they belong to.
  function OnTrouble(ctx: Ctx, expected: TaskState): Outcome {
    if ctx.task.state == expected then Escalates(ctx.task) else Ignored(NoEntry)
  }

  function OnFatal(ctx: Ctx): Outcome {
    var t := ctx.task;
    if t.state == Planning || t.state == Implementing then
      Effect(t.(state := SystemDegraded, resume := Some(t.state), rev := t.rev + 1),
             [EmitSnapshot, EmitAlert(SystemDegradedAlert)])
    else Ignored(NoEntry)
  }

  // A dispatch attempt with a lease starts the work, on the branches that it names.
  function OnDispatch(ctx: Ctx): Outcome {
    var t, p := ctx.task, ctx.event.payload;
    var lease := if Given(p, "lease_branch") then Some(Text(p["lease_branch"])) else t.branches.lease;
    if t.state != PlanApproved then Ignored(NoEntry)
    else if Get(p, "lease_acquired") != Bool(true) then Moves(t, PlanApproved)
    else
      var feature, worktree := OptText(Get(p, "feature_branch")), OptText(Get(p, "worktree_path"));
      Moves(t.(branches := Branches(lease, feature, worktree)), Implementing)
  }

  // A clean exit within scope goes to review; files out of scope and other exits need a fix.
  function OnExecutorFinished(ctx: Ctx): Outcome {
    var p := ctx.event.payload;
    var exit := if "exit_code" in p then IntOf(p["exit_code"]) else Some(1);
    if ctx.task.state != Implementing then Ignored(NoEntry)
    else if exit.None? then Failure
    else if Given(p, "out_of_scope_files") then NeedsFixing(ctx.task)
    else if exit == Some(0) then Moves(ctx.task, Reviewing)
    else if Get(p, "failure_code") == Str("system_degraded") then Ignored(NoGuardHeld)
    else NeedsFixing(ctx.task)
  }

  // After a restart, a clean worktree is dispatched again, one that can go on gets its grace, and any
  // other goes to a human.
  function OnReconcile(ctx: Ctx): Outcome {
    var t, p := ctx.task, ctx.event.payload;
    match t.state
    case Implementing =>
      if Clean(p) then Moves(t, PlanApproved)
      else
        match GoesOn(ctx) {
          case Holds => Moves(t, ImplementingResumePending)
          case Raises => Failure
          case Fails => Escalates(t)
        }
    case ImplementingResumePending => if InGrace(ctx.event) then Moves(t, Implementing) else Escalates(t)
    case _ => Ignored(NoEntry)
  }

  // A pass with every criterion checked finishes the task, or asks a human where the gate is raised.
  function OnPass(ctx: Ctx): Outcome {
    var t, p := ctx.task, ctx.event.payload;
    if t.state != Reviewing then Ignored(NoEntry)
    else if "unchecked" in p && IntOf(p["unchecked"]).None? then Failure
    else if !AllChecked(p) then Ignored(NoGuardHeld)
    else if GateRaised(t, p) then Escalates(t)
    else Effect(t.(state := Done, rev := t.rev + 1), [EmitSnapshot, EmitLabels])
  }

  function OnFail(ctx: Ctx): Outcome {
    if ctx.task.state == Reviewing then NeedsFixing(ctx.task) else Ignored(NoEntry)
  }

  // Recovery leads back to where the task was, to a new dispatch where it was at work.
  function OnRecovered(ctx: Ctx): Outcome {
    var t := ctx.task.(resume := None);
    if ctx.task.state != SystemDegraded then Ignored(NoEntry)
    else match ctx.task.resume
      case None => Ignored(NoGuardHeld)
      case Some(Implementing) => Moves(t, PlanApproved)
      case Some(ImplementingResumePending) => if InGrace(ctx.event) then Moves(t, Implementing) else Escalates(t)
      case Some(back) =>
        if back in {Done, Cancelled, SystemDegraded, HumanReviewRequired} then Escalates(t) else Moves(t, back)
  }

  function OnOpened(ctx: Ctx): Outcome {
    if ctx.task.state == New then Moves(ctx.task, Planning) else Ignored(NoEntry)
  }

  function OutcomeOf(ctx: Ctx): Outcome {
    match ctx.event.kind
    case IssuesOpened => OnOpened(ctx)
    case CriticalOn => OnCriticalOn(ctx)
    case CriticalOff => OnCriticalOff(ctx)
    case Approve => OnApprove(ctx)
    case Retry => OnRetry(ctx)
    case RetryReplan => OnReplan(ctx)
    case Cancel => OnCancel(ctx)
    case PlanReady => OnPlanReady(ctx)
    case ValidatorOver => OnValidatorOver(ctx)
    case InfraFatal => OnFatal(ctx)
    case PlannerTimeout => OnTrouble(ctx, Planning)
    case DispatchAttempt => OnDispatch(ctx)
    case ExecutorFinished => OnExecutorFinished(ctx)
    case ReconcileResume => OnReconcile(ctx)
    case LeaseLost => OnTrouble(ctx, Implementing)
    case ReviewerPass => OnPass(ctx)
    case ReviewerFail => OnFail(ctx)
    case ReviewerHumanReview => OnTrouble(ctx, Reviewing)
    case ReviewerTimeout => OnTrouble(ctx, Reviewing)
    case SystemRecovered => OnRecovered(ctx)
    case _ => Ignored(NoEntry)
  }

  // The states in which an event is looked at, by its guards if not by its effect.
  predicate Heeded(state: TaskState, kind: EventType) {
    match kind
    case IssuesOpened => state == New
    case CriticalOn => state in {New, Planning, PlanPendingApproval, PlanApproved, Implementing, Reviewing}
    case CriticalOff => state != Done && state != ImplementingResumePending
    case Approve => state == PlanPendingApproval || state == HumanReviewRequired
    case Retry => state == NeedsFix || state == HumanReviewRequired
    case RetryReplan => state in {PlanPendingApproval, NeedsFix, HumanReviewRequired}
    case Cancel => state != Done
    case PlanReady => state == Planning
    case ValidatorOver => state == Planning
    case PlannerTimeout => state == Planning
    case InfraFatal => state == Planning || state == Implementing
    case DispatchAttempt => state == PlanApproved
    case ExecutorFinished => state == Implementing
    case LeaseLost => state == Implementing
    case ReconcileResume => state == Implementing || state == ImplementingResumePending
    case ReviewerPass => state == Reviewing
    case ReviewerFail => state == Reviewing
    case ReviewerHumanReview => state == Reviewing
    case ReviewerTimeout => state == Reviewing
    case SystemRecovered => state == SystemDegraded
    case _ => false
  }

  lemma HeededExactly(ctx: Ctx)
    ensures OutcomeOf(ctx) == Ignored(NoEntry) <==> !Heeded(ctx.task.state, ctx.event.kind)
  {
  }

  // ---- the table agrees

  function Ran(ctx: Ctx, spec: Spec): Outcome {
    var c := Handle(ctx, spec.handler);
    Effect(Bumped(ctx.task, c), c.emits)
  }

  // What the table has for a context.
  function Decided(ctx: Ctx): Outcome {
    var specs := Specs(ctx.task.state, ctx.event.kind);
    if specs == [] then Ignored(NoEntry)
    else match Choose(ctx, specs)
      case Picked(spec) => Ran(ctx, spec)
      case Unmatched => Ignored(NoGuardHeld)
      case GuardRaised => Failure
  }

  // One entry: its guard holds, raises, or leaves the event to the entries behind it.
  function Tried(ctx: Ctx, spec: Spec, otherwise: Outcome): Outcome {
    match Eval(ctx, spec.guard)
    case Holds => Ran(ctx, spec)
    case Raises => Failure
    case Fails => otherwise
  }

  function TriedAll(ctx: Ctx, specs: seq<Spec>): Outcome {
    if specs == [] then Ignored(NoGuardHeld) else Tried(ctx, specs[0], TriedAll(ctx, specs[1..]))
  }

  lemma {:induction false} ChosenRuns(ctx: Ctx, specs: seq<Spec>)
    ensures TriedAll(ctx, specs)
            == (match Choose(ctx, specs)
                case Picked(spec) => Ran(ctx, spec)
                case Unmatched => Ignored(NoGuardHeld)
                case GuardRaised => Failure)
  {
    if specs != [] { ChosenRuns(ctx, specs[1..]); }
  }

  lemma FirstEntry(ctx: Ctx, specs: seq<Spec>, first: Spec, rest: seq<Spec>)
    requires specs == [first] + rest
    ensures TriedAll(ctx, specs) == Tried(ctx, first, TriedAll(ctx, rest))
  {
    assert specs[1..] == rest;
  }

  lemma InOrder(ctx: Ctx, specs: seq<Spec>)
    requires specs == Specs(ctx.task.state, ctx.event.kind)
    ensures Decided(ctx) == if specs == [] then Ignored(NoEntry) else TriedAll(ctx, specs)
  {
    ChosenRuns(ctx, specs);
  }

  lemma OneEntry(ctx: Ctx, a: Spec)
    requires Specs(ctx.task.state, ctx.event.kind) == [a]
    ensures Decided(ctx) == Tried(ctx, a, Ignored(NoGuardHeld))
  {
    InOrder(ctx, [a]);
    FirstEntry(ctx, [a], a, []);
  }

  lemma TwoEntries(ctx: Ctx, a: Spec, b: Spec)
    requires Specs(ctx.task.state, ctx.event.kind) == [a, b]
    ensures Decided(ctx) == Tried(ctx, a, Tried(ctx, b, Ignored(NoGuardHeld)))
  {
    InOrder(ctx, [a, b]);
    FirstEntry(ctx, [a, b], a, [b]);
    FirstEntry(ctx, [b], b, []);
  }

  lemma ThreeEntries(ctx: Ctx, a: Spec, b: Spec, c: Spec)
    requires Specs(ctx.task.state, ctx.event.kind) == [a, b, c]
    ensures Decided(ctx) == Tried(ctx, a, Tried(ctx, b, Tried(ctx, c, Ignored(NoGuardHeld))))
  {
    InOrder(ctx, [a, b, c]);
    FirstEntry(ctx, [a, b, c], a, [b, c]);
    FirstEntry(ctx, [b, c], b, [c]);
    FirstEntry(ctx, [c], c, []);
  }

  lemma {:induction false} NoneCounted(items: seq<Value>)
    ensures CountUnchecked(items) == 0 <==> forall v :: v in items ==> !IsUnchecked(v)
  {
    if items != [] {
      NoneCounted(items[1..]);
      assert items == [items[0]] + items[1..];
      assert items[0] in items;
    }
  }

  lemma CancelAgrees(ctx: Ctx)
    requires ctx.event.kind == Cancel
    ensures Decided(ctx) == OnCancel(ctx)
  {
    if ctx.task.state != Done { OneEntry(ctx, Spec(Always, To(Cancelled), CancelTask)); }
  }

  lemma CriticalOnAgrees(ctx: Ctx)
    requires ctx.event.kind == CriticalOn
    ensures Decided(ctx) == OnCriticalOn(ctx)
  {
    match ctx.task.state
    case New => OneEntry(ctx, Spec(Always, To(New), CriticalOnSameState));
    case Planning => OneEntry(ctx, Spec(Always, To(Planning), CriticalOnSameState));
    case PlanPendingApproval => OneEntry(ctx, Spec(CriticalIsFalse, To(PlanPendingApproval), CriticalOnSameState));
    case PlanApproved => OneEntry(ctx, Spec(Always, To(PlanPendingApproval), CriticalOnReapproval));
    case Implementing => OneEntry(ctx, Spec(Always, To(Implementing), CriticalOnManualGate));
    case Reviewing => OneEntry(ctx, Spec(Always, To(Reviewing), CriticalOnManualGate));
    case _ =>
  }

  lemma LiftAgrees(ctx: Ctx)
    ensures CriticalOffAllowed(ctx) == if MayLift(ctx) then Holds else Fails
  {
  }

  lemma CriticalOffAgrees(ctx: Ctx)
    requires ctx.event.kind == CriticalOff
    ensures Decided(ctx) == OnCriticalOff(ctx)
  {
    LiftAgrees(ctx);
    if ctx.task.state != Done && ctx.task.state != ImplementingResumePending {
      OneEntry(ctx, Spec(CriticalOffGuard, To(ctx.task.state), CriticalOffSameState));
    }
  }

  lemma ApproveAgrees(ctx: Ctx)
    requires ctx.event.kind == Approve
    ensures Decided(ctx) == OnApprove(ctx)
  {
    match ctx.task.state
    case PlanPendingApproval => OneEntry(ctx, Spec(PlanMatches, To(PlanApproved), PlanApprovedByHand));
    case HumanReviewRequired => OneEntry(ctx, Spec(GateApproved, To(Done), FinishAfterGate));
    case _ =>
  }

  lemma RetryAgrees(ctx: Ctx)
    requires ctx.event.kind == Retry || ctx.event.kind == RetryReplan
    ensures Decided(ctx) == if ctx.event.kind == Retry then OnRetry(ctx) else OnReplan(ctx)
  {
    var state, kind := ctx.task.state, ctx.event.kind;
    if kind == Retry && state in {NeedsFix, HumanReviewRequired} {
      OneEntry(ctx, Spec(NoReplan, To(Implementing), RetryToImplementing));
    } else if kind == RetryReplan && state in {PlanPendingApproval, NeedsFix, HumanReviewRequired} {
      OneEntry(ctx, Spec(Always, To(Planning), RetryToPlanning));
    }
  }

  lemma PlanningAgrees(ctx: Ctx)
    requires ctx.event.kind == PlanReady || ctx.event.kind == ValidatorOver
    ensures Decided(ctx) == if ctx.event.kind == PlanReady then OnPlanReady(ctx) else OnValidatorOver(ctx)
  {
    if ctx.task.state == Planning && ctx.event.kind == PlanReady {
      TwoEntries(ctx, Spec(AutoApprove, To(PlanApproved), PlanReadyAutoApproved),
          Spec(Always, To(PlanPendingApproval), PlanReadyPending));
    } else if ctx.task.state == Planning {
      OneEntry(ctx, Spec(ValidatorOverGuard, To(HumanReviewRequired), RequireHumanReview));
    }
  }

  lemma TroubleAgrees(ctx: Ctx, expected: TaskState)
    requires match ctx.event.kind
             case PlannerTimeout => expected == Planning
             case LeaseLost => expected == Implementing
             case ReviewerHumanReview => expected == Reviewing
             case ReviewerTimeout => expected == Reviewing
             case _ => false
    ensures Decided(ctx) == OnTrouble(ctx, expected)
  {
    if ctx.task.state == expected { OneEntry(ctx, Spec(Always, To(HumanReviewRequired), RequireHumanReview)); }
  }

  lemma FatalAgrees(ctx: Ctx)
    requires ctx.event.kind == InfraFatal
    ensures Decided(ctx) == OnFatal(ctx)
  {
    if ctx.task.state in {Planning, Implementing} { OneEntry(ctx, Spec(Always, To(SystemDegraded), Degrade)); }
  }

  lemma DispatchAgrees(ctx: Ctx)
    requires ctx.event.kind == DispatchAttempt
    ensures Decided(ctx) == OnDispatch(ctx)
  {
    if ctx.task.state == PlanApproved {
      TwoEntries(ctx, Spec(LeaseAcquired, To(Implementing), DispatchToImplementing),
          Spec(Always, To(PlanApproved), DispatchDeferred));
    }
  }

  lemma ExitAgrees(ctx: Ctx)
    ensures var p := ctx.event.payload;
            var exit := if "exit_code" in p then IntOf(p["exit_code"]) else Some(1);
            var strayed := Given(p, "out_of_scope_files");
            && Eval(ctx, ExecutorClean)
               == (if exit.None? then Raises else if exit == Some(0) && !strayed then Holds else Fails)
            && Eval(ctx, ExecutorOutOfScope) == (if strayed then Holds else Fails)
            && Eval(ctx, ExecutorFailed)
               == (if exit.None? then Raises
                   else if exit != Some(0) && Get(p, "failure_code") != Str("system_degraded") then Holds
                   else Fails)
  {
  }

  lemma ExecutorAgrees(ctx: Ctx)
    requires ctx.event.kind == ExecutorFinished
    ensures Decided(ctx) == OnExecutorFinished(ctx)
  {
    ExitAgrees(ctx);
    if ctx.task.state == Implementing {
      ThreeEntries(ctx, Spec(ExecutorClean, To(Reviewing), ImplementingToReviewing),
          Spec(ExecutorOutOfScope, To(NeedsFix), RequireFix), Spec(ExecutorFailed, To(NeedsFix), RequireFix));
    }
  }

  lemma ResumeAgrees(ctx: Ctx)
    ensures Eval(ctx, WorktreeClean) == if Clean(ctx.event.payload) then Holds else Fails
    ensures Eval(ctx, WorktreeDirtyOk) == GoesOn(ctx)
    ensures Eval(ctx, WithinGrace) == if InGrace(ctx.event) then Holds else Fails
  {
  }

  lemma RestartEffects(ctx: Ctx)
    ensures Ran(ctx, Spec(WorktreeClean, To(PlanApproved), ResumeCleanToPlanApproved)) == Moves(ctx.task, PlanApproved)
    ensures Ran(ctx, Spec(WorktreeDirtyOk, To(ImplementingResumePending), ResumePending))
            == Moves(ctx.task, ImplementingResumePending)
    ensures Ran(ctx, Spec(Always, To(HumanReviewRequired), RequireHumanReview)) == Escalates(ctx.task)
  {
  }

  lemma RestartAgrees(ctx: Ctx)
    requires ctx.event.kind == ReconcileResume && ctx.task.state == Implementing
    ensures Decided(ctx) == OnReconcile(ctx)
  {
    ResumeAgrees(ctx);
    RestartEffects(ctx);
    ThreeEntries(ctx, Spec(WorktreeClean, To(PlanApproved), ResumeCleanToPlanApproved),
        Spec(WorktreeDirtyOk, To(ImplementingResumePending), ResumePending),
        Spec(Always, To(HumanReviewRequired), RequireHumanReview));
  }

  lemma GraceEffects(ctx: Ctx)
    ensures Ran(ctx, Spec(WithinGrace, To(Implementing), ResumeGraceContinue)) == Moves(ctx.task, Implementing)
    ensures Ran(ctx, Spec(Always, To(HumanReviewRequired), RequireHumanReview)) == Escalates(ctx.task)
  {
  }

  lemma GraceAgrees(ctx: Ctx)
    requires ctx.event.kind == ReconcileResume && ctx.task.state == ImplementingResumePending
    ensures Decided(ctx) == OnReconcile(ctx)
  {
    ResumeAgrees(ctx);
    GraceEffects(ctx);
    TwoEntries(ctx, Spec(WithinGrace, To(Implementing), ResumeGraceContinue),
        Spec(Always, To(HumanReviewRequired), RequireHumanReview));
  }

  lemma ReconcileAgrees(ctx: Ctx)
    requires ctx.event.kind == ReconcileResume
    ensures Decided(ctx) == OnReconcile(ctx)
  {
    if ctx.task.state == Implementing {
      RestartAgrees(ctx);
    } else if ctx.task.state == ImplementingResumePending {
      GraceAgrees(ctx);
    }
  }

  lemma NothingUnchecked(p: Payload)
    ensures NoneUnchecked(p)
            == if "unchecked" in p && IntOf(p["unchecked"]).None? then Raises
               else if AllChecked(p) then Holds
               else Fails
  {
    if Get(p, "criteria").List? { NoneCounted(p["criteria"].items); }
  }

  lemma PassVerdicts(ctx: Ctx)
    ensures var p := ctx.event.payload;
            var unread, raised := "unchecked" in p && IntOf(p["unchecked"]).None?, GateRaised(ctx.task, p);
            && Eval(ctx, PassAllClear)
               == (if unread then Raises else if AllChecked(p) && !raised then Holds else Fails)
            && Eval(ctx, PassManualGate)
               == (if unread then Raises else if AllChecked(p) && raised then Holds else Fails)
  {
    NothingUnchecked(ctx.event.payload);
  }

  lemma PassAgrees(ctx: Ctx)
    requires ctx.event.kind == ReviewerPass
    ensures Decided(ctx) == OnPass(ctx)
  {
    PassVerdicts(ctx);
    if ctx.task.state == Reviewing {
      TwoEntries(ctx, Spec(PassAllClear, To(Done), Finish),
          Spec(PassManualGate, To(HumanReviewRequired), RequireHumanReview));
    }
  }

  lemma FailAgrees(ctx: Ctx)
    requires ctx.event.kind == ReviewerFail
    ensures Decided(ctx) == OnFail(ctx)
  {
    if ctx.task.state == Reviewing { OneEntry(ctx, Spec(Always, To(NeedsFix), RequireFix)); }
  }

  lemma RecoveredLeadsBack(ctx: Ctx)
    requires ctx.task.state == SystemDegraded && ctx.task.resume.Some?
    ensures Ran(ctx, Spec(ResumeTargetPresent, ToRecovered, Recover)) == OnRecovered(ctx)
  {
  }

  lemma RecoveredAgrees(ctx: Ctx)
    requires ctx.event.kind == SystemRecovered
    ensures Decided(ctx) == OnRecovered(ctx)
  {
    if ctx.task.state == SystemDegraded {
      OneEntry(ctx, Spec(ResumeTargetPresent, ToRecovered, Recover));
      if ctx.task.resume.Some? { RecoveredLeadsBack(ctx); }
    }
  }

  lemma OpenedAgrees(ctx: Ctx)
    requires ctx.event.kind == IssuesOpened
    ensures Decided(ctx) == OnOpened(ctx)
  {
    if ctx.task.state == New { OneEntry(ctx, Spec(Always, To(Planning), NewToPlanning)); }
  }

  // The table and the reading by events agree on every context.
  lemma TableAgrees(ctx: Ctx)
    ensures Decided(ctx) == OutcomeOf(ctx)
  {
    match ctx.event.kind
    case IssuesOpened => OpenedAgrees(ctx);
    case CriticalOn => CriticalOnAgrees(ctx);
    case CriticalOff => CriticalOffAgrees(ctx);
    case Approve => ApproveAgrees(ctx);
    case Retry => RetryAgrees(ctx);
    case RetryReplan => RetryAgrees(ctx);
    case Cancel => CancelAgrees(ctx);
    case PlanReady => PlanningAgrees(ctx);
    case ValidatorOver => PlanningAgrees(ctx);
    case InfraFatal => FatalAgrees(ctx);
    case PlannerTimeout => TroubleAgrees(ctx, Planning);
    case DispatchAttempt => DispatchAgrees(ctx);
    case ExecutorFinished => ExecutorAgrees(ctx);
    case ReconcileResume => ReconcileAgrees(ctx);
    case LeaseLost => TroubleAgrees(ctx, Implementing);
    case ReviewerPass => PassAgrees(ctx);
    case ReviewerFail => FailAgrees(ctx);
    case ReviewerHumanReview => TroubleAgrees(ctx, Reviewing);
    case ReviewerTimeout => TroubleAgrees(ctx, Reviewing);
    case SystemRecovered => RecoveredAgrees(ctx);
    case _ =>
  }
}
