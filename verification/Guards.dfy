// Guard predicates over a frozen context (router/guards.py). A guard that calls int() on a
// malformed payload raises, which the router turns into a rollback.
module Guards {
  import opened Common
  import opened Events

  datatype Verdict = Holds | Fails | Raises

  function Judge(b: bool): Verdict { if b then Holds else Fails }

  function Not(v: Verdict): Verdict {
    match v case Holds => Fails case Fails => Holds case Raises => Raises
  }

  // a and b, with b not evaluated when a is false
  function And(a: Verdict, b: Verdict): Verdict {
    if a == Holds then b else a
  }

  function ActorPrincipal(ctx: Ctx): Option<string> {
    var p := ctx.event.payload;
    match ctx.event.source
    case Discord => (if Get(p, "actor") == Null then None else Some("discord:" + Text(Get(p, "actor"))))
    case Forgejo => Some("forgejo:" + Text(GetOr(p, "sender_login", Str("unknown"))))
    case Cli => Some("cli:" + Text(GetOr(p, "actor", Str("unknown"))))
    case Internal => OptText(Get(p, "requested_by"))
  }

  // _payload_bool with one or two keys
  predicate PayloadBool(p: Payload, key: string) {
    Truthy(Get(p, key))
  }

  predicate PayloadBool2(p: Payload, key: string, other: string) {
    if key in p then Truthy(p[key]) else PayloadBool(p, other)
  }

  predicate IsUnchecked(v: Value) {
    v.Obj? && Get(v.fields, "status") == Str("unchecked")
  }

  function CountUnchecked(items: seq<Value>): nat {
    if items == [] then 0 else (if IsUnchecked(items[0]) then 1 else 0) + CountUnchecked(items[1..])
  }

  // _unchecked_count(payload) == 0
  function NoneUnchecked(p: Payload): Verdict {
    if "unchecked" in p then
      (match IntOf(p["unchecked"]) case None => Raises case Some(n) => Judge(n == 0))
    else if Get(p, "criteria").List? then Judge(CountUnchecked(Get(p, "criteria").items) == 0)
    else Holds
  }

  function AutoApproveOk(ctx: Ctx): Verdict {
    if ctx.plan.None? then Fails
    else
      var plan := ctx.plan.value;
      Judge(plan.errors == 0 && plan.score >= 85 && !ctx.task.critical
            && (Truthy(Get(plan.json, "allowed_files")) || Truthy(Get(plan.json, "auto_allowed_patterns")))
            && Truthy(Get(plan.json, "acceptance_criteria")))
  }

  function BranchLeaseAcquired(ctx: Ctx): Verdict {
    Judge(Get(ctx.event.payload, "lease_acquired") == Bool(true))
  }

  function ExecutorInScope(ctx: Ctx): Verdict {
    Judge(!Truthy(Get(ctx.event.payload, "out_of_scope_files")))
  }

  function ExecutorExitZero(ctx: Ctx): Verdict {
    match IntOf(GetOr(ctx.event.payload, "exit_code", Num(1)))
    case None => Raises
    case Some(n) => Judge(n == 0)
  }

  // payload.get("manual_gate_required", task.manual_gate_required)
  predicate GateFor(ctx: Ctx) {
    Truthy(GetOr(ctx.event.payload, "manual_gate_required", Bool(ctx.task.gate)))
  }

  function ReviewerPassAllClear(ctx: Ctx): Verdict {
    And(NoneUnchecked(ctx.event.payload), Judge(!GateFor(ctx)))
  }

  function ReviewerPassManualGate(ctx: Ctx): Verdict {
    And(NoneUnchecked(ctx.event.payload), Judge(GateFor(ctx)))
  }

  function ResumeWorktreeClean(ctx: Ctx): Verdict {
    Judge(PayloadBool(ctx.event.payload, "worktree_clean") || Get(ctx.event.payload, "worktree_status") == Str("clean"))
  }

  function ResumeWorktreeDirtyOk(ctx: Ctx): Verdict {
    var p := ctx.event.payload;
    var notClean := Get(p, "worktree_clean") == Bool(false);
    var dirty := Get(p, "worktree_status") == Str("dirty") || PayloadBool(p, "worktree_dirty") || notClean;
    var head := PayloadBool(p, "head_matches") || (notClean && Get(p, "last_known_head_commit") != Null);
    And(Judge(dirty && head && PayloadBool(p, "heartbeat_fresh")),
        And(PlanRevMatches(ctx, Get(p, "plan_rev")), Judge(!Truthy(Get(p, "out_of_scope_files")))))
  }

  predicate ResumeGraceOk(ctx: Ctx) {
    var p := ctx.event.payload;
    if "resume_grace_ok" in p then Truthy(p["resume_grace_ok"])
    else if "within_grace" in p then Truthy(p["within_grace"])
    else Get(p, "grace_deadline_at").Instant? && ctx.event.receivedAt <= Get(p, "grace_deadline_at").at
  }

  function PlanRevMatches(ctx: Ctx, rev: Value): Verdict {
    if ctx.plan.None? || rev == Null then Fails
    else match IntOf(rev) case None => Raises case Some(n) => Judge(ctx.plan.value.rev == n)
  }

  function CriticalOffAllowed(ctx: Ctx): Verdict {
    if ActorPrincipal(ctx) == Some(ctx.task.requestedBy) then Holds
    else
      var p := ctx.event.payload;
      match IntOf(Either(Either(Get(p, "actor_user_id"), Get(p, "user_id")), Get(p, "actor_id")))
      case None => Fails
      case Some(n) => Judge(n in ctx.settings.adminIds)
  }

  predicate ReplanRequired(ctx: Ctx) {
    Truthy(Get(ctx.event.payload, "replan_required"))
  }

  function ValidatorIsOver(ctx: Ctx): Verdict {
    Judge(Truthy(GetOr(ctx.event.payload, "validator_over", Bool(true))))
  }

  function ExecutorNonInfraError(ctx: Ctx): Verdict {
    And(Not(ExecutorExitZero(ctx)), Judge(Get(ctx.event.payload, "failure_code") != Str("system_degraded")))
  }

  function ManualGateApproved(ctx: Ctx): Verdict {
    Judge(ctx.task.gate && PayloadBool2(ctx.event.payload, "reviewed", "manual_gate_approved"))
  }
}
