// Inbox events, tasks and plans as the router reads them (types.py, router/guards.py).
module Events {
  import opened Common

  // A decoded JSON value; Instant is a string that holds a timestamp. Floats are not modelled.
  datatype Value =
    | Null
    | Bool(b: bool)
    | Num(n: int)
    | Str(s: string)
    | Instant(at: int)
    | List(items: seq<Value>)
    | Obj(fields: map<string, Value>)

  type Payload = map<string, Value>

  datatype Source = Forgejo | Discord | Cli | Internal

  datatype EventType =
    | IssuesOpened
    | CriticalOn
    | CriticalOff
    | Approve
    | Retry
    | RetryReplan
    | Cancel
    | Unlock
    | RetrySystem
    | PlanReady
    | ValidatorOver
    | InfraFatal
    | PlannerTimeout
    | DispatchAttempt
    | ExecutorFinished
    | ReconcileResume
    | LeaseLost
    | ReviewerPass
    | ReviewerFail
    | ReviewerHumanReview
    | ReviewerTimeout
    | SystemRecovered
    | OtherEvent(name: string)

  datatype Event = Event(id: string, source: Source, kind: EventType, payload: Payload, receivedAt: int)

  datatype Branches = Branches(lease: Option<string>, feature: Option<string>, worktree: Option<string>)

  datatype Task = Task(
    id: string, sourceIssue: Option<string>, state: TaskState, rev: nat, critical: bool, gate: bool,
    resume: Option<TaskState>, branches: Branches, requestedBy: string, notificationTarget: Option<string>)

  datatype Plan = Plan(rev: nat, score: int, errors: int, json: Payload)

  datatype Settings = Settings(adminIds: set<int>, baseUrl: string, retryInitial: nat)

  // GuardContext
  datatype Ctx = Ctx(task: Task, event: Event, plan: Option<Plan>, settings: Settings)

  // payload.get(key)
  function Get(p: Payload, key: string): Value {
    if key in p then p[key] else Null
  }

  function GetOr(p: Payload, key: string, default: Value): Value {
    if key in p then p[key] else default
  }

  // bool(value)
  predicate Truthy(v: Value) {
    match v
    case Null => false
    case Bool(b) => b
    case Num(n) => n != 0
    case Str(s) => s != ""
    case Instant(_) => true
    case List(items) => items != []
    case Obj(fields) => fields != map[]
  }

  // a or b
  function Either(a: Value, b: Value): Value {
    if Truthy(a) then a else b
  }

  function Natural(s: string): Option<nat> {
    if s == "" then None
    else if !('0' <= s[|s| - 1] <= '9') then None
    else
      var d := s[|s| - 1] as int - '0' as int;
      if |s| == 1 then Some(d)
      else
        var front := Natural(s[..|s| - 1]);
        if front.None? then None else Some(10 * front.value + d)
  }

  function Signed(sign: int, n: Option<nat>): Option<int> {
    if n.None? then None
    else
      var v: int := sign * n.value;
      Some(v)
  }

  // int(value), or None where it raises; of strings, an optional sign and decimal digits
  function IntOf(v: Value): Option<int> {
    match v
    case Bool(b) => Some(if b then 1 else 0)
    case Num(n) => Some(n)
    case Str(s) =>
      if s != "" && s[0] == '-' then Signed(-1, Natural(s[1..]))
      else Signed(1, Natural(if s != "" && s[0] == '+' then s[1..] else s))
    case _ => None
  }

  function Decimal(n: int): string {
    if n < 0 then "-" + Digits(-n) else Digits(n)
  }

  // str(value) for the scalars that name actors, issues and branches
  function Text(v: Value): string {
    match v
    case Null => "None"
    case Bool(b) => if b then "True" else "False"
    case Num(n) => Decimal(n)
    case Str(s) => s
    case _ => "?"
  }

  function OptText(v: Value): Option<string> {
    if v == Null then None else Some(Text(v))
  }

  // Reading a number's text gives the number, signs included.
  lemma {:induction false} DigitsReadBack(n: nat)
    ensures Natural(Digits(n)) == Some(n)
  {
    if n >= 10 {
      var s := Digits(n);
      DigitsReadBack(n / 10);
      assert s[..|s| - 1] == Digits(n / 10);
    }
  }

  lemma DecimalReadsBack(n: int)
    ensures IntOf(Str(Decimal(n))) == Some(n)
  {
    var s := Decimal(n);
    if n < 0 {
      DigitsReadBack(-n);
      assert s[1..] == Digits(-n);
    } else {
      DigitsReadBack(n);
      assert s[0] in s;
    }
  }
}
