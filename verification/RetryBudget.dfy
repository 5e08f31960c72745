/**
 The retry loops around an adapter: AdapterBase.call (runner/adapters/base.py) and, around it, the
 stage loop with its timeout decision (runner/tool_runner.py).
 */
module RetryBudget {
  import opened Common
  import opened Failures

  // What one transport request does: answer, raise a TransportError, or raise something else.
  datatype Outcome =
    | Response(isObject: bool)
    | TimesOut
    | Fails(code: FailureCode)
    | Raises

  // The transport's behaviour over the requests of its lifetime.
  type Behaviour = nat -> Outcome

  datatype Request = Request(requestId: Option<string>)

  datatype Contract = Contract(name: string, supportsRequestId: bool)

  // How a call ends: an AdapterOutput, or one of the exceptions it lets through.
  datatype CallResult = Output(ok: bool, code: Option<FailureCode>) | TimeoutRaised | OtherRaised

  datatype Stage = Planning | Executing | Reviewing

  datatype TimeoutDecision = Retry | GiveUpHr

  class Transport {
    const behaviour: Behaviour
    var requests: seq<Request>

    constructor (behaviour: Behaviour)
      ensures this.behaviour == behaviour && requests == []
    {
      this.behaviour, requests := behaviour, [];
    }

    method Send(r: Request) returns (o: Outcome)
      modifies this
      ensures o == behaviour(|old(requests)|) && requests == old(requests) + [r]
    {
      o := behaviour(|requests|);
      requests := requests + [r];
    }
  }

  // ---- one adapter call

  // Whether attempt number `attempt` is followed by another one.
  predicate Retried(o: Outcome, attempt: nat) {
    o.Fails? && match ClassOf(o.code)
      case Fatal => false
      case Transient => attempt < 3
      case Unknown => attempt < 2
  }

  // The sleep before the next attempt.
  function Pause(o: Outcome, attempt: nat): nat
    requires attempt > 0
  {
    if Retried(o, attempt) && ClassOf(o.code) == Transient then Pow2(attempt - 1) else 0
  }

  function ResultOf(o: Outcome): CallResult {
    match o
    case Response(isObject) => if isObject then Output(true, None) else Output(false, Some(AdapterParseError))
    case TimesOut => TimeoutRaised
    case Fails(code) => Output(false, Some(code))
    case Raises => OtherRaised
  }

  datatype Spent = Spent(result: CallResult, requests: nat, seconds: nat)

  // What a call does from attempt `attempt` on, when the next request is number `at`.
  function CallFrom(b: Behaviour, at: nat, attempt: nat): Spent
    requires attempt > 0
    decreases 3 - attempt
  {
    var o := b(at);
    if Retried(o, attempt) then
      var rest := CallFrom(b, at + 1, attempt + 1);
      Spent(rest.result, rest.requests + 1, rest.seconds + Pause(o, attempt))
    else Spent(ResultOf(o), 1, 0)
  }

  // The requests from number `start` on carry the request id where the contract supports one.
  predicate Tagged(requests: seq<Request>, start: nat, contract: Contract, requestId: string) {
    start <= |requests| && forall i :: start <= i < |requests| ==>
      requests[i].requestId == if contract.supportsRequestId then Some(requestId) else None
  }

  class Adapter {
    const contract: Contract
    const transport: Transport
    var slept: nat

    constructor (contract: Contract, transport: Transport)
      ensures this.contract == contract && this.transport == transport && slept == 0
    {
      this.contract, this.transport, slept := contract, transport, 0;
    }

    method Call(requestId: string) returns (r: CallResult)
      modifies this, transport
      ensures var spent := CallFrom(transport.behaviour, |old(transport.requests)|, 1);
        && r == spent.result
        && |transport.requests| == |old(transport.requests)| + spent.requests
        && slept == old(slept) + spent.seconds
      ensures old(transport.requests) <= transport.requests
      ensures Tagged(transport.requests, |old(transport.requests)|, contract, requestId)
    {
      var attempt := 0;
      ghost var start := |transport.requests|;
      while true
        invariant attempt <= 2 && old(transport.requests) <= transport.requests
        invariant |transport.requests| == start + attempt
        invariant Tagged(transport.requests, start, contract, requestId)
        invariant var rest, all := CallFrom(transport.behaviour, start + attempt, attempt + 1),
            CallFrom(transport.behaviour, start, 1);
          && slept >= old(slept)
          && all == Spent(rest.result, rest.requests + attempt, rest.seconds + (slept - old(slept)))
        decreases 3 - attempt
      {
        attempt := attempt + 1;
        var o := transport.Send(Request(if contract.supportsRequestId then Some(requestId) else None));
        if o.TimesOut? {
          return TimeoutRaised;
        }
        if o.Raises? {
          return OtherRaised;
        }
        if o.Fails? {
          if ClassOf(o.code) == Fatal {
            return Output(false, Some(o.code));
          }
          if ClassOf(o.code) == Transient {
            if attempt >= 3 {
              return Output(false, Some(o.code));
            }
            slept := slept + Pow2(attempt - 1);
            continue;
          }
          if attempt >= 2 {
            return Output(false, Some(o.code));
          }
          continue;
        }
        return if o.isObject then Output(true, None) else Output(false, Some(AdapterParseError));
      }
    }
  }

  predicate RetriedAt(b: Behaviour, at: nat, attempt: nat, i: nat) {
    Retried(b(at + i), attempt + i)
  }

  // A call sends one to three requests and sleeps for three seconds at most. It stops at its first
  // outcome that is not retried, and that outcome is its result.
  lemma {:induction false} CallBudget(b: Behaviour, at: nat, attempt: nat)
    requires 1 <= attempt <= 3
    ensures var s := CallFrom(b, at, attempt);
      && 1 <= s.requests <= 4 - attempt
      && s.seconds <= 4 - Pow2(attempt - 1)
      && !Retried(b(at + s.requests - 1), attempt + s.requests - 1)
      && s.result == (match b(at + s.requests - 1)
                      case Response(true) => Output(true, None)
                      case Response(false) => Output(false, Some(AdapterParseError))
                      case TimesOut => TimeoutRaised
                      case Fails(code) => Output(false, Some(code))
                      case Raises => OtherRaised)
      && forall i :: 0 <= i < s.requests - 1 ==> RetriedAt(b, at, attempt, i)
    decreases 3 - attempt
  {
    assert Pow2(0) == 1 && Pow2(1) == 2 && Pow2(2) == 4;
    if Retried(b(at), attempt) {
      CallBudget(b, at + 1, attempt + 1);
      var s, rest := CallFrom(b, at, attempt), CallFrom(b, at + 1, attempt + 1);
      forall i | 0 <= i < s.requests - 1 ensures RetriedAt(b, at, attempt, i) {
        if i > 0 { assert RetriedAt(b, at + 1, attempt + 1, i - 1); }
      }
    }
  }

  // Against a transport that keeps failing with one code: a fatal code is tried once, a transient one
  // three times with sleeps of one and two seconds, and any other twice in a row.
  lemma KeepsFailing(b: Behaviour, at: nat, code: FailureCode)
    requires b(at) == b(at + 1) == b(at + 2) == Fails(code)
    ensures CallFrom(b, at, 1).result == Output(false, Some(code))
    ensures var s := CallFrom(b, at, 1);
      (s.requests, s.seconds)
        == if code in {AuthError, PermissionError, AdapterParseError, SystemDegradedCode} then (1, 0)
           else if code in {RateLimited, NetworkUnreachable} then (3, 3)
           else (2, 0)
  {
    assert Pow2(0) == 1 && Pow2(1) == 2;
    if ClassOf(code) != Fatal { assert CallFrom(b, at, 1).requests == 1 + CallFrom(b, at + 1, 2).requests; }
  }

  // ---- one stage

  // decide_timeout_retry
  function DecideTimeoutRetry(stage: Stage, contract: Contract, attempt: nat): TimeoutDecision {
    if stage == Executing then GiveUpHr
    else if !contract.supportsRequestId then GiveUpHr
    else if attempt >= 1 then GiveUpHr
    else Retry
  }

  // The end of a tool_calls row: _record_call_end
  datatype CallEnd = CallEnd(success: bool, code: Option<FailureCode>)

  datatype StageSpent = StageSpent(result: CallResult, requests: nat, seconds: nat, calls: nat)

  // A stage: one call, and a second one after a timeout that may be retried.
  function StageOf(b: Behaviour, at: nat, stage: Stage, contract: Contract): StageSpent {
    var first := CallFrom(b, at, 1);
    if Again(first, stage, contract) then
      var second := CallFrom(b, at + first.requests, 1);
      StageSpent(second.result, first.requests + second.requests, first.seconds + second.seconds, 2)
    else StageSpent(first.result, first.requests, first.seconds, 1)
  }

  predicate Again(first: Spent, stage: Stage, contract: Contract) {
    first.result == TimeoutRaised && stage != Executing && contract.supportsRequestId
  }

  lemma TaggedOn(before: seq<Request>, after: seq<Request>, start: nat, contract: Contract, requestId: string)
    requires Tagged(before, start, contract, requestId) && Tagged(after, |before|, contract, requestId)
        && before <= after
    ensures Tagged(after, start, contract, requestId)
  {
  }

  function Reported(r: CallResult, timeoutEventType: Option<string>): seq<string> {
    if r == TimeoutRaised && timeoutEventType.Some? then [timeoutEventType.value] else []
  }

  class ToolRunner {
    var callStarts: nat
    var callEnds: seq<CallEnd>
    var timeoutEvents: seq<string>

    constructor ()
      ensures callStarts == 0 && callEnds == [] && timeoutEvents == []
    {
      callStarts, callEnds, timeoutEvents := 0, [], [];
    }

    // contract: what _contract_for_tool answers for the tool's name.
    method RunInProcessStage(stage: Stage, contract: Contract, adapter: Adapter, requestId: string,
        timeoutEventType: Option<string>)
      returns (r: CallResult)
      modifies this, adapter, adapter.transport
      ensures var spent := StageOf(adapter.transport.behaviour, |old(adapter.transport.requests)|, stage, contract);
        && r == spent.result
        && |adapter.transport.requests| == |old(adapter.transport.requests)| + spent.requests
        && adapter.slept == old(adapter.slept) + spent.seconds
      ensures Tagged(adapter.transport.requests, |old(adapter.transport.requests)|, adapter.contract, requestId)
      ensures callStarts == old(callStarts) + 1
      ensures callEnds == old(callEnds) + match r
        case Output(ok, code) => [CallEnd(ok, code)]
        case TimeoutRaised => [CallEnd(false, Some(Timeout))]
        case OtherRaised => []
      ensures timeoutEvents == old(timeoutEvents) + Reported(r, timeoutEventType)
    {
      callStarts := callStarts + 1;
      r := CallUntilDecided(stage, contract, adapter, requestId);
      if r.Output? {
        callEnds := callEnds + [CallEnd(r.ok, r.code)];
      } else if r.TimeoutRaised? {
        if timeoutEventType.Some? {
          timeoutEvents := timeoutEvents + [timeoutEventType.value];
        }
        callEnds := callEnds + [CallEnd(false, Some(Timeout))];
      }
    }
  }

  // The loop of a stage, up to the result that it records.
  method CallUntilDecided(stage: Stage, contract: Contract, adapter: Adapter, requestId: string) returns (r: CallResult)
    modifies adapter, adapter.transport
    ensures var spent := StageOf(adapter.transport.behaviour, |old(adapter.transport.requests)|, stage, contract);
      && r == spent.result
      && |adapter.transport.requests| == |old(adapter.transport.requests)| + spent.requests
      && adapter.slept == old(adapter.slept) + spent.seconds
    ensures Tagged(adapter.transport.requests, |old(adapter.transport.requests)|, adapter.contract, requestId)
  {
    var attempt := 0;
    ghost var b, start := adapter.transport.behaviour, |adapter.transport.requests|;
    ghost var first := CallFrom(b, start, 1);
    while true
      invariant attempt <= 1 && Tagged(adapter.transport.requests, start, adapter.contract, requestId)
      invariant attempt == 0 ==> |adapter.transport.requests| == start && adapter.slept == old(adapter.slept)
      invariant attempt == 1 ==> Again(first, stage, contract)
      invariant attempt == 1 ==>
        |adapter.transport.requests| == start + first.requests && adapter.slept == old(adapter.slept) + first.seconds
      decreases 1 - attempt
    {
      ghost var before := adapter.transport.requests;
      r := adapter.Call(requestId);
      TaggedOn(before, adapter.transport.requests, start, adapter.contract, requestId);
      if r == TimeoutRaised && DecideTimeoutRetry(stage, contract, attempt) == Retry {
        attempt := attempt + 1;
        continue;
      }
      return;
    }
  }

  // A stage makes at most two calls, six requests and six seconds of sleep, or three of each where a
  // timeout is not retried. Its result is that of its last request, and only that one ends it.
  lemma StageBudget(b: Behaviour, at: nat, stage: Stage, contract: Contract)
    ensures var s := StageOf(b, at, stage, contract);
      && 1 <= s.calls <= 2
      && s.calls <= s.requests <= 3 * s.calls && s.seconds <= 3 * s.calls
      && (stage == Executing || !contract.supportsRequestId ==> s.requests <= 3 && s.seconds <= 3)
      && s.result == ResultOf(b(at + s.requests - 1))
      && (s.calls == 2
          <==> stage != Executing && contract.supportsRequestId && CallFrom(b, at, 1).result == TimeoutRaised)
      && (s.calls == 2 ==> exists k :: 0 <= k < 3 && k < s.requests - 1 && IsTimeout(b, at, k))
  {
    var first := CallFrom(b, at, 1);
    assert Pow2(0) == 1;
    CallBudget(b, at, 1);
    CallBudget(b, at + first.requests, 1);
    if Again(first, stage, contract) {
      assert IsTimeout(b, at, first.requests - 1);
    }
  }

  predicate IsTimeout(b: Behaviour, at: nat, k: nat) {
    b(at + k).TimesOut?
  }

  // The budgets are used up: two rate limits before a timeout, twice.
  lemma BudgetAttained(at: nat, contract: Contract)
    requires contract.supportsRequestId
    ensures exists b :: StageOf(b, at, Stage.Planning, contract) == StageSpent(TimeoutRaised, 6, 6, 2)
  {
    var b: Behaviour := n => if n == at + 2 || n == at + 5 then TimesOut else Fails(RateLimited);
    assert Pow2(0) == 1 && Pow2(1) == 2;
    ThreeRequests(b, at);
    ThreeRequests(b, at + 3);
    assert StageOf(b, at, Stage.Planning, contract) == StageSpent(TimeoutRaised, 6, 6, 2);
  }

  lemma ThreeRequests(b: Behaviour, at: nat)
    requires b(at) == Fails(RateLimited) && b(at + 1) == Fails(RateLimited) && b(at + 2) == TimesOut
    ensures CallFrom(b, at, 1) == Spent(TimeoutRaised, 3, 3)
  {
    assert Pow2(0) == 1 && Pow2(1) == 2;
    assert CallFrom(b, at + 2, 3) == Spent(TimeoutRaised, 1, 0);
    assert CallFrom(b, at + 1, 2) == Spent(TimeoutRaised, 2, 2);
  }
}
