/**
 The lease heartbeat of an executor run (_heartbeat_loop in runner/tool_runner.py), over the lease
 protocol.
 */
module Heartbeat {
  import opened Common
  import opened Lease

  // _ExecutionControl
  class ExecutionControl {
    var handle: Option<Handle>
    var reason: Option<string>

    constructor (handle: Option<Handle>)
      ensures this.handle == handle && reason == None
    {
      this.handle, reason := handle, None;
    }
  }

  // What a renewal does: extend the lease, find it lost, or raise (the server cannot be reached).
  datatype Reply = Renewed | Refused | Raised

  // Two renewals in a row found the lease lost.
  predicate Pair(replies: seq<Reply>, i: int) {
    0 <= i < |replies| - 1 && replies[i] == Refused && replies[i + 1] == Refused
  }

  // Where the loop ends when the beats that find the child alive get these replies: right after the
  // first two losses in a row, with an exception, or with the child's own exit.
  ghost predicate Ends(replies: seq<Reply>, renewals: nat, stopped: bool) {
    && renewals <= |replies|
    && (forall i :: 0 <= i < renewals - 1 ==> replies[i] != Raised)
    && (forall i :: 0 <= i < renewals - 2 ==> !Pair(replies, i))
    && (stopped <==> Pair(replies, renewals - 2))
    && (stopped || renewals == |replies| || (renewals > 0 && replies[renewals - 1] == Raised))
  }

  class HeartbeatThread {
    const control: ExecutionControl
    var leaseLostEvents: nat

    constructor (control: ExecutionControl)
      ensures this.control == control && leaseLostEvents == 0
    {
      this.control, leaseLostEvents := control, 0;
    }

    // replies[i]: what renew does at beat i; the child exits by itself after |replies| beats.
    method Loop(replies: seq<Reply>) returns (renewals: nat, stopped: bool)
      modifies this, control
      ensures control.handle == old(control.handle)
      ensures control.handle.None? ==> renewals == 0 && !stopped
      ensures control.handle.Some? ==> Ends(replies, renewals, stopped)
      ensures control.reason == if stopped then Some("lease_lost") else old(control.reason)
      ensures leaseLostEvents == old(leaseLostEvents) + if stopped then 1 else 0
    {
      renewals, stopped := 0, false;
      if control.handle.None? {
        return;
      }
      var failures := 0;
      while renewals < |replies|
        invariant 0 <= renewals <= |replies| && 0 <= failures <= 1
        invariant failures == 1 <==> renewals > 0 && replies[renewals - 1] == Refused
        invariant forall i :: 0 <= i < renewals ==> replies[i] != Raised
        invariant forall i :: 0 <= i < renewals - 1 ==> !Pair(replies, i)
      {
        var reply := replies[renewals];
        renewals := renewals + 1;
        if reply == Raised {
          return;
        }
        if reply == Renewed {
          failures := 0;
          continue;
        }
        failures := failures + 1;
        if failures < 2 {
          continue;
        }
        control.reason := Some("lease_lost");
        stopped := true;
        leaseLostEvents := leaseLostEvents + 1;
        return;
      }
    }
  }

  // A renewal that raises before any such pair ends the watch for good: the child goes on unwatched.
  lemma RaisingEndsTheWatch(replies: seq<Reply>, k: nat, renewals: nat, stopped: bool)
    requires k < |replies| && replies[k] == Raised
        && (forall i :: 0 <= i < k ==> replies[i] != Raised && !Pair(replies, i))
    requires Ends(replies, renewals, stopped)
    ensures renewals == k + 1 && !stopped
  {
    assert stopped ==> Pair(replies, renewals - 2);
  }

  // ---- what renew does in a run of the lease protocol

  function Replies(ttl: int, w: World, steps: seq<Step>, h: Handle): seq<Reply>
    decreases |steps|
  {
    if steps == [] then []
    else
      var rest := Replies(ttl, Apply(ttl, w, steps[0]), steps[1..], h);
      if steps[0] == Renew(h) then [if Answer(w, steps[0]) then Renewed else Refused] + rest else rest
  }

  predicate HeldThroughout(ttl: int, w: World, steps: seq<Step>, h: Handle)
    decreases |steps|
  {
    Holds(w.keys, w.now, h) && (steps == [] || HeldThroughout(ttl, Apply(ttl, w, steps[0]), steps[1..], h))
  }

  // No stretch without a renewal is longer than the time to live, and nobody unlocks or releases.
  predicate Timely(ttl: int, steps: seq<Step>, h: Handle, now: int, last: int)
    decreases |steps|
  {
    steps == [] ||
      match steps[0]
      case Tick(ms) => now + ms <= last + ttl && Timely(ttl, steps[1..], h, now + ms, last)
      case Renew(o) => Timely(ttl, steps[1..], h, now, if o == h then now else last)
      case Release(o) => o != h && Timely(ttl, steps[1..], h, now, last)
      case ForceRelease(b) => b != h.branch && Timely(ttl, steps[1..], h, now, last)
      case Draw(_, _) => Timely(ttl, steps[1..], h, now, last)
      case Acquire(_) => Timely(ttl, steps[1..], h, now, last)
      case Forget(_) => Timely(ttl, steps[1..], h, now, last)
      case Assert(_) => Timely(ttl, steps[1..], h, now, last)
  }

  lemma {:induction false} HeldSince(ttl: int, w: World, steps: seq<Step>, h: Handle, last: int)
    requires ttl > 0 && h.token < WIDE_TOKEN && Legal(ttl, w, steps)
    requires Holds(w.keys, w.now, h) && w.keys[h.branch].expiry == last + ttl
    ensures HeldThroughout(ttl, w, steps, h) <==> Timely(ttl, steps, h, w.now, last)
    decreases |steps|
  {
    if steps != [] {
      var w' := Apply(ttl, w, steps[0]);
      if Holds(w'.keys, w'.now, h) {
        HeldSince(ttl, w', steps[1..], h, if steps[0] == Renew(h) then w.now else last);
      }
    }
  }

  // Whatever dispatchers and other holders do, a lease is held without a gap from its grant on exactly
  // when its renewals are timely and nobody unlocks its branch.
  lemma HeldExactlyWhenTimely(ttl: int, w: World, h: Handle, steps: seq<Step>)
    requires ttl > 0 && h.token < WIDE_TOKEN && Enabled(w, Acquire(h)) && Answer(w, Acquire(h))
    requires Legal(ttl, Apply(ttl, w, Acquire(h)), steps)
    ensures HeldThroughout(ttl, Apply(ttl, w, Acquire(h)), steps, h) <==> Timely(ttl, steps, h, w.now, w.now)
  {
    HeldSince(ttl, Apply(ttl, w, Acquire(h)), steps, h, w.now);
  }

  predicate AllAre(replies: seq<Reply>, r: Reply) {
    forall i :: 0 <= i < |replies| ==> replies[i] == r
  }

  // While the lease is held every renewal succeeds.
  lemma {:induction false} RenewalsSucceed(ttl: int, w: World, steps: seq<Step>, h: Handle)
    requires HeldThroughout(ttl, w, steps, h) && h.token < WIDE_TOKEN
    ensures AllAre(Replies(ttl, w, steps, h), Renewed)
    decreases |steps|
  {
    if steps != [] {
      RenewalsSucceed(ttl, Apply(ttl, w, steps[0]), steps[1..], h);
    }
  }

  // Once it is lost every renewal fails.
  lemma {:induction false} RenewalsFail(ttl: int, w: World, steps: seq<Step>, h: Handle)
    requires Dead(w, h) && Legal(ttl, w, steps)
    ensures AllAre(Replies(ttl, w, steps, h), Refused)
    decreases |steps|
  {
    if steps != [] {
      DeadStep(ttl, w, steps[0], h);
      RenewalsFail(ttl, Apply(ttl, w, steps[0]), steps[1..], h);
    }
  }

  lemma {:induction false} RepliesSplit(ttl: int, w: World, a: seq<Step>, b: seq<Step>, h: Handle)
    ensures Replies(ttl, w, a + b, h) == Replies(ttl, w, a, h) + Replies(ttl, Run(ttl, w, a), b, h)
    decreases |a|
  {
    if a == [] {
      assert a + b == b;
    } else {
      assert (a + b)[1..] == a[1..] + b;
      RepliesSplit(ttl, Apply(ttl, w, a[0]), a[1..], b, h);
    }
  }

  // The heartbeat never stops a child whose lease is held, and stops it at the second renewal after
  // the loss, in every run of dispatchers, unlocks and other holders from the grant on. The loss is a
  // time to live that ran out since the grant or the last renewal, or an unlock.
  lemma HeartbeatBound(ttl: int, w: World, h: Handle, held: seq<Step>, lost: seq<Step>, renewals: nat, stopped: bool)
    requires ttl > 0 && Inv(w) && h.token < WIDE_TOKEN && Enabled(w, Acquire(h)) && Answer(w, Acquire(h))
    requires var granted := Apply(ttl, w, Acquire(h));
             && Legal(ttl, granted, held) && Legal(ttl, Run(ttl, granted, held), lost)
             && Ends(Replies(ttl, granted, held + lost, h), renewals, stopped)
    requires Timely(ttl, held, h, w.now, w.now)
    requires lost != [] ==> !By(lost[0], h) && !Timely(ttl, held + lost[..1], h, w.now, w.now)
    ensures var granted := Apply(ttl, w, Acquire(h));
            var before, after := |Replies(ttl, granted, held, h)|,
                |Replies(ttl, Run(ttl, granted, held), lost, h)|;
            && (stopped <==> after >= 2)
            && renewals == before + if after < 2 then after else 2
  {
    var granted := Apply(ttl, w, Acquire(h));
    StepKeepsInv(ttl, w, Acquire(h));
    HeldExactlyWhenTimely(ttl, w, h, held);
    if lost != [] {
      LegalConcat(ttl, granted, held, lost[..1]);
      HeldExactlyWhenTimely(ttl, w, h, held + lost[..1]);
      HeldOneMore(ttl, granted, held, lost[..1], h);
    }
    BoundFromLoss(ttl, granted, held, lost, h, renewals, stopped);
  }

  lemma {:induction false} LegalConcat(ttl: int, w: World, a: seq<Step>, b: seq<Step>)
    requires Legal(ttl, w, a) && Legal(ttl, Run(ttl, w, a), b)
    ensures Legal(ttl, w, a + b)
    decreases |a|
  {
    if a == [] {
      assert a + b == b;
    } else {
      assert (a + b)[0] == a[0] && (a + b)[1..] == a[1..] + b;
      LegalConcat(ttl, Apply(ttl, w, a[0]), a[1..], b);
    }
  }

  lemma {:induction false} HeldOneMore(ttl: int, w: World, a: seq<Step>, b: seq<Step>, h: Handle)
    requires |b| == 1
    ensures var next := Apply(ttl, Run(ttl, w, a), b[0]);
            HeldThroughout(ttl, w, a + b, h) <==> HeldThroughout(ttl, w, a, h) && Holds(next.keys, next.now, h)
    decreases |a|
  {
    if a == [] {
      assert a + b == b && b[1..] == [];
    } else {
      assert (a + b)[0] == a[0] && (a + b)[1..] == a[1..] + b;
      HeldOneMore(ttl, Apply(ttl, w, a[0]), a[1..], b, h);
    }
  }

  lemma BoundFromLoss(ttl: int, w: World, held: seq<Step>, lost: seq<Step>, h: Handle, renewals: nat, stopped: bool)
    requires Inv(w) && h.token < WIDE_TOKEN && Legal(ttl, w, held) && HeldThroughout(ttl, w, held, h)
    requires var at := Run(ttl, w, held); lost != [] ==>
      var next := Apply(ttl, at, lost[0]);
      !By(lost[0], h) && !Holds(next.keys, next.now, h) && Legal(ttl, at, lost)
    requires Ends(Replies(ttl, w, held + lost, h), renewals, stopped)
    ensures var before, after := |Replies(ttl, w, held, h)|, |Replies(ttl, Run(ttl, w, held), lost, h)|;
      && (stopped <==> after >= 2)
      && renewals == before + if after < 2 then after else 2
  {
    var at := Run(ttl, w, held);
    var a, b := Replies(ttl, w, held, h), Replies(ttl, at, lost, h);
    RepliesSplit(ttl, w, held, lost, h);
    RenewalsSucceed(ttl, w, held, h);
    if lost != [] {
      EndHeld(ttl, w, held, h);
      RunKeepsInv(ttl, w, held);
      HeldStep(ttl, at, lost[0], h);
      RenewalsFail(ttl, Apply(ttl, at, lost[0]), lost[1..], h);
    }
    PairPlaces(a, b);
    if |b| >= 2 {
      assert Pair(a + b, |a|);
    }
  }

  lemma {:induction false} EndHeld(ttl: int, w: World, steps: seq<Step>, h: Handle)
    requires HeldThroughout(ttl, w, steps, h)
    ensures Holds(Run(ttl, w, steps).keys, Run(ttl, w, steps).now, h)
    decreases |steps|
  {
    if steps != [] {
      EndHeld(ttl, Apply(ttl, w, steps[0]), steps[1..], h);
    }
  }

  lemma PairPlaces(a: seq<Reply>, b: seq<Reply>)
    requires AllAre(a, Renewed) && AllAre(b, Refused)
    ensures forall i :: Pair(a + b, i) <==> |a| <= i < |a| + |b| - 1
  {
  }
}
