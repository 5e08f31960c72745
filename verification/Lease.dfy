/**
 The branch lease (branch_lease/redis_lease.py) and its fencing tokens (next_branch_token in
 db/queries.py): one key per branch with an expiry, guarded by four scripts that run atomically.

 Instants and times to live are milliseconds of the server's clock.
 */
module Lease {
  import opened Common

  // What the key of a branch holds, and the instant from which PTTL reports no time left.
  datatype Holder = Holder(task: string, token: nat, expiry: int)

  type Keys = map<string, Holder>

  // LeaseHandle, without the informational expires_at
  datatype Handle = Handle(branch: string, task: string, token: nat)

  // Lua prints numbers with 14 significant digits, so a longer token never equals its own text.
  const WIDE_TOKEN := 100_000_000_000_000

  // EXISTS: a key is gone once the clock is past its expiry.
  predicate Live(keys: Keys, branch: string, now: int) {
    branch in keys && now <= keys[branch].expiry
  }

  predicate Holds(keys: Keys, now: int, h: Handle) {
    Live(keys, h.branch, now) && keys[h.branch].task == h.task && keys[h.branch].token == h.token
  }

  // decoded.task_id == ARGV[1] and tostring(decoded.fencing_token) == ARGV[2]
  predicate Matches(keys: Keys, now: int, h: Handle) {
    Holds(keys, now, h) && h.token < WIDE_TOKEN
  }

  // What the scripts and force_release leave behind.
  function AfterAcquire(keys: Keys, h: Handle, ttl: int, now: int): Keys {
    if Live(keys, h.branch, now) then keys else keys[h.branch := Holder(h.task, h.token, now + ttl)]
  }

  function AfterRenew(keys: Keys, h: Handle, ttl: int, now: int): Keys {
    if Matches(keys, now, h) then keys[h.branch := Holder(h.task, h.token, now + ttl)] else keys
  }

  function AfterRelease(keys: Keys, h: Handle, now: int): Keys {
    if Matches(keys, now, h) then keys - {h.branch} else keys
  }

  function AfterForceRelease(keys: Keys, branch: string, now: int): Keys {
    if Live(keys, branch, now) then keys - {branch} else keys
  }

  function LastToken(last: map<string, nat>, branch: string): nat {
    if branch in last then last[branch] else 0
  }

  class BranchTokens {
    var last: map<string, nat>

    constructor ()
      ensures last == map[]
    {
      last := map[];
    }

    method NextBranchToken(branch: string) returns (token: nat)
      modifies this
      ensures token == LastToken(old(last), branch) + 1 && last == old(last)[branch := token]
    {
      if branch !in last {
        last := last[branch := 0];
      }
      last := last[branch := last[branch] + 1];
      token := last[branch];
    }
  }

  class RedisLease {
    const ttl: int
    var keys: Keys

    constructor (ttl: int)
      requires ttl > 0
      ensures this.ttl == ttl && keys == map[]
    {
      this.ttl, keys := ttl, map[];
    }

    method Acquire(branch: string, task: string, token: nat, now: int) returns (h: Option<Handle>)
      modifies this
      ensures h == if Live(old(keys), branch, now) then None else Some(Handle(branch, task, token))
      ensures keys == AfterAcquire(old(keys), Handle(branch, task, token), ttl, now)
      ensures h.Some? ==> keys == old(keys)[branch := Holder(task, token, now + ttl)]
      ensures h.None? ==> keys == old(keys)
    {
      if Live(keys, branch, now) {
        return None;
      }
      keys := keys[branch := Holder(task, token, now + ttl)];
      h := Some(Handle(branch, task, token));
    }

    method Renew(h: Handle, now: int) returns (renewed: Option<Handle>)
      modifies this
      ensures renewed == if Matches(old(keys), now, h) then Some(h) else None
      ensures keys == AfterRenew(old(keys), h, ttl, now)
      ensures renewed.Some? ==> keys == old(keys)[h.branch := Holder(h.task, h.token, now + ttl)]
      ensures renewed.None? ==> keys == old(keys)
    {
      if !Matches(keys, now, h) {
        return None;
      }
      keys := keys[h.branch := keys[h.branch].(expiry := now + ttl)];
      renewed := Some(h);
    }

    method Release(h: Handle, now: int) returns (released: bool)
      modifies this
      ensures released <==> Matches(old(keys), now, h)
      ensures keys == AfterRelease(old(keys), h, now)
      ensures keys == if released then old(keys) - {h.branch} else old(keys)
    {
      released := Matches(keys, now, h);
      if released {
        keys := keys - {h.branch};
      }
    }

    method ForceRelease(branch: string, now: int) returns (released: bool)
      modifies this
      ensures released <==> Live(old(keys), branch, now)
      ensures keys == AfterForceRelease(old(keys), branch, now)
      ensures keys == if released then old(keys) - {branch} else old(keys)
    {
      released := Live(keys, branch, now);
      if released {
        keys := keys - {branch};
      }
    }

    // PTTL > 0 shuts out the last instant of a live key.
    method AssertReadonly(h: Handle, now: int) returns (held: bool)
      ensures held <==> Matches(keys, now, h) && now < keys[h.branch].expiry
    {
      held := Matches(keys, now, h) && keys[h.branch].expiry - now > 0;
    }
  }

  // ---- runs: any number of dispatchers, expiries, unlocks and late holders

  // drawn holds the tokens a dispatcher has drawn and not yet tried; granted is the history of
  // what acquire has answered.
  datatype World = World(keys: Keys, last: map<string, nat>, drawn: set<Handle>, granted: seq<Handle>, now: int)

  datatype Step =
    | Tick(ms: nat)
    | Draw(branch: string, task: string)
    | Acquire(h: Handle)
    | Forget(h: Handle)       // the dispatcher died before trying
    | Renew(h: Handle)
    | Release(h: Handle)
    | Assert(h: Handle)
    | ForceRelease(branch: string)

  predicate Enabled(w: World, s: Step) {
    s.Acquire? ==> s.h in w.drawn
  }

  // What the operation answers; true where it answers nothing.
  predicate Answer(w: World, s: Step) {
    match s
    case Acquire(h) => !Live(w.keys, h.branch, w.now)
    case Renew(h) => Matches(w.keys, w.now, h)
    case Release(h) => Matches(w.keys, w.now, h)
    case Assert(h) => Matches(w.keys, w.now, h) && w.now < w.keys[h.branch].expiry
    case ForceRelease(b) => Live(w.keys, b, w.now)
    case Tick(_) => true
    case Draw(_, _) => true
    case Forget(_) => true
  }

  function Apply(ttl: int, w: World, s: Step): World {
    match s
    case Tick(ms) => w.(now := w.now + ms)
    case Draw(b, task) =>
      var token := LastToken(w.last, b) + 1;
      w.(last := w.last[b := token], drawn := w.drawn + {Handle(b, task, token)})
    case Acquire(h) =>
      w.(drawn := w.drawn - {h}, keys := AfterAcquire(w.keys, h, ttl, w.now),
          granted := if Answer(w, s) then w.granted + [h] else w.granted)
    case Forget(h) => w.(drawn := w.drawn - {h})
    case Renew(h) => w.(keys := AfterRenew(w.keys, h, ttl, w.now))
    case Release(h) => w.(keys := AfterRelease(w.keys, h, w.now))
    case Assert(_) => w
    case ForceRelease(b) => w.(keys := AfterForceRelease(w.keys, b, w.now))
  }

  predicate Legal(ttl: int, w: World, steps: seq<Step>)
    decreases |steps|
  {
    steps == [] || (Enabled(w, steps[0]) && Legal(ttl, Apply(ttl, w, steps[0]), steps[1..]))
  }

  function Run(ttl: int, w: World, steps: seq<Step>): World
    decreases |steps|
  {
    if steps == [] then w else Run(ttl, Apply(ttl, w, steps[0]), steps[1..])
  }

  function Start(now: int): World {
    World(map[], map[], {}, [], now)
  }

  // ---- what every run keeps

  predicate SameToken(a: Handle, b: Handle) {
    a.branch == b.branch && a.token == b.token
  }

  predicate KeyOk(w: World, branch: string) {
    branch in w.keys ==>
      && w.keys[branch].token <= LastToken(w.last, branch)
      && Handle(branch, w.keys[branch].task, w.keys[branch].token) in w.granted
  }

  // A drawn token was given out, to one dispatcher only, and never granted.
  ghost predicate DrawnOk(w: World, h: Handle) {
    h in w.drawn ==>
      && h.token <= LastToken(w.last, h.branch)
      && (forall o :: o in w.drawn && SameToken(o, h) ==> o == h)
      && (forall o :: o in w.granted ==> !SameToken(o, h))
  }

  // A token is granted at most once.
  predicate GrantOk(w: World, i: int) {
    0 <= i < |w.granted| ==>
      && w.granted[i].token <= LastToken(w.last, w.granted[i].branch)
      && forall j :: 0 <= j < |w.granted| && SameToken(w.granted[i], w.granted[j]) ==> i == j
  }

  ghost predicate Inv(w: World) {
    && (forall b :: KeyOk(w, b))
    && (forall h :: DrawnOk(w, h))
    && (forall i :: GrantOk(w, i))
  }

  lemma DrawKeepsInv(ttl: int, w: World, branch: string, task: string)
    requires Inv(w)
    ensures Inv(Apply(ttl, w, Draw(branch, task)))
  {
    var w' := Apply(ttl, w, Draw(branch, task));
    forall b ensures KeyOk(w', b) { assert KeyOk(w, b); }
    forall i ensures GrantOk(w', i) { assert GrantOk(w, i); }
    forall h ensures DrawnOk(w', h) {
      assert DrawnOk(w, h);
      forall o | o in w.granted ensures o.token <= LastToken(w.last, o.branch) {
        var i :| 0 <= i < |w.granted| && w.granted[i] == o;
        assert GrantOk(w, i);
      }
      forall o | o in w'.drawn && SameToken(o, h) ensures h in w'.drawn ==> o == h { assert DrawnOk(w, o); }
    }
  }

  lemma AcquireKeepsInv(ttl: int, w: World, h: Handle)
    requires Inv(w) && h in w.drawn
    ensures Inv(Apply(ttl, w, Acquire(h)))
  {
    var w' := Apply(ttl, w, Acquire(h));
    assert DrawnOk(w, h);
    forall b ensures KeyOk(w', b) {
      assert KeyOk(w, b);
      if Answer(w, Acquire(h)) { assert w'.granted[|w.granted|] == h; }
    }
    forall i ensures GrantOk(w', i) {
      assert GrantOk(w, i);
      if 0 <= i < |w.granted| { assert w.granted[i] in w.granted; }
      forall j | 0 <= i < |w'.granted| && 0 <= j < |w'.granted| && SameToken(w'.granted[i], w'.granted[j])
        ensures i == j {
        if j < |w.granted| { assert w.granted[j] in w.granted; }
      }
    }
    forall o ensures DrawnOk(w', o) { assert DrawnOk(w, o); }
  }

  lemma StepKeepsInv(ttl: int, w: World, s: Step)
    requires Inv(w) && Enabled(w, s)
    ensures Inv(Apply(ttl, w, s))
  {
    if s.Draw? {
      DrawKeepsInv(ttl, w, s.branch, s.task);
    } else if s.Acquire? {
      AcquireKeepsInv(ttl, w, s.h);
    } else {
      var w' := Apply(ttl, w, s);
      forall b ensures KeyOk(w', b) { assert KeyOk(w, b); }
      forall i ensures GrantOk(w', i) { assert GrantOk(w, i); }
      forall h ensures DrawnOk(w', h) { assert DrawnOk(w, h); }
    }
  }

  lemma {:induction false} RunKeepsInv(ttl: int, w: World, steps: seq<Step>)
    requires Inv(w) && Legal(ttl, w, steps)
    ensures Inv(Run(ttl, w, steps))
    decreases |steps|
  {
    if steps != [] {
      StepKeepsInv(ttl, w, steps[0]);
      RunKeepsInv(ttl, Apply(ttl, w, steps[0]), steps[1..]);
    }
  }

  // In every run, no two grants of a branch carry the same token.
  lemma TokensNeverReused(ttl: int, now: int, steps: seq<Step>, i: nat, j: nat)
    requires Legal(ttl, Start(now), steps)
    requires i < j < |Run(ttl, Start(now), steps).granted|
    ensures var g := Run(ttl, Start(now), steps).granted;
      g[i].branch == g[j].branch ==> g[i].token != g[j].token
  {
    assert Inv(Start(now));
    RunKeepsInv(ttl, Start(now), steps);
    assert GrantOk(Run(ttl, Start(now), steps), i);
  }

  // ---- a lost lease stays lost

  // A pair that was given out, has been tried, and does not hold the key.
  predicate Dead(w: World, h: Handle) {
    h.token <= LastToken(w.last, h.branch) && h !in w.drawn && !Holds(w.keys, w.now, h)
  }

  predicate By(s: Step, h: Handle) {
    s == Renew(h) || s == Release(h) || s == Assert(h)
  }

  lemma DeadStep(ttl: int, w: World, s: Step, h: Handle)
    requires Dead(w, h) && Enabled(w, s)
    ensures Dead(Apply(ttl, w, s), h)
    ensures By(s, h) ==> !Answer(w, s) && Apply(ttl, w, s) == w
  {
  }

  lemma HeldIsGranted(w: World, h: Handle)
    requires Inv(w) && Holds(w.keys, w.now, h)
    ensures h.token <= LastToken(w.last, h.branch) && h !in w.drawn
  {
    assert KeyOk(w, h.branch) && DrawnOk(w, h);
    assert SameToken(h, h);
  }

  lemma HeldStep(ttl: int, w: World, s: Step, h: Handle)
    requires Inv(w) && Holds(w.keys, w.now, h) && Enabled(w, s)
    ensures Holds(Apply(ttl, w, s).keys, Apply(ttl, w, s).now, h) || Dead(Apply(ttl, w, s), h)
  {
    HeldIsGranted(w, h);
  }

  // Whatever happens to a pair that held the key: it holds it, or it is dead.
  lemma {:induction false} HeldOrDead(ttl: int, w: World, steps: seq<Step>, h: Handle)
    requires Inv(w) && Legal(ttl, w, steps) && (Holds(w.keys, w.now, h) || Dead(w, h))
    ensures var w' := Run(ttl, w, steps); Holds(w'.keys, w'.now, h) || Dead(w', h)
    decreases |steps|
  {
    if steps != [] {
      StepKeepsInv(ttl, w, steps[0]);
      if Dead(w, h) {
        DeadStep(ttl, w, steps[0], h);
      } else {
        HeldStep(ttl, w, steps[0], h);
      }
      HeldOrDead(ttl, Apply(ttl, w, steps[0]), steps[1..], h);
    }
  }

  // Nothing that a dead pair tries succeeds or changes anything, at any point of any run.
  lemma {:induction false} DeadStaysDead(ttl: int, w: World, steps: seq<Step>, h: Handle, i: nat)
    requires Dead(w, h) && Legal(ttl, w, steps) && i < |steps|
    ensures Dead(Run(ttl, w, steps[..i]), h)
    ensures By(steps[i], h) ==>
      !Answer(Run(ttl, w, steps[..i]), steps[i])
          && Apply(ttl, Run(ttl, w, steps[..i]), steps[i]) == Run(ttl, w, steps[..i])
    decreases |steps|
  {
    DeadStep(ttl, w, steps[0], h);
    if i > 0 {
      DeadStaysDead(ttl, Apply(ttl, w, steps[0]), steps[1..], h, i - 1);
      assert steps[..i][0] == steps[0] && steps[..i][1..] == steps[1..][..i - 1];
    }
  }

  // Once a pair stops holding the key, no later renew, release or assert by it succeeds or changes
  // anything, over every run: neither a new holder nor a free branch is ever disturbed by it.
  lemma LostStaysLost(ttl: int, w: World, before: seq<Step>, after: seq<Step>, h: Handle, i: nat)
    requires Inv(w) && Legal(ttl, w, before) && Holds(w.keys, w.now, h)
    requires var lost := Run(ttl, w, before); !Holds(lost.keys, lost.now, h) && Legal(ttl, lost, after)
    requires i < |after| && By(after[i], h)
    ensures var at := Run(ttl, Run(ttl, w, before), after[..i]); !Answer(at, after[i]) && Apply(ttl, at, after[i]) == at
  {
    HeldOrDead(ttl, w, before, h);
    DeadStaysDead(ttl, Run(ttl, w, before), after, h, i);
  }

  // Only time, an unlock and the holder itself change a held key.
  lemma HolderUndisturbed(ttl: int, w: World, s: Step, h: Handle)
    requires Holds(w.keys, w.now, h) && s != ForceRelease(h.branch) && s != Renew(h) && s != Release(h)
    ensures h.branch in Apply(ttl, w, s).keys && Apply(ttl, w, s).keys[h.branch] == w.keys[h.branch]
  {
  }

  lemma {:induction false} RunKeepsDead(ttl: int, w: World, steps: seq<Step>, h: Handle)
    requires Dead(w, h) && Legal(ttl, w, steps)
    ensures Dead(Run(ttl, w, steps), h)
    decreases |steps|
  {
    if steps != [] {
      DeadStep(ttl, w, steps[0], h);
      RunKeepsDead(ttl, Apply(ttl, w, steps[0]), steps[1..], h);
    }
  }

  // Holders of a branch succeed one another: once another pair passes the fencing check of the
  // branch, the one that passed it before never renews, releases or passes the check again.
  lemma HoldersSucceedOneAnother(ttl: int, w: World, before: seq<Step>, after: seq<Step>, a: Handle, b: Handle, s: Step)
    requires Inv(w) && Legal(ttl, w, before) && Legal(ttl, Run(ttl, w, before), after)
    requires a.branch == b.branch && a != b && By(s, a)
    requires Answer(w, Assert(a)) && Answer(Run(ttl, w, before), Assert(b))
    ensures !Answer(Run(ttl, Run(ttl, w, before), after), s)
  {
    var handed := Run(ttl, w, before);
    HeldOrDead(ttl, w, before, a);
    assert !Holds(handed.keys, handed.now, a);
    RunKeepsDead(ttl, handed, after, a);
  }

  // ---- how long a lease lasts

  // Nobody renews, releases or unlocks the lease.
  predicate Untouched(steps: seq<Step>, h: Handle) {
    forall s :: s in steps ==> s != Renew(h) && s != Release(h) && s != ForceRelease(h.branch)
  }

  lemma {:induction false} HeldUntil(ttl: int, w: World, steps: seq<Step>, h: Handle, until: int)
    requires Inv(w) && Legal(ttl, w, steps) && Untouched(steps, h)
    requires Holds(w.keys, w.now, h) && w.keys[h.branch].expiry == until
    ensures var w' := Run(ttl, w, steps);
            Holds(w'.keys, w'.now, h) <==> w'.now <= until
    decreases |steps|
  {
    if steps != [] {
      var w1 := Apply(ttl, w, steps[0]);
      assert steps[0] in steps && forall s :: s in steps[1..] ==> s in steps;
      StepKeepsInv(ttl, w, steps[0]);
      HolderUndisturbed(ttl, w, steps[0], h);
      if w1.now <= until {
        HeldUntil(ttl, w1, steps[1..], h, until);
      } else {
        HeldStep(ttl, w, steps[0], h);
        RunKeepsDead(ttl, w1, steps[1..], h);
        TimePasses(ttl, w1, steps[1..]);
      }
    }
  }

  lemma {:induction false} TimePasses(ttl: int, w: World, steps: seq<Step>)
    ensures Run(ttl, w, steps).now >= w.now
    decreases |steps|
  {
    if steps != [] { TimePasses(ttl, Apply(ttl, w, steps[0]), steps[1..]); }
  }

  // A lease that is granted or renewed at an instant and then left alone is held for the time to live
  // and no longer, whatever happens meanwhile; until then every other acquire of its branch fails.
  lemma LeaseLasts(ttl: int, w: World, s: Step, h: Handle, steps: seq<Step>, rival: Handle)
    requires ttl > 0 && Inv(w) && Enabled(w, s) && (s == Acquire(h) || s == Renew(h)) && Answer(w, s)
    requires Legal(ttl, Apply(ttl, w, s), steps) && Untouched(steps, h)
    ensures var w' := Run(ttl, Apply(ttl, w, s), steps);
            && (Holds(w'.keys, w'.now, h) <==> w'.now <= w.now + ttl)
            && (w'.now <= w.now + ttl && rival.branch == h.branch ==> !Answer(w', Acquire(rival)))
  {
    StepKeepsInv(ttl, w, s);
    HeldUntil(ttl, Apply(ttl, w, s), steps, h, w.now + ttl);
  }

  // A release by the holder and an unlock free the branch at once and leave every other branch alone.
  lemma FreedAtOnce(ttl: int, w: World, s: Step, branch: string, other: string, later: nat)
    requires (s == ForceRelease(branch) || (s.Release? && s.h.branch == branch)) && Answer(w, s)
    ensures var w' := Apply(ttl, w, s);
            && !Live(w'.keys, branch, w.now + later)
            && (other != branch ==> (Live(w'.keys, other, w.now + later) <==> Live(w.keys, other, w.now + later)))
            && (other != branch && other in w.keys ==> other in w'.keys && w'.keys[other] == w.keys[other])
  {
  }

  // A holder's own operations succeed exactly for tokens that Lua prints in full.
  lemma WideTokensNeverMatch(w: World, h: Handle)
    requires Holds(w.keys, w.now, h)
    ensures Answer(w, Renew(h)) <==> h.token < WIDE_TOKEN
    ensures Answer(w, Release(h)) <==> h.token < WIDE_TOKEN
    ensures Answer(w, Assert(h)) <==> h.token < WIDE_TOKEN && w.now < w.keys[h.branch].expiry
  {
  }
}
