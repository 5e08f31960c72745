/**
 The dispatcher's step (runner/dispatcher.py) and the admin unlock (runner/unlock_handler.py):
 a branch's queued head gets a fresh token and, if the branch is free, its lease.
 */
module Dispatcher {
  import opened Common
  import opened Waiters
  import L = Lease

  // internal.dispatch_attempt records of the journal
  datatype Attempt =
    | LeaseAcquired(task: string, branch: string, token: nat)
    | AdminUnlock(task: string, branch: string)

  datatype State = State(rows: Queue, last: map<string, nat>, keys: L.Keys, journal: seq<Attempt>,
                         handles: map<string, L.Handle>, dispatched: Option<string>)

  // What dispatching a candidate leaves behind.
  function Dispatched(s: State, p: Place, ttl: int, now: int): (r: State) {
    var token := L.LastToken(s.last, p.branch) + 1;
    var drawn := s.(last := s.last[p.branch := token], dispatched := None);
    if L.Live(s.keys, p.branch, now) then drawn
    else drawn.(
      keys := s.keys[p.branch := L.Holder(p.taskId, token, now + ttl)],
      journal := s.journal + [LeaseAcquired(p.taskId, p.branch, token)],
      rows := WithStatus(s.rows, p, Leased),
      handles := s.handles[p.taskId := L.Handle(p.branch, p.taskId, token)],
      dispatched := Some(p.taskId))
  }

  // The queued waiter p was leased to the branch under the next token: the handle is kept, the journal
  // has one record that names it, the waiter keeps its place in the queue, and nothing else moved.
  ghost predicate Leases(s: State, r: State, p: Place, ttl: int, now: int) {
    && p in s.rows && s.rows[p].status == Queued && !L.Live(s.keys, p.branch, now)
    && p.taskId in r.handles
    && var h := r.handles[p.taskId];
    && h.branch == p.branch && h.task == p.taskId
    && h.token == (if p.branch in s.last then s.last[p.branch] + 1 else 1)
    && r.last == s.last[p.branch := h.token]
    && r.keys == s.keys[p.branch := L.Holder(p.taskId, h.token, now + ttl)]
    && r.journal == s.journal + [LeaseAcquired(p.taskId, p.branch, h.token)]
    && r.rows == s.rows[p := Waiter(s.rows[p].order, Leased)]
    && r.handles == s.handles[p.taskId := h]
    && r.dispatched == Some(p.taskId)
  }

  class Dispatcher {
    const waiters: WaiterTable
    const tokens: L.BranchTokens
    const lease: L.RedisLease
    var journal: seq<Attempt>
    var handles: map<string, L.Handle>
    var dispatched: Option<string>

    constructor (waiters: WaiterTable, tokens: L.BranchTokens, lease: L.RedisLease)
      ensures this.waiters == waiters && this.tokens == tokens && this.lease == lease
      ensures journal == [] && handles == map[] && dispatched == None
    {
      this.waiters, this.tokens, this.lease := waiters, tokens, lease;
      journal, handles, dispatched := [], map[], None;
    }

    ghost function Snapshot(): State
      reads this, waiters, tokens, lease
    {
      State(waiters.rows, tokens.last, lease.keys, journal, handles, dispatched)
    }

    // breakerOpen: some failure code is open; states: the tasks table.
    method Step(breakerOpen: bool, states: map<string, TaskState>, now: int) returns (n: nat)
      requires waiters.Valid()
      modifies this, waiters, tokens, lease
      ensures waiters.Valid()
      ensures n == if dispatched.Some? then 1 else 0
      ensures breakerOpen || (forall p :: !Dispatchable(old(waiters.rows), states, p)) ==>
                Snapshot() == old(Snapshot()).(dispatched := None)
      ensures !breakerOpen && (exists p :: Dispatchable(old(waiters.rows), states, p)) ==>
        exists p ::
          IsCandidate(old(waiters.rows), states, p) && Snapshot() == Dispatched(old(Snapshot()), p, lease.ttl, now)
      ensures n == 0 ==> Snapshot() == old(Snapshot()).(last := tokens.last, dispatched := None)
      ensures n == 1 ==>
        exists p :: IsCandidate(old(waiters.rows), states, p) && Leases(old(Snapshot()), Snapshot(), p, lease.ttl, now)
    {
      ghost var before := Snapshot();
      n := 0;
      dispatched := None;
      if breakerOpen {
        return;
      }
      var candidate := waiters.SelectDispatchCandidate(states);
      if candidate.None? {
        return;
      }
      var p := candidate.value;
      var token := tokens.NextBranchToken(p.branch);
      var h := lease.Acquire(p.branch, p.taskId, token, now);
      if h.None? {
        assert Snapshot() == Dispatched(before, p, lease.ttl, now);
        return;
      }
      journal := journal + [LeaseAcquired(p.taskId, p.branch, token)];
      waiters.UpdateStatus(p.branch, p.taskId, Leased);
      handles := handles[p.taskId := h.value];
      dispatched := Some(p.taskId);
      n := 1;
      assert Snapshot() == Dispatched(before, p, lease.ttl, now);
      assert Leases(before, Snapshot(), p, lease.ttl, now);
    }

    // handle_unlock
    method HandleUnlock(branch: string, now: int)
      requires waiters.Valid()
      modifies this, waiters, lease
      ensures waiters.Valid()
      ensures Snapshot() == Unlocked(old(Snapshot()), branch, now)
      ensures lease.keys == if L.Live(old(lease.keys), branch, now) && branch != "" then old(lease.keys) - {branch}
                            else old(lease.keys)
      ensures forall f :: branch != "" && IsFirst(old(waiters.rows), branch, {Leased, Queued}, f) ==>
                && waiters.rows == old(waiters.rows)[f := Waiter(old(waiters.rows)[f].order, Queued)]
                && journal == old(journal) + [AdminUnlock(f.taskId, branch)]
      ensures branch == "" || (forall p :: !Waits(old(waiters.rows), branch, {Leased, Queued}, p)) ==>
                waiters.rows == old(waiters.rows) && journal == old(journal)
    {
      if branch == "" {
        return;
      }
      var _ := lease.ForceRelease(branch, now);
      var task := waiters.RequeueBranchHead(branch);
      if task.Some? {
        journal := journal + [AdminUnlock(task.value, branch)];
      }
    }
  }

  ghost function Unlocked(s: State, branch: string, now: int): State {
    if branch == "" then s
    else
      var head := First(s.rows, branch, {Leased, Queued});
      s.(keys := if L.Live(s.keys, branch, now) then s.keys - {branch} else s.keys,
         rows := Requeued(s.rows, branch),
         journal := if head.Some? then s.journal + [AdminUnlock(head.value.taskId, branch)] else s.journal)
  }

  // Dispatching is a run of the lease protocol: draw a token, try it once.
  lemma DispatchIsRun(s: State, p: Place, ttl: int, now: int, drawn: set<L.Handle>, granted: seq<L.Handle>)
    ensures var w := L.World(s.keys, s.last, drawn, granted, now);
      var h := L.Handle(p.branch, p.taskId, L.LastToken(s.last, p.branch) + 1);
      var steps := [L.Draw(p.branch, p.taskId), L.Acquire(h)];
      && L.Legal(ttl, w, steps)
      && L.Run(ttl, w, steps).keys == Dispatched(s, p, ttl, now).keys
      && L.Run(ttl, w, steps).last == Dispatched(s, p, ttl, now).last
      && (Dispatched(s, p, ttl, now).dispatched.Some? <==> L.Answer(L.Apply(ttl, w, steps[0]), steps[1]))
      && (Dispatched(s, p, ttl, now).dispatched.Some? ==> L.Run(ttl, w, steps).granted == granted + [h])
  {
    var w := L.World(s.keys, s.last, drawn, granted, now);
    var h := L.Handle(p.branch, p.taskId, L.LastToken(s.last, p.branch) + 1);
    var steps := [L.Draw(p.branch, p.taskId), L.Acquire(h)];
    var w1 := L.Apply(ttl, w, steps[0]);
    var w2 := L.Apply(ttl, w1, steps[1]);
    assert steps[1..] == [L.Acquire(h)] && steps[1..][1..] == [];
    assert L.Run(ttl, w2, []) == w2;
    assert L.Run(ttl, w1, steps[1..]) == w2;
  }

  // A dispatched task was the queued head of its branch, on a free branch; it now holds the lease
  // under the handle kept for it, and no queued waiter of the branch was overtaken. A task is not
  // dispatched exactly when its branch is held, which changes nothing but the token counter.
  lemma DispatchMeaning(s: State, states: map<string, TaskState>, p: Place, ttl: int, now: int)
    requires OrdersUnique(s.rows) && ttl > 0 && Dispatchable(s.rows, states, p)
    ensures var r := Dispatched(s, p, ttl, now);
      && (r.dispatched.Some? <==> !L.Live(s.keys, p.branch, now))
      && (r.dispatched.Some? ==>
            && QueuedHead(s.rows, p.branch) == Some(p)
            && Leases(s, r, p, ttl, now)
            && L.Holds(r.keys, now, r.handles[p.taskId])
            && !Dispatchable(r.rows, states, p))
      && (r.dispatched.None? ==> r == s.(last := r.last, dispatched := None))
      && (forall b :: b != p.branch ==> L.LastToken(r.last, b) == L.LastToken(s.last, b))
      && L.LastToken(r.last, p.branch) > L.LastToken(s.last, p.branch)
  {
    DispatchableIsHead(s.rows, states, p);
  }

  // An unlock after a dispatch makes the oldest active waiter of the branch its queued head: the
  // dispatched one exactly when no waiter of the branch that was leased before is older.
  lemma UnlockAfterDispatch(s: State, states: map<string, TaskState>, p: Place, ttl: int, now: int, later: int)
    requires OrdersUnique(s.rows) && Dispatchable(s.rows, states, p) && !L.Live(s.keys, p.branch, now) && p.branch != ""
    ensures var u := Unlocked(Dispatched(s, p, ttl, now), p.branch, later);
      && (exists f :: IsFirst(s.rows, p.branch, {Leased, Queued}, f) && QueuedHead(u.rows, p.branch) == Some(f))
      && (QueuedHead(u.rows, p.branch) == Some(p)
          <==> forall o :: Waits(s.rows, p.branch, {Leased}, o) ==> s.rows[p].order <= s.rows[o].order)
  {
    var r := Dispatched(s, p, ttl, now);
    var active := {Leased, Queued};
    QueueStaysUnique(s.rows, p, Leased, p.branch);
    assert forall o :: Waits(r.rows, p.branch, active, o) <==> Waits(s.rows, p.branch, active, o);
    assert Waits(s.rows, p.branch, active, p);
    FirstExists(s.rows, p.branch, active, p);
    var f :| IsFirst(s.rows, p.branch, active, f);
    assert IsFirst(r.rows, p.branch, active, f);
    UnlockMakesDispatchable(r, states, p.branch, later, f);
    if forall o :: Waits(s.rows, p.branch, {Leased}, o) ==> s.rows[p].order <= s.rows[o].order {
      forall o | Waits(s.rows, p.branch, active, o) ensures s.rows[p].order <= s.rows[o].order {
        assert Waits(s.rows, p.branch, {Leased}, o) || Waits(s.rows, p.branch, {Queued}, o);
      }
      assert Tied(s.rows, p, f);
    } else {
      var o :| Waits(s.rows, p.branch, {Leased}, o) && s.rows[p].order > s.rows[o].order;
      assert Waits(s.rows, p.branch, active, o);
    }
  }

  // After an unlock the branch is free and its oldest active waiter is next, so that an approved
  // one is the candidate of its branch.
  lemma UnlockMakesDispatchable(s: State, states: map<string, TaskState>, branch: string, now: int, f: Place)
    requires OrdersUnique(s.rows) && branch != "" && IsFirst(s.rows, branch, {Leased, Queued}, f)
    ensures var r := Unlocked(s, branch, now);
      && !L.Live(r.keys, branch, now)
      && QueuedHead(r.rows, branch) == Some(f)
      && (Dispatchable(r.rows, states, f) <==> f.taskId in states && states[f.taskId] == PlanApproved)
      && r.journal == s.journal + [AdminUnlock(f.taskId, branch)]
  {
    FirstIs(s.rows, branch, {Leased, Queued}, f);
    RequeueOldestActive(s.rows, branch);
    QueueStaysUnique(s.rows, f, Queued, branch);
    var g :| IsFirst(s.rows, branch, {Leased, Queued}, g) && QueuedHead(Requeued(s.rows, branch), branch) == Some(g);
    FirstIs(s.rows, branch, {Leased, Queued}, g);
    DispatchableIsHead(Requeued(s.rows, branch), states, f);
  }
}
