/**
 The branch_waiters queue (db/queries.py, router/transitions.py, runner/dispatcher.py).

 Tasks wait per branch in queue_order; the dispatcher takes a branch's queued head and marks it
 leased, and an admin unlock makes the oldest active waiter dispatchable again.
 */
module Waiters {
  import opened Common

  datatype Status = Queued | Leased | PausedSystemDegraded | Removed

  datatype Place = Place(branch: string, taskId: string)

  datatype Waiter = Waiter(order: nat, status: Status)

  type Queue = map<Place, Waiter>

  // What every reachable queue satisfies.
  ghost predicate OrdersUnique(q: Queue) {
    forall a, b :: Tied(q, a, b) ==> a == b
  }

  predicate Tied(q: Queue, a: Place, b: Place) {
    a in q && b in q && a.branch == b.branch && q[a].order == q[b].order
  }

  predicate Waits(q: Queue, branch: string, among: set<Status>, p: Place) {
    p in q && p.branch == branch && q[p].status in among
  }

  // ... ORDER BY queue_order ASC LIMIT 1
  ghost predicate IsFirst(q: Queue, branch: string, among: set<Status>, p: Place) {
    Waits(q, branch, among, p) && forall o :: Waits(q, branch, among, o) ==> q[p].order <= q[o].order
  }

  ghost function First(q: Queue, branch: string, among: set<Status>): Option<Place> {
    if p :| IsFirst(q, branch, among, p) then Some(p) else None
  }

  // peek_head_waiter
  ghost function QueuedHead(q: Queue, branch: string): Option<Place> {
    First(q, branch, {Queued})
  }

  function BranchOrders(q: Queue, branch: string): set<nat> {
    set p | p in q && p.branch == branch :: q[p].order
  }

  // COALESCE(MAX(queue_order), 0) + 1
  ghost function NextOrder(q: Queue, branch: string): (n: nat)
    ensures n >= 1 && forall p :: p in q && p.branch == branch ==> q[p].order < n
    ensures n > 1 ==> n - 1 in BranchOrders(q, branch)
  {
    var s := BranchOrders(q, branch);
    assert forall p :: p in q && p.branch == branch ==> q[p].order in s;
    if s == {} then 1 else Greatest(s) + 1
  }

  ghost function Greatest(s: set<nat>): (m: nat)
    requires s != {}
    ensures m in s && forall x :: x in s ==> x <= m
  {
    var x :| x in s;
    if s == {x} then x
    else
      var rest := Greatest(s - {x});
      assert s == (s - {x}) + {x};
      if x > rest then x else rest
  }

  // enqueue_waiter on a place that is free
  ghost function Enqueued(q: Queue, p: Place, status: Status): Queue {
    q[p := Waiter(NextOrder(q, p.branch), status)]
  }

  function WithStatus(q: Queue, p: Place, status: Status): Queue {
    if p in q then q[p := q[p].(status := status)] else q
  }

  // requeue_branch_head_waiter
  ghost function Requeued(q: Queue, branch: string): Queue {
    var f := First(q, branch, {Leased, Queued});
    if f.Some? && q[f.value].status == Leased then WithStatus(q, f.value, Queued) else q
  }

  // Some waiter of a non-empty selection comes first.
  lemma FirstExists(q: Queue, branch: string, among: set<Status>, p: Place)
    requires Waits(q, branch, among, p)
    ensures exists f :: IsFirst(q, branch, among, f)
  {
    var s := set o | o in q && Waits(q, branch, among, o) :: q[o].order;
    assert q[p].order in s;
    var m := Least(s);
    var f :| f in q && Waits(q, branch, among, f) && q[f].order == m;
    forall o | Waits(q, branch, among, o) ensures q[f].order <= q[o].order {
      assert q[o].order in s;
    }
    assert IsFirst(q, branch, among, f);
  }

  lemma FirstIs(q: Queue, branch: string, among: set<Status>, p: Place)
    requires OrdersUnique(q) && IsFirst(q, branch, among, p)
    ensures First(q, branch, among) == Some(p)
  {
    var f := First(q, branch, among).value;
    assert Tied(q, f, p);
  }

  // Queue numbers stay unique per branch, even after the last waiter left and its number is reused.
  lemma QueueStaysUnique(q: Queue, p: Place, status: Status, branch: string)
    requires OrdersUnique(q)
    ensures p !in q ==> OrdersUnique(Enqueued(q, p, status))
    ensures OrdersUnique(WithStatus(q, p, status))
    ensures OrdersUnique(q - {p})
    ensures OrdersUnique(Requeued(q, branch))
  {
    var e, w, r, u := Enqueued(q, p, status), WithStatus(q, p, status), q - {p}, Requeued(q, branch);
    forall a, b | Tied(w, a, b) ensures a == b { assert Tied(q, a, b); }
    forall a, b | Tied(r, a, b) ensures a == b { assert Tied(q, a, b); }
    forall a, b | Tied(u, a, b) ensures a == b { assert Tied(q, a, b); }
    if p !in q {
      forall a, b | Tied(e, a, b) ensures a == b { assert a != p && b != p ==> Tied(q, a, b); }
    }
  }

  // A newcomer queues behind everyone on its branch, so a head stays the head.
  lemma EnqueueKeepsHead(q: Queue, p: Place, h: Place)
    requires OrdersUnique(q) && p !in q && QueuedHead(q, p.branch) == Some(h)
    ensures QueuedHead(Enqueued(q, p, Queued), p.branch) == Some(h)
  {
    var e := Enqueued(q, p, Queued);
    QueueStaysUnique(q, p, Queued, p.branch);
    assert IsFirst(q, p.branch, {Queued}, h);
    forall o | Waits(e, p.branch, {Queued}, o) ensures e[h].order <= e[o].order {
      if o != p { assert Waits(q, p.branch, {Queued}, o); }
    }
    FirstIs(e, p.branch, {Queued}, h);
  }

  // Unlock makes the oldest active waiter of the branch its queued head, a second unlock changes
  // nothing, and no other waiter moves. Without an active waiter nothing happens.
  lemma RequeueOldestActive(q: Queue, branch: string)
    requires OrdersUnique(q)
    ensures Requeued(Requeued(q, branch), branch) == Requeued(q, branch)
    ensures (exists p :: Waits(q, branch, {Leased, Queued}, p)) ==>
              exists f :: IsFirst(q, branch, {Leased, Queued}, f) && QueuedHead(Requeued(q, branch), branch) == Some(f)
    ensures (forall p :: !Waits(q, branch, {Leased, Queued}, p)) ==> Requeued(q, branch) == q
    ensures forall p :: p in q && !IsFirst(q, branch, {Leased, Queued}, p) ==> Requeued(q, branch)[p] == q[p]
    ensures Requeued(q, branch).Keys == q.Keys
  {
    var r := Requeued(q, branch);
    var active := {Leased, Queued};
    if p :| Waits(q, branch, active, p) {
      FirstExists(q, branch, active, p);
      var f :| IsFirst(q, branch, active, f);
      FirstIs(q, branch, active, f);
      QueueStaysUnique(q, f, Queued, branch);
      forall o | Waits(r, branch, active, o) ensures r[f].order <= r[o].order {
        assert Waits(q, branch, active, o);
      }
      assert IsFirst(r, branch, active, f) && IsFirst(r, branch, {Queued}, f);
      FirstIs(r, branch, {Queued}, f);
      FirstIs(r, branch, active, f);
    }
  }

  // _select_dispatch_candidate: a queued waiter, ready to be dispatched, that no queued waiter of
  // its branch precedes.
  ghost predicate Dispatchable(q: Queue, states: map<string, TaskState>, p: Place) {
    && p.taskId in states && states[p.taskId] == PlanApproved
    && p in q && q[p].status == Queued
    && forall o :: Waits(q, p.branch, {Queued}, o) ==> q[p].order <= q[o].order
  }

  lemma DispatchableIsHead(q: Queue, states: map<string, TaskState>, p: Place)
    requires OrdersUnique(q)
    ensures Dispatchable(q, states, p) <==>
      QueuedHead(q, p.branch) == Some(p) && p.taskId in states && states[p.taskId] == PlanApproved
  {
    if Dispatchable(q, states, p) {
      assert IsFirst(q, p.branch, {Queued}, p);
      FirstIs(q, p.branch, {Queued}, p);
    }
  }

  // ORDER BY branch ASC: text in code point order
  predicate Before(a: string, b: string) {
    a == "" || (b != "" && (a[0] < b[0] || (a[0] == b[0] && Before(a[1..], b[1..]))))
  }

  // The first character at which two texts differ decides, and a text comes before its continuations.
  lemma {:induction false} BeforeMeaning(a: string, b: string)
    ensures Before(a, b)
            <==> a <= b || exists k :: 0 <= k < |a| && k < |b| && a[..k] == b[..k] && a[k] < b[k]
  {
    if a != "" && b != "" && a[0] == b[0] {
      BeforeMeaning(a[1..], b[1..]);
      if k :| 0 <= k < |a| - 1 && k < |b| - 1 && a[1..][..k] == b[1..][..k] && a[1..][k] < b[1..][k] {
        assert a[..k + 1] == [a[0]] + a[1..][..k] && b[..k + 1] == [b[0]] + b[1..][..k];
      }
      if k :| 0 <= k < |a| && k < |b| && a[..k] == b[..k] && a[k] < b[k] {
        assert k > 0 && a[1..][..k - 1] == a[..k][1..] && b[1..][..k - 1] == b[..k][1..];
        assert a[1..][k - 1] < b[1..][k - 1];
      }
      assert a[1..] <= b[1..] <==> a <= b;
    }
  }

  lemma {:induction false} BeforeOrders(a: string, b: string)
    ensures Before(a, b) || Before(b, a)
    ensures Before(a, b) && Before(b, a) ==> a == b
  {
    if a != "" && b != "" && a[0] == b[0] {
      BeforeOrders(a[1..], b[1..]);
      assert a == [a[0]] + a[1..] && b == [b[0]] + b[1..];
    }
  }

  lemma {:induction false} BeforeTransitive(a: string, b: string, c: string)
    requires Before(a, b) && Before(b, c)
    ensures Before(a, c)
  {
    if a != "" && b != "" && c != "" && a[0] == b[0] && b[0] == c[0] {
      BeforeTransitive(a[1..], b[1..], c[1..]);
    }
  }

  lemma {:induction false} FirstBranch(s: set<Place>)
    requires s != {}
    ensures exists p :: p in s && forall o :: o in s ==> Before(p.branch, o.branch)
    decreases |s|
  {
    var x :| x in s;
    var rest := s - {x};
    BeforeOrders(x.branch, x.branch);
    if rest == {} {
      assert s == {x};
    } else {
      FirstBranch(rest);
      var p :| p in rest && forall o :: o in rest ==> Before(p.branch, o.branch);
      BeforeOrders(p.branch, x.branch);
      var first := if Before(p.branch, x.branch) then p else x;
      forall o | o in s ensures Before(first.branch, o.branch) {
        if o != x && first == x { BeforeTransitive(x.branch, p.branch, o.branch); }
      }
      assert first in s;
    }
  }

  // The row that the dispatcher's query answers.
  ghost predicate IsCandidate(q: Queue, states: map<string, TaskState>, p: Place) {
    Dispatchable(q, states, p) && forall o :: Dispatchable(q, states, o) ==> Before(p.branch, o.branch)
  }

  // There is a candidate exactly when something is dispatchable, and it is the only one.
  lemma OneCandidate(q: Queue, states: map<string, TaskState>)
    requires OrdersUnique(q)
    ensures (exists p :: Dispatchable(q, states, p)) <==> (exists p :: IsCandidate(q, states, p))
    ensures forall p, o :: IsCandidate(q, states, p) && IsCandidate(q, states, o) ==> p == o
  {
    if any :| Dispatchable(q, states, any) {
      var s := set p | p in q && Dispatchable(q, states, p);
      assert any in s;
      FirstBranch(s);
      var p :| p in s && forall o :: o in s ==> Before(p.branch, o.branch);
      assert IsCandidate(q, states, p);
    }
    forall p, o | IsCandidate(q, states, p) && IsCandidate(q, states, o) ensures p == o {
      BeforeOrders(p.branch, o.branch);
      DispatchableIsHead(q, states, p);
      DispatchableIsHead(q, states, o);
    }
  }

  class WaiterTable {
    var rows: Queue

    ghost predicate Valid()
      reads this
    {
      OrdersUnique(rows)
    }

    constructor ()
      ensures Valid() && rows == map[]
    {
      rows := map[];
    }

    method Enqueue(branch: string, taskId: string, status: Status) returns (r: Result<nat, string>)
      requires Valid()
      modifies this
      ensures Valid()
      ensures r.Err? <==> Place(branch, taskId) in old(rows)
      ensures r.Err? ==> rows == old(rows)
      ensures r.Ok? ==>
        rows == Enqueued(old(rows), Place(branch, taskId), status) && r.value == NextOrder(old(rows), branch)
      ensures r.Ok? ==>
                && rows == old(rows)[Place(branch, taskId) := Waiter(r.value, status)]
                && r.value >= 1 && (forall o :: o in old(rows) && o.branch == branch ==> old(rows)[o].order < r.value)
                && (r.value > 1 ==>
                      exists o :: o in old(rows) && o.branch == branch && old(rows)[o].order + 1 == r.value)
    {
      var p := Place(branch, taskId);
      QueueStaysUnique(rows, p, status, branch);
      if p in rows {
        return Err("UNIQUE constraint failed");
      }
      var orders := BranchOrders(rows, branch) + {0};
      assert 0 in orders;
      GreatestIs(orders);
      var top :| top in orders && forall o :: o in orders ==> o <= top;
      NextOrderIs(rows, branch, top);
      rows := rows[p := Waiter(top + 1, status)];
      r := Ok(top + 1);
    }

    method PeekHead(branch: string) returns (head: Option<Place>)
      requires Valid()
      ensures head == QueuedHead(rows, branch)
    {
      head := FirstOf(branch, {Queued});
    }

    method FirstOf(branch: string, among: set<Status>) returns (head: Option<Place>)
      requires Valid()
      ensures head == First(rows, branch, among)
    {
      var c := set p | p in rows && Waits(rows, branch, among, p);
      if c == {} {
        assert forall p :: Waits(rows, branch, among, p) ==> p in c;
        return None;
      }
      ghost var any :| any in c;
      FirstExists(rows, branch, among, any);
      ghost var f :| IsFirst(rows, branch, among, f);
      assert f in c && forall o :: o in c ==> rows[f].order <= rows[o].order;
      var p :| p in c && forall o :: o in c ==> rows[p].order <= rows[o].order;
      assert forall o :: Waits(rows, branch, among, o) ==> o in c;
      FirstIs(rows, branch, among, p);
      head := Some(p);
    }

    method UpdateStatus(branch: string, taskId: string, status: Status)
      requires Valid()
      modifies this
      ensures Valid() && rows == WithStatus(old(rows), Place(branch, taskId), status)
      ensures var p := Place(branch, taskId);
              rows == if p in old(rows) then old(rows)[p := Waiter(old(rows)[p].order, status)] else old(rows)
    {
      QueueStaysUnique(rows, Place(branch, taskId), status, branch);
      var p := Place(branch, taskId);
      if p in rows {
        rows := rows[p := rows[p].(status := status)];
      }
    }

    method Remove(branch: string, taskId: string)
      requires Valid()
      modifies this
      ensures Valid() && rows == old(rows) - {Place(branch, taskId)}
    {
      QueueStaysUnique(rows, Place(branch, taskId), Queued, branch);
      rows := rows - {Place(branch, taskId)};
    }

    method RequeueBranchHead(branch: string) returns (taskId: Option<string>)
      requires Valid()
      modifies this
      ensures Valid() && rows == Requeued(old(rows), branch)
      ensures taskId == match First(old(rows), branch, {Leased, Queued})
        case None => None
        case Some(p) => Some(p.taskId)
      ensures taskId.Some? ==> QueuedHead(rows, branch) == Some(Place(branch, taskId.value))
      ensures forall f :: IsFirst(old(rows), branch, {Leased, Queued}, f) ==>
                taskId == Some(f.taskId) && rows == old(rows)[f := Waiter(old(rows)[f].order, Queued)]
      ensures (forall p :: !Waits(old(rows), branch, {Leased, Queued}, p)) ==> taskId == None && rows == old(rows)
    {
      RequeueOldestActive(rows, branch);
      var f := FirstOf(branch, {Leased, Queued});
      QueueStaysUnique(rows, Place(branch, ""), Queued, branch);
      forall o | IsFirst(rows, branch, {Leased, Queued}, o) ensures f == Some(o) {
        FirstIs(rows, branch, {Leased, Queued}, o);
      }
      if f.None? {
        return None;
      }
      assert IsFirst(rows, branch, {Leased, Queued}, f.value);
      ghost var oldest :| IsFirst(rows, branch, {Leased, Queued}, oldest)
          && QueuedHead(Requeued(rows, branch), branch) == Some(oldest);
      FirstIs(rows, branch, {Leased, Queued}, oldest);
      if rows[f.value].status == Leased {
        rows := rows[f.value := rows[f.value].(status := Queued)];
      }
      taskId := Some(f.value.taskId);
    }

    // The states of all tasks stand for the join with the tasks table.
    method SelectDispatchCandidate(states: map<string, TaskState>) returns (candidate: Option<Place>)
      requires Valid()
      ensures candidate.None? <==> forall p :: !Dispatchable(rows, states, p)
      ensures candidate.Some? ==>
        QueuedHead(rows, candidate.value.branch) == candidate && IsCandidate(rows, states, candidate.value)
    {
      var queued := set p | p in rows && rows[p].status == Queued;
      var c := set p | p in queued && p.taskId in states && states[p.taskId] == PlanApproved
                    && forall o :: o in queued && o.branch == p.branch ==> rows[p].order <= rows[o].order;
      assert forall p, o :: Waits(rows, p, {Queued}, o) <==> o in queued && o.branch == p;
      assert forall p :: p in c <==> Dispatchable(rows, states, p);
      if c == {} {
        return None;
      }
      FirstBranch(c);
      var p :| p in c && forall o :: o in c ==> Before(p.branch, o.branch);
      DispatchableIsHead(rows, states, p);
      candidate := Some(p);
    }
  }

  lemma GreatestIs(s: set<nat>)
    requires s != {}
    ensures exists top :: top in s && forall o :: o in s ==> o <= top
  {
    var g := Greatest(s);
  }

  lemma NextOrderIs(q: Queue, branch: string, top: nat)
    requires top in BranchOrders(q, branch) + {0}
    requires forall o :: o in BranchOrders(q, branch) + {0} ==> o <= top
    ensures NextOrder(q, branch) == top + 1
  {
    var n := NextOrder(q, branch);
    if top in BranchOrders(q, branch) {
      var p :| p in q && p.branch == branch && q[p].order == top;
    }
    assert n > 1 ==> n - 1 in BranchOrders(q, branch) + {0};
  }
}
