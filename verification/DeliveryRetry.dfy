// Retries of the projection worker: the backoff and the fatal event.
module DeliveryRetry {
  import opened Common
  import opened Outbox
  import opened Rebuild
  import opened Delivery
  import opened DeliveryTheorems

  lemma {:induction false} Pow2Rises(a: nat, b: nat)
    requires a <= b
    ensures Pow2(a) <= Pow2(b)
  {
    if a < b { Pow2Rises(a, b - 1); }
  }

  lemma ProductRises(c: nat, a: nat, b: nat)
    requires a <= b
    ensures c * a <= c * b
  {
    assert c * b == c * a + c * (b - a);
  }

  // Delays never shrink from one failure to the next and never exceed the cap.
  lemma BackoffRisesToCap(cfg: Config, a: nat, b: nat)
    requires a <= b
    ensures Backoff(cfg, a) <= Backoff(cfg, b) <= cfg.cap
    ensures Backoff(cfg, b) >= Min(cfg.initial, cfg.cap)
  {
    var ea, eb := if a > 1 then a - 1 else 0, if b > 1 then b - 1 else 0;
    Pow2Rises(ea, eb);
    ProductRises(cfg.initial, Pow2(ea), Pow2(eb));
    ProductRises(cfg.initial, 1, Pow2(eb));
  }

  // ---- the fatal event

  function Failures(events: seq<SysEvent>, id: nat): nat {
    if events == [] then 0
    else
      var last := events[|events| - 1];
      Failures(events[..|events| - 1], id) + if last.SendFailed? && last.id == id then 1 else 0
  }

  lemma FailuresPlusOne(events: seq<SysEvent>, e: SysEvent, id: nat)
    ensures Failures(events + [e], id) == Failures(events, id) + if e.SendFailed? && e.id == id then 1 else 0
  {
    assert (events + [e])[..|events|] == events;
  }

  // projection_retry_max_attempts, which the first failure already reaches when it is below one
  function Limit(cfg: Config): nat {
    if cfg.maxAttempts > 1 then cfg.maxAttempts else 1
  }

  predicate FatalAt(cfg: Config, events: seq<SysEvent>, id: nat, k: nat) {
    k < |events| && events[k].InfraFatal? && events[k].id == id && events[k].attempt <= Limit(cfg)
  }

  ghost predicate RowRetryOk(cfg: Config, w: World, id: nat) {
    && (id >= w.table.nextId ==> Failures(w.events, id) == 0)
    && (id in w.table.rows ==>
          && w.table.rows[id].attempts == Failures(w.events, id)
          && (w.table.rows[id].attempts >= Limit(cfg) ==> exists k :: FatalAt(cfg, w.events, id, k)))
  }

  ghost predicate RetryOk(cfg: Config, w: World) {
    forall id :: RowRetryOk(cfg, w, id)
  }

  lemma RetryKept(cfg: Config, w: World, w': World, id: nat)
    requires RowRetryOk(cfg, w, id) && w.table.nextId <= w'.table.nextId && w'.events == w.events
    requires id in w'.table.rows ==>
               if id in w.table.rows then w'.table.rows[id].attempts == w.table.rows[id].attempts
               else id >= w.table.nextId && w'.table.rows[id].attempts == 0
    ensures RowRetryOk(cfg, w', id)
  {
  }

  lemma StepKeepsRetry(cfg: Config, w: World, s: Step)
    requires Inv(w) && RetryOk(cfg, w)
    ensures RetryOk(cfg, Apply(cfg, w, s))
  {
    forall id ensures RowRetryOk(cfg, Apply(cfg, w, s), id) {
      assert RowRetryOk(cfg, w, id);
      if Enabled(cfg, w, s) {
        if s.Reschedule? {
          RescheduleKeepsRetry(cfg, w, s.worker, id);
        } else {
          OtherKeepsRetry(cfg, w, s, id);
        }
      }
    }
  }

  lemma OtherKeepsRetry(cfg: Config, w: World, s: Step, id: nat)
    requires Inv(w) && RowRetryOk(cfg, w, id) && Enabled(cfg, w, s) && !s.Reschedule?
    ensures RowRetryOk(cfg, Apply(cfg, w, s), id)
  {
    var w' := Apply(cfg, w, s);
    OtherKeepsAttempts(cfg, w, s, id);
    RetryKept(cfg, w, w'.(events := w.events), id);
    if s.Confirm? {
      OtherEvent(cfg, w.events, ProjectionSent(PhaseOf(w, s.worker).id), id);
    } else if s.ReclaimRows? && w'.events != w.events {
      OtherEvent(cfg, w.events, StaleClaimReclaimed(|StaleIds(w.table, s.now - cfg.staleAfter)|), id);
    }
  }

  lemma OtherKeepsAttempts(cfg: Config, w: World, s: Step, id: nat)
    requires Inv(w) && Enabled(cfg, w, s) && !s.Reschedule?
    ensures var t, t' := w.table, Apply(cfg, w, s).table;
            && t.nextId <= t'.nextId
            && (id in t'.rows ==>
                  if id in t.rows then t'.rows[id].attempts == t.rows[id].attempts
                  else id >= t.nextId && t'.rows[id].attempts == 0)
  {
    assert RowOk(w.table, id);
    if s.Confirm? {
      assert WorkerOk(w, s.worker);
    } else if s.RebuildTask? {
      RebuiltAttempts(w.table, s.request, id);
    }
  }

  lemma RebuiltAttempts(t: Table, q: Request, id: nat)
    requires TableOk(t)
    ensures var t' := Rebuilt(t, q);
            && t.nextId <= t'.nextId
            && (id in t'.rows ==>
                  if id in t.rows then t'.rows[id].attempts == t.rows[id].attempts
                  else id >= t.nextId && t'.rows[id].attempts == 0)
  {
    assert RowOk(t, id);
  }

  // An event that is not about a failed send.
  lemma OtherEvent(cfg: Config, events: seq<SysEvent>, e: SysEvent, id: nat)
    requires !e.SendFailed?
    ensures Failures(events + [e], id) == Failures(events, id)
    ensures (exists k :: FatalAt(cfg, events, id, k)) ==> exists k :: FatalAt(cfg, events + [e], id, k)
  {
    FailuresPlusOne(events, e, id);
    if k: nat :| FatalAt(cfg, events, id, k) { assert FatalAt(cfg, events + [e], id, k); }
  }

  // The events of one failed send, the fatal one among them if it is due.
  function FailureEvents(rowId: nat, attempt: nat, fatal: bool): seq<SysEvent> {
    var failed := [SendFailed(rowId, attempt)];
    if fatal then failed + [InfraFatal(rowId, attempt)] else failed
  }

  lemma LogFailure(cfg: Config, events: seq<SysEvent>, rowId: nat, attempt: nat, fatal: bool, id: nat)
    ensures var es := events + FailureEvents(rowId, attempt, fatal);
            && Failures(es, id) == Failures(events, id) + (if id == rowId then 1 else 0)
            && ((exists k :: FatalAt(cfg, events, id, k)) ==> exists k :: FatalAt(cfg, es, id, k))
            && (fatal && id == rowId && attempt <= Limit(cfg) ==> exists k :: FatalAt(cfg, es, id, k))
  {
    var one, es := events + [SendFailed(rowId, attempt)], events + FailureEvents(rowId, attempt, fatal);
    FailuresPlusOne(events, SendFailed(rowId, attempt), id);
    if k: nat :| FatalAt(cfg, events, id, k) { assert FatalAt(cfg, es, id, k); }
    if fatal {
      assert es == one + [InfraFatal(rowId, attempt)];
      OtherEvent(cfg, one, InfraFatal(rowId, attempt), id);
      if id == rowId && attempt <= Limit(cfg) { assert FatalAt(cfg, es, id, |one|); }
    }
  }

  lemma RescheduleKeepsRetry(cfg: Config, w: World, worker: string, id: nat)
    requires Inv(w) && RowRetryOk(cfg, w, id) && Enabled(cfg, w, Reschedule(worker))
    ensures RowRetryOk(cfg, DoReschedule(cfg, w, worker), id)
  {
    var Faulted(rowId, now) := PhaseOf(w, worker);
    var row := w.table.rows[rowId];
    assert RowOk(w.table, rowId);
    LogFailure(cfg, w.events, rowId, row.attempts + 1, ShouldDegrade(cfg, row, row.attempts + 1, now), id);
  }

  lemma {:induction false} RunKeepsRetry(cfg: Config, w: World, steps: seq<Step>)
    requires Inv(w) && RetryOk(cfg, w)
    ensures RetryOk(cfg, Run(cfg, w, steps))
    decreases |steps|
  {
    if steps != [] {
      StepKeepsInv(cfg, w, steps[0]);
      StepKeepsRetry(cfg, w, steps[0]);
      RunKeepsRetry(cfg, Apply(cfg, w, steps[0]), steps[1..]);
    }
  }

  // In every reachable world attempt_count is the number of failed sends logged for the row, and
  // once it reaches the configured maximum a fatal event numbered no later than that is logged.
  lemma FatalByMaxAttempts(cfg: Config, steps: seq<Step>, id: nat)
    ensures var w := Reached(cfg, steps);
            id in w.table.rows ==>
              && w.table.rows[id].attempts == Failures(w.events, id)
              && (w.table.rows[id].attempts >= Limit(cfg) ==> exists k :: FatalAt(cfg, w.events, id, k))
  {
    StartInv();
    RunKeepsRetry(cfg, Start(), steps);
    assert RowRetryOk(cfg, Reached(cfg, steps), id);
  }

  // What each step logs: a confirmed row once, the claims it frees by their number, a failed send as
  // RetryWaits says, and nothing else.
  lemma StepLogs(cfg: Config, w: World, s: Step)
    requires Enabled(cfg, w, s) && !s.Reschedule?
    ensures var t, w' := w.table, Apply(cfg, w, s);
            var freed := set id | id in t.rows && id in w'.table.rows && t.rows[id].claim != w'.table.rows[id].claim;
            w'.events
            == w.events + (if s.Confirm? then [ProjectionSent(PhaseOf(w, s.worker).id)]
                           else if s.ReclaimRows? && freed != {} then [StaleClaimReclaimed(|freed|)]
                           else [])
  {
    if s.ReclaimRows? {
      var t' := Apply(cfg, w, s).table;
      assert StaleIds(w.table, s.now - cfg.staleAfter)
          == set id | id in w.table.rows && id in t'.rows && w.table.rows[id].claim != t'.rows[id].claim;
    }
  }

  // ---- delays

  // The delay starts at the initial one and doubles with each failure until the cap.
  lemma BackoffDoubles(cfg: Config, attempt: nat)
    requires attempt >= 1
    ensures Backoff(cfg, 1) == if cfg.initial < cfg.cap then cfg.initial else cfg.cap
    ensures var twice := 2 * Backoff(cfg, attempt);
            Backoff(cfg, attempt + 1) == if twice < cfg.cap then twice else cfg.cap
  {
    Doubled(cfg.initial, Pow2(attempt - 1));
  }

  lemma Doubled(c: nat, p: nat)
    ensures c * (2 * p) == 2 * (c * p)
  {
  }

  // A row that a worker is busy with was due when the worker claimed it, a sent row when it was sent.
  predicate BusyDue(w: World, worker: string) {
    var p := PhaseOf(w, worker);
    !p.Idle? ==> p.id in w.table.rows && w.table.rows[p.id].due <= p.now
  }

  predicate SentDue(w: World, id: nat) {
    id in w.table.rows && w.table.rows[id].sent.Some? ==> w.table.rows[id].due <= w.table.rows[id].sent.value
  }

  ghost predicate Punctual(w: World) {
    (forall worker :: BusyDue(w, worker)) && forall id :: SentDue(w, id)
  }

  // The row that the step's worker is busy with.
  predicate Handles(w: World, s: Step, id: nat) {
    (s.Check? || s.Lookup? || s.Send? || s.Confirm? || s.Reschedule? || s.Crash?) && Holds(w, s.worker, id)
  }

  // What a step may do to the due time and the sent mark of a row.
  lemma RowMoves(cfg: Config, w: World, s: Step, id: nat)
    requires Inv(w) && Enabled(cfg, w, s)
    ensures var t, t' := w.table, Apply(cfg, w, s).table;
            && t.nextId <= t'.nextId
            && (id in t.rows ==> id < t.nextId)
            && (id in t'.rows && id !in t.rows ==> id >= t.nextId && t'.rows[id].sent == None)
            && (id in t.rows && t.rows[id].InFlight() ==> id in t'.rows)
            && (id in t.rows && id in t'.rows ==>
                  && (t'.rows[id].due == t.rows[id].due || (s.Reschedule? && Handles(w, s, id)))
                  && (t'.rows[id].sent == t.rows[id].sent
                      || ((s.Check? || s.Confirm?) && Handles(w, s, id)
                          && t'.rows[id].sent == Some(PhaseOf(w, s.worker).now))))
  {
    assert RowOk(w.table, id);
    if s.RebuildTask? {
      RebuildMoves(w, s.request, id);
    } else if s.Check? || s.Confirm? || s.Reschedule? {
      assert WorkerOk(w, s.worker);
    }
  }

  lemma RebuildMoves(w: World, q: Request, id: nat)
    requires Inv(w) && RebuildReady(w, q)
    ensures var t, t' := w.table, Rebuilt(w.table, q);
            && t.nextId <= t'.nextId
            && (id in t'.rows && id !in t.rows ==> id >= t.nextId && t'.rows[id].sent == None)
            && (id in t.rows && t.rows[id].InFlight() ==> id in t'.rows)
            && (id in t.rows && id in t'.rows ==> t'.rows[id] == t.rows[id])
  {
    assert RowOk(w.table, id);
  }

  lemma BusyStaysDue(cfg: Config, w: World, s: Step, worker: string)
    requires Inv(w) && Punctual(w) && Enabled(cfg, w, s)
    ensures BusyDue(Apply(cfg, w, s), worker)
  {
    assert BusyDue(w, worker) && WorkerOk(w, worker);
    var p := PhaseOf(w, worker);
    if s.ClaimRow? {
      assert Least(Candidates(w.table, s.now)) in Candidates(w.table, s.now);
    }
    if !p.Idle? {
      RowMoves(cfg, w, s, p.id);
      if s.Reschedule? && s.worker != worker { Apart(w, s.worker, worker); }
    }
  }

  lemma SentStaysDue(cfg: Config, w: World, s: Step, id: nat)
    requires Inv(w) && Punctual(w) && Enabled(cfg, w, s)
    ensures SentDue(Apply(cfg, w, s), id)
  {
    assert SentDue(w, id);
    RowMoves(cfg, w, s, id);
    if s.Check? || s.Confirm? || s.Reschedule? { assert BusyDue(w, s.worker) && WorkerOk(w, s.worker); }
  }

  lemma StepKeepsPunctual(cfg: Config, w: World, s: Step)
    requires Inv(w) && Punctual(w)
    ensures Punctual(Apply(cfg, w, s))
  {
    if Enabled(cfg, w, s) {
      forall worker ensures BusyDue(Apply(cfg, w, s), worker) { BusyStaysDue(cfg, w, s, worker); }
      forall id ensures SentDue(Apply(cfg, w, s), id) { SentStaysDue(cfg, w, s, id); }
    }
  }

  lemma {:induction false} RunKeepsPunctual(cfg: Config, w: World, steps: seq<Step>)
    requires Inv(w) && Punctual(w)
    ensures Punctual(Run(cfg, w, steps))
    decreases |steps|
  {
    if steps != [] {
      StepKeepsInv(cfg, w, steps[0]);
      StepKeepsPunctual(cfg, w, steps[0]);
      RunKeepsPunctual(cfg, Apply(cfg, w, steps[0]), steps[1..]);
    }
  }

  // No worker ever claims, sends or confirms a row before it is due.
  lemma NeverEarly(cfg: Config, steps: seq<Step>, worker: string, id: nat)
    ensures var w := Reached(cfg, steps);
            id in w.table.rows ==>
              && (Holds(w, worker, id) ==> w.table.rows[id].due <= PhaseOf(w, worker).now)
              && (w.table.rows[id].sent.Some? ==> w.table.rows[id].due <= w.table.rows[id].sent.value)
  {
    StartInv();
    RunKeepsPunctual(cfg, Start(), steps);
    assert BusyDue(Reached(cfg, steps), worker) && SentDue(Reached(cfg, steps), id);
  }

  // The row is gone for good or not due before this instant.
  predicate NotBefore(t: Table, id: nat, instant: int) {
    id < t.nextId && (id in t.rows ==> t.rows[id].due >= instant)
  }

  lemma StepKeepsNotBefore(cfg: Config, w: World, s: Step, id: nat, instant: int)
    requires Inv(w) && Punctual(w) && NotBefore(w.table, id, instant)
    ensures NotBefore(Apply(cfg, w, s).table, id, instant)
  {
    if Enabled(cfg, w, s) {
      RowMoves(cfg, w, s, id);
      if s.Reschedule? && Handles(w, s, id) { assert BusyDue(w, s.worker); }
    }
  }

  lemma {:induction false} RunKeepsNotBefore(cfg: Config, w: World, steps: seq<Step>, id: nat, instant: int)
    requires Inv(w) && Punctual(w) && NotBefore(w.table, id, instant)
    ensures NotBefore(Run(cfg, w, steps).table, id, instant)
    decreases |steps|
  {
    if steps != [] {
      StepKeepsInv(cfg, w, steps[0]);
      StepKeepsPunctual(cfg, w, steps[0]);
      StepKeepsNotBefore(cfg, w, steps[0], id, instant);
      RunKeepsNotBefore(cfg, Apply(cfg, w, steps[0]), steps[1..], id, instant);
    }
  }

  // A send that failed is logged with its number, and with a fatal event exactly when that is the
  // maximum or more or the row was overdue for too long. In no later world is the row claimed, sent or
  // confirmed at an instant before the failure's plus its delay.
  lemma RetryWaits(cfg: Config, before: seq<Step>, worker: string, after: seq<Step>, other: string)
    requires PhaseOf(Reached(cfg, before), worker).Faulted?
    ensures var w := Reached(cfg, before);
            var id, now := PhaseOf(w, worker).id, PhaseOf(w, worker).now;
            && id in w.table.rows
            && var row, n := w.table.rows[id], w.table.rows[id].attempts + 1;
            var w1 := Apply(cfg, w, Reschedule(worker));
            && w1.table.rows[id] == row.(claim := None, attempts := n, due := now + Backoff(cfg, n))
            && w1.events
               == w.events + (if n >= cfg.maxAttempts || now >= row.due + cfg.degradeAfter
                              then [SendFailed(id, n), InfraFatal(id, n)] else [SendFailed(id, n)])
            && var w2 := Reached(cfg, before + [Reschedule(worker)] + after);
            id in w2.table.rows ==>
              && w2.table.rows[id].due >= now + Backoff(cfg, n)
              && (Holds(w2, other, id) ==> PhaseOf(w2, other).now >= now + Backoff(cfg, n))
              && (w2.table.rows[id].sent.Some? ==> w2.table.rows[id].sent.value >= now + Backoff(cfg, n))
  {
    var w := Reached(cfg, before);
    var id, now := PhaseOf(w, worker).id, PhaseOf(w, worker).now;
    StartInv();
    RunKeepsInv(cfg, Start(), before);
    RunKeepsPunctual(cfg, Start(), before);
    assert WorkerOk(w, worker) && RowOk(w.table, id);
    var w1 := Apply(cfg, w, Reschedule(worker));
    StepKeepsInv(cfg, w, Reschedule(worker));
    StepKeepsPunctual(cfg, w, Reschedule(worker));
    RunKeepsNotBefore(cfg, w1, after, id, now + Backoff(cfg, w.table.rows[id].attempts + 1));
    RunConcat(cfg, Start(), before, [Reschedule(worker)] + after);
    assert before + [Reschedule(worker)] + after == before + ([Reschedule(worker)] + after);
    RunStep(cfg, w, [Reschedule(worker)] + after);
    assert ([Reschedule(worker)] + after)[1..] == after;
    NeverEarly(cfg, before + [Reschedule(worker)] + after, other, id);
  }
}
