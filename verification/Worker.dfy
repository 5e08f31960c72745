/**
 One worker's step() as it is written, on a database and a mirror updated in place, shown to be a
 run of the delivery protocol: whatever Delivery proves of every interleaving holds of it.
 */
module Worker {
  import opened Common
  import opened Idempotency
  import opened Outbox
  import opened Delivery

  class Mirror {
    var remote: Remote

    constructor ()
      ensures remote == Start().remote
    {
      remote := Remote(map[], multiset{}, map[]);
    }
  }

  // How the remote calls of one send turn out: whether a marker lookup answers, and the change itself.
  datatype Network = Network(lookupOk: bool, outcome: Outcome)

  function SinkOk(r: Remote, row: Row, net: Network): bool {
    if row.lane.stream == TaskComment then
      net.lookupOk && (MarkerOf(row) in r.comments || net.outcome == Success)
    else net.outcome == Success
  }

  function SinkRemote(r: Remote, row: Row, net: Network): Remote {
    if row.lane.stream == TaskComment && (!net.lookupOk || MarkerOf(row) in r.comments) then r
    else if net.outcome == FailedClean then r
    else Effect(r, row)
  }

  // The sinks of all four streams; `ok` is false when send raises.
  method SendRecord(mirror: Mirror, row: Row, net: Network) returns (ok: bool)
    modifies mirror
    ensures ok == SinkOk(old(mirror.remote), row, net)
    ensures mirror.remote == SinkRemote(old(mirror.remote), row, net)
  {
    if row.lane.stream == TaskComment {
      if !net.lookupOk {
        return false;
      }
      if MarkerOf(row) in mirror.remote.comments {
        return true;
      }
    }
    if net.outcome != FailedClean {
      mirror.remote := Effect(mirror.remote, row);
    }
    ok := net.outcome == Success;
  }

  // The protocol steps that one call of step() performs; those that do not apply do nothing.
  function Script(worker: string, now: int, net: Network): seq<Step> {
    [ReclaimRows(now), ClaimRow(worker, now), Check(worker), Lookup(worker, net.lookupOk),
     Send(worker, net.outcome), Confirm(worker), Reschedule(worker)]
  }

  // The same when no sink is registered for the stream: step() raises with the row still claimed.
  function DeadScript(worker: string, now: int): seq<Step> {
    [ReclaimRows(now), ClaimRow(worker, now), Check(worker), Crash(worker)]
  }

  // The parts of a world that live outside the workers.
  ghost predicate Shows(w: World, db: OutboxDb, mirror: Mirror)
    reads db, mirror
  {
    w.table == db.Contents() && w.events == db.events && w.remote == mirror.remote
  }

  class ProjectionWorker {
    const db: OutboxDb
    const mirror: Mirror
    const sinks: set<Stream>
    const cfg: Config
    const name: string

    constructor (db: OutboxDb, mirror: Mirror, sinks: set<Stream>, cfg: Config, name: string)
      ensures this.db == db && this.mirror == mirror && this.sinks == sinks && this.cfg == cfg && this.name == name
    {
      this.db, this.mirror, this.sinks, this.cfg, this.name := db, mirror, sinks, cfg, name;
    }

    // The row this worker is about to send belongs to a stream without a sink.
    predicate Unroutable(w: World) {
      var p := PhaseOf(w, name);
      p.Cleared? && p.id in w.table.rows && w.table.rows[p.id].lane.stream !in sinks
    }

    // `w` is any world of the protocol that shows this database and mirror, in which this worker
    // is idle and no live worker holds a stale claim.
    method Step(now: int, net: Network, ghost w: World) returns (r: Result<nat, string>)
      requires Shows(w, db, mirror) && PhaseOf(w, name).Idle?
      requires Enabled(cfg, w, ReclaimRows(now))
      modifies db, mirror
      ensures var w' := Run(cfg, w, if r.Ok? then Script(name, now, net) else DeadScript(name, now));
              Shows(w', db, mirror) && PhaseOf(w', name).Idle?
      ensures r.Ok? ==> r.value <= 1 && (r.value == 0 <==> Candidates(Apply(cfg, w, ReclaimRows(now)).table, now) == {})
      ensures r.Err? <==>
        Unroutable(Apply(cfg, Apply(cfg, Apply(cfg, w, ReclaimRows(now)), ClaimRow(name, now)), Check(name)))
    {
      var claimed := ReclaimAndClaim(now, w);
      ghost var w2 := Apply(cfg, Apply(cfg, w, ReclaimRows(now)), ClaimRow(name, now));
      if claimed.None? {
        IdleRest(cfg, w, name, now, net);
        return Ok(0);
      }
      ghost var w3 := Apply(cfg, w2, Check(name));
      var row := db.rows[claimed.value];
      var superseded := CheckClaimed(claimed.value, row, now, w2);
      if superseded {
        SupersededRest(cfg, w, name, now, net);
        return Ok(1);
      }
      if row.lane.stream !in sinks {
        DeadRun(cfg, w, name, now);
        return Err("missing sink");
      }
      ghost var w5 := Apply(cfg, Apply(cfg, w3, Lookup(name, net.lookupOk)), Send(name, net.outcome));
      var sent := Deliver(claimed.value, row, now, net, w3);
      FullRun(cfg, w, name, now, net, w5, sent);
      r := Ok(1);
    }

    method ReclaimAndClaim(now: int, ghost w: World) returns (claimed: Option<nat>)
      requires Shows(w, db, mirror) && PhaseOf(w, name).Idle?
      requires Enabled(cfg, w, ReclaimRows(now))
      modifies db
      ensures var w1 := Apply(cfg, w, ReclaimRows(now));
              var w2 := Apply(cfg, w1, ClaimRow(name, now));
              && Shows(w2, db, mirror)
              && (claimed.None? <==> Candidates(w1.table, now) == {})
              && (claimed.None? ==> w2 == w1)
              && (claimed.Some? ==> PhaseOf(w2, name) == Claimed(claimed.value, now) && claimed.value in db.rows)
    {
      Reclaim(now, w);
      claimed := ClaimDue(now, Apply(cfg, w, ReclaimRows(now)));
    }

    method Reclaim(now: int, ghost w: World)
      requires Shows(w, db, mirror) && PhaseOf(w, name).Idle?
      requires Enabled(cfg, w, ReclaimRows(now))
      modifies db
      ensures Shows(Apply(cfg, w, ReclaimRows(now)), db, mirror)
      ensures PhaseOf(Apply(cfg, w, ReclaimRows(now)), name).Idle?
    {
      var reclaimed := db.ReclaimStaleOutbox(now, cfg.staleAfter);
      if reclaimed > 0 {
        db.AppendSystemEvent(StaleClaimReclaimed(reclaimed));
      }
    }

    method ClaimDue(now: int, ghost w: World) returns (claimed: Option<nat>)
      requires Shows(w, db, mirror) && PhaseOf(w, name).Idle?
      modifies db
      ensures var w' := Apply(cfg, w, ClaimRow(name, now));
              && Shows(w', db, mirror)
              && (claimed.None? <==> Candidates(w.table, now) == {})
              && (claimed.None? ==> w' == w)
              && (claimed.Some? ==> PhaseOf(w', name) == Claimed(claimed.value, now) && claimed.value in db.rows)
    {
      claimed := db.ClaimNextOutbox(name, now);
    }

    method CheckClaimed(id: nat, row: Row, now: int, ghost w: World) returns (superseded: bool)
      requires Shows(w, db, mirror) && PhaseOf(w, name) == Claimed(id, now) && id in db.rows && db.rows[id] == row
      modifies db
      ensures var w' := Apply(cfg, w, Check(name));
              && Shows(w', db, mirror)
              && PhaseOf(w', name) == (if superseded then Idle else Cleared(id, now))
              && id in db.rows && (!superseded ==> db.rows[id] == row)
    {
      superseded := row.lane.stream == TaskSnapshot && Superseded(db.Contents(), row);
      if superseded {
        db.MarkOutboxSent(id, now);
      }
    }

    method Deliver(id: nat, row: Row, now: int, net: Network, ghost w3: World) returns (sent: bool)
      requires Shows(w3, db, mirror) && PhaseOf(w3, name) == Cleared(id, now) && id in db.rows && db.rows[id] == row
      modifies db, mirror
      ensures var w5 := Apply(cfg, Apply(cfg, w3, Lookup(name, net.lookupOk)), Send(name, net.outcome));
              && (if sent then PhaseOf(w5, name).Delivered? else PhaseOf(w5, name).Faulted?)
              && PhaseOf(w5, name).id in w5.table.rows
              && Shows(Apply(cfg, w5, if sent then Confirm(name) else Reschedule(name)), db, mirror)
    {
      sent := SendRecord(mirror, row, net);
      ghost var w5 := SendPart(cfg, w3, name, id, now, net);
      if sent {
        Finish(id, row, now, w5);
      } else {
        HandleFailure(id, row, now, w5);
      }
    }

    method Finish(id: nat, row: Row, now: int, ghost w: World)
      requires Shows(w, db, mirror) && PhaseOf(w, name) == Delivered(id, now) && id in db.rows && db.rows[id] == row
      modifies db
      ensures Shows(Apply(cfg, w, Confirm(name)), db, mirror)
    {
      db.MarkOutboxSent(id, now);
      if row.lane.stream == TaskSnapshot {
        db.UpsertProjectionCursor(row.lane, row.rev, id);
      }
      db.AppendSystemEvent(ProjectionSent(id));
    }

    // _handle_failure
    method HandleFailure(id: nat, row: Row, now: int, ghost w: World)
      requires Shows(w, db, mirror) && PhaseOf(w, name) == Faulted(id, now) && id in db.rows && db.rows[id] == row
      modifies db
      ensures Shows(Apply(cfg, w, Reschedule(name)), db, mirror)
    {
      var attempt := row.attempts + 1;
      var degrade := ShouldDegrade(cfg, row, attempt, now);
      db.RescheduleOutbox(id, now + Backoff(cfg, attempt), attempt);
      db.AppendSystemEvent(SendFailed(id, attempt));
      if degrade {
        db.AppendSystemEvent(InfraFatal(id, attempt));
      }
    }
  }

  // ---- unrolling the scripts

  lemma SendPart(cfg: Config, w3: World, name: string, id: nat, now: int, net: Network) returns (w5: World)
    requires PhaseOf(w3, name) == Cleared(id, now)
    requires id in w3.table.rows
    ensures w5 == Apply(cfg, Apply(cfg, w3, Lookup(name, net.lookupOk)), Send(name, net.outcome))
    ensures var row := w3.table.rows[id];
            && w5.table == w3.table && w5.events == w3.events && w5.remote == SinkRemote(w3.remote, row, net)
            && PhaseOf(w5, name) == if SinkOk(w3.remote, row, net) then Delivered(id, now) else Faulted(id, now)
  {
    var w4 := Apply(cfg, w3, Lookup(name, net.lookupOk));
    var row := w3.table.rows[id];
    if row.lane.stream == TaskComment {
      assert PhaseOf(w4, name) == if net.lookupOk then Looked(id, now, MarkerOf(row) in w3.remote.comments)
          else Faulted(id, now);
    } else {
      assert w4 == w3;
    }
    w5 := Apply(cfg, w4, Send(name, net.outcome));
  }

  lemma RunPrefix(cfg: Config, w: World, a: Step, b: Step, c: Step, rest: seq<Step>)
    ensures Run(cfg, w, [a, b, c] + rest) == Run(cfg, Apply(cfg, Apply(cfg, Apply(cfg, w, a), b), c), rest)
  {
    var s := [a, b, c] + rest;
    RunStep(cfg, w, s);
    assert s[1..] == [b, c] + rest;
    var w1 := Apply(cfg, w, a);
    RunStep(cfg, w1, [b, c] + rest);
    assert ([b, c] + rest)[1..] == [c] + rest;
    var w2 := Apply(cfg, w1, b);
    RunStep(cfg, w2, [c] + rest);
    assert ([c] + rest)[1..] == rest;
  }

  lemma ScriptSplit(cfg: Config, w: World, name: string, now: int, net: Network)
    ensures Run(cfg, w, Script(name, now, net)) ==
            var w3 := Apply(cfg, Apply(cfg, Apply(cfg, w, ReclaimRows(now)), ClaimRow(name, now)), Check(name));
            Apply(cfg,
                Apply(cfg, Apply(cfg, Apply(cfg, w3, Lookup(name, net.lookupOk)), Send(name, net.outcome)),
                Confirm(name)), Reschedule(name))
  {
    var l, s, c, r := Lookup(name, net.lookupOk), Send(name, net.outcome), Confirm(name), Reschedule(name);
    assert Script(name, now, net) == [ReclaimRows(now), ClaimRow(name, now), Check(name)] + ([l, s, c] + [r]);
    RunPrefix(cfg, w, ReclaimRows(now), ClaimRow(name, now), Check(name), [l, s, c] + [r]);
    var w3 := Apply(cfg, Apply(cfg, Apply(cfg, w, ReclaimRows(now)), ClaimRow(name, now)), Check(name));
    RunPrefix(cfg, w3, l, s, c, [r]);
    var w6 := Apply(cfg, Apply(cfg, Apply(cfg, w3, l), s), c);
    RunStep(cfg, w6, [r]);
    assert [r][1..] == [];
  }

  // An idle worker's later steps change nothing.
  lemma IdleStays(cfg: Config, w: World, name: string, net: Network)
    requires PhaseOf(w, name).Idle?
    ensures Apply(cfg,
        Apply(cfg, Apply(cfg, Apply(cfg, w, Lookup(name, net.lookupOk)), Send(name, net.outcome)), Confirm(name)),
        Reschedule(name)) == w
  {
    assert Apply(cfg, w, Lookup(name, net.lookupOk)) == w;
    assert Apply(cfg, w, Send(name, net.outcome)) == w;
    assert Apply(cfg, w, Confirm(name)) == w;
    assert Apply(cfg, w, Reschedule(name)) == w;
  }

  lemma IdleRest(cfg: Config, w: World, name: string, now: int, net: Network)
    requires PhaseOf(w, name).Idle? && Candidates(Apply(cfg, w, ReclaimRows(now)).table, now) == {}
    ensures Run(cfg, w, Script(name, now, net)) == Apply(cfg, w, ReclaimRows(now))
    ensures PhaseOf(Apply(cfg, w, ReclaimRows(now)), name).Idle?
  {
    ScriptSplit(cfg, w, name, now, net);
    var w1 := Apply(cfg, w, ReclaimRows(now));
    assert Apply(cfg, w1, ClaimRow(name, now)) == w1;
    assert Apply(cfg, w1, Check(name)) == w1;
    IdleStays(cfg, w1, name, net);
  }

  lemma SupersededRest(cfg: Config, w: World, name: string, now: int, net: Network)
    requires var w3 := Apply(cfg, Apply(cfg, Apply(cfg, w, ReclaimRows(now)), ClaimRow(name, now)),
        Check(name)); PhaseOf(w3, name).Idle?
    ensures Run(cfg, w, Script(name, now, net))
        == Apply(cfg, Apply(cfg, Apply(cfg, w, ReclaimRows(now)), ClaimRow(name, now)), Check(name))
  {
    ScriptSplit(cfg, w, name, now, net);
    IdleStays(cfg, Apply(cfg, Apply(cfg, Apply(cfg, w, ReclaimRows(now)), ClaimRow(name, now)), Check(name)), name,
        net);
  }

  lemma DeadRun(cfg: Config, w: World, name: string, now: int)
    ensures var w3 := Apply(cfg, Apply(cfg, Apply(cfg, w, ReclaimRows(now)), ClaimRow(name, now)), Check(name));
            Run(cfg, w, DeadScript(name, now)) == Move(w3, name, Idle)
  {
    assert DeadScript(name, now) == [ReclaimRows(now), ClaimRow(name, now), Check(name)] + [Crash(name)];
    RunPrefix(cfg, w, ReclaimRows(now), ClaimRow(name, now), Check(name), [Crash(name)]);
    var w3 := Apply(cfg, Apply(cfg, Apply(cfg, w, ReclaimRows(now)), ClaimRow(name, now)), Check(name));
    RunStep(cfg, w3, [Crash(name)]);
    assert [Crash(name)][1..] == [];
  }

  lemma ConfirmIdles(cfg: Config, w: World, name: string)
    ensures if PhaseOf(w, name).Delivered? && PhaseOf(w, name).id in w.table.rows
            then PhaseOf(Apply(cfg, w, Confirm(name)), name).Idle?
            else Apply(cfg, w, Confirm(name)) == w
  {
  }

  lemma RescheduleIdles(cfg: Config, w: World, name: string)
    ensures if PhaseOf(w, name).Faulted? && PhaseOf(w, name).id in w.table.rows
            then PhaseOf(Apply(cfg, w, Reschedule(name)), name).Idle?
            else Apply(cfg, w, Reschedule(name)) == w
  {
  }

  lemma FullRun(cfg: Config, w: World, name: string, now: int, net: Network, w5: World, sent: bool)
    requires var w3 := Apply(cfg, Apply(cfg, Apply(cfg, w, ReclaimRows(now)), ClaimRow(name, now)), Check(name));
             w5 == Apply(cfg, Apply(cfg, w3, Lookup(name, net.lookupOk)), Send(name, net.outcome))
    requires if sent then PhaseOf(w5, name).Delivered? else PhaseOf(w5, name).Faulted?
    requires PhaseOf(w5, name).id in w5.table.rows
    ensures Run(cfg, w, Script(name, now, net)) == Apply(cfg, w5, if sent then Confirm(name) else Reschedule(name))
    ensures PhaseOf(Apply(cfg, w5, if sent then Confirm(name) else Reschedule(name)), name).Idle?
  {
    ScriptSplit(cfg, w, name, now, net);
    ConfirmIdles(cfg, w5, name);
    RescheduleIdles(cfg, Apply(cfg, w5, Confirm(name)), name);
  }
}
