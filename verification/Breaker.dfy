/**
 The circuit breaker (breaker/circuit_breaker.py): fatal failures per code in a sliding window that
 is pruned in place, a log of what happened, and a rebuild from that log.

 One breaker writes the log, and instants are integers.
 */
module Breaker {
  import opened Common
  import opened Failures

  // _Bucket
  datatype Bucket = Bucket(failures: seq<int>, openedAt: Option<int>)

  type Buckets = map<FailureCode, Bucket>

  // The breaker's rows of system_events, with created_at; a recorded failure is logged at its instant.
  datatype LogRow =
    | FatalRecorded(code: FailureCode, at: int)
    | WasReset(which: Option<FailureCode>, at: int)

  predicate Applies(row: LogRow, code: FailureCode) {
    row.WasReset? && (row.which == None || row.which == Some(code))
  }

  // [failure_at for failure_at in failures if failure_at >= cutoff]
  function InWindow(failures: seq<int>, cutoff: int): (r: seq<int>)
    ensures |r| <= |failures|
  {
    if failures == [] then []
    else
      var front := InWindow(failures[..|failures| - 1], cutoff);
      if failures[|failures| - 1] >= cutoff then front + [failures[|failures| - 1]] else front
  }

  ghost predicate Total(bs: Buckets) {
    forall code :: code in bs
  }

  function Empty(): (r: Buckets)
    ensures Total(r) && forall code :: r[code] == Bucket([], None)
  {
    assert forall code :: code in CODES by {
      forall code ensures code in CODES { EveryCode(code); }
    }
    map c | c in CODES :: Bucket([], None)
  }

  // bucket.opened_at or observed_at
  function OpenedFrom(b: Bucket, at: int): Option<int> {
    if b.openedAt.Some? then b.openedAt else Some(at)
  }

  // _record_fatal
  function WithFailure(b: Bucket, at: int, window: int, threshold: int): Bucket {
    var failures := InWindow(b.failures + [at], at - window);
    Bucket(failures, if |failures| >= threshold then OpenedFrom(b, at) else None)
  }

  // The bucket that is_open leaves behind.
  function Observed(b: Bucket, at: int, window: int, threshold: int): Bucket {
    var failures := InWindow(b.failures, at - window);
    Bucket(failures, if |failures| >= threshold then OpenedFrom(b, at) else None)
  }

  function Cleared(bs: Buckets, code: Option<FailureCode>): (r: Buckets)
    requires Total(bs)
    ensures Total(r)
  {
    if code.None? then Empty() else bs[code.value := Bucket([], None)]
  }

  // One row of the rebuild.
  function Replayed(bs: Buckets, row: LogRow, window: int, threshold: int): (r: Buckets)
    requires Total(bs)
    ensures Total(r)
  {
    match row
    case WasReset(code, _) => Cleared(bs, code)
    case FatalRecorded(code, at) => bs[code := WithFailure(bs[code], at, window, threshold)]
  }

  function ReplayedAll(rows: seq<LogRow>, window: int, threshold: int): (r: Buckets)
    ensures Total(r)
  {
    if rows == [] then Empty()
    else Replayed(ReplayedAll(rows[..|rows| - 1], window, threshold), rows[|rows| - 1], window, threshold)
  }

  // ... WHERE created_at >= cutoff ORDER BY id ASC
  function Recent(log: seq<LogRow>, cutoff: int): seq<LogRow> {
    if log == [] then []
    else
      var front := Recent(log[..|log| - 1], cutoff);
      if log[|log| - 1].at >= cutoff then front + [log[|log| - 1]] else front
  }

  // The last loop of the rebuild, for a fatal code.
  function Settled(b: Bucket, now: int, window: int, threshold: int): Bucket {
    var failures := InWindow(b.failures, now - window);
    Bucket(failures, if |failures| < threshold then None else b.openedAt)
  }

  function SettledAll(bs: Buckets, now: int, window: int, threshold: int): (r: Buckets)
    requires Total(bs)
    ensures Total(r)
  {
    map c | c in bs :: if ClassOf(c) == Fatal then Settled(bs[c], now, window, threshold) else bs[c]
  }

  // rebuild_from_events
  function Rebuilt(log: seq<LogRow>, now: int, window: int, threshold: int): (r: Buckets)
    ensures Total(r)
  {
    SettledAll(ReplayedAll(Recent(log, now - window), window, threshold), now, window, threshold)
  }

  // ---- the reference: the whole log

  // The recorded failures of a code since its last reset.
  function History(log: seq<LogRow>, code: FailureCode): seq<int> {
    if log == [] then []
    else
      var row, front := log[|log| - 1], log[..|log| - 1];
      if Applies(row, code) then []
      else if row.FatalRecorded? && row.code == code then History(front, code) + [row.at]
      else History(front, code)
  }

  predicate OpenByHistory(log: seq<LogRow>, code: FailureCode, now: int, window: int, threshold: int) {
    ClassOf(code) == Fatal && |InWindow(History(log, code), now - window)| >= threshold
  }

  // A failure that counts: recorded under the code at the cutoff or later, and not reset since.
  predicate Stands(log: seq<LogRow>, code: FailureCode, cutoff: int, i: nat) {
    && i < |log| && log[i].FatalRecorded? && log[i].code == code && log[i].at >= cutoff
    && forall j :: i < j < |log| ==> !(log[j].WasReset? && (log[j].which == None || log[j].which == Some(code)))
  }

  function Standing(log: seq<LogRow>, code: FailureCode, cutoff: int): set<nat> {
    set i: nat | i < |log| && Stands(log, code, cutoff, i)
  }

  lemma {:induction false} StandsStill(log: seq<LogRow>, row: LogRow, code: FailureCode, cutoff: int, i: nat)
    ensures i in Standing(log + [row], code, cutoff)
            <==> if i < |log| then i in Standing(log, code, cutoff) && !Applies(row, code)
                 else i == |log| && row.FatalRecorded? && row.code == code && row.at >= cutoff
  {
    var longer := log + [row];
    assert longer[|log|] == row && forall j :: 0 <= j < |log| ==> longer[j] == log[j];
  }

  lemma {:induction false} StandingCount(log: seq<LogRow>, code: FailureCode, cutoff: int)
    ensures |InWindow(History(log, code), cutoff)| == |Standing(log, code, cutoff)|
  {
    if log != [] {
      var n := |log| - 1;
      var front, last := log[..n], log[n];
      assert log == front + [last];
      StandingCount(front, code, cutoff);
      HistorySnoc(front, last, code);
      WindowSnoc(History(front, code), last.at, cutoff);
      StandingSnoc(front, last, code, cutoff);
    }
  }

  lemma {:induction false} StandingSnoc(log: seq<LogRow>, row: LogRow, code: FailureCode, cutoff: int)
    ensures var before, after := Standing(log, code, cutoff), Standing(log + [row], code, cutoff);
            |after| == if Applies(row, code) then 0
                       else if row.FatalRecorded? && row.code == code && row.at >= cutoff then |before| + 1
                       else |before|
  {
    forall i: nat { StandsStill(log, row, code, cutoff, i); }
    CountOneMore(Standing(log, code, cutoff), Standing(log + [row], code, cutoff), |log|, Applies(row, code),
        row.FatalRecorded? && row.code == code && row.at >= cutoff);
  }

  lemma CountOneMore(before: set<nat>, after: set<nat>, n: nat, cleared: bool, more: bool)
    requires forall i :: i in before ==> i < n
    requires forall i: nat :: i in after <==> if i < n then i in before && !cleared else i == n && more
    requires cleared ==> !more
    ensures |after| == if cleared then 0 else if more then |before| + 1 else |before|
  {
    if cleared {
      assert after == {};
    } else if more {
      assert after == before + {n};
    } else {
      assert after == before;
    }
  }

  // A code is open exactly when it is fatal and at least `threshold` of its failures in the window,
  // its first instant included, were not reset since.
  lemma OpenMeaning(log: seq<LogRow>, code: FailureCode, now: int, window: int, threshold: int)
    ensures var fatal := code in {AuthError, PermissionError, AdapterParseError, SystemDegradedCode};
            OpenByHistory(log, code, now, window, threshold)
            <==> (fatal && |Standing(log, code, now - window)| >= threshold)
  {
    StandingCount(log, code, now - window);
  }

  predicate Ordered(log: seq<LogRow>, clock: int) {
    && (forall i :: 0 <= i < |log| ==> log[i].at <= clock)
    && (forall i, j :: 0 <= i <= j < |log| ==> log[i].at <= log[j].at)
  }

  ghost predicate SameFrom(a: seq<int>, b: seq<int>, cutoff: int) {
    forall c :: c >= cutoff ==> InWindow(a, c) == InWindow(b, c)
  }

  ghost predicate FaithfulAt(bs: Buckets, log: seq<LogRow>, cutoff: int, code: FailureCode)
    requires Total(bs)
  {
    SameFrom(bs[code].failures, History(log, code), cutoff)
  }

  // What the buckets keep of the history: all that any later window can see.
  ghost predicate Faithful(bs: Buckets, log: seq<LogRow>, cutoff: int) {
    Total(bs) && forall code :: FaithfulAt(bs, log, cutoff, code)
  }

  function OpenIn(codes: seq<FailureCode>, log: seq<LogRow>, now: int, window: int, threshold: int): seq<FailureCode> {
    if codes == [] then []
    else
      var front, code := OpenIn(codes[..|codes| - 1], log, now, window, threshold), codes[|codes| - 1];
      if OpenByHistory(log, code, now, window, threshold) then front + [code] else front
  }

  // Every open code is listed as often as it stands among the codes, and no other is.
  lemma {:induction false} OpenInMeaning(codes: seq<FailureCode>, log: seq<LogRow>, now: int, window: int,
      threshold: int, code: FailureCode)
    ensures multiset(OpenIn(codes, log, now, window, threshold))[code]
         == if OpenByHistory(log, code, now, window, threshold) then multiset(codes)[code] else 0
  {
    if codes != [] {
      var n := |codes| - 1;
      OpenInMeaning(codes[..n], log, now, window, threshold, code);
      assert codes == codes[..n] + [codes[n]];
    }
  }

  // ---- windows

  lemma {:induction false} WindowTwice(failures: seq<int>, a: int, b: int)
    requires a <= b
    ensures InWindow(InWindow(failures, a), b) == InWindow(failures, b)
  {
    if failures != [] {
      var n := |failures| - 1;
      WindowTwice(failures[..n], a, b);
      if failures[n] >= a {
        var front := InWindow(failures[..n], a);
        assert (front + [failures[n]])[..|front|] == front;
      }
    }
  }

  lemma WindowSnoc(failures: seq<int>, at: int, c: int)
    ensures InWindow(failures + [at], c) == InWindow(failures, c) + if at >= c then [at] else []
  {
    assert (failures + [at])[..|failures|] == failures;
  }

  function Later(a: int, b: int): int { if a < b then b else a }

  lemma PruneKeepsSame(a: seq<int>, b: seq<int>, cutoff: int, prune: int)
    requires SameFrom(a, b, cutoff)
    ensures SameFrom(InWindow(a, prune), b, Later(cutoff, prune))
  {
    forall c | c >= Later(cutoff, prune) ensures InWindow(InWindow(a, prune), c) == InWindow(b, c) {
      WindowTwice(a, prune, c);
    }
  }

  lemma SnocKeepsSame(a: seq<int>, b: seq<int>, cutoff: int, at: int)
    requires SameFrom(a, b, cutoff)
    ensures SameFrom(a + [at], b + [at], cutoff)
  {
    forall c | c >= cutoff ensures InWindow(a + [at], c) == InWindow(b + [at], c) {
      WindowSnoc(a, at, c);
      WindowSnoc(b, at, c);
    }
  }

  lemma HistorySnoc(log: seq<LogRow>, row: LogRow, code: FailureCode)
    ensures History(log + [row], code)
         == if Applies(row, code) then []
            else if row.FatalRecorded? && row.code == code then History(log, code) + [row.at]
            else History(log, code)
  {
    assert (log + [row])[..|log|] == log;
  }

  // A failure more, in the bucket and in the history.
  lemma FailureKeepsSame(b: Bucket, history: seq<int>, at: int, cutoff: int, window: int, threshold: int)
    requires SameFrom(b.failures, history, cutoff) && at - window <= cutoff
    ensures SameFrom(WithFailure(b, at, window, threshold).failures, history + [at], cutoff)
  {
    SnocKeepsSame(b.failures, history, cutoff, at);
    PruneKeepsSame(b.failures + [at], history + [at], cutoff, at - window);
  }

  // Recording or resetting keeps the buckets faithful to the longer log.
  lemma RowKeepsFaithful(bs: Buckets, log: seq<LogRow>, row: LogRow, cutoff: int, window: int, threshold: int)
    requires Faithful(bs, log, cutoff)
    requires row.FatalRecorded? ==> row.at - window <= cutoff
    ensures Faithful(Replayed(bs, row, window, threshold), log + [row], cutoff)
  {
    var bs' := Replayed(bs, row, window, threshold);
    forall code ensures FaithfulAt(bs', log + [row], cutoff, code) {
      HistorySnoc(log, row, code);
      assert FaithfulAt(bs, log, cutoff, code);
      if row.FatalRecorded? {
        if row.code == code { FailureKeepsSame(bs[code], History(log, code), row.at, cutoff, window, threshold); }
      } else if !Applies(row, code) {
        assert bs'[code] == bs[code];
      } else {
        assert bs'[code] == Bucket([], None);
      }
    }
  }

  lemma FaithfulLater(bs: Buckets, log: seq<LogRow>, cutoff: int, later: int)
    requires Faithful(bs, log, cutoff) && cutoff <= later
    ensures Faithful(bs, log, later)
  {
    forall code ensures FaithfulAt(bs, log, later, code) { assert FaithfulAt(bs, log, cutoff, code); }
  }

  lemma ObserveKeepsFaithful(bs: Buckets, log: seq<LogRow>, code: FailureCode, at: int, window: int, threshold: int)
    requires Faithful(bs, log, at - window)
    ensures Faithful(bs[code := Observed(bs[code], at, window, threshold)], log, at - window)
    ensures InWindow(bs[code].failures, at - window) == InWindow(History(log, code), at - window)
  {
    var cutoff := at - window;
    var bs' := bs[code := Observed(bs[code], at, window, threshold)];
    assert FaithfulAt(bs, log, cutoff, code);
    PruneKeepsSame(bs[code].failures, History(log, code), cutoff, cutoff);
    assert FaithfulAt(bs', log, cutoff, code);
    forall o ensures FaithfulAt(bs', log, cutoff, o) { assert FaithfulAt(bs, log, cutoff, o); }
  }

  // Pruning later than a query loses exactly the failures between the two cutoffs.
  lemma {:induction false} PruneLoses(failures: seq<int>, prune: int, query: int)
    requires query < prune
    ensures InWindow(InWindow(failures, prune), query) == InWindow(failures, query)
      <==> forall x :: x in failures ==> !(query <= x < prune)
  {
    WindowStays(failures, prune, query);
    WindowsAgree(failures, prune, query);
  }

  lemma {:induction false} WindowStays(failures: seq<int>, prune: int, query: int)
    requires query < prune
    ensures InWindow(InWindow(failures, prune), query) == InWindow(failures, prune)
  {
    if failures != [] {
      var n := |failures| - 1;
      WindowStays(failures[..n], prune, query);
      WindowSnoc(InWindow(failures[..n], prune), failures[n], query);
    }
  }

  lemma {:induction false} WindowsAgree(failures: seq<int>, prune: int, query: int)
    requires query < prune
    ensures |InWindow(failures, prune)| <= |InWindow(failures, query)|
    ensures InWindow(failures, prune) == InWindow(failures, query) <==>
      forall x :: x in failures ==> !(query <= x < prune)
  {
    if failures != [] {
      var n := |failures| - 1;
      WindowsAgree(failures[..n], prune, query);
      assert forall x :: x in failures <==> x in failures[..n] || x == failures[n];
      var a, b := InWindow(failures[..n], prune), InWindow(failures[..n], query);
      assert failures[n] in failures;
      SnocInjective(a, b, failures[n]);
    }
  }

  lemma SnocInjective(a: seq<int>, b: seq<int>, x: int)
    ensures a + [x] == b + [x] <==> a == b
  {
    if a + [x] == b + [x] {
      assert a == (a + [x])[..|a|] && b == (b + [x])[..|b|];
    }
  }

  // ---- the rebuild

  lemma {:induction false} ReplayIsFaithful(rows: seq<LogRow>, now: int, window: int, threshold: int)
    requires forall i :: 0 <= i < |rows| ==> rows[i].at <= now
    ensures Faithful(ReplayedAll(rows, window, threshold), rows, now - window)
  {
    if rows == [] {
      var cutoff := now - window;
      forall code ensures FaithfulAt(Empty(), rows, cutoff, code) {}
    } else {
      var n := |rows| - 1;
      ReplayIsFaithful(rows[..n], now, window, threshold);
      RowKeepsFaithful(ReplayedAll(rows[..n], window, threshold), rows[..n], rows[n], now - window, window, threshold);
      assert rows[..n] + [rows[n]] == rows;
    }
  }

  lemma {:induction false} OldUnseen(log: seq<LogRow>, cutoff: int, code: FailureCode)
    requires forall i :: 0 <= i < |log| ==> log[i].at < cutoff
    ensures Recent(log, cutoff) == [] && InWindow(History(log, code), cutoff) == []
  {
    if log != [] {
      var n := |log| - 1;
      OldUnseen(log[..n], cutoff, code);
      WindowSnoc(History(log[..n], code), log[n].at, cutoff);
    }
  }

  // Dropping the rows before the window, resets among them, hides nothing of the window.
  lemma {:induction false} RecentSuffices(log: seq<LogRow>, clock: int, cutoff: int, code: FailureCode)
    requires Ordered(log, clock)
    ensures InWindow(History(Recent(log, cutoff), code), cutoff) == InWindow(History(log, code), cutoff)
  {
    if log != [] {
      var pre, row := log[..|log| - 1], log[|log| - 1];
      assert log == pre + [row];
      if row.at < cutoff {
        OldUnseen(log, cutoff, code);
      } else {
        RecentSuffices(pre, clock, cutoff, code);
        SameRow(Recent(pre, cutoff), pre, row, cutoff, code);
        RecentSnoc(pre, row, cutoff);
      }
    }
  }

  lemma RecentSnoc(log: seq<LogRow>, row: LogRow, cutoff: int)
    requires row.at >= cutoff
    ensures Recent(log + [row], cutoff) == Recent(log, cutoff) + [row]
  {
    assert (log + [row])[..|log|] == log;
  }

  lemma {:induction false} RecentWithin(log: seq<LogRow>, clock: int, cutoff: int)
    requires forall i :: 0 <= i < |log| ==> log[i].at <= clock
    ensures forall i :: 0 <= i < |Recent(log, cutoff)| ==> Recent(log, cutoff)[i].at <= clock
  {
    if log != [] { RecentWithin(log[..|log| - 1], clock, cutoff); }
  }

  // One more row keeps two logs alike in a window.
  lemma SameRow(a: seq<LogRow>, b: seq<LogRow>, row: LogRow, cutoff: int, code: FailureCode)
    requires InWindow(History(a, code), cutoff) == InWindow(History(b, code), cutoff)
    ensures InWindow(History(a + [row], code), cutoff) == InWindow(History(b + [row], code), cutoff)
  {
    HistorySnoc(a, row, code);
    HistorySnoc(b, row, code);
    WindowSnoc(History(a, code), row.at, cutoff);
    WindowSnoc(History(b, code), row.at, cutoff);
  }

  // A replay of the recent rows is faithful to the whole log.
  lemma ReplaySuffices(log: seq<LogRow>, now: int, window: int, threshold: int, code: FailureCode)
    requires Ordered(log, now)
    ensures SameFrom(ReplayedAll(Recent(log, now - window), window, threshold)[code].failures, History(log, code),
        now - window)
  {
    var cutoff := now - window;
    var rows := Recent(log, cutoff);
    RecentSuffices(log, now, cutoff, code);
    RecentWithin(log, now, cutoff);
    ReplayIsFaithful(rows, now, window, threshold);
    assert FaithfulAt(ReplayedAll(rows, window, threshold), rows, cutoff, code);
    forall c | c >= cutoff ensures InWindow(History(rows, code), c) == InWindow(History(log, code), c) {
      WindowTwice(History(rows, code), cutoff, c);
      WindowTwice(History(log, code), cutoff, c);
    }
  }

  // After a rebuild each fatal bucket is the window of its whole history.
  lemma RebuiltIsHistory(log: seq<LogRow>, now: int, window: int, threshold: int, code: FailureCode)
    requires Ordered(log, now) && ClassOf(code) == Fatal
    ensures Rebuilt(log, now, window, threshold)[code].failures == InWindow(History(log, code), now - window)
  {
    ReplaySuffices(log, now, window, threshold, code);
  }

  lemma RebuiltIsFaithful(log: seq<LogRow>, now: int, window: int, threshold: int)
    requires Ordered(log, now)
    ensures Faithful(Rebuilt(log, now, window, threshold), log, now - window)
  {
    var bs, cutoff := Rebuilt(log, now, window, threshold), now - window;
    forall code ensures FaithfulAt(bs, log, cutoff, code) {
      ReplaySuffices(log, now, window, threshold, code);
      PruneKeepsSame(ReplayedAll(Recent(log, cutoff), window, threshold)[code].failures, History(log, code), cutoff,
          cutoff);
    }
  }

  // Each fatal bucket is the window of its whole history.
  ghost predicate IsWindow(bs: Buckets, log: seq<LogRow>, cutoff: int)
    requires Total(bs)
  {
    forall code :: ClassOf(code) == Fatal ==> bs[code].failures == InWindow(History(log, code), cutoff)
  }

  lemma RebuiltFacts(log: seq<LogRow>, now: int, window: int, threshold: int)
    requires Ordered(log, now)
    ensures var bs := Rebuilt(log, now, window, threshold);
      Faithful(bs, log, now - window) && IsWindow(bs, log, now - window)
  {
    RebuiltIsFaithful(log, now, window, threshold);
    forall code | ClassOf(code) == Fatal
      ensures Rebuilt(log, now, window, threshold)[code].failures == InWindow(History(log, code), now - window)
    {
      RebuiltIsHistory(log, now, window, threshold, code);
    }
  }

  // Code c after the first `done` codes of the last loop.
  predicate SettledAt(before: Buckets, after: Buckets, done: nat, now: int, window: int, threshold: int, c: FailureCode)
    requires done <= |CODES|
  {
    c in before && c in after
    && after[c] == if c in CODES[..done] && ClassOf(c) == Fatal then Settled(before[c], now, window, threshold)
         else before[c]
  }

  lemma SettleStep(before: Buckets, mid: Buckets, done: nat, next: nat, now: int, window: int, threshold: int)
    requires done < |CODES| && next == done + 1 && forall c :: SettledAt(before, mid, done, now, window, threshold, c)
    ensures var code := CODES[done];
      var after :=
        if ClassOf(code) == Fatal && code in mid then mid[code := Settled(mid[code], now, window, threshold)] else mid;
      forall c :: SettledAt(before, after, next, now, window, threshold, c)
  {
    var code := CODES[done];
    assert CODES[..done + 1] == CODES[..done] + [code];
    assert SettledAt(before, mid, done, now, window, threshold, code);
    var after := if ClassOf(code) == Fatal && code in mid then mid[code := Settled(mid[code], now, window, threshold)]
        else mid;
    WindowTwice(before[code].failures, now - window, now - window);
    forall c ensures SettledAt(before, after, next, now, window, threshold, c) {
      assert SettledAt(before, mid, done, now, window, threshold, c);
    }
  }

  // A breaker rebuilt from the log has the in-window failures of the live one that pruned as it
  // went, and the same codes are open.
  lemma RebuildAgreesWithLive(live: Buckets, log: seq<LogRow>, clock: int, now: int, window: int, threshold: int,
      code: FailureCode)
    requires Ordered(log, clock) && Faithful(live, log, clock - window) && clock <= now && ClassOf(code) == Fatal
    ensures var rebuilt := Rebuilt(log, now, window, threshold);
      && rebuilt[code].failures == InWindow(live[code].failures, now - window)
      && (|rebuilt[code].failures| >= threshold <==> OpenByHistory(log, code, now, window, threshold))
  {
    RebuiltIsHistory(log, now, window, threshold, code);
    assert FaithfulAt(live, log, clock - window, code);
  }

  class CircuitBreaker {
    const window: int
    const threshold: int
    var buckets: Buckets
    var log: seq<LogRow>
    ghost var clock: int  // the latest instant any call has named

    ghost predicate Valid()
      reads this
    {
      Ordered(log, clock) && Faithful(buckets, log, clock - window)
    }

    constructor (window: int, threshold: int, now: int)
      ensures Valid() && this.window == window && this.threshold == threshold && log == [] && clock == now
    {
      this.window, this.threshold, clock := window, threshold, now;
      buckets, log := Empty(), [];
      new;
      ghost var cutoff := clock - window;
      forall code ensures FaithfulAt(buckets, log, cutoff, code) {}
    }

    // A new process over a log that others have written; its buckets are empty until it is rebuilt.
    constructor OverLog(window: int, threshold: int, log: seq<LogRow>, now: int)
      requires Ordered(log, now)
      ensures this.window == window && this.threshold == threshold && this.log == log && clock == now
          && buckets == Empty()
    {
      this.window, this.threshold, this.log, clock := window, threshold, log, now;
      buckets := Empty();
    }

    // A bucket keeps the instant at which it was first seen open for as long as it is.
    predicate OpensAt(before: Bucket, after: Bucket, at: int)
      reads this
    {
      if |after.failures| < threshold then after.openedAt == None
      else if before.openedAt == None then after.openedAt == Some(at)
      else after.openedAt == before.openedAt
    }

    method Record(code: FailureCode, at: int)
      requires Valid() && clock <= at
      modifies this
      ensures Valid() && clock == at
      ensures ClassOf(code) != Fatal ==> log == old(log) && buckets == old(buckets)
      ensures ClassOf(code) == Fatal ==> log == old(log) + [FatalRecorded(code, at)]
      ensures ClassOf(code) == Fatal ==>
        code in old(buckets) && buckets == old(buckets)[code := WithFailure(old(buckets)[code], at, window, threshold)]
      ensures ClassOf(code) == Fatal ==> OpensAt(old(buckets)[code], buckets[code], at)
    {
      clock := at;
      FaithfulLater(buckets, log, old(clock) - window, at - window);
      if ClassOf(code) != Fatal {
        return;
      }
      RowKeepsFaithful(buckets, log, FatalRecorded(code, at), at - window, window, threshold);
      RecordFatal(code, at, window);
      log := log + [FatalRecorded(code, at)];
    }

    method RecordFatal(code: FailureCode, at: int, effective: int)
      requires code in buckets
      modifies this`buckets
      ensures buckets == old(buckets)[code := WithFailure(old(buckets)[code], at, effective, threshold)]
    {
      var b := buckets[code];
      var failures := InWindow(b.failures + [at], at - effective);
      if |failures| >= threshold {
        buckets := buckets[code := Bucket(failures, OpenedFrom(b, at))];
        return;
      }
      buckets := buckets[code := Bucket(failures, None)];
    }

    // Open exactly when the whole log says so.
    method IsOpen(code: FailureCode, at: int) returns (open: bool)
      requires Valid() && clock <= at
      modifies this
      ensures Valid() && clock == at && log == old(log)
      ensures open <==> OpenByHistory(log, code, at, window, threshold)
      ensures ClassOf(code) != Fatal ==> buckets == old(buckets)
      ensures ClassOf(code) == Fatal ==>
        code in old(buckets) && buckets == old(buckets)[code := Observed(old(buckets)[code], at, window, threshold)]
      ensures ClassOf(code) == Fatal ==> OpensAt(old(buckets)[code], buckets[code], at)
    {
      clock := at;
      FaithfulLater(buckets, log, old(clock) - window, at - window);
      if ClassOf(code) != Fatal {
        return false;
      }
      ObserveKeepsFaithful(buckets, log, code, at, window, threshold);
      var b := buckets[code];
      var failures := InWindow(b.failures, at - window);
      if |failures| >= threshold {
        open := true;
        buckets := buckets[code := Bucket(failures, OpenedFrom(b, at))];
      } else {
        open := false;
        buckets := buckets[code := Bucket(failures, None)];
      }
    }

    method OpenCodes(at: int) returns (codes: seq<FailureCode>)
      requires Valid() && clock <= at
      modifies this
      ensures Valid() && clock == at && log == old(log)
      ensures codes == OpenIn(CODES, log, at, window, threshold)
    {
      codes := [];
      var i := 0;
      while i < |CODES|
        invariant 0 <= i <= |CODES|
        invariant Valid() && log == old(log) && clock == if i == 0 then old(clock) else at
        invariant codes == OpenIn(CODES[..i], log, at, window, threshold)
      {
        var open := IsOpen(CODES[i], at);
        assert CODES[..i + 1][..i] == CODES[..i];
        if open {
          codes := codes + [CODES[i]];
        }
        i := i + 1;
      }
      assert CODES[..i] == CODES;
    }

    method Reset(code: Option<FailureCode>, at: int)
      requires Valid() && clock <= at
      modifies this
      ensures Valid() && clock == at
      ensures log == old(log) + [WasReset(code, at)] && buckets == Cleared(old(buckets), code)
    {
      FaithfulLater(buckets, log, clock - window, at - window);
      RowKeepsFaithful(buckets, log, WasReset(code, at), at - window, window, threshold);
      clock := at;
      buckets := Cleared(buckets, code);
      log := log + [WasReset(code, at)];
    }

    // Clears the buckets, whatever they hold, and replays the recent log into them.
    method RebuildFromEvents(now: int, override: Option<int>)
      requires Ordered(log, clock) && clock <= now
      modifies this
      ensures log == old(log) && clock == now && Total(buckets)
      ensures var effective := if override.Some? then override.value else window;
        buckets == Rebuilt(log, now, effective, threshold) && IsWindow(buckets, log, now - effective)
      ensures override == None ==> Valid()
    {
      var effective := if override.Some? then override.value else window;
      RebuiltFacts(log, now, effective, threshold);
      clock := now;
      Replay(Recent(log, now - effective), effective);
      Settle(now, effective);
    }

    method Replay(rows: seq<LogRow>, effective: int)
      modifies this`buckets
      ensures buckets == ReplayedAll(rows, effective, threshold)
    {
      buckets := Empty();
      var i := 0;
      while i < |rows|
        invariant 0 <= i <= |rows|
        invariant buckets == ReplayedAll(rows[..i], effective, threshold)
      {
        var row := rows[i];
        assert rows[..i + 1][..i] == rows[..i];
        if row.WasReset? {
          buckets := Cleared(buckets, row.which);
        } else {
          RecordFatal(row.code, row.at, effective);
        }
        i := i + 1;
      }
      assert rows[..i] == rows;
    }

    // The loop that ends a rebuild.
    method Settle(now: int, effective: int)
      requires Total(buckets)
      modifies this`buckets
      ensures buckets == SettledAll(old(buckets), now, effective, threshold)
    {
      ghost var before := buckets;
      var i := 0;
      while i < |CODES|
        invariant 0 <= i <= |CODES|
        invariant forall c :: SettledAt(before, buckets, i, now, effective, threshold, c)
      {
        var code := CODES[i];
        SettleStep(before, buckets, i, i + 1, now, effective, threshold);
        assert SettledAt(before, buckets, i, now, effective, threshold, code);
        if ClassOf(code) == Fatal {
          var b := buckets[code];
          var failures := InWindow(b.failures, now - effective);
          buckets := buckets[code := Bucket(failures, if |failures| < threshold then None else b.openedAt)];
        }
        i := i + 1;
      }
      SettledIsAll(before, buckets, now, effective, threshold);
    }
  }

  lemma SettledIsAll(before: Buckets, after: Buckets, now: int, window: int, threshold: int)
    requires Total(before) && forall c :: SettledAt(before, after, |CODES|, now, window, threshold, c)
    ensures after == SettledAll(before, now, window, threshold)
  {
    var r := SettledAll(before, now, window, threshold);
    forall c ensures c in after && c in r && after[c] == r[c] {
      EveryCode(c);
      assert SettledAt(before, after, |CODES|, now, window, threshold, c);
    }
  }

  // Dispatcher.__init__ and its first question: a restarted breaker answers what the whole log says.
  method Restart(window: int, threshold: int, log: seq<LogRow>, now: int, later: int) returns (codes: seq<FailureCode>)
    requires Ordered(log, now) && now <= later
    ensures codes == OpenIn(CODES, log, later, window, threshold)
  {
    var breaker := new CircuitBreaker.OverLog(window, threshold, log, now);
    breaker.RebuildFromEvents(now, None);
    codes := breaker.OpenCodes(later);
  }

  // Without the rebuild it would not: empty buckets miss a log.
  lemma EmptyMisses(window: int)
    requires window >= 0
    ensures !Faithful(Empty(), [FatalRecorded(AuthError, 0)], 0 - window)
  {
    var log, cutoff := [FatalRecorded(AuthError, 0)], 0 - window;
    assert log[..0] == [] && History(log, AuthError) == [] + [0];
    EmptySeesNothing(cutoff);
    assert !FaithfulAt(Empty(), log, cutoff, AuthError);
  }

  lemma EmptySeesNothing(cutoff: int)
    requires cutoff <= 0
    ensures !SameFrom([], [] + [0], cutoff)
  {
    WindowSnoc([], 0, cutoff);
    assert InWindow([], cutoff) != InWindow([] + [0], cutoff);
  }
}
