/**
 Journal ingestion (ingester/journal_ingester.py over db/queries.py): each record read from the
 journal is inserted in the inbox, and the resume cursor moved past it, in one transaction.

 The inbox is modelled in insertion order.
 */
module Ingester {
  import opened Common
  import opened Journal

  datatype InboxRow = InboxRow(record: Canonical, offset: nat, processed: Option<int>)

  type Inbox = seq<InboxRow>

  datatype Db = Db(inbox: Inbox, cursor: Option<Position>)

  predicate SameDelivery(a: Canonical, b: Canonical) {
    a.event.source == b.event.source && a.deliveryId == b.deliveryId
  }

  predicate HasDelivery(inbox: Inbox, e: Canonical) {
    exists i :: 0 <= i < |inbox| && SameDelivery(inbox[i].record, e)
  }

  predicate HasId(inbox: Inbox, id: string) {
    exists i :: 0 <= i < |inbox| && inbox[i].record.event.id == id
  }

  // insert_event: a known (source, delivery_id) is ignored; a known event_id raises (None).
  function InsertEvent(inbox: Inbox, item: Item): Option<Inbox> {
    if HasDelivery(inbox, item.event) then Some(inbox)
    else if HasId(inbox, item.event.event.id) then None
    else Some(inbox + [InboxRow(item.event, item.at.offset, None)])
  }

  // One transaction of step, None where it rolls back and raises.
  function IngestOne(db: Db, item: Item): Option<Db> {
    var inserted := InsertEvent(db.inbox, item);
    if inserted.None? then None else Some(Db(inserted.value, Some(item.at)))
  }

  datatype Ingested = Ingested(db: Db, count: nat, raised: bool)

  function IngestAll(db: Db, items: seq<Item>): Ingested
    decreases |items|
  {
    if items == [] then Ingested(db, 0, false)
    else
      var one := IngestOne(db, items[0]);
      if one.None? then Ingested(db, 0, true)
      else
        var r := IngestAll(one.value, items[1..]);
        Ingested(r.db, r.count + 1, r.raised)
  }

  function Counted(r: Ingested, before: nat): Ingested {
    Ingested(r.db, r.count + before, r.raised)
  }

  // mark_processed, called by the router
  function Marked(inbox: Inbox, id: string, at: int): (r: Inbox)
    ensures |r| == |inbox|
    ensures forall i :: 0 <= i < |r| ==> r[i].record == inbox[i].record && r[i].offset == inbox[i].offset
    ensures forall i :: 0 <= i < |r| ==>
              r[i].processed == if inbox[i].record.event.id == id then Some(at) else inbox[i].processed
  {
    seq(|inbox|, i requires 0 <= i < |inbox| => if inbox[i].record.event.id == id then inbox[i].(processed := Some(at))
        else inbox[i])
  }

  class JournalIngester {
    const reader: JournalReader
    var inbox: Inbox
    var cursor: Option<Position>

    constructor (reader: JournalReader)
      ensures this.reader == reader && Database() == Db([], None)
    {
      this.reader, inbox, cursor := reader, [], None;
    }

    ghost function Database(): Db
      reads this
    {
      Db(inbox, cursor)
    }

    method InsertRecord(item: Item) returns (raised: bool)
      modifies this`inbox
      ensures raised <==> InsertEvent(old(inbox), item).None?
      ensures inbox == if raised then old(inbox) else InsertEvent(old(inbox), item).value
      ensures raised <==> !HasDelivery(old(inbox), item.event) && HasId(old(inbox), item.event.event.id)
      ensures !raised && !HasDelivery(old(inbox), item.event) ==>
                inbox == old(inbox) + [InboxRow(item.event, item.at.offset, None)]
      ensures raised || HasDelivery(old(inbox), item.event) ==> inbox == old(inbox)
    {
      raised := false;
      if !HasDelivery(inbox, item.event) {
        if HasId(inbox, item.event.event.id) {
          raised := true;
        } else {
          inbox := inbox + [InboxRow(item.event, item.at.offset, None)];
        }
      }
    }

    // The number of records read, or an error after the transactions that were committed before it.
    method Step() returns (r: Result<nat, ()>)
      modifies this
      ensures var reading := ReadDir(reader.codec, old(reader.base.files), old(cursor));
        var all := IngestAll(old(Database()), reading.items);
        Database() == all.db && r == (if all.raised || !reading.ok then Err(()) else Ok(all.count))
    {
      var reading := reader.IterateFrom(cursor);
      ghost var all := IngestAll(Database(), reading.items);
      var count := 0;
      while count < |reading.items|
        invariant 0 <= count <= |reading.items|
        invariant all == Counted(IngestAll(Database(), reading.items[count..]), count)
      {
        var item := reading.items[count];
        assert reading.items[count..][0] == item && reading.items[count..][1..] == reading.items[count + 1..];
        var raised := InsertRecord(item);
        if raised {
          return Err(());
        }
        cursor := Some(item.at);
        count := count + 1;
      }
      r := if reading.ok then Ok(count) else Err(());
    }

    method MarkProcessed(id: string, at: int)
      modifies this`inbox
      ensures inbox == Marked(old(inbox), id, at)
    {
      inbox := Marked(inbox, id, at);
    }
  }

  // ---- runs: a growing journal, any number of ingesters, crashes, rewinds and the router's marks

  // pending holds, for each ingester inside a step, the records it has read and not yet inserted.
  datatype World = World(log: seq<Entry>, db: Db, pending: map<nat, seq<Item>>)

  datatype Move =
    | Append(entry: Entry)
    | Begin(ingester: nat, day: nat, torn: Bytes)  // read the journal, its last line possibly cut short
    | Ingest(ingester: nat)                        // one transaction of a step
    | Crash(ingester: nat)
    | Rewind(to: nat)                              // reset the cursor to where it was after `to` records
    | Mark(id: string, at: int)

  predicate DayAllowed(log: seq<Entry>, day: nat) {
    log == [] || log[|log| - 1].day <= day
  }

  // A rewind goes to the position after fewer records than the stored one, or to none.
  ghost predicate Earlier(c: Codec, w: World, to: nat) {
    exists k :: to <= k <= |w.log| && w.db.cursor == After(c, w.log, k)
  }

  ghost predicate Enabled(c: Codec, w: World, m: Move) {
    match m
    case Append(entry) => DayAllowed(w.log, entry.day)
    case Begin(_, day, torn) => DayAllowed(w.log, day) && NEWLINE !in torn
    case Ingest(v) => v in w.pending && w.pending[v] != []
    case Rewind(to) => to <= |w.log| && Earlier(c, w, to)
    case Crash(_) => true
    case Mark(_, _) => true
  }

  function Read(c: Codec, w: World, day: nat, torn: Bytes): seq<Item> {
    ReadDir(c, AppendTo(Written(c, w.log), day, torn), w.db.cursor).items
  }

  ghost function Do(c: Codec, w: World, m: Move): World
    requires Enabled(c, w, m)
  {
    match m
    case Append(entry) => w.(log := w.log + [entry])
    case Begin(v, day, torn) => w.(pending := w.pending[v := Read(c, w, day, torn)])
    case Ingest(v) =>
      var one := IngestOne(w.db, w.pending[v][0]);
      if one.None? then w.(pending := w.pending[v := []])
      else w.(db := one.value, pending := w.pending[v := w.pending[v][1..]])
    case Crash(v) => w.(pending := w.pending[v := []])
    case Rewind(to) => w.(db := w.db.(cursor := After(c, w.log, to)))
    case Mark(id, at) => w.(db := w.db.(inbox := Marked(w.db.inbox, id, at)))
  }

  ghost predicate Legal(c: Codec, w: World, moves: seq<Move>)
    decreases |moves|
  {
    moves == [] || (Enabled(c, w, moves[0]) && Legal(c, Do(c, w, moves[0]), moves[1..]))
  }

  ghost function Play(c: Codec, w: World, moves: seq<Move>): World
    requires Legal(c, w, moves)
    decreases |moves|
  {
    if moves == [] then w else Play(c, Do(c, w, moves[0]), moves[1..])
  }

  // ---- the first record of each delivery

  predicate Occurs(log: seq<Entry>, n: nat, e: Canonical)
    requires n <= |log|
  {
    exists j :: 0 <= j < n && SameDelivery(log[j].event, e)
  }

  predicate SeenBefore(log: seq<Entry>, n: nat)
    requires n < |log|
  {
    Occurs(log, n, log[n].event)
  }

  datatype Seen = Seen(record: Canonical, offset: nat)

  // The row of record n.
  function SeenAt(c: Codec, log: seq<Entry>, n: nat): Seen
    requires n < |log|
  {
    Seen(log[n].event, After(c, log, n + 1).value.offset)
  }

  // The first occurrence of each delivery among the first n records, in journal order.
  function Firsts(c: Codec, log: seq<Entry>, n: nat): seq<Seen>
    requires n <= |log|
  {
    if n == 0 then []
    else if SeenBefore(log, n - 1) then Firsts(c, log, n - 1)
    else Firsts(c, log, n - 1) + [SeenAt(c, log, n - 1)]
  }

  predicate Knows(f: seq<Seen>, e: Canonical) {
    exists i :: 0 <= i < |f| && SameDelivery(f[i].record, e)
  }

  predicate KnowsId(f: seq<Seen>, id: string) {
    exists i :: 0 <= i < |f| && f[i].record.event.id == id
  }

  // The columns of the inbox that ingestion writes.
  function Bare(inbox: Inbox): (r: seq<Seen>)
    ensures |r| == |inbox|
  {
    seq(|inbox|, i requires 0 <= i < |inbox| => Seen(inbox[i].record, inbox[i].offset))
  }

  predicate FirstWithId(log: seq<Entry>, n: nat, id: string)
    requires n <= |log|
  {
    exists j :: 0 <= j < n && !SeenBefore(log, j) && log[j].event.event.id == id
  }

  // A record that the inbox refuses: a new delivery under the event_id of an earlier one.
  predicate Clashes(log: seq<Entry>, n: nat)
    requires n < |log|
  {
    !SeenBefore(log, n) && FirstWithId(log, n, log[n].event.event.id)
  }

  // ---- the invariant

  ghost predicate Segment(c: Codec, log: seq<Entry>, at: nat, items: seq<Item>) {
    && at + |items| <= |log|
    && forall i :: 0 <= i < |items| ==>
         Some(items[i].at) == After(c, log, at + i + 1) && items[i].event == log[at + i].event
  }

  ghost predicate PendingOk(c: Codec, log: seq<Entry>, high: nat, items: seq<Item>) {
    exists at: nat :: at <= high && Segment(c, log, at, items)
  }

  ghost predicate CursorOk(c: Codec, log: seq<Entry>, high: nat, cursor: Option<Position>) {
    exists k :: 0 <= k <= high <= |log| && cursor == After(c, log, k)
  }

  // `high` records of the journal have been ingested.
  ghost predicate InvAt(c: Codec, w: World, high: nat) {
    && high <= |w.log|
    && Rising(w.log)
    && Bare(w.db.inbox) == Firsts(c, w.log, high)
    && CursorOk(c, w.log, high, w.db.cursor)
    && forall v :: v in w.pending ==> PendingOk(c, w.log, high, w.pending[v])
  }

  ghost predicate Inv(c: Codec, w: World) {
    exists high :: InvAt(c, w, high)
  }

  // ---- what the log looks like from a prefix of it

  lemma {:induction false} AfterStable(c: Codec, log: seq<Entry>, e: Entry, k: nat)
    requires k <= |log|
    ensures After(c, log + [e], k) == After(c, log, k)
  {
    assert (log + [e])[..k] == log[..k];
  }

  lemma {:induction false} FirstsStable(c: Codec, log: seq<Entry>, e: Entry, n: nat)
    requires n <= |log|
    ensures Firsts(c, log + [e], n) == Firsts(c, log, n)
  {
    if n > 0 {
      FirstsStable(c, log, e, n - 1);
      AfterStable(c, log, e, n);
      SeenStable(log, e, n - 1);
    }
  }

  lemma {:induction false} SeenStable(log: seq<Entry>, e: Entry, n: nat)
    requires n < |log|
    ensures SeenBefore(log + [e], n) == SeenBefore(log, n)
  {
    assert forall j :: 0 <= j <= n ==> (log + [e])[j] == log[j];
    if SeenBefore(log, n) {
      var j :| 0 <= j < n && SameDelivery(log[j].event, log[n].event);
      assert SameDelivery((log + [e])[j].event, (log + [e])[n].event);
    }
  }

  lemma {:induction false} OccursStep(log: seq<Entry>, n: nat, e: Canonical)
    requires n < |log|
    ensures Occurs(log, n + 1, e) <==> Occurs(log, n, e) || SameDelivery(log[n].event, e)
  {
  }

  lemma {:induction false} FirstIdStep(log: seq<Entry>, n: nat, id: string)
    requires n < |log|
    ensures FirstWithId(log, n + 1, id) <==>
      FirstWithId(log, n, id) || (!SeenBefore(log, n) && log[n].event.event.id == id)
  {
  }

  lemma {:induction false} KnowsSnoc(f: seq<Seen>, x: Seen, e: Canonical)
    ensures Knows(f + [x], e) <==> Knows(f, e) || SameDelivery(x.record, e)
  {
    var g := f + [x];
    assert g[|f|] == x && forall i :: 0 <= i < |f| ==> g[i] == f[i];
  }

  lemma {:induction false} KnowsIdSnoc(f: seq<Seen>, x: Seen, id: string)
    ensures KnowsId(f + [x], id) <==> KnowsId(f, id) || x.record.event.id == id
  {
    var g := f + [x];
    assert g[|f|] == x && forall i :: 0 <= i < |f| ==> g[i] == f[i];
  }

  // Resume positions are distinct: each record takes at least one byte.
  lemma {:induction false} AfterDistinct(c: Codec, log: seq<Entry>, i: nat, j: nat)
    requires i < j <= |log| && Rising(log)
    ensures After(c, log, i) != After(c, log, j)
  {
    if i > 0 && log[i - 1].day == log[j - 1].day {
      RisingFront(log, j - 1);
      assert log[..j - 1][..i] == log[..i];
      OffsetRises(c, log[..j - 1], i, log[j - 1].day, log[j - 1].event);
      WrittenLast(c, log, j);
    }
  }

  lemma {:induction false} WrittenLast(c: Codec, log: seq<Entry>, j: nat)
    requires 0 < j <= |log|
    ensures Written(c, log[..j]) == AppendTo(Written(c, log[..j - 1]), log[j - 1].day, Line(c, log[j - 1].event))
  {
    assert log[..j][..j - 1] == log[..j - 1];
  }

  lemma {:induction false} OffsetRises(c: Codec, front: seq<Entry>, i: nat, day: nat, e: Canonical)
    requires Rising(front) && i <= |front|
    ensures |ContentOf(Written(c, front[..i]), day)|
          < |ContentOf(AppendTo(Written(c, front), day, Line(c, e)), day)|
  {
    ContentGrows(c, front, i, day);
    WrittenFacts(c, front);
    AppendContent(Written(c, front), day, Line(c, e));
  }

  lemma {:induction false} FirstsCover(c: Codec, log: seq<Entry>, n: nat, f: seq<Seen>, e: Canonical)
    requires n <= |log| && f == Firsts(c, log, n)
    ensures Knows(f, e) <==> Occurs(log, n, e)
  {
    if n > 0 {
      var front := Firsts(c, log, n - 1);
      FirstsCover(c, log, n - 1, front, e);
      OccursStep(log, n - 1, e);
      KnowsSnoc(front, SeenAt(c, log, n - 1), e);
      if SeenBefore(log, n - 1) && SameDelivery(log[n - 1].event, e) {
        var j :| 0 <= j < n - 1 && SameDelivery(log[j].event, log[n - 1].event);
        assert SameDelivery(log[j].event, e);
      }
    }
  }

  lemma {:induction false} FirstsIds(c: Codec, log: seq<Entry>, n: nat, f: seq<Seen>, id: string)
    requires n <= |log| && f == Firsts(c, log, n)
    ensures KnowsId(f, id) <==> FirstWithId(log, n, id)
  {
    if n > 0 {
      var front := Firsts(c, log, n - 1);
      FirstsIds(c, log, n - 1, front, id);
      FirstIdStep(log, n - 1, id);
      if !SeenBefore(log, n - 1) {
        var x := SeenAt(c, log, n - 1);
        assert f == front + [x] && x.record == log[n - 1].event;
        KnowsIdSnoc(front, x, id);
      }
    }
  }

  // ---- one record

  // Ingesting record `at` of a journal of which `high` records are in the inbox.
  lemma {:induction false} IngestRecord(c: Codec, log: seq<Entry>, high: nat, at: nat, inbox: Inbox,
      cursor: Option<Position>, item: Item)
    requires high <= |log| && at <= high && at < |log|
    requires Bare(inbox) == Firsts(c, log, high)
    requires Some(item.at) == After(c, log, at + 1) && item.event == log[at].event
    ensures at < high ==> IngestOne(Db(inbox, cursor), item) == Some(Db(inbox, Some(item.at)))
    ensures at == high ==> (IngestOne(Db(inbox, cursor), item).None? <==> Clashes(log, at))
    ensures at == high && !Clashes(log, at) ==>
      var db := IngestOne(Db(inbox, cursor), item).value;
      Bare(db.inbox) == Firsts(c, log, high + 1) && db.cursor == Some(item.at) && inbox <= db.inbox
  {
    FirstsCover(c, log, high, Bare(inbox), item.event);
    InboxCover(inbox, item.event);
    if at < high {
      assert SameDelivery(log[at].event, item.event) && Occurs(log, high, item.event);
    } else {
      FirstsIds(c, log, high, Bare(inbox), item.event.event.id);
      InboxIds(inbox, item.event.event.id);
      assert SeenBefore(log, at) <==> HasDelivery(inbox, item.event);
      if !HasDelivery(inbox, item.event) && !HasId(inbox, item.event.event.id) {
        var row := InboxRow(item.event, item.at.offset, None);
        assert Bare(inbox + [row]) == Bare(inbox) + [Seen(item.event, item.at.offset)];
      }
    }
  }

  lemma {:induction false} InboxCover(inbox: Inbox, e: Canonical)
    ensures HasDelivery(inbox, e) <==> Knows(Bare(inbox), e)
  {
    if HasDelivery(inbox, e) {
      var i :| 0 <= i < |inbox| && SameDelivery(inbox[i].record, e);
      assert SameDelivery(Bare(inbox)[i].record, e);
    }
  }

  lemma {:induction false} InboxIds(inbox: Inbox, id: string)
    ensures HasId(inbox, id) <==> KnowsId(Bare(inbox), id)
  {
    if HasId(inbox, id) {
      var i :| 0 <= i < |inbox| && inbox[i].record.event.id == id;
      assert Bare(inbox)[i].record.event.id == id;
    }
  }

  // ---- every move keeps the invariant

  lemma {:induction false} AppendKeeps(c: Codec, w: World, high: nat, e: Entry)
    requires InvAt(c, w, high) && DayAllowed(w.log, e.day)
    ensures InvAt(c, w.(log := w.log + [e]), high)
  {
    var log' := w.log + [e];
    RisingSnoc(w.log, e);
    FirstsStable(c, w.log, e, high);
    var k :| 0 <= k <= high && w.db.cursor == After(c, w.log, k);
    AfterStable(c, w.log, e, k);
    assert w.db.cursor == After(c, log', k);
    forall v | v in w.pending ensures PendingOk(c, log', high, w.pending[v]) {
      var at: nat :| at <= high && Segment(c, w.log, at, w.pending[v]);
      SegmentStable(c, w.log, e, at, w.pending[v]);
    }
  }

  lemma {:induction false} SegmentStable(c: Codec, log: seq<Entry>, e: Entry, at: nat, items: seq<Item>)
    requires Segment(c, log, at, items)
    ensures Segment(c, log + [e], at, items)
  {
    forall i | 0 <= i < |items|
      ensures Some(items[i].at) == After(c, log + [e], at + i + 1) && items[i].event == (log + [e])[at + i].event
    {
      AfterStable(c, log, e, at + i + 1);
    }
  }

  lemma {:induction false} ReadSegment(c: Codec, w: World, high: nat, day: nat, torn: Bytes)
    requires Lawful(c) && InvAt(c, w, high) && DayAllowed(w.log, day) && NEWLINE !in torn
    ensures PendingOk(c, w.log, high, Read(c, w, day, torn))
  {
    var k :| 0 <= k <= high && w.db.cursor == After(c, w.log, k);
    TornRoundTrip(c, w.log, k, day, torn);
    RestSegment(c, w.log, k);
  }

  lemma {:induction false} RestSegment(c: Codec, log: seq<Entry>, k: nat)
    requires k <= |log|
    ensures Segment(c, log, k, Rest(c, log, k)) && |Rest(c, log, k)| == |log| - k
    decreases |log| - k
  {
    if k < |log| {
      RestSegment(c, log, k + 1);
      SegmentCons(c, log, k, Rest(c, log, k + 1));
    }
  }

  lemma {:induction false} SegmentCons(c: Codec, log: seq<Entry>, k: nat, tail: seq<Item>)
    requires k < |log| && Segment(c, log, k + 1, tail)
    ensures Segment(c, log, k, [Item(After(c, log, k + 1).value, log[k].event)] + tail)
  {
    var items := [Item(After(c, log, k + 1).value, log[k].event)] + tail;
    forall i | 0 <= i < |items|
      ensures Some(items[i].at) == After(c, log, k + i + 1) && items[i].event == log[k + i].event
    {
      if i > 0 {
        assert items[i] == tail[i - 1];
        assert Some(tail[i - 1].at) == After(c, log, (k + 1) + (i - 1) + 1);
      }
    }
  }

  ghost function High(c: Codec, w: World, high: nat, m: Move): nat
    requires InvAt(c, w, high) && Enabled(c, w, m)
  {
    if m.Ingest? && high < |w.log| && Some(w.pending[m.ingester][0].at) == After(c, w.log, high + 1)
         && !Clashes(w.log, high) then high + 1 else high
  }

  lemma {:induction false} TailPending(c: Codec, log: seq<Entry>, high: nat, at: nat, items: seq<Item>)
    requires items != [] && Segment(c, log, at, items) && at < high
    ensures PendingOk(c, log, high, items[1..])
  {
    forall i | 0 <= i < |items| - 1
      ensures Some(items[1..][i].at) == After(c, log, (at + 1) + i + 1) && items[1..][i].event == log[at + 1 + i].event
    {
      assert items[1..][i] == items[i + 1];
    }
    assert Segment(c, log, at + 1, items[1..]);
  }

  lemma {:induction false} PendingRises(c: Codec, log: seq<Entry>, high: nat, items: seq<Item>)
    requires PendingOk(c, log, high, items)
    ensures PendingOk(c, log, high + 1, items)
  {
  }

  // The number of the record that an ingester inserts next.
  lemma {:induction false} PlaceOf(c: Codec, w: World, high: nat, v: nat) returns (at: nat)
    requires InvAt(c, w, high) && v in w.pending
    ensures at <= high && Segment(c, w.log, at, w.pending[v])
  {
    assert PendingOk(c, w.log, high, w.pending[v]);
    at :| at <= high && Segment(c, w.log, at, w.pending[v]);
  }

  lemma {:induction false} IngestKeeps(c: Codec, w: World, high: nat, v: nat)
    requires InvAt(c, w, high) && Enabled(c, w, Ingest(v))
    ensures InvAt(c, Do(c, w, Ingest(v)), High(c, w, high, Ingest(v)))
  {
    var at := PlaceOf(c, w, high, v);
    if at < high {
      AgainKeeps(c, w, high, v, at);
      AgainHigh(c, w, high, v, at);
    } else {
      NextKeeps(c, w, high, v);
    }
  }

  // What one transaction has to establish for the invariant.
  lemma {:induction false} Reassemble(c: Codec, w: World, high: nat, high': nat, db: Db, v: nat, items: seq<Item>)
    requires InvAt(c, w, high) && high <= high' <= |w.log| && high' <= high + 1
    requires Bare(db.inbox) == Firsts(c, w.log, high') && CursorOk(c, w.log, high', db.cursor)
        && PendingOk(c, w.log, high', items)
    ensures InvAt(c, w.(db := db, pending := w.pending[v := items]), high')
  {
    var pending := w.pending[v := items];
    forall u | u in pending ensures PendingOk(c, w.log, high', pending[u]) {
      if u != v && high' > high { PendingRises(c, w.log, high, w.pending[u]); }
    }
  }

  lemma {:induction false} AgainKeeps(c: Codec, w: World, high: nat, v: nat, at: nat)
    requires InvAt(c, w, high) && Enabled(c, w, Ingest(v)) && at < high && Segment(c, w.log, at, w.pending[v])
    ensures Do(c, w, Ingest(v)).db.inbox == w.db.inbox
    ensures InvAt(c, Do(c, w, Ingest(v)), high)
  {
    var items := w.pending[v];
    assert Some(items[0].at) == After(c, w.log, at + 1) && items[0].event == w.log[at].event;
    assert w.db == Db(w.db.inbox, w.db.cursor);
    IngestRecord(c, w.log, high, at, w.db.inbox, w.db.cursor, items[0]);
    TailPending(c, w.log, high, at, items);
    Reassemble(c, w, high, high, Db(w.db.inbox, Some(items[0].at)), v, items[1..]);
  }

  lemma {:induction false} AgainHigh(c: Codec, w: World, high: nat, v: nat, at: nat)
    requires InvAt(c, w, high) && Enabled(c, w, Ingest(v)) && at < high && Segment(c, w.log, at, w.pending[v])
    ensures High(c, w, high, Ingest(v)) == high
  {
    assert Some(w.pending[v][0].at) == After(c, w.log, at + 1);
    if high < |w.log| { AfterDistinct(c, w.log, at + 1, high + 1); }
  }

  lemma {:induction false} NextKeeps(c: Codec, w: World, high: nat, v: nat)
    requires InvAt(c, w, high) && Enabled(c, w, Ingest(v)) && Segment(c, w.log, high, w.pending[v])
    ensures High(c, w, high, Ingest(v)) == if Clashes(w.log, high) then high else high + 1
    ensures InvAt(c, Do(c, w, Ingest(v)), High(c, w, high, Ingest(v)))
    ensures w.db.inbox <= Do(c, w, Ingest(v)).db.inbox
  {
    var items := w.pending[v];
    assert Some(items[0].at) == After(c, w.log, high + 1) && items[0].event == w.log[high].event;
    assert w.db == Db(w.db.inbox, w.db.cursor);
    IngestRecord(c, w.log, high, high, w.db.inbox, w.db.cursor, items[0]);
    if Clashes(w.log, high) {
      assert Segment(c, w.log, 0, []);
      Reassemble(c, w, high, high, w.db, v, []);
    } else {
      NewRecordKeeps(c, w, high, v, IngestOne(w.db, items[0]).value);
    }
  }

  lemma {:induction false} NewRecordKeeps(c: Codec, w: World, high: nat, v: nat, db: Db)
    requires InvAt(c, w, high) && v in w.pending && w.pending[v] != [] && Segment(c, w.log, high, w.pending[v])
    requires Bare(db.inbox) == Firsts(c, w.log, high + 1) && db.cursor == Some(w.pending[v][0].at)
    ensures InvAt(c, w.(db := db, pending := w.pending[v := w.pending[v][1..]]), high + 1)
  {
    var items := w.pending[v];
    assert Some(items[0].at) == After(c, w.log, high + 1);
    assert CursorOk(c, w.log, high + 1, db.cursor);
    TailPending(c, w.log, high + 1, high, items);
    Reassemble(c, w, high, high + 1, db, v, items[1..]);
  }

  lemma {:induction false} MoveKeepsInv(c: Codec, w: World, high: nat, m: Move)
    requires Lawful(c) && InvAt(c, w, high) && Enabled(c, w, m)
    ensures InvAt(c, Do(c, w, m), High(c, w, high, m))
  {
    match m {
      case Append(e) => AppendKeeps(c, w, high, e);
      case Begin(v, day, torn) => ReadSegment(c, w, high, day, torn);
      case Ingest(v) => IngestKeeps(c, w, high, v);
      case Crash(v) => assert Segment(c, w.log, 0, []);
      case Rewind(to) => RewindKeeps(c, w, high, to);
      case Mark(id, at) => assert Bare(Marked(w.db.inbox, id, at)) == Bare(w.db.inbox);
    }
  }

  lemma {:induction false} RewindKeeps(c: Codec, w: World, high: nat, to: nat)
    requires InvAt(c, w, high) && to <= |w.log| && Earlier(c, w, to)
    ensures CursorOk(c, w.log, high, After(c, w.log, to))
  {
    var k :| 0 <= k <= high && w.db.cursor == After(c, w.log, k);
    var j :| to <= j <= |w.log| && w.db.cursor == After(c, w.log, j);
    if j < k {
      AfterDistinct(c, w.log, j, k);
    } else if k < j {
      AfterDistinct(c, w.log, k, j);
    }
  }

  function Start(): World {
    World([], Db([], None), map[])
  }

  // In every run the inbox holds the first record of each delivery of an ingested journal prefix,
  // and nothing else, and the cursor is not past that prefix.
  lemma {:induction false} RunKeepsInv(c: Codec, w: World, high: nat, moves: seq<Move>)
    requires Lawful(c) && InvAt(c, w, high) && Legal(c, w, moves)
    ensures exists high' :: high <= high' && InvAt(c, Play(c, w, moves), high')
    decreases |moves|
  {
    if moves == [] {
      assert InvAt(c, Play(c, w, moves), high);
    } else {
      var w', high' := Do(c, w, moves[0]), High(c, w, high, moves[0]);
      MoveKeepsInv(c, w, high, moves[0]);
      RunKeepsInv(c, w', high', moves[1..]);
      var h :| high' <= h && InvAt(c, Play(c, w', moves[1..]), h);
      assert InvAt(c, Play(c, w, moves), h);
    }
  }

  lemma {:induction false} ExactlyOnceIngestion(c: Codec, moves: seq<Move>)
    requires Lawful(c) && Legal(c, Start(), moves)
    ensures var w := Play(c, Start(), moves);
      exists n :: 0 <= n <= |w.log| && Bare(w.db.inbox) == Firsts(c, w.log, n) && CursorOk(c, w.log, n, w.db.cursor)
  {
    assert CursorOk(c, [], 0, After(c, [], 0));
    assert InvAt(c, Start(), 0);
    RunKeepsInv(c, Start(), 0, moves);
  }

  // Row i, and no other row of its delivery.
  ghost predicate OnlyRow(f: seq<Seen>, i: nat, row: Seen) {
    i < |f| && f[i] == row && forall x :: 0 <= x < |f| && SameDelivery(f[x].record, row.record) ==> x == i
  }

  // Every ingested delivery has exactly one row, the one of its first record.
  lemma {:induction false} OneRowPerDelivery(c: Codec, log: seq<Entry>, n: nat, j: nat)
    requires j < n <= |log| && !SeenBefore(log, j)
    ensures exists i :: OnlyRow(Firsts(c, log, n), i, SeenAt(c, log, j))
  {
    var f, last, row := Firsts(c, log, n - 1), SeenAt(c, log, n - 1), SeenAt(c, log, j);
    if j == n - 1 {
      FirstsCover(c, log, j, Firsts(c, log, j), row.record);
      assert !Knows(f, row.record);
      OnlyLast(f, row);
      assert OnlyRow(Firsts(c, log, n), |f|, row);
    } else {
      OneRowPerDelivery(c, log, n - 1, j);
      var i: nat :| OnlyRow(f, i, row);
      if !SeenBefore(log, n - 1) {
        assert !SameDelivery(log[j].event, log[n - 1].event);
        OnlyStill(f, i, row, last);
      }
      assert OnlyRow(Firsts(c, log, n), i, row);
    }
  }

  lemma {:induction false} OnlyLast(f: seq<Seen>, row: Seen)
    requires !Knows(f, row.record)
    ensures OnlyRow(f + [row], |f|, row)
  {
    var g := f + [row];
    assert forall x :: 0 <= x < |f| ==> g[x] == f[x];
    assert forall x :: 0 <= x < |f| ==> !SameDelivery(f[x].record, row.record);
  }

  lemma {:induction false} OnlyStill(f: seq<Seen>, i: nat, row: Seen, last: Seen)
    requires OnlyRow(f, i, row) && !SameDelivery(last.record, row.record)
    ensures OnlyRow(f + [last], i, row)
  {
    var g := f + [last];
    assert forall x :: 0 <= x < |f| ==> g[x] == f[x];
  }

  // ---- replays and complete steps

  // Row by row: the row stays where it is, with the record, the offset and the processed mark it has.
  lemma {:induction false} RowsStay(c: Codec, w: World, high: nat, moves: seq<Move>)
    requires Lawful(c) && InvAt(c, w, high) && Legal(c, w, moves)
    requires forall i :: 0 <= i < |moves| ==> !moves[i].Mark?
    ensures w.db.inbox <= Play(c, w, moves).db.inbox
    decreases |moves|
  {
    if moves != [] {
      var m := moves[0];
      MoveKeepsRows(c, w, high, m);
      MoveKeepsInv(c, w, high, m);
      RowsStay(c, Do(c, w, m), High(c, w, high, m), moves[1..]);
    }
  }

  lemma {:induction false} MoveKeepsRows(c: Codec, w: World, high: nat, m: Move)
    requires InvAt(c, w, high) && Enabled(c, w, m) && !m.Mark?
    ensures w.db.inbox <= Do(c, w, m).db.inbox
  {
    if m.Ingest? {
      var at := PlaceOf(c, w, high, m.ingester);
      if at < high { AgainKeeps(c, w, high, m.ingester, at); } else { NextKeeps(c, w, high, m.ingester); }
    }
  }

  // ---- processed rows

  // What one move does to the rows: those it adds are unprocessed, and only a mark of its own event id
  // changes an old row.
  lemma {:induction false} MoveMarks(c: Codec, w: World, m: Move)
    requires Enabled(c, w, m)
    ensures var rows, rows' := w.db.inbox, Do(c, w, m).db.inbox;
            && |rows| <= |rows'|
            && (forall i :: |rows| <= i < |rows'| ==> rows'[i].processed == None)
            && (forall i :: 0 <= i < |rows| ==>
                  && rows'[i].record == rows[i].record && rows'[i].offset == rows[i].offset
                  && rows'[i].processed
                     == if m.Mark? && m.id == rows[i].record.event.id then Some(m.at) else rows[i].processed)
  {
  }

  // Move k marks row i: it marks the event of a row that is there by then.
  ghost predicate MarksRow(c: Codec, w: World, moves: seq<Move>, k: nat, i: nat) {
    && k < |moves| && moves[k].Mark? && Legal(c, w, moves[..k])
    && var rows := Play(c, w, moves[..k]).db.inbox;
    i < |rows| && rows[i].record.event.id == moves[k].id
  }

  ghost predicate LastMark(c: Codec, w: World, moves: seq<Move>, k: nat, i: nat) {
    MarksRow(c, w, moves, k, i) && forall j: nat :: k < j < |moves| ==> !MarksRow(c, w, moves, j, i)
  }

  lemma {:induction false} PlayLast(c: Codec, w: World, moves: seq<Move>)
    requires Legal(c, w, moves) && moves != []
    ensures var n := |moves| - 1;
            && Legal(c, w, moves[..n]) && Enabled(c, Play(c, w, moves[..n]), moves[n])
            && Play(c, w, moves) == Do(c, Play(c, w, moves[..n]), moves[n])
    decreases |moves|
  {
    var n := |moves| - 1;
    if n == 0 {
      assert moves[..0] == [] && moves[1..] == [];
    } else {
      PlayLast(c, Do(c, w, moves[0]), moves[1..]);
      assert moves[..n][0] == moves[0] && moves[..n][1..] == moves[1..][..n - 1];
    }
  }

  // In every run from an empty inbox, a row is processed exactly when a mark of its event came after the
  // row was inserted, and it carries the instant of the last such mark.
  lemma {:induction false} ProcessedExactlyWhenMarked(c: Codec, moves: seq<Move>, i: nat)
    requires Legal(c, Start(), moves) && i < |Play(c, Start(), moves).db.inbox|
    ensures match Play(c, Start(), moves).db.inbox[i].processed
            case None => forall k: nat :: !MarksRow(c, Start(), moves, k, i)
            case Some(at) => exists k: nat :: LastMark(c, Start(), moves, k, i) && moves[k].at == at
    decreases |moves|
  {
    if moves != [] {
      var n, w := |moves| - 1, Start();
      var front, m := moves[..n], moves[n];
      PlayLast(c, w, moves);
      var before := Play(c, w, front);
      MoveMarks(c, before, m);
      forall k: nat | k < n ensures MarksRow(c, w, moves, k, i) <==> MarksRow(c, w, front, k, i) {
        assert moves[..k] == front[..k];
      }
      assert moves[..n] == front;
      if MarksRow(c, w, moves, n, i) {
        assert LastMark(c, w, moves, n, i);
      } else if i < |before.db.inbox| {
        ProcessedExactlyWhenMarked(c, front, i);
        if before.db.inbox[i].processed.Some? {
          var k: nat :| LastMark(c, w, front, k, i) && front[k].at == before.db.inbox[i].processed.value;
          assert LastMark(c, w, moves, k, i);
        }
      } else {
        forall k: nat ensures !MarksRow(c, w, moves, k, i) { if k < n { NotYet(c, w, front, k, i); } }
      }
    }
  }

  // A row that is not there after a run was not there at any point of it.
  lemma {:induction false} NotYet(c: Codec, w: World, moves: seq<Move>, k: nat, i: nat)
    requires Legal(c, w, moves) && i >= |Play(c, w, moves).db.inbox| && k <= |moves|
    ensures !MarksRow(c, w, moves, k, i)
    decreases |moves|
  {
    if k < |moves| {
      var n := |moves| - 1;
      PlayLast(c, w, moves);
      MoveMarks(c, Play(c, w, moves[..n]), moves[n]);
      if k < n {
        assert moves[..n][..k] == moves[..k];
        NotYet(c, w, moves[..n], k, i);
      }
    }
  }

  // The records at..at + |items| of a journal prefix that is in the inbox already.
  lemma {:induction false} Replay(c: Codec, log: seq<Entry>, high: nat, at: nat, inbox: Inbox,
      cursor: Option<Position>, items: seq<Item>)
    requires high <= |log| && Bare(inbox) == Firsts(c, log, high)
    requires Segment(c, log, at, items) && at + |items| <= high
    ensures IngestAll(Db(inbox, cursor), items)
         == Ingested(Db(inbox, if items == [] then cursor else After(c, log, at + |items|)), |items|, false)
    decreases |items|
  {
    if items != [] {
      assert Some(items[0].at) == After(c, log, at + 1) && items[0].event == log[at].event;
      IngestRecord(c, log, high, at, inbox, cursor, items[0]);
      SegmentTail(c, log, at, items);
      Replay(c, log, high, at + 1, inbox, Some(items[0].at), items[1..]);
      IngestOneMore(Db(inbox, cursor), items, Db(inbox, Some(items[0].at)));
    }
  }

  lemma {:induction false} IngestOneMore(db: Db, items: seq<Item>, next: Db)
    requires items != [] && IngestOne(db, items[0]) == Some(next)
    ensures IngestAll(db, items) == Counted(IngestAll(next, items[1..]), 1)
  {
  }

  lemma {:induction false} SegmentTail(c: Codec, log: seq<Entry>, at: nat, items: seq<Item>)
    requires items != [] && Segment(c, log, at, items)
    ensures Segment(c, log, at + 1, items[1..])
  {
    TailPending(c, log, at + 1, at, items);
    forall i | 0 <= i < |items| - 1
      ensures Some(items[1..][i].at) == After(c, log, (at + 1) + i + 1) && items[1..][i].event == log[at + 1 + i].event
    {
      assert items[1..][i] == items[i + 1];
    }
  }

  // Rewinding the cursor to any earlier position and running a whole step over a journal that was
  // ingested already leaves every inbox row as it is and brings the cursor back to the end.
  lemma {:induction false} RewindAndReplay(c: Codec, w: World, k: nat, day: nat, torn: Bytes)
    requires Lawful(c) && InvAt(c, w, |w.log|) && k < |w.log| && DayAllowed(w.log, day) && NEWLINE !in torn
    ensures var rewound := w.(db := w.db.(cursor := After(c, w.log, k)));
      IngestAll(rewound.db, Read(c, rewound, day, torn))
        == Ingested(Db(w.db.inbox, After(c, w.log, |w.log|)), |w.log| - k, false)
  {
    TornRoundTrip(c, w.log, k, day, torn);
    ReplayRest(c, w.log, k, w.db.inbox);
  }

  lemma {:induction false} ReplayRest(c: Codec, log: seq<Entry>, k: nat, inbox: Inbox)
    requires Bare(inbox) == Firsts(c, log, |log|) && k < |log|
    ensures IngestAll(Db(inbox, After(c, log, k)), Rest(c, log, k))
        == Ingested(Db(inbox, After(c, log, |log|)), |log| - k, false)
  {
    RestSegment(c, log, k);
    Replay(c, log, |log|, k, inbox, After(c, log, k), Rest(c, log, k));
  }

  // The first record at or after n that the inbox refuses.
  ghost predicate ClashFrom(log: seq<Entry>, n: nat) {
    exists i :: n <= i < |log| && Clashes(log, i)
  }

  // How a step ends: with an error exactly when the inbox refuses one of the records from `high` on,
  // and else with the whole journal ingested.
  ghost predicate Drained(c: Codec, log: seq<Entry>, high: nat, r: Ingested)
    requires high <= |log|
  {
    && (r.raised <==> ClashFrom(log, high))
    && (!r.raised ==>
         Bare(r.db.inbox) == Firsts(c, log, |log|) && r.db.cursor == After(c, log, |log|) && r.count == |log| - high)
  }

  lemma {:induction false} StepDrains(c: Codec, log: seq<Entry>, high: nat, db: Db, rest: seq<Item>)
    requires high <= |log| && Bare(db.inbox) == Firsts(c, log, high) && db.cursor == After(c, log, high)
    requires rest == Rest(c, log, high)
    ensures Drained(c, log, high, IngestAll(db, rest))
    decreases |log| - high
  {
    if high < |log| {
      RestHead(c, log, high, rest);
      var one := IngestNext(c, log, high, db, rest[0]);
      if one.Some? { StepDrains(c, log, high + 1, one.value, rest[1..]); }
      ClashUnfolds(log, high);
    }
  }

  lemma {:induction false} RestHead(c: Codec, log: seq<Entry>, n: nat, rest: seq<Item>)
    requires n < |log| && rest == Rest(c, log, n)
    ensures rest != [] && rest[0] == Item(After(c, log, n + 1).value, log[n].event)
    ensures rest[1..] == Rest(c, log, n + 1)
  {
  }

  lemma {:induction false} IngestNext(c: Codec, log: seq<Entry>, high: nat, db: Db, head: Item)
    returns (one: Option<Db>)
    requires high < |log| && Bare(db.inbox) == Firsts(c, log, high)
    requires Some(head.at) == After(c, log, high + 1) && head.event == log[high].event
    ensures one == IngestOne(db, head) && (one.None? <==> Clashes(log, high))
    ensures one.Some? ==>
      Bare(one.value.inbox) == Firsts(c, log, high + 1) && one.value.cursor == After(c, log, high + 1)
  {
    IngestRecord(c, log, high, high, db.inbox, db.cursor, head);
    one := IngestOne(db, head);
  }

  lemma {:induction false} ClashUnfolds(log: seq<Entry>, n: nat)
    requires n < |log|
    ensures ClashFrom(log, n) <==> Clashes(log, n) || ClashFrom(log, n + 1)
  {
  }

  function Ingests(v: nat, n: nat): seq<Move> {
    if n == 0 then [] else [Ingest(v)] + Ingests(v, n - 1)
  }

  // The loop of a step is a run of Ingest moves; a crash after n of them leaves what n transactions
  // committed, and after all of them what the whole step leaves.
  lemma {:induction false} StepIsRun(c: Codec, w: World, v: nat, n: nat)
    requires v in w.pending && n <= IngestAll(w.db, w.pending[v]).count
    ensures Legal(c, w, Ingests(v, n)) && n <= |w.pending[v]|
    ensures Play(c, w, Ingests(v, n)).db == IngestAll(w.db, w.pending[v][..n]).db
    ensures n == IngestAll(w.db, w.pending[v]).count ==>
      Play(c, w, Ingests(v, n)).db == IngestAll(w.db, w.pending[v]).db
    decreases n
  {
    if n > 0 {
      var w' := Do(c, w, Ingest(v));
      StepIsRun(c, w', v, n - 1);
      assert Ingests(v, n)[0] == Ingest(v) && Ingests(v, n)[1..] == Ingests(v, n - 1);
      assert w.pending[v][..n][1..] == w'.pending[v][..n - 1];
    }
  }
}
