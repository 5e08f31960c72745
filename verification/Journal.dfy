/**
 The ingress journal (journal/writer.py, journal/reader.py): newline-framed records in one file a
 day, appended by the writer and read back from resume positions.

 A file is its decompressed byte sequence, and a day number stands for the file name, whose
 sorting is the sorting of days.
 */
module Journal {
  import opened Common
  import opened Events

  newtype byte = x: int | 0 <= x < 256

  type Bytes = seq<byte>

  const NEWLINE: byte := 10

  // CanonicalEvent
  datatype Canonical = Canonical(event: Event, deliveryId: string)

  // The JSON encoding of one record and its parser; decode answers None where the parser raises.
  datatype Codec = Codec(encode: Canonical -> Bytes, decode: Bytes -> Option<Canonical>)

  // JSON escapes control characters inside strings (section 7 of RFC 8259), so a record written
  // without indentation holds no raw newline; parsing inverts writing.
  ghost predicate Lawful(c: Codec) {
    forall e :: RecordOk(c, e)
  }

  predicate RecordOk(c: Codec, e: Canonical) {
    NEWLINE !in c.encode(e) && c.decode(c.encode(e)) == Some(e)
  }

  datatype File = File(day: nat, content: Bytes)

  // The files of the journal directory, as sorted(glob) lists them.
  type Dir = seq<File>

  predicate Sorted(d: Dir) {
    forall i, j :: 0 <= i < j < |d| ==> d[i].day < d[j].day
  }

  datatype Position = Position(day: nat, offset: nat)

  // ---- writing

  // _serialize_event
  function Line(c: Codec, e: Canonical): Bytes {
    c.encode(e) + [NEWLINE]
  }

  // Append bytes to the file of a day, creating it when it is missing.
  function AppendTo(d: Dir, day: nat, b: Bytes): Dir {
    if d == [] then [File(day, b)]
    else if d[0].day == day then [File(day, d[0].content + b)] + d[1..]
    else if day < d[0].day then [File(day, b)] + d
    else [d[0]] + AppendTo(d[1..], day, b)
  }

  function ContentOf(d: Dir, day: nat): Bytes {
    if d == [] then [] else if d[0].day == day then d[0].content else ContentOf(d[1..], day)
  }

  predicate HasDay(d: Dir, day: nat) {
    exists i :: 0 <= i < |d| && d[i].day == day
  }

  lemma {:induction false} AppendKeepsSorted(d: Dir, day: nat, b: Bytes)
    requires Sorted(d)
    ensures Sorted(AppendTo(d, day, b))
    ensures forall f :: f in AppendTo(d, day, b) ==> f.day == day || f in d
  {
    if d != [] && d[0].day < day {
      AppendKeepsSorted(d[1..], day, b);
      var t := AppendTo(d[1..], day, b);
      forall f | f in t ensures d[0].day < f.day {
        if f.day != day { assert f in d[1..]; }
      }
    }
  }

  lemma {:induction false} AppendContent(d: Dir, day: nat, b: Bytes)
    requires Sorted(d)
    ensures HasDay(AppendTo(d, day, b), day)
    ensures ContentOf(AppendTo(d, day, b), day) == ContentOf(d, day) + b
  {
    var r := AppendTo(d, day, b);
    if d == [] || d[0].day == day {
      assert r[0].day == day;
    } else if day < d[0].day {
      assert r[0].day == day;
      OlderDayAbsent(d, day);
    } else {
      AppendContent(d[1..], day, b);
      var t := AppendTo(d[1..], day, b);
      assert r[1..] == t;
      var k :| 0 <= k < |t| && t[k].day == day;
      assert r[k + 1].day == day;
    }
  }

  lemma {:induction false} OlderDayAbsent(d: Dir, day: nat)
    requires forall f :: f in d ==> day < f.day
    ensures ContentOf(d, day) == []
  {
    if d != [] {
      assert d[0] in d;
      OlderDayAbsent(d[1..], day);
    }
  }

  // Opening a day's file for appending creates it empty; appending afterwards is appending at once.
  lemma {:induction false} AppendTwice(d: Dir, day: nat, a: Bytes, b: Bytes)
    ensures AppendTo(AppendTo(d, day, a), day, b) == AppendTo(d, day, a + b)
  {
    var r := AppendTo(d, day, a);
    if d == [] {
      assert r[1..] == [];
    } else if d[0].day == day {
      assert r[1..] == d[1..] && (d[0].content + a) + b == d[0].content + (a + b);
    } else if day < d[0].day {
      assert r[1..] == d;
    } else {
      assert r[1..] == AppendTo(d[1..], day, a);
      AppendTwice(d[1..], day, a, b);
    }
  }

  class JournalDir {
    var files: Dir

    constructor ()
      ensures files == []
    {
      files := [];
    }
  }

  class JournalWriter {
    const base: JournalDir
    const codec: Codec
    var currentDay: Option<nat>
    var offset: nat

    // With this the only writer, the tracked offset is the length of the open file.
    ghost predicate Valid()
      reads this, base
    {
      && Sorted(base.files)
      && (currentDay.Some? ==>
            HasDay(base.files, currentDay.value) && offset == |ContentOf(base.files, currentDay.value)|)
    }

    constructor (base: JournalDir, codec: Codec)
      requires Sorted(base.files)
      ensures Valid() && this.base == base && this.codec == codec
    {
      this.base, this.codec, currentDay, offset := base, codec, None, 0;
    }

    method Close()
      requires Valid()
      modifies this
      ensures Valid() && currentDay == None && offset == 0
    {
      currentDay, offset := None, 0;
    }

    method RotateIfNeeded(day: nat)
      requires Valid()
      modifies this, base
      ensures Valid() && currentDay == Some(day)
      ensures base.files == if old(currentDay) == Some(day) then old(base.files) else AppendTo(old(base.files), day, [])
    {
      if currentDay == Some(day) {
        return;
      }
      Close();
      AppendKeepsSorted(base.files, day, []);
      AppendContent(base.files, day, []);
      currentDay := Some(day);
      offset := |ContentOf(base.files, day)|;
      base.files := AppendTo(base.files, day, []);
    }

    method Append(day: nat, e: Canonical) returns (position: Position)
      requires Valid()
      modifies this, base
      ensures Valid() && base.files == AppendTo(old(base.files), day, Line(codec, e))
      ensures position == Position(day, |ContentOf(old(base.files), day)|)
    {
      ghost var before := base.files;
      RotateIfNeeded(day);
      var line := Line(codec, e);
      position := Position(day, offset);
      AppendContent(before, day, []);
      AppendTwice(before, day, [], line);
      AppendNothing(before, day, line);
      AppendKeepsSorted(base.files, day, line);
      AppendContent(base.files, day, line);
      base.files := AppendTo(base.files, day, line);
      offset := offset + |line|;
    }
  }

  lemma {:induction false} AppendNothing(d: Dir, day: nat, b: Bytes)
    ensures AppendTo(d, day, [] + b) == AppendTo(d, day, b)
  {
    assert [] + b == b;
  }

  // ---- reading

  // content.find(b"\n", start)
  function Find(content: Bytes, start: nat): (i: Option<nat>)
    requires start <= |content|
    ensures i.Some? ==> start <= i.value < |content| && content[i.value] == NEWLINE
    ensures forall j :: start <= j < (if i.Some? then i.value else |content|) ==> content[j] != NEWLINE
    decreases |content| - start
  {
    if start == |content| then None
    else if content[start] == NEWLINE then Some(start)
    else Find(content, start + 1)
  }

  datatype Item = Item(at: Position, event: Canonical)

  // What a generator yields before it stops, and whether it stopped by raising.
  datatype Reading = Reading(items: seq<Item>, ok: bool)

  function Then(a: seq<Item>, r: Reading): Reading {
    Reading(a + r.items, r.ok)
  }

  lemma {:induction false} ThenTwice(a: seq<Item>, b: seq<Item>, r: Reading)
    ensures Then(a + b, r) == Then(a, Then(b, r))
  {
    assert (a + b) + r.items == a + (b + r.items);
  }

  // _iterate_file
  function ReadFile(c: Codec, day: nat, content: Bytes, start: nat): Reading
    decreases |content| - start
  {
    if start >= |content| then Reading([], true)
    else match Find(content, start)
      case None => Reading([], true)
      case Some(end) =>
        match c.decode(content[start..end])
        case None => Reading([], false)
        case Some(e) => Then([Item(Position(day, end + 1), e)], ReadFile(c, day, content, end + 1))
  }

  function StartOffset(day: nat, position: Option<Position>): nat {
    if position.Some? && position.value.day == day then position.value.offset else 0
  }

  predicate Skips(day: nat, position: Option<Position>) {
    position.Some? && day < position.value.day
  }

  // iterate_from
  function ReadDir(c: Codec, d: Dir, position: Option<Position>): Reading {
    if d == [] then Reading([], true)
    else if Skips(d[0].day, position) then ReadDir(c, d[1..], position)
    else
      var first := ReadFile(c, d[0].day, d[0].content, StartOffset(d[0].day, position));
      if first.ok then Then(first.items, ReadDir(c, d[1..], position)) else first
  }

  class JournalReader {
    const base: JournalDir
    const codec: Codec

    constructor (base: JournalDir, codec: Codec)
      ensures this.base == base && this.codec == codec
    {
      this.base, this.codec := base, codec;
    }

    method IterateFile(file: File, start: nat) returns (r: Reading)
      ensures r == ReadFile(codec, file.day, file.content, start)
    {
      var items: seq<Item> := [];
      var cursor := start;
      while cursor < |file.content|
        invariant Then(items, ReadFile(codec, file.day, file.content, cursor))
            == ReadFile(codec, file.day, file.content, start)
        decreases |file.content| - cursor
      {
        var end := Find(file.content, cursor);
        if end.None? {
          return Reading(items, true);
        }
        var e := codec.decode(file.content[cursor..end.value]);
        if e.None? {
          return Reading(items, false);
        }
        var next := Item(Position(file.day, end.value + 1), e.value);
        ThenTwice(items, [next], ReadFile(codec, file.day, file.content, end.value + 1));
        items := items + [next];
        cursor := end.value + 1;
      }
      r := Reading(items, true);
    }

    method IterateFrom(position: Option<Position>) returns (r: Reading)
      ensures r == ReadDir(codec, base.files, position)
    {
      var files := base.files;
      var items: seq<Item> := [];
      var i := 0;
      while i < |files|
        invariant 0 <= i <= |files|
        invariant Then(items, ReadDir(codec, files[i..], position)) == ReadDir(codec, files, position)
      {
        assert files[i..][0] == files[i] && files[i..][1..] == files[i + 1..];
        if !Skips(files[i].day, position) {
          var part := IterateFile(files[i], StartOffset(files[i].day, position));
          if !part.ok {
            return Reading(items + part.items, false);
          }
          ThenTwice(items, part.items, ReadDir(codec, files[i + 1..], position));
          items := items + part.items;
        }
        i := i + 1;
      }
      assert files[i..] == [];
      r := Reading(items, true);
    }
  }

  // ---- round trip

  datatype Entry = Entry(day: nat, event: Canonical)

  ghost predicate Rising(log: seq<Entry>) {
    forall i, j :: InOrder(log, i, j)
  }

  predicate InOrder(log: seq<Entry>, i: nat, j: nat) {
    i <= j < |log| ==> log[i].day <= log[j].day
  }

  lemma {:induction false} RisingFront(log: seq<Entry>, n: nat)
    requires Rising(log) && n <= |log|
    ensures Rising(log[..n]) && (0 < n < |log| ==> log[n - 1].day <= log[n].day)
  {
    forall i, j ensures InOrder(log[..n], i, j) { assert InOrder(log, i, j); }
    if n > 0 { assert InOrder(log, n - 1, n); }
  }

  lemma {:induction false} RisingSnoc(log: seq<Entry>, e: Entry)
    requires Rising(log) && (log == [] || log[|log| - 1].day <= e.day)
    ensures Rising(log + [e])
  {
    forall i: nat, j: nat ensures InOrder(log + [e], i, j) {
      assert InOrder(log, i, j);
      if log != [] { assert InOrder(log, i, |log| - 1); }
    }
  }

  // The directory after appending the entries one by one to an empty journal.
  function Written(c: Codec, log: seq<Entry>): Dir {
    if log == [] then []
    else AppendTo(Written(c, log[..|log| - 1]), log[|log| - 1].day, Line(c, log[|log| - 1].event))
  }

  // The resume position after the first k entries.
  function After(c: Codec, log: seq<Entry>, k: nat): Option<Position>
    requires k <= |log|
  {
    if k == 0 then None
    else Some(Position(log[k - 1].day, |ContentOf(Written(c, log[..k]), log[k - 1].day)|))
  }

  // What reading from there should yield.
  function Rest(c: Codec, log: seq<Entry>, k: nat): seq<Item>
    requires k <= |log|
    decreases |log| - k
  {
    if k == |log| then [] else [Item(After(c, log, k + 1).value, log[k].event)] + Rest(c, log, k + 1)
  }

  // A byte offset at which a record starts or the file ends.
  predicate Boundary(content: Bytes, at: nat) {
    at <= |content| && (at == 0 || content[at - 1] == NEWLINE)
  }

  // What a reader yields that comes to one line more, which ends at a position: its record, or an error.
  function Ended(c: Codec, items: seq<Item>, at: Position, line: Bytes): Reading {
    match c.decode(line)
    case None => Reading(items, false)
    case Some(e) => Reading(items + [Item(at, e)], true)
  }

  // Appending one line to a complete file adds exactly one item to every reading of it, or an error.
  lemma {:induction false} ReadFileAppend(c: Codec, day: nat, content: Bytes, line: Bytes, longer: Bytes, start: nat)
    requires NEWLINE !in line && start <= |content| && Boundary(content, |content|)
    requires longer == content + (line + [NEWLINE]) && ReadFile(c, day, content, start).ok
    ensures ReadFile(c, day, longer, start)
         == Ended(c, ReadFile(c, day, content, start).items, Position(day, |longer|), line)
    decreases |content| - start
  {
    if start == |content| {
      ReadOneLine(c, day, content, line, longer);
    } else {
      FindKept(content, line + [NEWLINE], start);
      var end := Find(content, start).value;
      ReadOneMore(c, day, content, start, end);
      ReadOneMore(c, day, longer, start, end);
      ReadFileAppend(c, day, content, line, longer, end + 1);
      ThenEnded(c, [Item(Position(day, end + 1), c.decode(content[start..end]).value)],
          ReadFile(c, day, content, end + 1).items, Position(day, |longer|), line);
    }
  }

  lemma {:induction false} ReadOneMore(c: Codec, day: nat, content: Bytes, start: nat, end: nat)
    requires start < |content| && Find(content, start) == Some(end) && c.decode(content[start..end]).Some?
    ensures ReadFile(c, day, content, start)
         == Then([Item(Position(day, end + 1), c.decode(content[start..end]).value)],
                 ReadFile(c, day, content, end + 1))
  {
  }

  lemma {:induction false} ReadOneLine(c: Codec, day: nat, content: Bytes, line: Bytes, longer: Bytes)
    requires NEWLINE !in line && longer == content + (line + [NEWLINE])
    ensures ReadFile(c, day, longer, |content|) == Ended(c, [], Position(day, |longer|), line)
  {
    NextNewline(content, line, longer);
    LineBetween(content, line, longer);
    assert ReadFile(c, day, longer, |longer|) == Reading([], true);
  }

  lemma {:induction false} NextNewline(content: Bytes, line: Bytes, longer: Bytes)
    requires NEWLINE !in line && longer == content + (line + [NEWLINE])
    ensures Find(longer, |content|) == Some(|longer| - 1)
  {
    forall i | |content| <= i < |longer| - 1 ensures longer[i] != NEWLINE {
      assert longer[i] == line[i - |content|];
    }
    FirstNewline(longer, |content|, |longer| - 1);
  }

  lemma {:induction false} LineBetween(content: Bytes, line: Bytes, longer: Bytes)
    requires longer == content + (line + [NEWLINE])
    ensures longer[|content|..|longer| - 1] == line
  {
  }

  // In a complete file the next newline is there already.
  lemma {:induction false} FindKept(content: Bytes, more: Bytes, start: nat)
    requires start < |content| && Boundary(content, |content|)
    ensures Find(content, start).Some?
    ensures Find(content + more, start) == Find(content, start)
    ensures var end := Find(content, start).value; (content + more)[start..end] == content[start..end]
  {
    assert content[|content| - 1] == NEWLINE;
    var a := Find(content, start).value;
    FirstNewline(content + more, start, a);
  }

  // Find answers the only newline with none before it.
  lemma {:induction false} FirstNewline(content: Bytes, start: nat, at: nat)
    requires start <= at < |content| && content[at] == NEWLINE
    requires forall i :: start <= i < at ==> content[i] != NEWLINE
    ensures Find(content, start) == Some(at)
  {
    var b := Find(content, start);
    assert b.Some? && !(at < b.value) && !(b.value < at);
  }

  // Bytes after the last newline are never yielded.
  lemma {:induction false} TornTailUnread(c: Codec, day: nat, content: Bytes, tail: Bytes, start: nat)
    requires start <= |content| && Boundary(content, |content|) && NEWLINE !in tail
    ensures ReadFile(c, day, content + tail, start) == ReadFile(c, day, content, start)
    decreases |content| - start
  {
    var longer := content + tail;
    if start == |content| {
      assert forall i :: start <= i < |longer| ==> longer[i] == tail[i - start];
    } else {
      FindKept(content, tail, start);
      var end := Find(content, start).value;
      TornTailUnread(c, day, content, tail, end + 1);
    }
  }

  ghost predicate Complete(d: Dir) {
    forall f :: f in d ==> Boundary(f.content, |f.content|)
  }

  ghost predicate NoneAfter(d: Dir, day: nat) {
    forall f :: f in d ==> f.day <= day
  }

  // A resume position inside a journal whose last day is `day`.
  ghost predicate Fits(d: Dir, day: nat, p: Option<Position>) {
    p.Some? ==>
      || (p.value.day < day && forall f :: f in d && f.day == p.value.day ==> p.value.offset <= |f.content|)
      || (p.value.day == day && p.value.offset <= |ContentOf(d, day)|)
  }

  lemma {:induction false} AppendFiles(d: Dir, day: nat, b: Bytes)
    requires Sorted(d)
    ensures forall f :: f in AppendTo(d, day, b) ==> f in d || f == File(day, ContentOf(d, day) + b)
  {
    if d != [] && day < d[0].day {
      OlderDayAbsent(d, day);
      assert [] + b == b;
    } else if d != [] && d[0].day < day {
      AppendFiles(d[1..], day, b);
    } else {
      assert [] + b == b;
    }
  }

  lemma {:induction false} ContentOfFile(d: Dir, f: File)
    requires Sorted(d) && f in d
    ensures ContentOf(d, f.day) == f.content
  {
    if d[0] != f {
      assert f in d[1..];
      ContentOfFile(d[1..], f);
    }
  }

  lemma {:induction false} OtherContentKept(d: Dir, day: nat, b: Bytes, other: nat)
    requires day != other
    ensures ContentOf(AppendTo(d, day, b), other) == ContentOf(d, other)
  {
    if d != [] && d[0].day < day {
      OtherContentKept(d[1..], day, b, other);
    }
  }

  // One line more on the last day is one item more, or an error, for every reader.
  lemma {:induction false} ReadDirAppend(c: Codec, d: Dir, day: nat, line: Bytes, p: Option<Position>)
    requires NEWLINE !in line && Sorted(d) && Complete(d) && NoneAfter(d, day) && Fits(d, day, p)
    requires ReadDir(c, d, p).ok
    ensures ReadDir(c, AppendTo(d, day, line + [NEWLINE]), p)
         == Ended(c, ReadDir(c, d, p).items, Position(day, |ContentOf(d, day)| + |line| + 1), line)
  {
    if d == [] {
      ReadFirstAppend(c, day, line, p);
    } else if d[0].day == day {
      ReadSameDayAppend(c, d, line, p);
    } else {
      FitsTail(d, day, p);
      OkTail(c, d, p);
      ReadDirAppend(c, d[1..], day, line, p);
      ReadLaterAppend(c, d, day, line, p);
    }
  }

  lemma {:induction false} ReadFirstAppend(c: Codec, day: nat, line: Bytes, p: Option<Position>)
    requires NEWLINE !in line && Fits([], day, p)
    ensures ReadDir(c, AppendTo([], day, line + [NEWLINE]), p) == Ended(c, [], Position(day, |line| + 1), line)
  {
    var f := File(day, line + [NEWLINE]);
    assert AppendTo([], day, f.content) == [f];
    assert !Skips(day, p) && StartOffset(day, p) == 0;
    ReadOneFile(c, f, p);
    ReadOneLine(c, day, [], line, f.content);
  }

  lemma {:induction false} ReadSameDayAppend(c: Codec, d: Dir, line: Bytes, p: Option<Position>)
    requires NEWLINE !in line && Sorted(d) && Complete(d) && d != [] && NoneAfter(d, d[0].day) && Fits(d, d[0].day, p)
    requires ReadDir(c, d, p).ok
    ensures var day := d[0].day;
            ReadDir(c, AppendTo(d, day, line + [NEWLINE]), p)
              == Ended(c, ReadDir(c, d, p).items, Position(day, |ContentOf(d, day)| + |line| + 1), line)
  {
    LastFile(d, d[0].day);
    assert AppendTo(d, d[0].day, line + [NEWLINE]) == [File(d[0].day, d[0].content + (line + [NEWLINE]))];
    ReadLastAppend(c, d[0], line, p);
  }

  lemma {:induction false} FitsTail(d: Dir, day: nat, p: Option<Position>)
    requires Sorted(d) && Complete(d) && NoneAfter(d, day) && Fits(d, day, p) && d != [] && d[0].day != day
    ensures d[0].day < day && ContentOf(d, day) == ContentOf(d[1..], day)
    ensures Sorted(d[1..]) && Complete(d[1..]) && NoneAfter(d[1..], day) && Fits(d[1..], day, p)
  {
    assert d[0] in d;
  }

  lemma {:induction false} OkTail(c: Codec, d: Dir, p: Option<Position>)
    requires d != [] && ReadDir(c, d, p).ok
    ensures ReadDir(c, d[1..], p).ok
  {
  }

  // What is more in the later files is more in all.
  lemma {:induction false} ReadLaterAppend(c: Codec, d: Dir, day: nat, line: Bytes, p: Option<Position>)
    requires d != [] && d[0].day < day && ContentOf(d, day) == ContentOf(d[1..], day) && ReadDir(c, d, p).ok
    requires ReadDir(c, AppendTo(d[1..], day, line + [NEWLINE]), p)
         == Ended(c, ReadDir(c, d[1..], p).items, Position(day, |ContentOf(d[1..], day)| + |line| + 1), line)
    ensures ReadDir(c, AppendTo(d, day, line + [NEWLINE]), p)
         == Ended(c, ReadDir(c, d, p).items, Position(day, |ContentOf(d, day)| + |line| + 1), line)
  {
    var r := AppendTo(d, day, line + [NEWLINE]);
    assert r[0] == d[0] && r[1..] == AppendTo(d[1..], day, line + [NEWLINE]);
    if !Skips(d[0].day, p) {
      var first := ReadFile(c, d[0].day, d[0].content, StartOffset(d[0].day, p));
      ThenEnded(c, first.items, ReadDir(c, d[1..], p).items, Position(day, |ContentOf(d, day)| + |line| + 1), line);
    }
  }

  lemma {:induction false} ReadLastAppend(c: Codec, f: File, line: Bytes, p: Option<Position>)
    requires NEWLINE !in line && Boundary(f.content, |f.content|) && !Skips(f.day, p)
        && StartOffset(f.day, p) <= |f.content|
    requires ReadDir(c, [f], p).ok
    ensures ReadDir(c, [File(f.day, f.content + (line + [NEWLINE]))], p)
         == Ended(c, ReadDir(c, [f], p).items, Position(f.day, |f.content| + |line| + 1), line)
  {
    ReadOneFile(c, f, p);
    ReadOneFile(c, File(f.day, f.content + (line + [NEWLINE])), p);
    ReadFileAppend(c, f.day, f.content, line, f.content + (line + [NEWLINE]), StartOffset(f.day, p));
  }

  lemma {:induction false} ThenEnded(c: Codec, a: seq<Item>, b: seq<Item>, at: Position, line: Bytes)
    ensures Then(a, Ended(c, b, at, line)) == Ended(c, a + b, at, line)
  {
    assert forall x: Item :: a + (b + [x]) == (a + b) + [x];
  }

  lemma {:induction false} ReadOneFile(c: Codec, f: File, p: Option<Position>)
    requires !Skips(f.day, p)
    ensures ReadDir(c, [f], p) == ReadFile(c, f.day, f.content, StartOffset(f.day, p))
  {
    var first := ReadFile(c, f.day, f.content, StartOffset(f.day, p));
    assert [f][1..] == [];
    assert first.items + [] == first.items;
  }

  lemma {:induction false} LastFile(d: Dir, day: nat)
    requires Sorted(d) && NoneAfter(d, day) && d != [] && d[0].day == day
    ensures d == [d[0]]
  {
    assert d[|d| - 1] in d;
    assert !(0 < |d| - 1);
  }

  // Bytes past the last newline change no reading of the directory.
  lemma {:induction false} ReadDirTorn(c: Codec, d: Dir, day: nat, tail: Bytes, p: Option<Position>)
    requires Sorted(d) && Complete(d) && NoneAfter(d, day) && Fits(d, day, p) && NEWLINE !in tail
    ensures ReadDir(c, AppendTo(d, day, tail), p) == ReadDir(c, d, p)
  {
    var r := AppendTo(d, day, tail);
    if d == [] {
      assert [] + tail == tail;
      TornTailUnread(c, day, [], tail, 0);
      ReadOneFile(c, File(day, tail), p);
    } else if d[0].day == day {
      LastFile(d, day);
      assert d == [d[0]] && r == [File(day, d[0].content + tail)];
      TornTailUnread(c, day, d[0].content, tail, StartOffset(day, p));
      ReadOneFile(c, d[0], p);
      ReadOneFile(c, r[0], p);
    } else {
      assert d[0] in d;
      assert r[0] == d[0] && r[1..] == AppendTo(d[1..], day, tail);
      ReadDirTorn(c, d[1..], day, tail, p);
    }
  }

  // A reader standing at the end of the last file finds nothing.
  lemma {:induction false} ReadAtEnd(c: Codec, d: Dir, day: nat)
    requires Sorted(d) && NoneAfter(d, day)
    ensures ReadDir(c, d, Some(Position(day, |ContentOf(d, day)|))) == Reading([], true)
  {
    if d != [] {
      assert d[0] in d;
      if d[0].day == day {
        LastFile(d, day);
      } else {
        ReadAtEnd(c, d[1..], day);
      }
    }
  }

  lemma {:induction false} WrittenFacts(c: Codec, log: seq<Entry>)
    requires Rising(log)
    ensures Sorted(Written(c, log)) && Complete(Written(c, log))
    ensures forall day: nat :: (log == [] || log[|log| - 1].day <= day) ==> NoneAfter(Written(c, log), day)
  {
    if log != [] {
      var n := |log| - 1;
      var d, day, line := Written(c, log[..n]), log[n].day, Line(c, log[n].event);
      RisingFront(log, n);
      WrittenFacts(c, log[..n]);
      assert NoneAfter(d, day);
      AppendKeepsSorted(d, day, line);
      AppendFiles(d, day, line);
    }
  }

  // Appending only lengthens a file.
  lemma {:induction false} ContentGrows(c: Codec, log: seq<Entry>, k: nat, day: nat)
    requires k <= |log| && Rising(log)
    ensures |ContentOf(Written(c, log[..k]), day)| <= |ContentOf(Written(c, log), day)|
    decreases |log|
  {
    if k == |log| {
      assert log[..k] == log;
    } else {
      var n := |log| - 1;
      RisingFront(log, n);
      ContentGrows(c, log[..n], k, day);
      assert log[..n][..k] == log[..k];
      WrittenFacts(c, log[..n]);
      if log[n].day == day {
        AppendContent(Written(c, log[..n]), day, Line(c, log[n].event));
      } else {
        OtherContentKept(Written(c, log[..n]), log[n].day, Line(c, log[n].event), day);
      }
    }
  }

  lemma {:induction false} PositionFits(c: Codec, log: seq<Entry>, k: nat, day: nat)
    requires k <= |log| && Rising(log) && (log == [] || log[|log| - 1].day <= day)
    ensures Fits(Written(c, log), day, After(c, log, k))
  {
    if k > 0 {
      var d, at := Written(c, log), After(c, log, k).value;
      assert InOrder(log, k - 1, |log| - 1);
      WrittenFacts(c, log);
      ContentGrows(c, log, k, at.day);
      forall f | f in d && f.day == at.day ensures at.offset <= |f.content| {
        ContentOfFile(d, f);
      }
    }
  }

  lemma {:induction false} RestSnoc(c: Codec, log: seq<Entry>, k: nat)
    requires k < |log|
    ensures Rest(c, log, k) == Rest(c, log[..|log| - 1], k) + [Item(After(c, log, |log|).value, log[|log| - 1].event)]
    decreases |log| - k
  {
    var n := |log| - 1;
    if k < n {
      RestSnoc(c, log, k + 1);
      assert log[..n][..k + 1] == log[..k + 1];
      assert log[..n][k] == log[k];
    } else {
      assert Rest(c, log, n + 1) == [];
    }
  }

  // The journal round trip: from the position after any k records the reader yields the others, in
  // order and with the positions after each, and it stops without an error.
  lemma {:induction false} RoundTrip(c: Codec, log: seq<Entry>, k: nat)
    requires Lawful(c) && Rising(log) && k <= |log|
    ensures ReadDir(c, Written(c, log), After(c, log, k)) == Reading(Rest(c, log, k), true)
    decreases |log|
  {
    if log == [] {
    } else if k == |log| {
      WrittenFacts(c, log);
      assert log[..k] == log;
      ReadAtEnd(c, Written(c, log), log[k - 1].day);
    } else {
      var pre := log[..|log| - 1];
      RisingFront(log, |log| - 1);
      RoundTrip(c, pre, k);
      AfterKept(c, log, k);
      RestLast(c, log, k, pre, Written(c, pre));
      var last := log[|log| - 1];
      RoundTripStep(c, pre, k, Written(c, pre), After(c, pre, k), last.day, last.event);
    }
  }

  lemma {:induction false} RoundTripStep(c: Codec, pre: seq<Entry>, k: nat, d: Dir, p: Option<Position>, day: nat,
      e: Canonical)
    requires Lawful(c) && Rising(pre) && k <= |pre| && (pre == [] || pre[|pre| - 1].day <= day)
    requires d == Written(c, pre) && p == After(c, pre, k) && ReadDir(c, d, p) == Reading(Rest(c, pre, k), true)
    ensures ReadDir(c, AppendTo(d, day, Line(c, e)), p)
         == Reading(Rest(c, pre, k) + [Item(Position(day, |ContentOf(d, day)| + |Line(c, e)|), e)], true)
  {
    WrittenFacts(c, pre);
    PositionFits(c, pre, k, day);
    ReadRecordAppend(c, d, day, e, p);
  }

  lemma {:induction false} RestLast(c: Codec, log: seq<Entry>, k: nat, pre: seq<Entry>, d: Dir)
    requires Rising(log) && k < |log| && pre == log[..|log| - 1] && d == Written(c, pre)
    ensures var last := log[|log| - 1];
            Rest(c, log, k) == Rest(c, pre, k)
              + [Item(Position(last.day, |ContentOf(d, last.day)| + |Line(c, last.event)|), last.event)]
  {
    AfterLast(c, log);
    RestSnoc(c, log, k);
  }

  lemma {:induction false} ReadRecordAppend(c: Codec, d: Dir, day: nat, e: Canonical, p: Option<Position>)
    requires Lawful(c) && Sorted(d) && Complete(d) && NoneAfter(d, day) && Fits(d, day, p)
    requires ReadDir(c, d, p).ok
    ensures ReadDir(c, AppendTo(d, day, Line(c, e)), p)
         == Reading(ReadDir(c, d, p).items + [Item(Position(day, |ContentOf(d, day)| + |Line(c, e)|), e)], true)
  {
    assert RecordOk(c, e);
    ReadDirAppend(c, d, day, c.encode(e), p);
  }

  lemma {:induction false} AfterKept(c: Codec, log: seq<Entry>, k: nat)
    requires k < |log|
    ensures After(c, log, k) == After(c, log[..|log| - 1], k)
  {
    assert log[..|log| - 1][..k] == log[..k];
  }

  lemma {:induction false} AfterLast(c: Codec, log: seq<Entry>)
    requires Rising(log) && log != []
    ensures var n := |log| - 1;
      After(c, log, |log|)
          == Some(Position(log[n].day, |ContentOf(Written(c, log[..n]), log[n].day)| + |Line(c, log[n].event)|))
  {
    var n := |log| - 1;
    assert log[..|log|] == log;
    RisingFront(log, n);
    WrittenFacts(c, log[..n]);
    AppendContent(Written(c, log[..n]), log[n].day, Line(c, log[n].event));
  }

  // The same with a record cut short at the end of the journal.
  lemma {:induction false} TornRoundTrip(c: Codec, log: seq<Entry>, k: nat, day: nat, tail: Bytes)
    requires Lawful(c) && Rising(log) && k <= |log|
    requires (log == [] || log[|log| - 1].day <= day) && NEWLINE !in tail
    ensures ReadDir(c, AppendTo(Written(c, log), day, tail), After(c, log, k)) == Reading(Rest(c, log, k), true)
  {
    RoundTrip(c, log, k);
    WrittenFacts(c, log);
    PositionFits(c, log, k, day);
    ReadDirTorn(c, Written(c, log), day, tail, After(c, log, k));
  }

  // A line that does not parse stops every reader, whatever is appended behind it.
  lemma {:induction false} ErrorStays(c: Codec, d: Dir, day: nat, b: Bytes, p: Option<Position>)
    requires Sorted(d) && NoneAfter(d, day) && !ReadDir(c, d, p).ok
    ensures ReadDir(c, AppendTo(d, day, b), p) == ReadDir(c, d, p)
  {
    var r := AppendTo(d, day, b);
    assert d[0] in d;
    if d[0].day == day {
      LastFile(d, day);
      assert r == [File(day, d[0].content + b)];
      ReadOneFile(c, d[0], p);
      ReadOneFile(c, r[0], p);
      ErrorStaysInFile(c, day, d[0].content, b, StartOffset(day, p));
    } else {
      assert r[0] == d[0] && r[1..] == AppendTo(d[1..], day, b);
      if ReadDir(c, d[1..], p).ok {
        assert !Skips(d[0].day, p);
      } else {
        ErrorStays(c, d[1..], day, b, p);
      }
    }
  }

  lemma {:induction false} ErrorStaysInFile(c: Codec, day: nat, content: Bytes, b: Bytes, start: nat)
    requires !ReadFile(c, day, content, start).ok
    ensures ReadFile(c, day, content + b, start) == ReadFile(c, day, content, start)
    decreases |content| - start
  {
    var end := Find(content, start).value;
    FirstNewline(content + b, start, end);
    assert (content + b)[start..end] == content[start..end];
    if c.decode(content[start..end]).Some? { ErrorStaysInFile(c, day, content, b, end + 1); }
  }

  // A record appended behind one that was cut short: what readers get of the two is the line they
  // make together, or an error at it.
  lemma {:induction false} TornThenAppended(c: Codec, log: seq<Entry>, k: nat, d: Dir, p: Option<Position>, day: nat,
      tail: Bytes, e: Canonical)
    requires Lawful(c) && Rising(log) && k <= |log| && d == Written(c, log) && p == After(c, log, k)
    requires (log == [] || log[|log| - 1].day <= day) && NEWLINE !in tail
    ensures ReadDir(c, AppendTo(AppendTo(d, day, tail), day, Line(c, e)), p)
         == Ended(c, Rest(c, log, k), Position(day, |ContentOf(d, day)| + |tail| + |Line(c, e)|), tail + c.encode(e))
  {
    assert RecordOk(c, e);
    ReadLineAfter(c, log, k, d, p, day, tail + c.encode(e));
    AppendTwice(d, day, tail, Line(c, e));
    assert tail + Line(c, e) == (tail + c.encode(e)) + [NEWLINE];
  }

  lemma {:induction false} ReadLineAfter(c: Codec, log: seq<Entry>, k: nat, d: Dir, p: Option<Position>, day: nat,
      line: Bytes)
    requires Lawful(c) && Rising(log) && k <= |log| && d == Written(c, log) && p == After(c, log, k)
    requires (log == [] || log[|log| - 1].day <= day) && NEWLINE !in line
    ensures ReadDir(c, AppendTo(d, day, line + [NEWLINE]), p)
         == Ended(c, Rest(c, log, k), Position(day, |ContentOf(d, day)| + |line| + 1), line)
  {
    RoundTrip(c, log, k);
    WrittenFacts(c, log);
    PositionFits(c, log, k, day);
    ReadDirAppend(c, d, day, line, p);
  }

  // Rest names the entries themselves: the i-th item is entry k + i, at the position after it.
  lemma {:induction false} RestAt(c: Codec, log: seq<Entry>, k: nat, i: nat)
    requires k <= |log| && i < |log| - k
    ensures |Rest(c, log, k)| == |log| - k
    ensures Rest(c, log, k)[i].event == log[k + i].event && Some(Rest(c, log, k)[i].at) == After(c, log, k + i + 1)
    decreases |log| - k
  {
    if i > 0 {
      RestAt(c, log, k + 1, i - 1);
    } else if k + 1 < |log| {
      RestAt(c, log, k + 1, 0);
    }
  }
}
