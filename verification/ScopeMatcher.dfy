/**
 The file-scope check of the executor adapter (runner/adapters/executor.py): lexical normalisation
 of paths and patterns, and component-wise glob matching in which `**` stands for any number of
 components. fnmatch on a single component is a given predicate.
 */
module ScopeMatcher {
  import opened Common

  // An entry of the file lists: a string, or a foreign JSON value by its str().
  datatype Entry = Name(s: string) | Foreign(text: string)

  type Parts = seq<string>

  // fnmatch.fnmatchcase(component, pattern)
  type Fnmatch = (string, string) -> bool

  // ---- matching

  // _match_parts
  predicate MatchParts(fn: Fnmatch, pattern: Parts, path: Parts)
    decreases |pattern| + |path|
  {
    if pattern == [] then path == []
    else if pattern[0] == "**" then
      MatchParts(fn, pattern[1..], path) || (path != [] && MatchParts(fn, pattern, path[1..]))
    else path != [] && fn(path[0], pattern[0]) && MatchParts(fn, pattern[1..], path[1..])
  }

  function Flatten(runs: seq<Parts>): Parts {
    if runs == [] then [] else runs[0] + Flatten(runs[1..])
  }

  // The run of components that one component of a pattern stands for.
  predicate StandsFor(fn: Fnmatch, p: string, run: Parts) {
    p == "**" || (|run| == 1 && fn(run[0], p))
  }

  // The meaning of a pattern: its components stand for consecutive runs that make up the path.
  ghost predicate Fits(fn: Fnmatch, pattern: Parts, runs: seq<Parts>, path: Parts) {
    |runs| == |pattern| && Flatten(runs) == path && forall i :: 0 <= i < |pattern| ==>
      StandsFor(fn, pattern[i], runs[i])
  }

  // `**` swallows any run in front of a match.
  lemma {:induction false} StarsSwallow(fn: Fnmatch, pattern: Parts, run: Parts, path: Parts)
    requires pattern != [] && pattern[0] == "**" && MatchParts(fn, pattern[1..], path)
    ensures MatchParts(fn, pattern, run + path)
    decreases |run|
  {
    if run == [] {
      assert run + path == path;
    } else {
      StarsSwallow(fn, pattern, run[1..], path);
      assert (run + path)[1..] == run[1..] + path;
    }
  }

  lemma {:induction false} FitsMatches(fn: Fnmatch, pattern: Parts, runs: seq<Parts>, path: Parts)
    requires Fits(fn, pattern, runs, path)
    ensures MatchParts(fn, pattern, path)
    decreases |pattern|
  {
    if pattern != [] {
      var rest := Flatten(runs[1..]);
      assert StandsFor(fn, pattern[0], runs[0]);
      forall i | 0 <= i < |pattern| - 1 ensures StandsFor(fn, pattern[1..][i], runs[1..][i]) {
        assert StandsFor(fn, pattern[i + 1], runs[i + 1]);
      }
      FitsMatches(fn, pattern[1..], runs[1..], rest);
      if pattern[0] == "**" {
        StarsSwallow(fn, pattern, runs[0], rest);
      } else {
        assert path[0] == runs[0][0] && path[1..] == rest;
      }
    }
  }

  lemma FitsCons(fn: Fnmatch, pattern: Parts, run: Parts, runs: seq<Parts>, path: Parts)
    requires pattern != [] && StandsFor(fn, pattern[0], run) && Fits(fn, pattern[1..], runs, path)
    ensures Fits(fn, pattern, [run] + runs, run + path)
  {
    assert ([run] + runs)[1..] == runs;
    forall i | 0 <= i < |pattern| ensures StandsFor(fn, pattern[i], ([run] + runs)[i]) {
      if i > 0 { assert StandsFor(fn, pattern[1..][i - 1], runs[i - 1]); }
    }
  }

  lemma {:induction false} MatchFits(fn: Fnmatch, pattern: Parts, path: Parts) returns (runs: seq<Parts>)
    requires MatchParts(fn, pattern, path)
    ensures Fits(fn, pattern, runs, path)
    decreases |pattern| + |path|
  {
    if pattern == [] {
      runs := [];
    } else if pattern[0] == "**" && MatchParts(fn, pattern[1..], path) {
      var rest := MatchFits(fn, pattern[1..], path);
      runs := [[]] + rest;
      FitsCons(fn, pattern, [], rest, path);
      assert [] + path == path;
    } else if pattern[0] == "**" {
      var rest := MatchFits(fn, pattern, path[1..]);
      runs := [[path[0]] + rest[0]] + rest[1..];
      LongerFirst(fn, pattern, rest, path);
    } else {
      var rest := MatchFits(fn, pattern[1..], path[1..]);
      runs := [[path[0]]] + rest;
      FitsCons(fn, pattern, [path[0]], rest, path[1..]);
      assert [path[0]] + path[1..] == path;
    }
  }

  // One more component for the leading `**`.
  lemma LongerFirst(fn: Fnmatch, pattern: Parts, runs: seq<Parts>, path: Parts)
    requires pattern != [] && pattern[0] == "**" && path != [] && Fits(fn, pattern, runs, path[1..])
    ensures Fits(fn, pattern, [[path[0]] + runs[0]] + runs[1..], path)
  {
    var rest := Flatten(runs[1..]);
    forall i | 0 <= i < |pattern| - 1 ensures StandsFor(fn, pattern[1..][i], runs[1..][i]) {
      assert StandsFor(fn, pattern[i + 1], runs[i + 1]);
    }
    FitsCons(fn, pattern, [path[0]] + runs[0], runs[1..], rest);
    assert ([path[0]] + runs[0]) + rest == [path[0]] + (runs[0] + rest);
  }

  // Matching is replacing each `**` by some run of components so that the components match pairwise.
  lemma MatchMeaning(fn: Fnmatch, pattern: Parts, path: Parts)
    ensures MatchParts(fn, pattern, path) <==> exists runs :: Fits(fn, pattern, runs, path)
  {
    if MatchParts(fn, pattern, path) {
      var runs := MatchFits(fn, pattern, path);
      assert Fits(fn, pattern, runs, path);
    } else {
      forall runs | Fits(fn, pattern, runs, path) ensures false { FitsMatches(fn, pattern, runs, path); }
    }
  }

  // ---- strings

  // path.replace("\\", "/")
  function Slashed(s: string): (r: string)
    ensures |r| == |s| && '\\' !in r
    ensures '\\' !in s ==> r == s
  {
    seq(|s|, i requires 0 <= i < |s| => if s[i] == '\\' then '/' else s[i])
  }

  // str.isspace on one character
  predicate Space(c: char) {
    || '\t' <= c <= '\r'
    || '\U{1C}' <= c <= ' '
    || c == '\U{85}' || c == '\U{A0}' || c == '\U{1680}'
    || '\U{2000}' <= c <= '\U{200A}'
    || c == '\U{2028}' || c == '\U{2029}' || c == '\U{202F}' || c == '\U{205F}' || c == '\U{3000}'
  }

  function StripLeft(s: string): string {
    if s != "" && Space(s[0]) then StripLeft(s[1..]) else s
  }

  function StripRight(s: string): string {
    if s != "" && Space(s[|s| - 1]) then StripRight(s[..|s| - 1]) else s
  }

  // str.strip
  function Strip(s: string): string {
    StripRight(StripLeft(s))
  }

  // s.split("/")
  function Split(s: string): (parts: Parts)
    ensures parts != []
  {
    if s == "" then [""]
    else
      var rest := Split(s[1..]);
      if s[0] == '/' then [""] + rest else [[s[0]] + rest[0]] + rest[1..]
  }

  // "/".join(parts)
  function Join(parts: Parts): string {
    if parts == [] then ""
    else if |parts| == 1 then parts[0]
    else parts[0] + "/" + Join(parts[1..])
  }

  // ---- normalising

  predicate IsName(part: string) {
    part != "" && part != "." && part != ".."
  }

  // The loop of _normalize_path over a stack of components; None where it climbs too high.
  function Walk(stack: Parts, parts: Parts): Option<Parts>
    decreases |parts|
  {
    if parts == [] then Some(stack)
    else if parts[0] == "" || parts[0] == "." then Walk(stack, parts[1..])
    else if parts[0] == ".." then if stack == [] then None else Walk(stack[..|stack| - 1], parts[1..])
    else Walk(stack + [parts[0]], parts[1..])
  }

  predicate Rejected(raw: string) {
    raw == "" || raw[0] == '/'
  }

  // _normalize_path and _normalize_pattern, which have the same body
  function Normalized(e: Entry): Option<string> {
    if e.Foreign? then None
    else
      var raw := Strip(Slashed(e.s));
      if Rejected(raw) then None
      else
        var w := Walk([], Split(raw));
        if w.None? || w.value == [] then None else Some(Join(w.value))
  }

  method Normalize(e: Entry) returns (r: Option<string>)
    ensures r == Normalized(e)
  {
    if e.Foreign? {
      return None;
    }
    var raw := Strip(Slashed(e.s));
    if raw == "" || raw[0] == '/' {
      return None;
    }
    var all := Split(raw);
    var parts: Parts := [];
    var i := 0;
    while i < |all|
      invariant 0 <= i <= |all|
      invariant Walk(parts, all[i..]) == Walk([], all)
    {
      var part := all[i];
      assert all[i..][0] == part && all[i..][1..] == all[i + 1..];
      i := i + 1;
      if part == "" || part == "." {
        continue;
      }
      if part == ".." {
        if parts == [] {
          return None;
        }
        parts := parts[..|parts| - 1];
        continue;
      }
      parts := parts + [part];
    }
    assert all[i..] == [];
    r := if parts != [] then Some(Join(parts)) else None;
  }

  // Names minus `..` among the first n components.
  function Depth(parts: Parts, n: nat): int
    requires n <= |parts|
  {
    if n == 0 then 0
    else Depth(parts, n - 1) + if parts[n - 1] == ".." then -1 else if IsName(parts[n - 1]) then 1 else 0
  }

  lemma {:induction false} DepthTail(parts: Parts, n: nat)
    requires 0 < n <= |parts|
    ensures Depth(parts, n) == Depth(parts[1..], n - 1) + Depth(parts, 1)
  {
    if n > 1 {
      DepthTail(parts, n - 1);
    }
  }

  // Walking fails exactly when some prefix has more `..` than names (and the stack); otherwise the
  // stack ends as high as the difference.
  lemma {:induction false} WalkDepth(stack: Parts, parts: Parts)
    ensures Walk(stack, parts).None? <==> exists n :: 0 <= n <= |parts| && |stack| + Depth(parts, n) < 0
    ensures Walk(stack, parts).Some? ==> |Walk(stack, parts).value| == |stack| + Depth(parts, |parts|)
    decreases |parts|
  {
    if parts != [] {
      var d := Depth(parts, 1);
      forall n | 0 < n <= |parts| ensures Depth(parts, n) == Depth(parts[1..], n - 1) + d { DepthTail(parts, n); }
      if |stack| + d < 0 {
        assert |stack| + Depth(parts, 1) < 0;
      } else {
        var next := if d < 0 then stack[..|stack| - 1] else if d > 0 then stack + [parts[0]] else stack;
        WalkDepth(next, parts[1..]);
        assert Walk(stack, parts) == Walk(next, parts[1..]);
        DepthShift(parts, |stack|);
      }
    }
  }

  lemma DepthShift(parts: Parts, height: nat)
    requires parts != [] && height + Depth(parts, 1) >= 0
    ensures (exists n :: 0 <= n <= |parts| && height + Depth(parts, n) < 0)
        <==> (exists n :: 0 <= n <= |parts| - 1 && height + Depth(parts, 1) + Depth(parts[1..], n) < 0)
  {
    if n :| 0 <= n <= |parts| && height + Depth(parts, n) < 0 {
      assert n > 0;
      DepthTail(parts, n);
      assert height + Depth(parts, 1) + Depth(parts[1..], n - 1) < 0;
    }
    if n :| 0 <= n <= |parts| - 1 && height + Depth(parts, 1) + Depth(parts[1..], n) < 0 {
      DepthTail(parts, n + 1);
      assert height + Depth(parts, n + 1) < 0;
    }
  }

  // A relative path is rejected exactly when it climbs above its start or resolves to nothing.
  lemma RejectionMeaning(s: string)
    ensures var raw := Strip(Slashed(s)); !Rejected(raw) ==>
      var parts := Split(raw);
      (Normalized(Name(s)) == None <==>
        Depth(parts, |parts|) == 0 || exists n :: 0 <= n <= |parts| && Depth(parts, n) < 0)
  {
    var raw := Strip(Slashed(s));
    if !Rejected(raw) {
      WalkDepth([], Split(raw));
    }
  }

  // ---- what a normalised path looks like

  predicate Component(p: string) {
    IsName(p) && '/' !in p && '\\' !in p
  }

  ghost predicate Clean(parts: Parts) {
    forall p :: p in parts ==> Component(p)
  }

  // The characters of Join(parts) and one more.
  function Size(parts: Parts): nat {
    if parts == [] then 0 else |parts[0]| + 1 + Size(parts[1..])
  }

  lemma {:induction false} JoinSize(parts: Parts)
    requires parts != []
    ensures |Join(parts)| == Size(parts) - 1
  {
    if |parts| > 1 {
      JoinSize(parts[1..]);
    }
  }

  lemma {:induction false} SizeSnoc(parts: Parts, p: string)
    ensures Size(parts + [p]) == Size(parts) + |p| + 1
  {
    if parts == [] {
      assert [] + [p] == [p];
    } else {
      SizeSnoc(parts[1..], p);
      assert (parts + [p])[1..] == parts[1..] + [p];
    }
  }

  lemma {:induction false} SplitFacts(s: string)
    requires '\\' !in s
    ensures Size(Split(s)) == |s| + 1
    ensures forall p :: p in Split(s) ==> '/' !in p && '\\' !in p
  {
    if s != "" {
      SplitFacts(s[1..]);
      var rest := Split(s[1..]);
      if s[0] == '/' {
        assert ([""] + rest)[1..] == rest;
      } else {
        assert ([[s[0]] + rest[0]] + rest[1..])[1..] == rest[1..];
        forall p | p in Split(s) ensures '/' !in p && '\\' !in p {
          assert p == [s[0]] + rest[0] || p in rest;
          assert rest[0] in rest;
        }
      }
    }
  }

  lemma {:induction false} WalkFacts(stack: Parts, parts: Parts)
    requires Clean(stack) && forall p :: p in parts ==> '/' !in p && '\\' !in p
    ensures Walk(stack, parts).Some? ==>
      Clean(Walk(stack, parts).value) && Size(Walk(stack, parts).value) <= Size(stack) + Size(parts)
    decreases |parts|
  {
    if parts != [] {
      if parts[0] == "" || parts[0] == "." {
        WalkFacts(stack, parts[1..]);
      } else if parts[0] != ".." {
        SizeSnoc(stack, parts[0]);
        WalkFacts(stack + [parts[0]], parts[1..]);
      } else if stack != [] {
        var n := |stack| - 1;
        assert stack == stack[..n] + [stack[n]];
        SizeSnoc(stack[..n], stack[n]);
        WalkFacts(stack[..n], parts[1..]);
      }
    }
  }

  lemma {:induction false} SplitPart(p: string)
    requires '/' !in p
    ensures Split(p) == [p]
  {
    if p != "" {
      SplitPart(p[1..]);
      assert [p[0]] + p[1..] == p;
    }
  }

  lemma {:induction false} SplitFront(p: string, rest: string)
    requires '/' !in p
    ensures Split(p + "/" + rest) == [p] + Split(rest)
  {
    if p == "" {
      assert "" + "/" + rest == "/" + rest && ("/" + rest)[1..] == rest;
    } else {
      SplitFront(p[1..], rest);
      assert (p + "/" + rest)[1..] == p[1..] + "/" + rest;
      assert [p[0]] + p[1..] == p;
    }
  }

  // Splitting undoes joining.
  lemma {:induction false} SplitJoin(parts: Parts)
    requires parts != [] && forall p :: p in parts ==> '/' !in p
    ensures Split(Join(parts)) == parts
  {
    SplitPart(parts[0]);
    if |parts| > 1 {
      SplitJoin(parts[1..]);
      SplitFront(parts[0], Join(parts[1..]));
    }
  }

  lemma {:induction false} JoinPlain(parts: Parts)
    requires Clean(parts)
    ensures '\\' !in Join(parts)
  {
    if parts != [] {
      assert Component(parts[0]);
      JoinPlain(parts[1..]);
    }
  }

  // Names only push.
  lemma {:induction false} WalkNames(stack: Parts, parts: Parts)
    requires Clean(parts)
    ensures Walk(stack, parts) == Some(stack + parts)
    decreases |parts|
  {
    if parts == [] {
      assert stack + parts == stack;
    } else {
      assert Component(parts[0]);
      WalkNames(stack + [parts[0]], parts[1..]);
      assert (stack + [parts[0]]) + parts[1..] == stack + parts;
    }
  }

  // A walk that never climbs too high ends below every directory it is started from.
  lemma {:induction false} WalkAbove(base: Parts, stack: Parts, parts: Parts)
    requires Walk(stack, parts).Some?
    ensures Walk(base + stack, parts) == Some(base + Walk(stack, parts).value)
    decreases |parts|
  {
    if parts != [] {
      if parts[0] == "" || parts[0] == "." {
        WalkAbove(base, stack, parts[1..]);
      } else if parts[0] != ".." {
        WalkAbove(base, stack + [parts[0]], parts[1..]);
        assert (base + stack) + [parts[0]] == base + (stack + [parts[0]]);
      } else {
        WalkAbove(base, stack[..|stack| - 1], parts[1..]);
        assert (base + stack)[..|base + stack| - 1] == base + stack[..|stack| - 1];
      }
    }
  }

  lemma StripPlain(s: string)
    requires '\\' !in s
    ensures '\\' !in Strip(s)
  {
    StripWithin(s);
  }

  lemma {:induction false} StripWithin(s: string)
    ensures |Strip(s)| <= |s| && (|Strip(s)| == |s| ==> Strip(s) == s)
    ensures forall c :: c in Strip(s) ==> c in s
  {
    StripLeftWithin(s);
    StripRightWithin(StripLeft(s));
  }

  lemma {:induction false} StripLeftWithin(s: string)
    ensures |StripLeft(s)| <= |s| && (|StripLeft(s)| == |s| ==> StripLeft(s) == s)
    ensures forall c :: c in StripLeft(s) ==> c in s
  {
    if s != "" && Space(s[0]) {
      StripLeftWithin(s[1..]);
    }
  }

  lemma {:induction false} StripRightWithin(s: string)
    ensures |StripRight(s)| <= |s| && (|StripRight(s)| == |s| ==> StripRight(s) == s)
    ensures forall c :: c in StripRight(s) ==> c in s
  {
    if s != "" && Space(s[|s| - 1]) {
      StripRightWithin(s[..|s| - 1]);
    }
  }

  // A normalised path is a non-empty chain of names: no empty, `.` or `..` component and no
  // separator within one. It leads where the path leads, from every directory.
  lemma NormalizedMeaning(s: string, base: Parts)
    ensures var r := Normalized(Name(s)); r.Some? ==>
      && Clean(Split(r.value)) && '\\' !in r.value && Join(Split(r.value)) == r.value
      && |r.value| <= |Strip(Slashed(s))|
      && Walk(base, Split(r.value)) == Walk(base, Split(Strip(Slashed(s)))) == Some(base + Split(r.value))
  {
    var raw := Strip(Slashed(s));
    if Normalized(Name(s)).Some? {
      StripPlain(Slashed(s));
      SplitFacts(raw);
      WalkFacts([], Split(raw));
      var w := Walk([], Split(raw)).value;
      assert forall p :: p in w ==> Component(p);
      SplitJoin(w);
      JoinSize(w);
      JoinPlain(w);
      WalkAbove(base, [], Split(raw));
      assert base + [] == base;
      WalkNames(base, w);
    }
  }

  // ---- normalising twice

  lemma {:induction false} WalkSnoc(stack: Parts, front: Parts, p: string)
    ensures Walk(stack, front + [p]) == if Walk(stack, front).None? then None else Walk(Walk(stack, front).value, [p])
    decreases |front|
  {
    if front == [] {
      assert front + [p] == [p];
    } else {
      assert (front + [p])[1..] == front[1..] + [p];
      if front[0] == "" || front[0] == "." {
        WalkSnoc(stack, front[1..], p);
      } else if front[0] != ".." {
        WalkSnoc(stack + [front[0]], front[1..], p);
      } else if stack != [] {
        WalkSnoc(stack[..|stack| - 1], front[1..], p);
      }
    }
  }

  lemma {:induction false} DepthFront(parts: Parts, m: nat, n: nat)
    requires n <= m <= |parts|
    ensures Depth(parts[..m], n) == Depth(parts, n)
  {
    if n > 0 { DepthFront(parts, m, n - 1); }
  }

  // Component k is never taken back: it ends up as component h of the result.
  predicate Keeps(parts: Parts, h: int, k: nat) {
    k < |parts| && Depth(parts, k) == h && forall n :: k < n <= |parts| ==> Depth(parts, n) > h
  }

  lemma {:induction false} WalkAt(parts: Parts, h: nat, k: nat)
    requires Walk([], parts).Some? && Keeps(parts, h, k)
    ensures h < |Walk([], parts).value| && Walk([], parts).value[h] == parts[k]
    decreases |parts|
  {
    var m := |parts| - 1;
    var front, p := parts[..m], parts[m];
    assert parts == front + [p];
    WalkSnoc([], front, p);
    WalkDepth([], parts);
    WalkDepth([], front);
    DepthFront(parts, m, m);
    assert Depth(parts, m + 1) > h;
    if k < m {
      forall n | k <= n <= m ensures Depth(front, n) == Depth(parts, n) { DepthFront(parts, m, n); }
      WalkAt(front, h, k);
    }
  }

  lemma {:induction false} KeepsExists(parts: Parts, h: nat)
    requires h < Depth(parts, |parts|)
    ensures exists k: nat :: Keeps(parts, h, k)
    decreases |parts|
  {
    var m := |parts| - 1;
    var front := parts[..m];
    DepthFront(parts, m, m);
    if Depth(front, m) > h {
      KeepsExists(front, h);
      var k: nat :| Keeps(front, h, k);
      forall n | k <= n <= m ensures Depth(front, n) == Depth(parts, n) { DepthFront(parts, m, n); }
      assert Keeps(parts, h, k);
    } else {
      assert Keeps(parts, h, m);
    }
  }

  predicate StartsBlank(p: string) {
    p != "" && Space(p[0])
  }

  predicate EndsBlank(p: string) {
    p != "" && Space(p[|p| - 1])
  }

  // The first component that stays begins with a blank, or the last one that does ends with one.
  predicate BlankEnds(parts: Parts) {
    || (exists k :: 0 <= k < |parts| && Keeps(parts, 0, k) && StartsBlank(parts[k]))
    || (exists k :: 0 <= k < |parts| && Keeps(parts, Depth(parts, |parts|) - 1, k) && EndsBlank(parts[k]))
  }

  lemma {:induction false} JoinEnds(parts: Parts)
    requires parts != [] && forall p :: p in parts ==> p != ""
    ensures Join(parts) != ""
    ensures StartsBlank(Join(parts)) == StartsBlank(parts[0]) && EndsBlank(Join(parts)) == EndsBlank(parts[|parts| - 1])
  {
    assert parts[0] in parts;
    if |parts| > 1 {
      var rest := Join(parts[1..]);
      forall p | p in parts[1..] ensures p != "" { assert p in parts; }
      JoinEnds(parts[1..]);
      assert Join(parts) == parts[0] + "/" + rest;
      assert Join(parts)[0] == parts[0][0] && Join(parts)[|Join(parts)| - 1] == rest[|rest| - 1];
    }
  }

  // The components that stay first and last are those of the result.
  lemma EndsOf(parts: Parts)
    requires Walk([], parts).Some? && Walk([], parts).value != []
    ensures var w := Walk([], parts).value; BlankEnds(parts) <==> StartsBlank(w[0]) || EndsBlank(w[|w| - 1])
  {
    var w := Walk([], parts).value;
    var top := |w| - 1;
    WalkDepth([], parts);
    forall k: nat | Keeps(parts, 0, k) ensures parts[k] == w[0] { WalkAt(parts, 0, k); }
    forall k: nat | Keeps(parts, top, k) ensures parts[k] == w[top] { WalkAt(parts, top, k); }
    KeepsExists(parts, 0);
    KeepsExists(parts, top);
    var k0: nat :| Keeps(parts, 0, k0);
    var k1: nat :| Keeps(parts, top, k1);
  }

  lemma StripFixed(s: string)
    requires s != ""
    ensures Strip(s) == s <==> !StartsBlank(s) && !EndsBlank(s)
  {
    StripLeftWithin(s[1..]);
    StripRightWithin(s[..|s| - 1]);
    StripLeftWithin(s);
    StripRightWithin(StripLeft(s));
  }

  // Normalising twice is normalising once exactly when the input has no blank at the ends of what
  // stays of it.
  lemma NormalizingAgain(s: string)
    requires Normalized(Name(s)).Some?
    ensures var r := Normalized(Name(s)).value;
      Normalized(Name(r)) == Some(r) <==> !BlankEnds(Split(Strip(Slashed(s))))
  {
    AgainByResult(s);
    WalkedClean(s);
    var parts := Split(Strip(Slashed(s)));
    EndsOf(parts);
    JoinEnds(Walk([], parts).value);
    StripFixed(Join(Walk([], parts).value));
  }

  lemma WalkedClean(s: string)
    requires Normalized(Name(s)).Some?
    ensures var w := Walk([], Split(Strip(Slashed(s))));
      w.Some? && Clean(w.value) && w.value != [] && forall p :: p in w.value ==> p != ""
  {
    var raw := Strip(Slashed(s));
    StripPlain(Slashed(s));
    SplitFacts(raw);
    WalkFacts([], Split(raw));
    assert forall p :: p in Walk([], Split(raw)).value ==> Component(p);
  }

  // In terms of the result: it has no blank at either end.
  lemma AgainByResult(s: string)
    requires Normalized(Name(s)).Some?
    ensures var r := Normalized(Name(s)).value;
      Normalized(Name(r)) == Some(r) <==> Strip(r) == r
  {
    var r := Normalized(Name(s)).value;
    NormalizedMeaning(s, []);
    StripWithin(r);
    if Strip(r) == r {
      var w := Split(r);
      assert Component(w[0]);
      assert r[0] == w[0][0];
      WalkNames([], w);
      assert [] + w == w;
    } else {
      NormalizedMeaning(r, []);
    }
  }

  // A path whose first name starts with a blank: "./ a" becomes " a", and that becomes "a".
  lemma NormalizingTwiceDiffers()
    ensures Normalized(Name("./ a")) == Some(" a") && Normalized(Name(" a")) == Some("a")
  {
    var s, t, a := "./ a", " a", "a";
    assert Slashed(s) == s && Slashed(t) == t;
    assert t[1..] == a;
    assert !Space('a') && !Space('.') && Space(' ');
    assert StripLeft(a) == a && StripRight(a) == a;
    assert StripLeft(t) == StripLeft(t[1..]);
    assert StripLeft(s) == s && StripRight(s) == s;
    SplitPart(a);
    SplitPart(t);
    SplitFront(".", t);
    assert "." + "/" + t == s;
    assert ["."] + [t] == [".", t] && [".", t][1..] == [t];
    assert Component(a) && Component(t);
    WalkNames([], [a]);
    WalkNames([], [t]);
    assert Walk([], [".", t]) == Walk([], [t]);
  }

  // ---- check_file_scope

  function Patterns(items: seq<Entry>): seq<string> {
    if items == [] then []
    else
      var front, p := Patterns(items[..|items| - 1]), Normalized(items[|items| - 1]);
      if p.Some? then front + [p.value] else front
  }

  // _match_path
  predicate MatchPath(fn: Fnmatch, pattern: string, path: string) {
    MatchParts(fn, Split(pattern), Split(path))
  }

  predicate InScope(fn: Fnmatch, patterns: seq<string>, e: Entry) {
    Normalized(e).Some? && exists i :: 0 <= i < |patterns| && MatchPath(fn, patterns[i], Normalized(e).value)
  }

  // How a file is reported.
  function Reported(e: Entry): string {
    var r := Normalized(e);
    if r.Some? then r.value else match e case Name(s) => s case Foreign(text) => text
  }

  // The files with one verdict, in order.
  function Listed(fn: Fnmatch, patterns: seq<string>, files: seq<Entry>, verdict: bool): seq<string> {
    if files == [] then []
    else
      var front, e := Listed(fn, patterns, files[..|files| - 1], verdict), files[|files| - 1];
      if InScope(fn, patterns, e) == verdict then front + [Reported(e)] else front
  }

  method CheckFileScope(fn: Fnmatch, changed: seq<Entry>, allowed: seq<Entry>, auto: seq<Entry>)
    returns (inScope: seq<string>, outOfScope: seq<string>)
    ensures inScope == Listed(fn, Patterns(allowed + auto), changed, true)
    ensures outOfScope == Listed(fn, Patterns(allowed + auto), changed, false)
  {
    var items := allowed + auto;
    var patterns: seq<string> := [];
    var k := 0;
    while k < |items|
      invariant 0 <= k <= |items| && patterns == Patterns(items[..k])
    {
      var p := Normalize(items[k]);
      assert items[..k + 1][..k] == items[..k];
      if p.Some? {
        patterns := patterns + [p.value];
      }
      k := k + 1;
    }
    assert items[..k] == items;
    inScope, outOfScope := [], [];
    var i := 0;
    while i < |changed|
      invariant 0 <= i <= |changed|
      invariant inScope == Listed(fn, patterns, changed[..i], true)
      invariant outOfScope == Listed(fn, patterns, changed[..i], false)
    {
      var e := changed[i];
      assert changed[..i + 1][..i] == changed[..i];
      i := i + 1;
      var path := Normalize(e);
      if path.None? {
        outOfScope := outOfScope + [match e case Name(s) => s case Foreign(text) => text];
        continue;
      }
      var any := AnyMatches(fn, patterns, path.value);
      if any {
        inScope := inScope + [path.value];
      } else {
        outOfScope := outOfScope + [path.value];
      }
    }
    assert changed[..i] == changed;
  }

  method AnyMatches(fn: Fnmatch, patterns: seq<string>, path: string) returns (any: bool)
    ensures any <==> exists i :: 0 <= i < |patterns| && MatchPath(fn, patterns[i], path)
  {
    var i := 0;
    while i < |patterns|
      invariant 0 <= i <= |patterns|
      invariant forall j :: 0 <= j < i ==> !MatchPath(fn, patterns[j], path)
    {
      if MatchPath(fn, patterns[i], path) {
        return true;
      }
      i := i + 1;
    }
    any := false;
  }

  predicate StandsAt(l: seq<string>, k: nat, x: string) {
    k < |l| && l[k] == x
  }

  // The two lists partition the changed files in order: file i stands in the list of its verdict
  // behind exactly the earlier files with that verdict.
  lemma ListsPartition(fn: Fnmatch, patterns: seq<string>, files: seq<Entry>, i: nat)
    requires i < |files|
    ensures |Listed(fn, patterns, files, true)| + |Listed(fn, patterns, files, false)| == |files|
    ensures var v := InScope(fn, patterns, files[i]);
            StandsAt(Listed(fn, patterns, files, v), |Listed(fn, patterns, files[..i], v)|, Reported(files[i]))
  {
    ListsCount(fn, patterns, files);
    ListedAt(fn, patterns, files, i, InScope(fn, patterns, files[i]));
  }

  lemma {:induction false} ListedAt(fn: Fnmatch, patterns: seq<string>, files: seq<Entry>, i: nat, v: bool)
    requires i < |files| && InScope(fn, patterns, files[i]) == v
    ensures StandsAt(Listed(fn, patterns, files, v), |Listed(fn, patterns, files[..i], v)|, Reported(files[i]))
  {
    var n := |files| - 1;
    ListedStep(fn, patterns, files, v);
    if i < n {
      ListedAt(fn, patterns, files[..n], i, v);
      assert files[..n][..i] == files[..i] && files[..n][i] == files[i];
    } else {
      assert Listed(fn, patterns, files, v) == Listed(fn, patterns, files[..i], v) + [Reported(files[i])];
    }
  }

  lemma ListedStep(fn: Fnmatch, patterns: seq<string>, files: seq<Entry>, v: bool)
    requires files != []
    ensures var front, e := Listed(fn, patterns, files[..|files| - 1], v), files[|files| - 1];
      Listed(fn, patterns, files, v) == front + if InScope(fn, patterns, e) == v then [Reported(e)] else []
  {
  }

  lemma {:induction false} ListsCount(fn: Fnmatch, patterns: seq<string>, files: seq<Entry>)
    ensures |Listed(fn, patterns, files, true)| + |Listed(fn, patterns, files, false)| == |files|
  {
    if files != [] {
      ListsCount(fn, patterns, files[..|files| - 1]);
    }
  }

  lemma {:induction false} PatternsHold(items: seq<Entry>, p: string)
    ensures p in Patterns(items) <==> exists i :: 0 <= i < |items| && Normalized(items[i]) == Some(p)
  {
    if items != [] {
      var n := |items| - 1;
      PatternsHold(items[..n], p);
      assert forall i :: 0 <= i < n ==> items[..n][i] == items[i];
      assert p in Patterns(items) <==> p in Patterns(items[..n]) || Normalized(items[n]) == Some(p);
    }
  }

  // One listed item covers a file: its components, `**` replaced by runs, are those of the file.
  ghost predicate Covers(fn: Fnmatch, item: Entry, e: Entry) {
    && Normalized(item).Some? && Normalized(e).Some?
    && exists runs :: Fits(fn, Split(Normalized(item).value), runs, Split(Normalized(e).value))
  }

  // A file is in scope exactly when some allowed file or pattern covers it.
  lemma ScopeMeaning(fn: Fnmatch, items: seq<Entry>, e: Entry)
    ensures InScope(fn, Patterns(items), e) <==> exists i :: 0 <= i < |items| && Covers(fn, items[i], e)
  {
    var patterns := Patterns(items);
    if InScope(fn, patterns, e) {
      var k :| 0 <= k < |patterns| && MatchPath(fn, patterns[k], Normalized(e).value);
      PatternsHold(items, patterns[k]);
      var i :| 0 <= i < |items| && Normalized(items[i]) == Some(patterns[k]);
      MatchMeaning(fn, Split(patterns[k]), Split(Normalized(e).value));
      assert Covers(fn, items[i], e);
    }
    if i :| 0 <= i < |items| && Covers(fn, items[i], e) {
      var p := Normalized(items[i]).value;
      PatternsHold(items, p);
      MatchMeaning(fn, Split(p), Split(Normalized(e).value));
      var k :| 0 <= k < |patterns| && patterns[k] == p;
      assert MatchPath(fn, patterns[k], Normalized(e).value);
    }
  }
}
