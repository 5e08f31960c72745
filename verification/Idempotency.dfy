/**
 Outbox idempotency keys (router/idempotency.py).

 A key is a digest of five text parts joined by U+001F. The parts are kept here as a datatype. For
 tasks free of the separator the digested text determines that datatype, so that comparing Key
 values is comparing the stored keys, but for comments with a separator in a part.
 */
module Idempotency {
  import opened Common

  datatype Stream = TaskSnapshot | TaskComment | TaskLabelSync | DiscordAlert

  datatype Label = CriticalLabel | HumanReviewLabel | CancelledLabel

  datatype SnapshotPayload = SnapshotPayload(state: TaskState, rev: nat, planRev: Option<nat>, critical: bool,
      url: string)

  datatype Key =
    | SnapshotKey(taskId: string, target: string, rev: nat, payload: SnapshotPayload)
    | CommentKey(taskId: string, target: string, origin: string, kind: string)
    | LabelKey(taskId: string, target: string, rev: nat, labels: set<Label>)
    | AlertKey(taskId: string, target: string, rev: nat, alert: AlertKind)

  const SEP: char := '\U{1F}'

  predicate SepFree(s: string) {
    SEP !in s
  }

  // KEY_SEP.join(parts)
  function Join(parts: seq<string>): string {
    if |parts| == 0 then ""
    else if |parts| == 1 then parts[0]
    else parts[0] + [SEP] + Join(parts[1..])
  }

  // ",".join(sorted(desired_labels))
  function LabelText(labels: set<Label>): string {
    var a := if CancelledLabel in labels then "cancelled" else "";
    var b := if CriticalLabel in labels then "critical" else "";
    var c := if HumanReviewLabel in labels then "human_review_required" else "";
    var ab := if a != "" && b != "" then a + "," + b else a + b;
    if ab != "" && c != "" then ab + "," + c else ab + c
  }

  function AlertText(a: AlertKind): string {
    match a
    case NeedsFixAlert => "needs_fix"
    case HumanReviewAlert => "human_review_required"
    case SystemDegradedAlert => "system_degraded"
  }

  // The five parts that each key function hands to _digest; `sha` stands for canonical_payload_sha256.
  function Material(k: Key, sha: SnapshotPayload -> string): seq<string> {
    match k
    case SnapshotKey(task, target, rev, payload) => [task, "task_snapshot", target, Digits(rev), sha(payload)]
    case CommentKey(task, target, origin, kind) => [task, "task_comment", target, origin, kind]
    case LabelKey(task, target, rev, labels) => [task, "task_label_sync", target, Digits(rev), LabelText(labels)]
    case AlertKey(task, target, rev, alert) => [task, "discord_alert", target, AlertText(alert), Digits(rev)]
  }

  function Stored(k: Key, sha: SnapshotPayload -> string, digest: string -> string): string {
    digest(Join(Material(k, sha)))
  }

  predicate SameStored(a: Key, b: Key, sha: SnapshotPayload -> string, digest: string -> string) {
    Stored(a, sha, digest) == Stored(b, sha, digest)
  }

  ghost predicate Injective<A(!new), B>(f: A -> B) {
    forall x, y :: f(x) == f(y) ==> x == y
  }

  // The caller-supplied texts of a key do not contain the separator.
  predicate SepFreeKey(k: Key) {
    SepFree(k.taskId) && SepFree(k.target) && (k.CommentKey? ==> SepFree(k.origin) && SepFree(k.kind))
  }

  // Text before the first separator decides where the first part ends.
  lemma HeadSplit(a: string, b: string, x: string, y: string)
    requires SepFree(a) && SepFree(b) && a + [SEP] + x == b + [SEP] + y
    ensures a == b && x == y
  {
    var l, r := a + [SEP] + x, b + [SEP] + y;
    assert l[|a|] == SEP && r[|b|] == SEP;
    assert forall i :: 0 <= i < |a| ==> l[i] == a[i] && l[i] in a;
    assert forall i :: 0 <= i < |b| ==> r[i] == b[i] && r[i] in b;
    assert |a| == |b|;
    assert a == l[..|a|] && b == r[..|b|];
    assert x == l[|a| + 1..] && y == r[|b| + 1..];
  }

  // Text after the last separator decides where the last part begins.
  lemma TailSplit(a: string, b: string, x: string, y: string)
    requires SepFree(a) && SepFree(b) && x + [SEP] + a == y + [SEP] + b
    ensures a == b && x == y
  {
    var l, r := x + [SEP] + a, y + [SEP] + b;
    assert l[|x|] == SEP && r[|y|] == SEP;
    assert forall i :: |x| < i < |l| ==> l[i] == a[i - |x| - 1] && l[i] in a;
    assert forall i :: |y| < i < |r| ==> r[i] == b[i - |y| - 1] && r[i] in b;
    assert |x| == |y|;
    assert x == l[..|x|] && y == r[..|y|];
    assert a == l[|x| + 1..] && b == r[|y| + 1..];
  }

  // The three parts behind task and stream.
  function Rest(m: seq<string>): string
    requires |m| == 5
  {
    m[2] + [SEP] + m[3] + [SEP] + m[4]
  }

  lemma JoinFive(m: seq<string>)
    requires |m| == 5
    ensures Join(m) == m[0] + [SEP] + (m[1] + [SEP] + Rest(m))
  {
    assert m[1..][0] == m[1] && m[1..][1..] == m[2..];
    assert m[2..][0] == m[2] && m[2..][1..] == m[3..];
    assert m[3..][0] == m[3] && m[3..][1..] == m[4..];
    assert m[4..] == [m[4]];
    assert Join(m[3..]) == m[3] + [SEP] + m[4];
    assert Join(m[2..]) == m[2] + [SEP] + (m[3] + [SEP] + m[4]);
    assert m[2] + [SEP] + (m[3] + [SEP] + m[4]) == Rest(m);
    assert m[0] + [SEP] + (m[1] + [SEP] + Rest(m)) == Join(m);
  }

  lemma {:induction false} DigitsInjective(m: nat, n: nat)
    requires Digits(m) == Digits(n)
    ensures m == n
  {
    var dm, dn := Digits(m), Digits(n);
    assert dm[|dm| - 1] == dn[|dn| - 1];
    assert (m < 10 <==> |dm| == 1) && (n < 10 <==> |dn| == 1);
    if m >= 10 {
      assert Digits(m / 10) == dm[..|dm| - 1] && Digits(n / 10) == dn[..|dn| - 1];
      DigitsInjective(m / 10, n / 10);
    }
  }

  lemma LabelTextInjective(x: set<Label>, y: set<Label>)
    requires LabelText(x) == LabelText(y)
    ensures x == y
  {
    assert |LabelText(x)| == |LabelText(y)|;
    forall l ensures l in x <==> l in y {
      match l case CriticalLabel => case HumanReviewLabel => case CancelledLabel =>
    }
  }

  // A separator-free task fixes the stream of a stored key.
  lemma SameStream(k1: Key, k2: Key, sha: SnapshotPayload -> string, digest: string -> string)
    requires SepFree(k1.taskId) && SepFree(k2.taskId) && Injective(digest)
    requires Stored(k1, sha, digest) == Stored(k2, sha, digest)
    ensures k1.taskId == k2.taskId && Material(k1, sha)[1] == Material(k2, sha)[1]
        && Rest(Material(k1, sha)) == Rest(Material(k2, sha))
    ensures k1.SnapshotKey? == k2.SnapshotKey? && k1.CommentKey? == k2.CommentKey? && k1.LabelKey? == k2.LabelKey?
  {
    var m1, m2 := Material(k1, sha), Material(k2, sha);
    assert Join(m1) == Join(m2);
    JoinFive(m1);
    JoinFive(m2);
    HeadSplit(m1[0], m2[0], m1[1] + [SEP] + Rest(m1), m2[1] + [SEP] + Rest(m2));
    HeadSplit(m1[1], m2[1], Rest(m1), Rest(m2));
    assert |m1[1]| == |m2[1]|;
  }

  // Whatever the target holds, the stored text determines a key that is not a comment's.
  lemma KeyIdentified(k1: Key, k2: Key, sha: SnapshotPayload -> string, digest: string -> string)
    requires SepFree(k1.taskId) && SepFree(k2.taskId) && !k1.CommentKey?
    requires Injective(digest) && Injective(sha) && forall p :: SepFree(sha(p))
    requires Stored(k1, sha, digest) == Stored(k2, sha, digest)
    ensures k1 == k2
  {
    SameStream(k1, k2, sha, digest);
    var m1, m2 := Material(k1, sha), Material(k2, sha);
    LastPartsFree(k1, sha);
    LastPartsFree(k2, sha);
    TailSplit(m1[4], m2[4], m1[2] + [SEP] + m1[3], m2[2] + [SEP] + m2[3]);
    TailSplit(m1[3], m2[3], m1[2], m2[2]);
    SamePartsSameKey(k1, k2, sha);
  }

  // A revision, a digest, an alert kind and the managed labels hold no separator.
  lemma LastPartsFree(k: Key, sha: SnapshotPayload -> string)
    requires !k.CommentKey? && forall p :: SepFree(sha(p))
    ensures SepFree(Material(k, sha)[3]) && SepFree(Material(k, sha)[4])
  {
  }

  lemma SamePartsSameKey(k1: Key, k2: Key, sha: SnapshotPayload -> string)
    requires Injective(sha) && !k1.CommentKey? && k1.taskId == k2.taskId
    requires k1.SnapshotKey? == k2.SnapshotKey? && k1.CommentKey? == k2.CommentKey? && k1.LabelKey? == k2.LabelKey?
    requires var m1, m2 := Material(k1, sha), Material(k2, sha); m1[2] == m2[2] && m1[3] == m2[3] && m1[4] == m2[4]
    ensures k1 == k2
  {
    if k1.SnapshotKey? {
      DigitsInjective(k1.rev, k2.rev);
    } else if k1.LabelKey? {
      DigitsInjective(k1.rev, k2.rev);
      LabelTextInjective(k1.labels, k2.labels);
    } else {
      DigitsInjective(k1.rev, k2.rev);
      assert |AlertText(k1.alert)| == |AlertText(k2.alert)|;
    }
  }

  // Three separator-free parts are the only three parts of their text.
  lemma ThreeParts(a: string, b: string, c: string, x: string, y: string, z: string)
    requires SepFree(a) && SepFree(b) && SepFree(c)
    requires a + [SEP] + b + [SEP] + c == x + [SEP] + y + [SEP] + z
    ensures a == x && b == y && c == z
  {
    var l := a + [SEP] + b + [SEP] + c;
    var r := x + [SEP] + y + [SEP] + z;
    var i, j := |a|, |a| + 1 + |b|;
    assert forall k :: 0 <= k < i ==> l[k] == a[k] && l[k] in a;
    assert forall k :: i < k < j ==> l[k] == b[k - i - 1] && l[k] in b;
    assert forall k :: j < k < |l| ==> l[k] == c[k - j - 1] && l[k] in c;
    assert r[|x|] == SEP && r[|x| + 1 + |y|] == SEP;
    assert l[|x|] == SEP && l[|x| + 1 + |y|] == SEP;
    assert |x| == i || |x| == j;
    assert |x| == i && |x| + 1 + |y| == j;
    assert a == l[..i] && x == r[..i];
    assert b == l[i + 1..j] && y == r[i + 1..j];
    assert c == l[j + 1..] && z == r[j + 1..];
  }

  predicate SepFreeComment(k: Key)
    requires k.CommentKey?
  {
    SepFree(k.target) && SepFree(k.origin) && SepFree(k.kind)
  }

  // The stored text determines the key of a separator-free comment among all keys.
  lemma CommentIdentified(k1: Key, k2: Key, sha: SnapshotPayload -> string, digest: string -> string)
    requires SepFree(k1.taskId) && SepFree(k2.taskId) && k1.CommentKey? && SepFreeComment(k1)
    requires Injective(digest) && Stored(k1, sha, digest) == Stored(k2, sha, digest)
    ensures k1 == k2
  {
    SameStream(k1, k2, sha, digest);
    ThreeParts(k1.target, k1.origin, k1.kind, k2.target, k2.origin, k2.kind);
  }

  // A separator within a part can move to the next one, or the previous one's end to it.
  lemma CommentCollides(k: Key) returns (other: Key)
    requires k.CommentKey? && !SepFreeComment(k)
    ensures other.CommentKey? && other != k && other.taskId == k.taskId
    ensures other.target + [SEP] + other.origin + [SEP] + other.kind == k.target + [SEP] + k.origin + [SEP] + k.kind
  {
    var (t, o, d) := (k.target, k.origin, k.kind);
    if !SepFree(t) {
      var i :| 0 <= i < |t| && t[i] == SEP;
      other := CommentKey(k.taskId, t[..i], t[i + 1..] + [SEP] + o, d);
      assert t == t[..i] + [SEP] + t[i + 1..];
      assert |other.target| != |t|;
    } else if !SepFree(o) {
      var i :| 0 <= i < |o| && o[i] == SEP;
      other := CommentKey(k.taskId, t + [SEP] + o[..i], o[i + 1..], d);
      assert o == o[..i] + [SEP] + o[i + 1..];
      assert |other.target| != |t|;
    } else {
      var i :| 0 <= i < |d| && d[i] == SEP;
      other := CommentKey(k.taskId, t, o + [SEP] + d[..i], d[i + 1..]);
      assert d == d[..i] + [SEP] + d[i + 1..];
      assert |other.kind| != |d|;
    }
  }

  // A comment shares its stored key with a different key exactly when its target, origin or kind
  // holds a separator.
  lemma CommentKeyShared(k: Key, sha: SnapshotPayload -> string, digest: string -> string)
    requires SepFree(k.taskId) && k.CommentKey? && Injective(digest)
    ensures (exists other: Key :: other != k && SepFree(other.taskId) && SameStored(other, k, sha, digest))
       <==> !SepFreeComment(k)
  {
    if SepFreeComment(k) {
      forall other: Key | SepFree(other.taskId) && SameStored(other, k, sha, digest) ensures other == k {
        CommentIdentified(k, other, sha, digest);
      }
    } else {
      var other := CommentCollides(k);
      JoinFive(Material(k, sha));
      JoinFive(Material(other, sha));
      assert SameStored(other, k, sha, digest);
    }
  }

  // Key identity: on separator-free parts the stored text determines the key.
  lemma KeyIdentity(k1: Key, k2: Key, sha: SnapshotPayload -> string, digest: string -> string)
    requires SepFreeKey(k1) && SepFreeKey(k2)
    requires Injective(digest) && Injective(sha) && forall p :: SepFree(sha(p))
    requires Stored(k1, sha, digest) == Stored(k2, sha, digest)
    ensures k1 == k2
  {
    if k1.CommentKey? {
      CommentIdentified(k1, k2, sha, digest);
    } else {
      KeyIdentified(k1, k2, sha, digest);
    }
  }

  // So these two different comments share one.
  lemma SeparatorInTargetCollides(sha: SnapshotPayload -> string, digest: string -> string)
    ensures var k1 := CommentKey("t", "x" + [SEP] + "y", "z", "audit");
            var k2 := CommentKey("t", "x", "y" + [SEP] + "z", "audit");
            k1 != k2 && Stored(k1, sha, digest) == Stored(k2, sha, digest)
  {
    var k1, k2 := CommentKey("t", "x" + [SEP] + "y", "z", "audit"), CommentKey("t", "x", "y" + [SEP] + "z", "audit");
    assert |k1.target| != |k2.target|;
    JoinFive(Material(k1, sha));
    JoinFive(Material(k2, sha));
    assert Rest(Material(k1, sha)) == Rest(Material(k2, sha));
  }
}
