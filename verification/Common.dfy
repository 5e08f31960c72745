// Small vocabulary shared by every component of the relay.
module Common {

  datatype Option<+T> = None | Some(value: T)

  datatype Result<+T, +E> = Ok(value: T) | Err(error: E)

  // The twelve states of a task (types.py).
  datatype TaskState =
    | New
    | Planning
    | PlanPendingApproval
    | PlanApproved
    | Implementing
    | ImplementingResumePending
    | NeedsFix
    | Reviewing
    | HumanReviewRequired
    | Done
    | Cancelled
    | SystemDegraded

  datatype AlertKind = NeedsFixAlert | HumanReviewAlert | SystemDegradedAlert

  // `ORDER BY id ASC LIMIT 1` over a set of identifiers.
  ghost function Least(s: set<nat>): (m: nat)
    requires s != {}
    ensures m in s && forall x :: x in s ==> m <= x
  {
    var x :| x in s;
    if s == {x} then x
    else
      var rest := Least(s - {x});
      assert s == (s - {x}) + {x};
      if x < rest then x else rest
  }

  function Pow2(n: nat): (p: nat)
    ensures p >= 1
  {
    if n == 0 then 1 else 2 * Pow2(n - 1)
  }

  // str(n)
  function Digits(n: nat): (s: string)
    ensures |s| > 0
    ensures forall c :: c in s ==> '0' <= c <= '9'
  {
    if n < 10 then [DigitChar(n)] else Digits(n / 10) + [DigitChar(n % 10)]
  }

  function DigitChar(d: nat): (c: char)
    requires d < 10
    ensures '0' <= c <= '9'
    ensures c as int == '0' as int + d
  {
    '0' + d as char
  }
}
