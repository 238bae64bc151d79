/** Python's `or` on optional strings: `None` and `""` are both falsy, and
    `a or b` is `a` when `a` is truthy and `b` otherwise. The configuration
    code resolves every setting with a chain of such `or`s. */
module Truthiness {
  import opened Wrappers

  predicate Truthy(o: Option<string>) {
    o.Some? && o.value != ""
  }

  /** `a or b`. */
  function Or(a: Option<string>, b: Option<string>): Option<string> {
    if Truthy(a) then a else b
  }

  /** `xs[0] or xs[1] or ... or last`, evaluated left to right. */
  function OrAll(xs: seq<Option<string>>, last: Option<string>): Option<string>
    decreases |xs|
  {
    if |xs| == 0 then last else Or(xs[0], OrAll(xs[1..], last))
  }

  /** Reference definition: the first truthy value of `xs`, if any. */
  function FirstTruthy(xs: seq<Option<string>>): (r: Option<string>)
    decreases |xs|
  {
    if |xs| == 0 then None
    else if Truthy(xs[0]) then xs[0]
    else FirstTruthy(xs[1..])
  }

  /** The first truthy value exists iff some value is truthy, and it is the
      value at an index before which nothing is truthy. */
  lemma {:induction false} FirstTruthyIndex(xs: seq<Option<string>>)
    ensures FirstTruthy(xs).Some? <==> exists i :: 0 <= i < |xs| && Truthy(xs[i])
    ensures FirstTruthy(xs).Some? ==>
      Truthy(FirstTruthy(xs))
      && exists i :: 0 <= i < |xs| && xs[i] == FirstTruthy(xs) && forall j :: 0 <= j < i ==> !Truthy(xs[j])
    decreases |xs|
  {
    if |xs| > 0 {
      FirstTruthyIndex(xs[1..]);
      if !Truthy(xs[0]) {
        if exists i :: 0 <= i < |xs| && Truthy(xs[i]) {
          var i :| 0 <= i < |xs| && Truthy(xs[i]);
          assert xs[1..][i - 1] == xs[i];
        }
        if FirstTruthy(xs).Some? {
          var i :| 0 <= i < |xs[1..]| && xs[1..][i] == FirstTruthy(xs[1..])
            && forall j :: 0 <= j < i ==> !Truthy(xs[1..][j]);
          assert xs[i + 1] == FirstTruthy(xs);
          forall j | 0 <= j < i + 1 ensures !Truthy(xs[j]) {
            if j > 0 { assert xs[j] == xs[1..][j - 1]; }
          }
        }
      }
    }
  }

  /** An `or` chain yields the first truthy operand, or its last operand
      when none of the others is truthy. */
  lemma {:induction false} OrAllFirst(xs: seq<Option<string>>, last: Option<string>)
    ensures OrAll(xs, last) == if FirstTruthy(xs).Some? then FirstTruthy(xs) else last
    decreases |xs|
  {
    if |xs| > 0 {
      OrAllFirst(xs[1..], last);
    }
  }

  /** Grouping the tail of an `or` chain does not change its value. */
  lemma {:induction false} OrAllAppend(xs: seq<Option<string>>, ys: seq<Option<string>>, last: Option<string>)
    ensures OrAll(xs + ys, last) == OrAll(xs, OrAll(ys, last))
    decreases |xs|
  {
    if |xs| > 0 {
      assert (xs + ys)[1..] == xs[1..] + ys;
      OrAllAppend(xs[1..], ys, last);
    } else {
      assert xs + ys == ys;
    }
  }

  /** `""` and `None` are interchangeable in an `or` chain. */
  lemma EmptyIsNone(xs: seq<Option<string>>, i: nat, last: Option<string>)
    requires i < |xs| && xs[i] == Some("")
    ensures OrAll(xs, last) == OrAll(xs[i := None], last)
  {
    OrAllFirst(xs, last);
    OrAllFirst(xs[i := None], last);
    FirstTruthyUpdate(xs, i);
  }

  lemma {:induction false} FirstTruthyUpdate(xs: seq<Option<string>>, i: nat)
    requires i < |xs| && !Truthy(xs[i])
    ensures FirstTruthy(xs) == FirstTruthy(xs[i := None])
    decreases |xs|
  {
    if i > 0 {
      assert xs[i := None][1..] == xs[1..][i - 1 := None];
      FirstTruthyUpdate(xs[1..], i - 1);
    } else {
      assert xs[i := None][1..] == xs[1..];
    }
  }
}
