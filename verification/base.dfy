/** Small shared vocabulary: failure-carrying wrappers and facts about sequences. */
module Base {

  datatype Option<+T> = None | Some(value: T)

  datatype Result<+T, +E> = Ok(value: T) | Err(error: E)

  /** Sorted with no repeats: what numpy returns for `np.where(mask)[0]`. */
  predicate StrictlyIncreasing(s: seq<int>) {
    forall i, j :: 0 <= i < j < |s| ==> s[i] < s[j]
  }

  /** Appending an element above the last keeps a sequence strictly increasing. */
  lemma AppendIncreasing(p: seq<nat>, a: nat)
    requires StrictlyIncreasing(p)
    requires p != [] ==> p[|p| - 1] < a
    ensures StrictlyIncreasing(p + [a])
  {
  }

  /** Indices `i` with `p(s[i])`, ascending: numpy's `np.where(mask)[0]`. */
  function Where(s: seq<real>, p: real -> bool): (r: seq<nat>)
    ensures |r| <= |s|
    ensures forall k :: 0 <= k < |r| ==> r[k] < |s| && p(s[r[k]])
  {
    if s == [] then []
    else
      var r' := Where(s[..|s| - 1], p);
      if p(s[|s| - 1]) then r' + [|s| - 1] else r'
  }

  /** `np.where` returns its indices in ascending order, without repeats. */
  lemma {:induction false} WhereIncreasing(s: seq<real>, p: real -> bool)
    ensures StrictlyIncreasing(Where(s, p))
  {
    if s != [] {
      WhereIncreasing(s[..|s| - 1], p);
      var r' := Where(s[..|s| - 1], p);
      if p(s[|s| - 1]) {
        AppendIncreasing(r', |s| - 1);
      }
    }
  }

  /** `np.where` misses no index whose element satisfies the condition. */
  lemma {:induction false} WhereComplete(s: seq<real>, p: real -> bool)
    ensures forall i :: 0 <= i < |s| && p(s[i]) ==> i in Where(s, p)
  {
    if s != [] {
      WhereComplete(s[..|s| - 1], p);
      assert forall i :: 0 <= i < |s| - 1 ==> s[..|s| - 1][i] == s[i];
    }
  }

  function Sum(s: seq<real>): real {
    if s == [] then 0.0 else Sum(s[..|s| - 1]) + s[|s| - 1]
  }

  /** Largest element, as `np.max`; numpy raises on an empty array, hence the requires. */
  function SeqMax(s: seq<real>): (m: real)
    requires |s| > 0
    ensures forall i :: 0 <= i < |s| ==> s[i] <= m
    ensures exists i :: 0 <= i < |s| && s[i] == m
  {
    if |s| == 1 then s[0]
    else
      var m' := SeqMax(s[..|s| - 1]);
      assert forall i :: 0 <= i < |s| - 1 ==> s[..|s| - 1][i] == s[i];
      if s[|s| - 1] > m' then s[|s| - 1] else m'
  }

  /** Smallest element, as `np.min`. */
  function SeqMin(s: seq<real>): (m: real)
    requires |s| > 0
    ensures forall i :: 0 <= i < |s| ==> m <= s[i]
    ensures exists i :: 0 <= i < |s| && s[i] == m
  {
    if |s| == 1 then s[0]
    else
      var m' := SeqMin(s[..|s| - 1]);
      assert forall i :: 0 <= i < |s| - 1 ==> s[..|s| - 1][i] == s[i];
      if s[|s| - 1] < m' then s[|s| - 1] else m'
  }

  function Abs(x: real): real {
    if x < 0.0 then -x else x
  }

  function MaxReal(a: real, b: real): real {
    if a >= b then a else b
  }

  function MinReal(a: real, b: real): real {
    if a <= b then a else b
  }

  lemma {:induction false} SumNonNegative(s: seq<real>)
    requires forall i :: 0 <= i < |s| ==> s[i] >= 0.0
    ensures Sum(s) >= 0.0
  {
    if s != [] {
      SumNonNegative(s[..|s| - 1]);
    }
  }

  /** Every element at least `c` makes the sum at least `c` times the length. */
  lemma {:induction false} SumAtLeast(s: seq<real>, c: real)
    requires forall i :: 0 <= i < |s| ==> s[i] >= c
    ensures Sum(s) >= c * |s| as real
  {
    if s != [] {
      SumAtLeast(s[..|s| - 1], c);
    }
  }

  /** Every element at most `c` makes the sum at most `c` times the length. */
  lemma {:induction false} SumAtMost(s: seq<real>, c: real)
    requires forall i :: 0 <= i < |s| ==> s[i] <= c
    ensures Sum(s) <= c * |s| as real
  {
    if s != [] {
      SumAtMost(s[..|s| - 1], c);
    }
  }

  /** Every element zero makes the sum zero. */
  lemma {:induction false} SumZeros(s: seq<real>)
    requires forall i :: 0 <= i < |s| ==> s[i] == 0.0
    ensures Sum(s) == 0.0
  {
    if s != [] {
      SumZeros(s[..|s| - 1]);
    }
  }

  /** Dividing by the same positive number keeps the order. */
  lemma QuotientMonotone(a: real, b: real, d: real)
    requires a <= b && d > 0.0
    ensures a / d <= b / d
  {
  }

  /** Position of the last `c` in `s`, or -1. */
  function LastIndexOf(s: string, c: char): (i: int)
    ensures -1 <= i < |s|
    ensures i >= 0 ==> s[i] == c
    ensures forall j :: i < j < |s| ==> s[j] != c
    ensures i == -1 <==> c !in s
  {
    if s == [] then -1
    else if s[|s| - 1] == c then |s| - 1
    else LastIndexOf(s[..|s| - 1], c)
  }
}
