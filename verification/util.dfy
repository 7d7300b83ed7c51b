/** Small helpers shared by the USSD channel and the payment controller. */
module Util {

  datatype Option<T> = None | Some(value: T)

  function Max(a: int, b: int): int {
    if a >= b then a else b
  }

  predicate StartsWith(s: string, prefix: string) {
    |prefix| <= |s| && s[..|prefix|] == prefix
  }

  predicate EndsWith(s: string, suffix: string) {
    |suffix| <= |s| && s[|s| - |suffix|..] == suffix
  }

  /** A text that starts with `head + (a + b)` starts with `head + a`. */
  lemma StartsWithPrefix(s: string, head: string, a: string, b: string)
    requires StartsWith(s, head + (a + b))
    ensures StartsWith(s, head + a)
  {
    var whole := head + (a + b);
    assert (head + a) == whole[..|head + a|];
    assert s[..|head + a|] == (s[..|whole|])[..|head + a|];
  }

  /** JavaScript's `Array.prototype.find`: the first element satisfying `p`, if any. */
  function FindFirst<T>(xs: seq<T>, p: T -> bool): (r: Option<T>)
    ensures r.Some? ==> r.value in xs && p(r.value)
    ensures r.Some? ==> exists k :: 0 <= k < |xs| && xs[k] == r.value && forall j :: 0 <= j < k ==> !p(xs[j])
    ensures r.None? <==> forall x :: x in xs ==> !p(x)
  {
    if xs == [] then None
    else if p(xs[0]) then Some(xs[0])
    else
      var r := FindFirst(xs[1..], p);
      assert r.Some? ==> exists k :: 0 <= k < |xs| && xs[k] == r.value && forall j :: 0 <= j < k ==> !p(xs[j]) by {
        if r.Some? {
          var k :| 0 <= k < |xs[1..]| && xs[1..][k] == r.value && forall j :: 0 <= j < k ==> !p(xs[1..][j]);
          assert xs[k + 1] == r.value;
          assert forall j :: 0 <= j < k + 1 ==> !p(xs[j]) by {
            forall j | 0 <= j < k + 1 ensures !p(xs[j]) {
              if j > 0 { assert xs[j] == xs[1..][j - 1]; }
            }
          }
        }
      }
      r
  }

  /** A match in the front part is found before anything appended behind it. */
  lemma {:induction false} FindFirstAppend<T>(xs: seq<T>, ys: seq<T>, p: T -> bool)
    requires FindFirst(xs, p).Some?
    ensures FindFirst(xs + ys, p) == FindFirst(xs, p)
  {
    assert (xs + ys)[0] == xs[0];
    if !p(xs[0]) {
      assert (xs + ys)[1..] == xs[1..] + ys;
      FindFirstAppend(xs[1..], ys, p);
    }
  }
}
