/** The two array operations the cost engine is built on: `Array.find`, which
    returns the first element with a given id, and the left-to-right sum
    that both the material `for` loop and the extra-cost `reduce` compute. */
module Lists {
  import opened Wrappers

  /** `items.find(x => x.id === id)`: the first element whose key is `id`, if
      any. An absent `id` matches nothing, as `undefined` never equals a string. */
  function FindById<T>(items: seq<T>, key: T -> string, id: Option<string>): (r: Option<T>)
    ensures r.None? <==> forall i :: 0 <= i < |items| ==> Some(key(items[i])) != id
    ensures r.Some? ==> exists i :: 0 <= i < |items| && items[i] == r.value && Some(key(items[i])) == id
                                    && forall j :: 0 <= j < i ==> Some(key(items[j])) != id
  {
    if |items| == 0 then None
    else if Some(key(items[0])) == id then Some(items[0])
    else
      var rest := FindById(items[1..], key, id);
      assert forall i :: 1 <= i < |items| ==> items[i] == items[1..][i - 1];
      rest
  }

  /** `f(s[0]) + f(s[1]) + ... + f(s[|s|-1])`, accumulated from the left starting at 0,
      as `acc += f(x)` in a loop or `reduce((acc, x) => acc + f(x), 0)` does. */
  function SumOf<T>(s: seq<T>, f: T -> real): real
    decreases |s|
  {
    if |s| == 0 then 0.0 else SumOf(s[..|s| - 1], f) + f(s[|s| - 1])
  }

  /** A sum of non-negative terms is non-negative. */
  lemma {:induction false} SumOfNonNegative<T>(s: seq<T>, f: T -> real)
    requires forall i :: 0 <= i < |s| ==> f(s[i]) >= 0.0
    ensures SumOf(s, f) >= 0.0
    decreases |s|
  {
    if |s| > 0 {
      var init := s[..|s| - 1];
      assert forall i :: 0 <= i < |init| ==> init[i] == s[i];
      SumOfNonNegative(init, f);
    }
  }

  /** A sum of zero terms is zero. */
  lemma {:induction false} SumOfZero<T>(s: seq<T>, f: T -> real)
    requires forall i :: 0 <= i < |s| ==> f(s[i]) == 0.0
    ensures SumOf(s, f) == 0.0
    decreases |s|
  {
    if |s| > 0 {
      var init := s[..|s| - 1];
      assert forall i :: 0 <= i < |init| ==> init[i] == s[i];
      SumOfZero(init, f);
    }
  }

  /** Summing a concatenation is summing the two halves. */
  lemma {:induction false} SumOfAppend<T>(a: seq<T>, b: seq<T>, f: T -> real)
    ensures SumOf(a + b, f) == SumOf(a, f) + SumOf(b, f)
    decreases |b|
  {
    if |b| == 0 {
      assert a + b == a;
    } else {
      var b' := b[..|b| - 1];
      assert (a + b)[..|a + b| - 1] == a + b';
      SumOfAppend(a, b', f);
    }
  }

  /** The sum does not depend on the order of the elements: duplicates are
      each counted, and any rearrangement gives the same total. */
  lemma {:induction false} SumOfPermutation<T>(a: seq<T>, b: seq<T>, f: T -> real)
    requires multiset(a) == multiset(b)
    ensures SumOf(a, f) == SumOf(b, f)
    decreases |a|
  {
    if |a| == 0 {
      assert |b| == |multiset(b)| == 0;
    } else {
      var x := a[|a| - 1];
      var a' := a[..|a| - 1];
      assert a == a' + [x];
      assert x in multiset(b);
      var j :| 0 <= j < |b| && b[j] == x;
      var b' := b[..j] + b[j + 1..];
      assert b == b[..j] + [x] + b[j + 1..];
      assert multiset(b) == multiset(b[..j]) + multiset{x} + multiset(b[j + 1..]);
      assert multiset(b') == multiset(b[..j]) + multiset(b[j + 1..]);
      assert multiset(a) == multiset(a') + multiset{x};
      assert multiset(a') == multiset(a) - multiset{x};
      assert multiset(b') == multiset(b) - multiset{x};
      SumOfPermutation(a', b', f);
      SumOfAppend(b[..j] + [x], b[j + 1..], f);
      SumOfAppend(b[..j], [x], f);
      SumOfAppend(b[..j], b[j + 1..], f);
      assert SumOf([x], f) == f(x) by {
        assert [x][..0] == [];
      }
    }
  }

  /** If every term of `b` is `k` times the matching term of `a`, so is the sum. */
  lemma {:induction false} SumOfScaled<T, U>(a: seq<T>, f: T -> real, b: seq<U>, g: U -> real, k: real)
    requires |a| == |b|
    requires forall i :: 0 <= i < |a| ==> g(b[i]) == k * f(a[i])
    ensures SumOf(b, g) == k * SumOf(a, f)
    decreases |a|
  {
    if |a| > 0 {
      var n := |a| - 1;
      var a', b' := a[..n], b[..n];
      assert forall i :: 0 <= i < n ==> a'[i] == a[i] && b'[i] == b[i];
      SumOfScaled(a', f, b', g, k);
      var s, t := SumOf(a', f), f(a[n]);
      assert SumOf(a, f) == s + t;
      assert SumOf(b, g) == k * s + k * t;
      assert k * (s + t) == k * s + k * t;
    }
  }
}
