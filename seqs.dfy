/** Order-preserving removal from a sequence: the `Array.prototype.filter(x => x.id !== id)`
    pattern that both the claim store and the submission form use to drop entries by id. */
module Seqs {

  /** The elements of `s` for which `drop` is false, in their original order. */
  function Without<T(!new)>(s: seq<T>, drop: T -> bool): (r: seq<T>)
    ensures |r| <= |s|
    ensures forall x :: x in r <==> x in s && !drop(x)
  {
    if s == [] then []
    else if drop(s[0]) then Without(s[1..], drop)
    else [s[0]] + Without(s[1..], drop)
  }

  /** How many elements of `s` satisfy `drop`. */
  function Count<T>(s: seq<T>, drop: T -> bool): (n: nat)
    ensures n <= |s|
    ensures n == 0 <==> forall i :: 0 <= i < |s| ==> !drop(s[i])
  {
    if s == [] then 0
    else (if drop(s[0]) then 1 else 0) + Count(s[1..], drop)
  }

  /** Removal shrinks the sequence by exactly the number of dropped elements. */
  lemma {:induction false} WithoutLength<T(!new)>(s: seq<T>, drop: T -> bool)
    ensures |Without(s, drop)| == |s| - Count(s, drop)
  {
    if s != [] {
      WithoutLength(s[1..], drop);
    }
  }

  /** Removal works piece by piece: the kept elements of `a` all stay ahead of the kept
      elements of `b`, which is what "relative order is preserved" means. */
  lemma {:induction false} WithoutConcat<T(!new)>(a: seq<T>, b: seq<T>, drop: T -> bool)
    ensures Without(a + b, drop) == Without(a, drop) + Without(b, drop)
  {
    if a == [] {
      assert a + b == b;
    } else {
      assert (a + b)[0] == a[0];
      assert (a + b)[1..] == a[1..] + b;
      WithoutConcat(a[1..], b, drop);
    }
  }

  /** When nothing matches, removal returns the sequence unchanged. */
  lemma {:induction false} WithoutNothingDropped<T(!new)>(s: seq<T>, drop: T -> bool)
    requires forall i :: 0 <= i < |s| ==> !drop(s[i])
    ensures Without(s, drop) == s
  {
    if s != [] {
      assert !drop(s[0]);
      WithoutNothingDropped(s[1..], drop);
    }
  }

  /** When exactly the element at `k` matches, removal cuts out that one element. */
  lemma {:induction false} WithoutOnly<T(!new)>(s: seq<T>, drop: T -> bool, k: nat)
    requires k < |s| && drop(s[k])
    requires forall i :: 0 <= i < |s| && i != k ==> !drop(s[i])
    ensures Without(s, drop) == s[..k] + s[k + 1..]
  {
    var tail := s[1..];
    if k == 0 {
      forall i | 0 <= i < |tail| ensures !drop(tail[i]) {
        assert tail[i] == s[i + 1];
      }
      WithoutNothingDropped(tail, drop);
    } else {
      forall i | 0 <= i < |tail| && i != k - 1 ensures !drop(tail[i]) {
        assert tail[i] == s[i + 1];
      }
      assert !drop(s[0]);
      WithoutOnly(tail, drop, k - 1);
      assert Without(s, drop) == [s[0]] + Without(tail, drop);
      assert tail[..k - 1] + tail[k..] == s[1..k] + s[k + 1..];
      assert [s[0]] + s[1..k] == s[..k];
    }
  }

  /** Removing twice is the same as removing once. */
  lemma WithoutIdempotent<T(!new)>(s: seq<T>, drop: T -> bool)
    ensures Without(Without(s, drop), drop) == Without(s, drop)
  {
    var r := Without(s, drop);
    forall i | 0 <= i < |r| ensures !drop(r[i]) {
      assert r[i] in r;
    }
    WithoutNothingDropped(r, drop);
  }
}
