/** Small shared vocabulary: optional values, prefixes and 32-bit wrap-around. */
module Basics {

  datatype Option<+T> = None | Some(value: T)

  /** The number of values of the program's `u32`. */
  const U32_SIZE: nat := 0x1_0000_0000

  function Min(a: nat, b: nat): nat { if a <= b then a else b }

  function Max(a: nat, b: nat): nat { if a <= b then b else a }

  /** The first `n` elements of `s`, or all of `s` when it is shorter. */
  function Cut<T>(s: seq<T>, n: nat): (r: seq<T>)
    ensures |r| == Min(|s|, n)
  {
    if |s| <= n then s else s[..n]
  }

  lemma {:induction false} CutOfConcat<T>(a: seq<T>, b: seq<T>, n: nat)
    ensures |a| <= n ==> Cut(a + b, n) == a + Cut(b, n - |a|)
    ensures |a| > n ==> Cut(a + b, n) == Cut(a, n)
  {
  }

  lemma {:induction false} Assoc<T>(a: seq<T>, b: seq<T>, c: seq<T>)
    ensures (a + b) + c == a + (b + c)
  {
  }

  /** Cutting a slice that is given as three pieces, and putting one together. */
  lemma {:induction false} SplitSlice<T>(s: seq<T>, i: nat, e: nat, x: T, a: seq<T>, b: seq<T>)
    requires i <= e <= |s| && s[i..e] == [x] + a + b
    ensures i + 1 + |a| + |b| == e
    ensures s[i] == x && s[i + 1..i + 1 + |a|] == a && s[i + 1 + |a|..e] == b
  {
    var t, n := s[i..e], 1 + |a|;
    assert t == ([x] + a) + b && |[x] + a| == n;
    assert t[0] == x && t[1..n] == a && t[n..] == b;
    assert s[i + 1..i + n] == t[1..n] by {
      assert forall k :: 0 <= k < |a| ==> s[i + 1..i + n][k] == t[1..n][k];
    }
    assert s[i + n..e] == t[n..];
  }

  lemma {:induction false} JoinSlice<T>(s: seq<T>, i: nat, j: nat, e: nat)
    requires i < j <= e <= |s|
    ensures [s[i]] + s[i + 1..j] + s[j..e] == s[i..e]
  {
  }

  /** The C increment of a `u32`. */
  function Inc32(n: nat): nat { (n + 1) % U32_SIZE }

  /** The C conversion of a signed number to a `u32`, and back to an `i32`. */
  function ToU32(i: int): nat { i % U32_SIZE }

  function ToI32(u: nat): int
    requires u < U32_SIZE
  {
    if u >= 0x8000_0000 then u - U32_SIZE else u
  }

  lemma {:induction false} SignedRoundTrip(i: int)
    requires -0x8000_0000 <= i < 0x8000_0000
    ensures ToI32(ToU32(i)) == i
  {
    if i < 0 {
      assert (i + U32_SIZE) % U32_SIZE == i % U32_SIZE;
    }
  }
}
