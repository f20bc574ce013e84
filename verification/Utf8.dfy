/** Bytes, and the UTF-8 syntax of section 4 of RFC 3629. */
module Utf8 {
  newtype byte = x: int | 0 <= x < 256

  /** The test the coordinator makes on a byte: its two high bits are `10`. */
  predicate Continuation(b: byte) {
    0x80 <= b < 0xC0
  }

  /** Length of the well-formed character at the head of `s`, or 0 when there is none. */
  function CharLength(s: seq<byte>): (n: nat)
    ensures n <= 4 && n <= |s|
  {
    if |s| == 0 then 0
    else if s[0] < 0x80 then 1
    else if 0xC2 <= s[0] < 0xE0 then
      if |s| >= 2 && Continuation(s[1]) then 2 else 0
    else if 0xE0 <= s[0] < 0xF0 then
      if |s| >= 3 && Continuation(s[1]) && Continuation(s[2])
         && (s[0] == 0xE0 ==> s[1] >= 0xA0) && (s[0] == 0xED ==> s[1] < 0xA0) then 3 else 0
    else if 0xF0 <= s[0] < 0xF5 then
      if |s| >= 4 && Continuation(s[1]) && Continuation(s[2]) && Continuation(s[3])
         && (s[0] == 0xF0 ==> s[1] >= 0x90) && (s[0] == 0xF4 ==> s[1] < 0x90) then 4 else 0
    else 0
  }

  predicate ValidUtf8(s: seq<byte>) {
    s == [] || (CharLength(s) > 0 && ValidUtf8(s[CharLength(s)..]))
  }

  /** Position `k` of `s` is not inside a character. */
  predicate AtBoundary(s: seq<byte>, k: nat)
    requires k <= |s|
  {
    k == |s| || !Continuation(s[k])
  }

  /** The first position at or after `k` that is not a continuation byte. */
  function NextBoundary(s: seq<byte>, k: nat): (b: nat)
    requires k <= |s|
    ensures k <= b <= |s| && AtBoundary(s, b)
    decreases |s| - k
  {
    if k < |s| && Continuation(s[k]) then NextBoundary(s, k + 1) else k
  }

  /** Everything it skips is a continuation byte, so that it is the least boundary. */
  lemma {:induction false} NextBoundarySkips(s: seq<byte>, k: nat, i: nat)
    requires k <= i <= |s|
    ensures i < NextBoundary(s, k) ==> Continuation(s[i])
    ensures i <= NextBoundary(s, k) ==> NextBoundary(s, i) == NextBoundary(s, k)
    decreases i - k
  {
    if k < i && Continuation(s[k]) {
      NextBoundarySkips(s, k + 1, i);
    }
  }

  lemma {:induction false} NextBoundaryDrop(s: seq<byte>, n: nat, k: nat)
    requires n + k <= |s|
    ensures NextBoundary(s, n + k) == n + NextBoundary(s[n..], k)
    decreases |s| - k
  {
    if n + k < |s| && Continuation(s[n + k]) {
      NextBoundaryDrop(s, n, k + 1);
    }
  }

  lemma {:induction false} NextBoundaryTake(s: seq<byte>, n: nat, k: nat)
    requires k <= n <= |s| && AtBoundary(s, n)
    ensures NextBoundary(s, k) == NextBoundary(s[..n], k)
    decreases n - k
  {
    if k < n && Continuation(s[k]) {
      NextBoundaryTake(s, n, k + 1);
    }
  }

  lemma DropDrop<T>(s: seq<T>, i: nat, k: nat)
    requires i + k <= |s|
    ensures s[i..][k..] == s[i + k..]
  {
  }

  lemma DropTake<T>(s: seq<T>, i: nat, k: nat)
    requires i + k <= |s|
    ensures s[i..][..k] == s[..i + k][i..]
  {
  }

  lemma DropOfConcat<T>(a: seq<T>, b: seq<T>, k: nat)
    requires k <= |a|
    ensures (a + b)[k..] == a[k..] + b
  {
  }

  lemma DropAll<T>(a: seq<T>, b: seq<T>)
    ensures (a + b)[|a|..] == b
  {
  }

  /** A well-formed character is a leading byte followed by continuation bytes only. */
  lemma CharShape(s: seq<byte>, i: nat)
    requires i < CharLength(s)
    ensures Continuation(s[i]) <==> i > 0
  {
  }

  lemma CharLengthOfPrefix(a: seq<byte>, b: seq<byte>)
    requires CharLength(a) > 0
    ensures CharLength(a + b) == CharLength(a)
  {
    assert forall i :: 0 <= i < |a| ==> (a + b)[i] == a[i];
  }

  lemma CharLengthOfCut(s: seq<byte>, k: nat)
    requires 0 < CharLength(s) <= k <= |s|
    ensures CharLength(s[..k]) == CharLength(s)
  {
    assert forall i :: 0 <= i < k ==> s[..k][i] == s[i];
  }

  /** A cut at a boundary leaves valid text on both sides. */
  lemma {:induction false} BoundarySplits(s: seq<byte>, k: nat)
    requires ValidUtf8(s) && k <= |s| && AtBoundary(s, k)
    ensures ValidUtf8(s[..k]) && ValidUtf8(s[k..])
  {
    if k == 0 {
      assert s[0..] == s;
    } else {
      var n := CharLength(s);
      if k < n {
        CharShape(s, k);
      } else {
        assert AtBoundary(s[n..], k - n);
        BoundarySplits(s[n..], k - n);
        DropDrop(s, n, k - n);
        DropTake(s, n, k - n);
        CharLengthOfCut(s, k);
      }
    }
  }

  lemma ValidBeginsAtBoundary(s: seq<byte>)
    requires ValidUtf8(s)
    ensures AtBoundary(s, 0)
  {
    if s != [] {
      CharShape(s, 0);
    }
  }

  /** Valid text closes under concatenation. */
  lemma {:induction false} ValidConcat(a: seq<byte>, b: seq<byte>)
    requires ValidUtf8(a) && ValidUtf8(b)
    ensures ValidUtf8(a + b)
  {
    if a == [] {
      assert a + b == b;
    } else {
      var n := CharLength(a);
      ValidConcat(a[n..], b);
      CharLengthOfPrefix(a, b);
      DropOfConcat(a, b, n);
    }
  }

  /** In valid text a boundary is never more than three bytes away. */
  lemma {:induction false} BoundaryIsNear(s: seq<byte>, k: nat)
    requires ValidUtf8(s) && k <= |s|
    ensures NextBoundary(s, k) <= k + 3
  {
    if k < |s| {
      var n := CharLength(s);
      if k < n {
        ValidBeginsAtBoundary(s[n..]);
        assert AtBoundary(s, n);
        NextBoundarySkips(s, k, n);
      } else {
        BoundaryIsNear(s[n..], k - n);
        NextBoundaryDrop(s, n, k - n);
      }
    }
  }
}
