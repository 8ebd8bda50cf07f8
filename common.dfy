/** Small value types and string helpers shared by the bot model. */
module Common {

  datatype Option<+T> = None | Some(value: T)

  /** A Python call either returns a value or raises; the error is the exception's text. */
  datatype Result<+T, +E> = Success(value: T) | Failure(error: E)

  /** Python's str.startswith. */
  predicate StartsWith(s: string, prefix: string)
  {
    |prefix| <= |s| && s[..|prefix|] == prefix
  }

  /** Python's `c * n` on a one-character string: empty when n <= 0. */
  function Repeat(c: char, n: int): (r: string)
    ensures |r| == if n > 0 then n else 0
    ensures forall i :: 0 <= i < |r| ==> r[i] == c
    decreases n
  {
    if n <= 0 then [] else [c] + Repeat(c, n - 1)
  }

  /** Number of occurrences of c in s. */
  function Count(s: string, c: char): (k: nat)
    ensures k <= |s|
  {
    if s == [] then 0 else (if s[0] == c then 1 else 0) + Count(s[1..], c)
  }

  lemma {:induction false} CountConcat(a: string, b: string, c: char)
    ensures Count(a + b, c) == Count(a, c) + Count(b, c)
  {
    if a == [] {
      assert a + b == b;
    } else {
      assert (a + b)[1..] == a[1..] + b;
      CountConcat(a[1..], b, c);
    }
  }

  lemma {:induction false} CountRepeat(d: char, n: int, c: char)
    ensures Count(Repeat(d, n), c) == if d == c && n > 0 then n else 0
    decreases n
  {
    if n > 0 {
      assert Repeat(d, n)[1..] == Repeat(d, n - 1);
      CountRepeat(d, n - 1, c);
    }
  }

  /** A slice of the middle part of `a + b + c`, taken from the whole. */
  lemma MiddleSlice<T>(a: seq<T>, b: seq<T>, c: seq<T>, i: int, j: int)
    requires 0 <= i <= j <= |b|
    ensures (a + b + c)[|a| + i..|a| + j] == b[i..j]
    ensures (a + b + c)[|a| + i..] == b[i..] + c
  {
    assert (a + b + c)[|a| + i..] == b[i..] + c by {
      var x := (a + b + c)[|a| + i..];
      forall k | 0 <= k < |x| ensures x[k] == (b[i..] + c)[k] {}
    }
  }
}
