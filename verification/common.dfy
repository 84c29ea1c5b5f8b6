/** Shared vocabulary: optional values, results, and the JavaScript string
    operations the services lean on (`includes`, `startsWith`, `split`,
    number-to-text). */
module Common {

  datatype Option<+T> = None | Some(value: T) {
    function GetOr(default: T): T {
      match this
      case Some(v) => v
      case None => default
    }
  }

  /** A value, or the message of the error the JavaScript code throws. */
  datatype Result<+T> = Ok(value: T) | Err(message: string)

  /** `s.startsWith(p)` */
  predicate StartsWith(s: string, p: string) {
    |p| <= |s| && s[..|p|] == p
  }

  /** `s.includes(t)`: t occurs as a contiguous, case-sensitive piece of s,
      searched for from the front. */
  predicate Contains(s: string, t: string)
    decreases |s|
  {
    StartsWith(s, t) || (|s| > 0 && Contains(s[1..], t))
  }

  /** t stands in s starting at index i. */
  predicate OccursAt(s: string, t: string, i: int) {
    0 <= i <= |s| - |t| && s[i..i + |t|] == t
  }

  /** A piece found at any position is found by the search. */
  lemma {:induction false} OccursAtContains(s: string, t: string, i: int)
    requires OccursAt(s, t, i)
    ensures Contains(s, t)
    decreases i
  {
    if i == 0 {
      assert s[..|t|] == s[0..|t|];
    } else {
      assert s[1..][i - 1..i - 1 + |t|] == s[i..i + |t|];
      OccursAtContains(s[1..], t, i - 1);
    }
  }

  /** The search finds a piece only where it occurs. */
  lemma {:induction false} ContainsOccurs(s: string, t: string) returns (i: int)
    requires Contains(s, t)
    ensures OccursAt(s, t, i)
    decreases |s|
  {
    if StartsWith(s, t) {
      i := 0;
      assert s[0..|t|] == s[..|t|];
    } else {
      var j := ContainsOccurs(s[1..], t);
      i := j + 1;
      assert s[1..][j..j + |t|] == s[i..i + |t|];
    }
  }

  /** A piece of a piece is a piece of the whole. */
  lemma ContainsInPrefix(s: string, a: string, t: string)
    requires StartsWith(s, a) && Contains(a, t)
    ensures Contains(s, t)
  {
    var i := ContainsOccurs(a, t);
    assert a == s[..|a|];
    assert s[i..i + |t|] == a[i..i + |t|];
    OccursAtContains(s, t, i);
  }

  /** Index of the first occurrence of `c` in `s`, or |s| when there is none. */
  function IndexOf(s: string, c: char): (k: nat)
    ensures k <= |s|
  {
    if |s| == 0 then 0
    else if s[0] == c then 0
    else 1 + IndexOf(s[1..], c)
  }

  /** The index found is that of the first `c`, and it is |s| exactly when
      there is no `c`. */
  lemma {:induction false} IndexOfFirst(s: string, c: char)
    ensures c !in s[..IndexOf(s, c)]
    ensures IndexOf(s, c) < |s| <==> c in s
    ensures IndexOf(s, c) < |s| ==> s[IndexOf(s, c)] == c
  {
    if |s| > 0 && s[0] != c {
      IndexOfFirst(s[1..], c);
      assert s[..1 + IndexOf(s[1..], c)] == [s[0]] + s[1..][..IndexOf(s[1..], c)];
      assert s == [s[0]] + s[1..];
    }
  }

  /** `s.split(c)`: the pieces between the occurrences of `c`, always at least one. */
  function Split(s: string, c: char): (parts: seq<string>)
    ensures |parts| >= 1
    decreases |s|
  {
    var k := IndexOf(s, c);
    if k == |s| then [s] else [s[..k]] + Split(s[k + 1..], c)
  }

  /** `s.substring(0, n)` for n >= 0. */
  function Take(s: string, n: nat): (r: string)
    ensures |r| == if n <= |s| then n else |s|
    ensures StartsWith(s, r)
  {
    if n <= |s| then s[..n] else s
  }

  function DigitChar(d: nat): char
    requires d < 10
  {
    ('0' as int + d) as char
  }

  /** `String(n)` for a non-negative integer: decimal digits, no leading zeros. */
  function NatToString(n: nat): (s: string)
    ensures |s| >= 1
    ensures (|s| == 1) <==> n < 10
  {
    if n < 10 then [DigitChar(n)] else NatToString(n / 10) + [DigitChar(n % 10)]
  }

  /** Every character of `String(n)` is a decimal digit. */
  lemma {:induction false} NatToStringDigits(n: nat)
    ensures forall i :: 0 <= i < |NatToString(n)| ==> '0' <= NatToString(n)[i] <= '9'
  {
    if n >= 10 {
      NatToStringDigits(n / 10);
    }
  }

  /** `String(n)` for any integer. */
  function IntToString(n: int): string {
    if n < 0 then "-" + NatToString(-n) else NatToString(n)
  }

  /** The sequence in reverse order, as `Array.prototype.reverse` leaves it. */
  function Reversed<T>(s: seq<T>): (r: seq<T>)
    ensures |r| == |s|
  {
    if s == [] then [] else Reversed(s[1..]) + [s[0]]
  }

  lemma {:induction false} ReversedAt<T>(s: seq<T>, k: nat)
    requires k < |s|
    ensures Reversed(s)[k] == s[|s| - 1 - k]
  {
    if k < |s| - 1 {
      ReversedAt(s[1..], k);
    }
  }

  /** Halfway through reversing `was`: the outer `lower` elements at each
      end are in their reversed places, the middle is still as it was. */
  ghost predicate ReversingFrom<T>(s: seq<T>, was: seq<T>, lower: int, upper: int) {
    && |s| == |was| && 0 <= lower <= upper + 1 && lower + upper == |s| - 1
    && s[..lower] == Reversed(was)[..lower]
    && s[upper + 1..] == Reversed(was)[upper + 1..]
    && forall k :: lower <= k <= upper ==> s[k] == was[k]
  }

  /** Swapping the two ends of the middle moves both inwards. */
  lemma SwapEnds<T>(s: seq<T>, was: seq<T>, lower: int, upper: int, swapped: seq<T>)
    requires ReversingFrom(s, was, lower, upper) && lower < upper
    requires swapped == s[lower := s[upper]][upper := s[lower]]
    ensures ReversingFrom(swapped, was, lower + 1, upper - 1)
  {
    ReversedAt(was, lower);
    ReversedAt(was, upper);
    assert swapped[..lower + 1] == s[..lower] + [was[upper]];
    assert Reversed(was)[..lower + 1] == Reversed(was)[..lower] + [Reversed(was)[lower]];
    assert swapped[upper..] == [was[lower]] + s[upper + 1..];
    assert Reversed(was)[upper..] == [Reversed(was)[upper]] + Reversed(was)[upper + 1..];
  }

  /** Once the ends meet, the whole sequence is reversed. */
  lemma EndsMet<T>(s: seq<T>, was: seq<T>, lower: int, upper: int)
    requires ReversingFrom(s, was, lower, upper) && lower >= upper
    ensures s == Reversed(was)
  {
    var target := Reversed(was);
    if lower == upper {
      ReversedAt(was, lower);
      assert s == s[..lower] + [s[lower]] + s[lower + 1..];
      assert target == target[..lower] + [target[lower]] + target[lower + 1..];
    } else {
      assert s == s[..lower] + s[lower..];
      assert target == target[..lower] + target[lower..];
    }
  }

  /** `Array.prototype.reverse`: the two ends are swapped and move towards
      the middle until they meet. */
  method ReverseInPlace<T>(a: array<T>)
    modifies a
    ensures a[..] == Reversed(old(a[..]))
  {
    ghost var was := a[..];
    var lower, upper := 0, a.Length - 1;
    while lower < upper
      invariant ReversingFrom(a[..], was, lower, upper)
    {
      ghost var s := a[..];
      a[lower], a[upper] := a[upper], a[lower];
      SwapEnds(s, was, lower, upper, a[..]);
      lower, upper := lower + 1, upper - 1;
    }
    EndsMet(a[..], was, lower, upper);
  }
}
