/**
  The JavaScript built-ins the dashboard relies on, written out so that their
  behaviour is part of the model: `Number.prototype.toString(16)` on a
  non-negative integer, `String.prototype.padStart`, `slice(2)`,
  `toUpperCase` (ASCII letters only) and `Array.prototype.find`.
  `FromHex` is not a built-in: it is the decoder that inverts `ToHex`.
 */
module JsLib {
  import opened Wrappers

  // ---------------------------------------------------------------- hex digits

  predicate IsHexDigit(c: char) {
    '0' <= c <= '9' || 'a' <= c <= 'f'
  }

  /** The lower-case digit for a value below 16. */
  function DigitChar(d: nat): (c: char)
    requires d < 16
    ensures IsHexDigit(c)
  {
    if d < 10 then ('0' as int + d) as char else ('a' as int + d - 10) as char
  }

  /** The value of a hex digit (0 for any other character). */
  function DigitValue(c: char): (v: nat)
    ensures v < 16
    ensures IsHexDigit(c) ==> DigitChar(v) == c
  {
    if '0' <= c <= '9' then c as int - '0' as int
    else if 'a' <= c <= 'f' then c as int - 'a' as int + 10
    else 0
  }

  lemma DigitRoundTrip(d: nat)
    requires d < 16
    ensures DigitValue(DigitChar(d)) == d
  {
  }

  predicate AllHex(s: string) {
    forall i :: 0 <= i < |s| ==> IsHexDigit(s[i])
  }

  function Pow16(k: nat): (p: nat)
    ensures p >= 1
  {
    if k == 0 then 1 else 16 * Pow16(k - 1)
  }

  /**
    `n.toString(16)` for a non-negative integer: lower-case digits, most
    significant first, no leading zeros ("0" for zero).
   */
  function ToHex(n: nat): (s: string)
    ensures 1 <= |s|
    ensures AllHex(s)
    ensures s[0] == '0' ==> n == 0
    decreases n
  {
    if n < 16 then [DigitChar(n)] else ToHex(n / 16) + [DigitChar(n % 16)]
  }

  /** Reads a string of hex digits as a number, most significant digit first. */
  function FromHex(s: string): nat
  {
    if s == [] then 0 else FromHex(s[..|s| - 1]) * 16 + DigitValue(s[|s| - 1])
  }

  lemma {:induction false} HexRoundTrip(n: nat)
    ensures FromHex(ToHex(n)) == n
    decreases n
  {
    var s := ToHex(n);
    if n < 16 {
      assert s[..|s| - 1] == [];
      DigitRoundTrip(n);
    } else {
      assert s[..|s| - 1] == ToHex(n / 16);
      HexRoundTrip(n / 16);
      DigitRoundTrip(n % 16);
    }
  }

  /** `ToHex(n)` fits in `k` digits exactly when `n < 16^k`. */
  lemma {:induction false} HexLength(n: nat, k: nat)
    requires k >= 1
    ensures |ToHex(n)| <= k <==> n < Pow16(k)
    decreases n
  {
    if n < 16 {
      assert Pow16(k) == 16 * Pow16(k - 1);
    } else if k == 1 {
      assert |ToHex(n)| == |ToHex(n / 16)| + 1;
    } else {
      HexLength(n / 16, k - 1);
      assert Pow16(k) == 16 * Pow16(k - 1);
    }
  }

  // ---------------------------------------------------------------- strings

  function Repeat(c: char, n: nat): (s: string)
    ensures |s| == n
    ensures forall i :: 0 <= i < n ==> s[i] == c
  {
    if n == 0 then [] else [c] + Repeat(c, n - 1)
  }

  /**
    `s.padStart(width, c)`: fills on the left up to `width` characters and
    never truncates a longer string.
   */
  function PadStart(s: string, width: nat, c: char): (r: string)
    ensures |r| == if |s| >= width then |s| else width
    ensures r[|r| - |s|..] == s
    ensures forall i :: 0 <= i < |r| - |s| ==> r[i] == c
  {
    if |s| >= width then s else Repeat(c, width - |s|) + s
  }

  /** Leading zeros do not change the value read by `FromHex`. */
  lemma {:induction false} FromHexLeadingZeros(z: string, s: string)
    requires forall i :: 0 <= i < |z| ==> z[i] == '0'
    ensures FromHex(z + s) == FromHex(s)
    decreases |s| + |z|
  {
    if s == [] {
      assert z + s == z;
      if z != [] {
        assert z[..|z| - 1] + [] == z[..|z| - 1];
        FromHexLeadingZeros(z[..|z| - 1], []);
      }
    } else {
      assert (z + s)[..|z + s| - 1] == z + s[..|s| - 1];
      FromHexLeadingZeros(z, s[..|s| - 1]);
    }
  }

  /** `s.slice(2)`: everything after the first two characters, or "" for a shorter string. */
  function SliceFrom2(s: string): (r: string)
    ensures |s| >= 2 ==> s == s[..2] + r
    ensures |s| < 2 ==> r == ""
  {
    if |s| >= 2 then s[2..] else ""
  }

  function UpperChar(c: char): (u: char)
    ensures !('a' <= u <= 'z')
    ensures 'a' <= c <= 'z' ==> u as int == c as int - 32
    ensures !('a' <= c <= 'z') ==> u == c
  {
    if 'a' <= c <= 'z' then (c as int - 32) as char else c
  }

  /** `s.toUpperCase()`, restricted to ASCII letters. */
  function ToUpperCase(s: string): (r: string)
    ensures |r| == |s|
    ensures forall i :: 0 <= i < |s| ==> r[i] == UpperChar(s[i])
  {
    if s == [] then [] else [UpperChar(s[0])] + ToUpperCase(s[1..])
  }

  lemma UpperCaseIdempotent(s: string)
    ensures ToUpperCase(ToUpperCase(s)) == ToUpperCase(s)
  {
  }

  /** The case-insensitive comparison the source writes as `a.toUpperCase() === b.toUpperCase()`. */
  predicate SameIgnoringCase(a: string, b: string) {
    ToUpperCase(a) == ToUpperCase(b)
  }

  // ---------------------------------------------------------------- arrays

  /** `s.find(p)`: the first element satisfying `p`, or `undefined` (None). */
  function Find<T>(s: seq<T>, p: T -> bool): (r: Option<T>)
    ensures r.None? <==> forall i :: 0 <= i < |s| ==> !p(s[i])
    ensures r.Some? ==> exists i :: 0 <= i < |s| && s[i] == r.value && p(s[i]) && forall j :: 0 <= j < i ==> !p(s[j])
  {
    if s == [] then None
    else if p(s[0]) then Some(s[0])
    else
      var r := Find(s[1..], p);
      assert r.Some? ==> exists i :: 1 <= i < |s| && s[i] == r.value && p(s[i]) && forall j :: 0 <= j < i ==> !p(s[j]) by {
        if r.Some? {
          var k :| 0 <= k < |s[1..]| && s[1..][k] == r.value && p(s[1..][k]) && forall j :: 0 <= j < k ==> !p(s[1..][j]);
          assert s[k + 1] == r.value && forall j :: 0 <= j < k + 1 ==> !p(s[j]);
        }
      }
      r
  }

  /** What `find` returns is decided by the first matching position alone. */
  lemma FindFirstMatch<T>(s: seq<T>, p: T -> bool, k: nat)
    requires k < |s| && p(s[k])
    requires forall j :: 0 <= j < k ==> !p(s[j])
    ensures Find(s, p) == Some(s[k])
  {
    var r := Find(s, p);
    assert r.Some?;
    var i :| 0 <= i < |s| && s[i] == r.value && p(s[i]) && forall j :: 0 <= j < i ==> !p(s[j]);
    assert i == k;
  }

  /** `find` sees its predicate only through the elements: predicates that agree on them find the same. */
  lemma {:induction false} FindExtensional<T>(s: seq<T>, p: T -> bool, q: T -> bool)
    requires forall i :: 0 <= i < |s| ==> p(s[i]) == q(s[i])
    ensures Find(s, p) == Find(s, q)
  {
    if s != [] {
      assert forall i :: 0 <= i < |s[1..]| ==> s[1..][i] == s[i + 1];
      FindExtensional(s[1..], p, q);
    }
  }
}
