/** Text helpers shared by the classifier: UTF-8 byte lengths (Rust measures and
    slices `str` in bytes), substring search (`str::contains`) and lowercasing
    (`str::to_lowercase`, restricted to the characters that can matter here). */
module Text {
  import opened Wrappers

  // ---------------------------------------------------------------------------
  // UTF-8 byte lengths

  /** The number of bytes UTF-8 uses for one Unicode scalar value. */
  function Utf8Width(c: char): (w: nat)
    ensures 1 <= w <= 4
    ensures w == 1 <==> c as int < 0x80
  {
    if c as int < 0x80 then 1
    else if c as int < 0x800 then 2
    else if c as int < 0x1_0000 then 3
    else 4
  }

  /** Rust's `str::len`: the byte length of the UTF-8 encoding. */
  function Utf8Len(s: string): nat
  {
    if s == [] then 0 else Utf8Width(s[0]) + Utf8Len(s[1..])
  }

  predicate IsAscii(s: string)
  {
    forall i :: 0 <= i < |s| ==> s[i] as int < 0x80
  }

  lemma {:induction false} Utf8LenAppend(a: string, b: string)
    ensures Utf8Len(a + b) == Utf8Len(a) + Utf8Len(b)
  {
    if a != [] {
      assert (a + b)[1..] == a[1..] + b;
      Utf8LenAppend(a[1..], b);
    } else {
      assert a + b == b;
    }
  }

  /** Every character takes at least one byte, and exactly one when it is ASCII. */
  lemma {:induction false} Utf8LenAtLeastLength(s: string)
    ensures |s| <= Utf8Len(s)
    ensures Utf8Len(s) == |s| <==> IsAscii(s)
  {
    if s != [] {
      Utf8LenAtLeastLength(s[1..]);
      if IsAscii(s[1..]) && s[0] as int < 0x80 {
        assert forall i :: 0 <= i < |s| ==> s[i] as int < 0x80 by {
          forall i | 0 <= i < |s| ensures s[i] as int < 0x80 {
            if i > 0 { assert s[i] == s[1..][i - 1]; }
          }
        }
      }
      if IsAscii(s) {
        assert forall i :: 0 <= i < |s[1..]| ==> s[1..][i] as int < 0x80 by {
          forall i | 0 <= i < |s[1..]| ensures s[1..][i] as int < 0x80 {
            assert s[1..][i] == s[i + 1];
          }
        }
      }
    }
  }

  /** Byte offsets of ever longer prefixes grow strictly. */
  lemma PrefixBytesIncrease(s: string, j: nat, k: nat)
    requires j < k <= |s|
    ensures Utf8Len(s[..j]) < Utf8Len(s[..k])
  {
    assert s[..k] == s[..j] + s[j..k];
    Utf8LenAppend(s[..j], s[j..k]);
    Utf8LenAtLeastLength(s[j..k]);
  }

  /** No character takes more than four bytes. */
  lemma {:induction false} Utf8LenAtMost(s: string)
    ensures Utf8Len(s) <= 4 * |s|
  {
    if s != [] {
      Utf8LenAtMost(s[1..]);
    }
  }

  /** The longest prefix of `s` whose encoding fits in `n` bytes. */
  function PrefixWithin(s: string, n: nat): (p: string)
    ensures |p| <= |s| && p == s[..|p|]
    ensures Utf8Len(p) <= n
    ensures |p| < |s| ==> n < Utf8Len(p) + Utf8Width(s[|p|])
  {
    if s == [] || n < Utf8Width(s[0]) then []
    else
      var rest := PrefixWithin(s[1..], n - Utf8Width(s[0]));
      assert ([s[0]] + rest)[1..] == rest;
      [s[0]] + rest
  }

  /** A string that fits in `n` bytes is its own longest fitting prefix. */
  lemma PrefixWithinWhole(s: string, n: nat)
    ensures Utf8Len(s) <= n ==> PrefixWithin(s, n) == s
  {
  }

  /** Rust's `&s[..n]` succeeds when `n` does not exceed the byte length and
      falls on a character boundary; otherwise it panics. `SliceOk` is the
      executable test, `IsCharBoundary` the definition it is proved against. */
  predicate SliceOk(s: string, n: nat)
  {
    n <= Utf8Len(s) && Utf8Len(PrefixWithin(s, n)) == n
  }

  ghost predicate IsCharBoundary(s: string, n: nat)
  {
    exists k :: 0 <= k <= |s| && Utf8Len(s[..k]) == n
  }

  lemma SliceOkIffCharBoundary(s: string, n: nat)
    ensures SliceOk(s, n) <==> n <= Utf8Len(s) && IsCharBoundary(s, n)
  {
    var p := PrefixWithin(s, n);
    if SliceOk(s, n) {
      assert Utf8Len(s[..|p|]) == n;
    }
    if n <= Utf8Len(s) && IsCharBoundary(s, n) {
      var k :| 0 <= k <= |s| && Utf8Len(s[..k]) == n;
      if |p| < k {
        assert s[..|p| + 1] == p + [s[|p|]];
        Utf8LenAppend(p, [s[|p|]]);
        if |p| + 1 < k {
          PrefixBytesIncrease(s, |p| + 1, k);
        }
        assert false;
      } else if k < |p| {
        PrefixBytesIncrease(s, k, |p|);
        assert false;
      }
    }
  }

  /** The bytes `&s[..min(len, n)]` denotes: the whole string when it is short
      enough, otherwise its first `n` bytes, which must end on a character
      boundary. */
  function Truncate(s: string, n: nat): (p: string)
    requires Utf8Len(s) <= n || SliceOk(s, n)
    ensures |p| <= |s| && p == s[..|p|]
    ensures Utf8Len(p) == Min(Utf8Len(s), n)
  {
    if Utf8Len(s) <= n then
      assert s[..|s|] == s;
      s
    else PrefixWithin(s, n)
  }

  /** On ASCII text a byte limit is a character limit. */
  lemma TruncateAscii(s: string, n: nat)
    requires IsAscii(s)
    ensures Utf8Len(s) <= n || SliceOk(s, n)
    ensures Truncate(s, n) == s[..Min(|s|, n)]
  {
    Utf8LenAtLeastLength(s);
    var p := PrefixWithin(s, n);
    assert IsAscii(p) by {
      forall i | 0 <= i < |p| ensures p[i] as int < 0x80 { assert p[i] == s[i]; }
    }
    Utf8LenAtLeastLength(p);
    if |s| > n {
      assert |p| == n;
    }
  }

  // ---------------------------------------------------------------------------
  // Substring search

  /** `pat` occurs in `s` starting at index `i`. */
  predicate OccursAt(s: string, pat: string, i: nat)
  {
    i + |pat| <= |s| && s[i..i + |pat|] == pat
  }

  ghost predicate Occurs(s: string, pat: string)
  {
    exists i :: OccursAt(s, pat, i)
  }

  function ContainsFrom(s: string, pat: string, i: nat): (b: bool)
    requires i <= |s|
    ensures b <==> exists k :: i <= k && OccursAt(s, pat, k)
    decreases |s| - i
  {
    OccursAt(s, pat, i) || (i < |s| && ContainsFrom(s, pat, i + 1))
  }

  /** Rust's `str::contains` on a string pattern. */
  function Contains(s: string, pat: string): (b: bool)
    ensures b <==> Occurs(s, pat)
  {
    ContainsFrom(s, pat, 0)
  }

  /** A pattern holding a character that `s` lacks does not occur in `s`. */
  lemma AbsentCharBlocks(s: string, pat: string, j: nat)
    requires j < |pat|
    requires pat[j] !in s
    ensures !Occurs(s, pat)
  {
  }

  // ---------------------------------------------------------------------------
  // Lowercasing

  /** The lowercase mapping restricted to what can change an ASCII keyword
      search: A-Z, and the Kelvin sign U+212A whose lowercase is `k`. Every
      other character is left as it is. */
  function LowerChar(c: char): (d: char)
    ensures 'a' <= d <= 'z' ==> d == c || ('A' <= c <= 'Z' && d as int == c as int + 32) || c == '\U{212A}'
    ensures !('A' <= d <= 'Z') && d != '\U{212A}'
    ensures 'A' <= c <= 'Z' ==> 'a' <= d <= 'z' && d as int == c as int + 32
    ensures !('A' <= c <= 'Z') && c != '\U{212A}' ==> d == c
  {
    if 'A' <= c <= 'Z' then (c as int + 32) as char
    else if c == '\U{212A}' then 'k'
    else c
  }

  /** `str::to_lowercase` as far as an ASCII keyword search can tell: no
      capital is left, each capital becomes its small letter, and every
      other character but the Kelvin sign stays. */
  function Lower(s: string): (r: string)
    ensures |r| == |s|
    ensures forall i :: 0 <= i < |s| ==> r[i] == LowerChar(s[i])
    ensures forall i :: 0 <= i < |r| ==> !('A' <= r[i] <= 'Z')
    ensures forall i :: 0 <= i < |s| && 'A' <= s[i] <= 'Z' ==> r[i] as int == s[i] as int + 32
    ensures forall i :: 0 <= i < |s| && !('A' <= s[i] <= 'Z') && s[i] != '\U{212A}' ==> r[i] == s[i]
  {
    seq(|s|, i requires 0 <= i < |s| => LowerChar(s[i]))
  }

  /** Lowercasing twice is lowercasing once. */
  lemma LowerIdempotent(s: string)
    ensures Lower(Lower(s)) == Lower(s)
  {
    var l := Lower(s);
    forall i | 0 <= i < |l| ensures Lower(l)[i] == l[i] {
      assert l[i] == LowerChar(s[i]);
    }
  }

  /** Text already in lowercase (no capital, no Kelvin sign) is its own
      lowercase. */
  lemma LowerOfLowercase(s: string)
    requires forall i :: 0 <= i < |s| ==> !('A' <= s[i] <= 'Z') && s[i] != '\U{212A}'
    ensures Lower(s) == s
  {
  }
}
