/**
 * String helpers that stand for the Python string operations the core uses:
 * `str(n)` on integers, zero-padded date fields, `s * n` and `needle in hay`,
 * and the deletion of every occurrence of a character, which states that a
 * date stripped of its dashes gives its compact form back.
 */
module Text {

  predicate IsDigit(c: char) {
    '0' <= c <= '9'
  }

  predicate AllDigits(s: string) {
    forall i :: 0 <= i < |s| ==> IsDigit(s[i])
  }

  function DigitChar(d: nat): (c: char)
    requires d < 10
    ensures IsDigit(c)
  {
    "0123456789"[d]
  }

  function DigitValue(c: char): (d: nat)
    requires IsDigit(c)
    ensures d < 10
  {
    c as int - '0' as int
  }

  lemma DigitRoundTrip(d: nat)
    requires d < 10
    ensures DigitValue(DigitChar(d)) == d
  {
  }

  /** The number written by a string of decimal digits, most significant digit first. */
  function DigitsValue(s: string): nat
    requires AllDigits(s)
  {
    if s == [] then 0 else DigitsValue(s[..|s| - 1]) * 10 + DigitValue(s[|s| - 1])
  }

  function Pow10(n: nat): (p: nat)
    ensures p >= 1
  {
    if n == 0 then 1 else 10 * Pow10(n - 1)
  }

  /** The lowest `width` decimal digits of `n`, zero-padded: what `%04d`-style fields print. */
  function Pad(n: nat, width: nat): (r: string)
    ensures |r| == width && AllDigits(r)
  {
    if width == 0 then "" else Pad(n / 10, width - 1) + [DigitChar(n % 10)]
  }

  /** Python's `str(n)` for a natural number. */
  function NatToString(n: nat): (r: string)
    ensures |r| >= 1 && AllDigits(r)
  {
    if n < 10 then [DigitChar(n)] else NatToString(n / 10) + [DigitChar(n % 10)]
  }

  /** Python's `str(i)` for an integer: a minus sign before the digits of a negative number. */
  function IntToString(i: int): string {
    if i < 0 then "-" + NatToString(-i) else NatToString(i)
  }

  /** Reading a digit string and writing it back at the same width gives the same string. */
  lemma {:induction false} PadDigitsValue(s: string)
    requires AllDigits(s)
    ensures Pad(DigitsValue(s), |s|) == s
  {
    if s != [] {
      var init, last := s[..|s| - 1], s[|s| - 1];
      assert AllDigits(init);
      var v := DigitsValue(init);
      assert DigitsValue(s) == v * 10 + DigitValue(last);
      assert DigitsValue(s) / 10 == v;
      assert DigitsValue(s) % 10 == DigitValue(last);
      PadDigitsValue(init);
      assert DigitChar(DigitValue(last)) == last;
      assert s == init + [last];
    }
  }

  /** Writing a number that fits the width and reading it back gives the number. */
  lemma {:induction false} DigitsValuePad(n: nat, width: nat)
    requires n < Pow10(width)
    ensures DigitsValue(Pad(n, width)) == n
  {
    if width == 0 {
      assert n == 0;
    } else {
      var r := Pad(n, width);
      assert r[..|r| - 1] == Pad(n / 10, width - 1);
      assert r[|r| - 1] == DigitChar(n % 10);
      DigitsValuePad(n / 10, width - 1);
      DigitRoundTrip(n % 10);
    }
  }

  /** `str(n)` is read back as `n`: the decimal rendering is lossless. */
  lemma {:induction false} NatToStringValue(n: nat)
    ensures DigitsValue(NatToString(n)) == n
  {
    var r := NatToString(n);
    if n < 10 {
      DigitRoundTrip(n);
      assert r[..0] == [];
    } else {
      assert r[..|r| - 1] == NatToString(n / 10);
      NatToStringValue(n / 10);
      DigitRoundTrip(n % 10);
    }
  }

  /** Python's `s * n`: `n` copies of `s`, and the empty string when `n <= 0`. */
  function Repeat(s: string, n: int): (r: string)
    decreases if n <= 0 then 0 else n
  {
    if n <= 0 then "" else s + Repeat(s, n - 1)
  }

  lemma MulSucc(a: int, k: int)
    ensures (a + 1) * k == a * k + k
  {
  }

  lemma {:induction false} MulMonotone(a: nat, b: nat, k: nat)
    requires a <= b
    ensures a * k <= b * k
    decreases b - a
  {
    if a < b {
      MulMonotone(a, b - 1, k);
      MulSucc(b - 1, k);
    }
  }

  lemma {:induction false} RepeatLength(s: string, n: int)
    ensures |Repeat(s, n)| == if n <= 0 then 0 else n * |s|
    decreases if n <= 0 then 0 else n
  {
    if n > 0 {
      RepeatLength(s, n - 1);
      assert |Repeat(s, n)| == |s| + |Repeat(s, n - 1)|;
      MulSucc(n - 1, |s|);
      if n - 1 <= 0 {
        assert n == 1;
      }
    }
  }

  /** The `i`-th block of `|s|` characters of `s * n` is `s`. */
  lemma {:induction false} RepeatBlock(s: string, n: int, i: nat)
    requires i < n
    ensures |Repeat(s, n)| == n * |s|
    ensures (i + 1) * |s| <= n * |s|
    ensures Repeat(s, n)[i * |s|..(i + 1) * |s|] == s
    decreases n
  {
    var k := |s|;
    RepeatLength(s, n);
    MulMonotone(i + 1, n, k);
    MulSucc(i, k);
    var r, tail := Repeat(s, n), Repeat(s, n - 1);
    assert r == s + tail;
    if i == 0 {
      assert 0 * k == 0 && 1 * k == k;
      assert r[..k] == s;
    } else {
      RepeatBlock(s, n - 1, i - 1);
      MulSucc(i - 1, k);
      var lo, hi := i * k, (i + 1) * k;
      assert lo == k + (i - 1) * k && hi == k + i * k;
      assert r[lo..hi] == tail[lo - k..hi - k];
    }
  }

  /** Python's `needle in hay` for strings. */
  predicate Contains(hay: string, needle: string)
    decreases |hay|
  {
    (|needle| <= |hay| && hay[..|needle|] == needle) || (|hay| > 0 && Contains(hay[1..], needle))
  }

  predicate OccursAt(hay: string, needle: string, i: int) {
    0 <= i && i + |needle| <= |hay| && hay[i..i + |needle|] == needle
  }

  /** Two pieces found one right after the other make one occurrence of their concatenation. */
  lemma OccursTogether(hay: string, a: string, b: string, p: int)
    requires OccursAt(hay, a, p) && OccursAt(hay, b, p + |a|)
    ensures OccursAt(hay, a + b, p)
  {
    var m := p + |a|;
    assert hay[p..m + |b|] == hay[p..m] + hay[m..m + |b|];
  }

  /** `needle in hay` holds exactly when `needle` occurs at some position of `hay`. */
  lemma {:induction false} ContainsIff(hay: string, needle: string)
    ensures Contains(hay, needle) <==> exists i :: OccursAt(hay, needle, i)
    decreases |hay|
  {
    if |needle| <= |hay| && hay[..|needle|] == needle {
      assert OccursAt(hay, needle, 0);
    } else if |hay| > 0 {
      ContainsIff(hay[1..], needle);
      if Contains(hay[1..], needle) {
        var j :| OccursAt(hay[1..], needle, j);
        assert hay[j + 1..j + 1 + |needle|] == hay[1..][j..j + |needle|];
        assert OccursAt(hay, needle, j + 1);
      } else {
        forall i ensures !OccursAt(hay, needle, i) {
          if 1 <= i && i + |needle| <= |hay| {
            assert hay[i..i + |needle|] == hay[1..][i - 1..i - 1 + |needle|];
            assert !OccursAt(hay[1..], needle, i - 1);
          }
        }
      }
    } else {
      assert |needle| > 0;
    }
  }

  /** A needle whose first character never occurs in `hay` is not in it. */
  lemma {:induction false} ContainsNeedsFirstChar(hay: string, needle: string)
    requires needle != [] && needle[0] !in hay
    ensures !Contains(hay, needle)
    decreases |hay|
  {
    if |hay| > 0 {
      assert hay[0] != needle[0];
      ContainsNeedsFirstChar(hay[1..], needle);
    }
  }

  /** A hay that starts with the needle contains it. */
  lemma StartsWithContains(prefix: string, rest: string)
    ensures Contains(prefix + rest, prefix)
  {
    assert (prefix + rest)[..|prefix|] == prefix;
  }

  /** `s` with every occurrence of the character `c` deleted. */
  function Without(s: string, c: char): (r: string)
    ensures c !in r
    ensures |r| <= |s|
  {
    if s == [] then "" else (if s[0] == c then "" else [s[0]]) + Without(s[1..], c)
  }

  lemma {:induction false} WithoutConcat(a: string, b: string, c: char)
    ensures Without(a + b, c) == Without(a, c) + Without(b, c)
    decreases |a|
  {
    if a == [] {
      assert a + b == b;
    } else {
      var head := if a[0] == c then "" else [a[0]];
      assert (a + b)[0] == a[0];
      assert (a + b)[1..] == a[1..] + b;
      assert Without(a + b, c) == head + Without(a[1..] + b, c);
      WithoutConcat(a[1..], b, c);
    }
  }

  /** Deleting a character that does not occur leaves the string as it is. */
  lemma {:induction false} WithoutAbsent(s: string, c: char)
    requires c !in s
    ensures Without(s, c) == s
    decreases |s|
  {
    if s != [] {
      assert s[0] != c;
      assert c !in s[1..];
      WithoutAbsent(s[1..], c);
      assert s == [s[0]] + s[1..];
    }
  }

  lemma NoDashInDigits(s: string)
    requires AllDigits(s)
    ensures '-' !in s
  {
    forall i | 0 <= i < |s| ensures s[i] != '-' {
      assert IsDigit(s[i]);
    }
  }
}
