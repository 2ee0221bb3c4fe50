/** The Python string operations the client applies to protocol text:
    `str.strip()` without arguments, `str.startswith` and `str.lower()`. */
module Text {

  /** The code points Python's `str.isspace` accepts; `str.strip()` removes
      exactly these from both ends. */
  predicate IsSpace(c: char)
  {
    var n := c as int;
    || (0x09 <= n <= 0x0D)
    || (0x1C <= n <= 0x20)
    || n == 0x85 || n == 0xA0 || n == 0x1680
    || (0x2000 <= n <= 0x200A)
    || n == 0x2028 || n == 0x2029 || n == 0x202F || n == 0x205F || n == 0x3000
  }

  /** Every character of `w` is whitespace (the empty string included). */
  predicate AllSpace(w: string)
  {
    forall k :: 0 <= k < |w| ==> IsSpace(w[k])
  }

  /** `s` with its leading whitespace removed: a suffix of `s` that starts
      with a non-space character, and everything cut off was whitespace. */
  function StripLeft(s: string): (r: string)
    ensures |r| <= |s| && r == s[|s| - |r|..]
    ensures forall k :: 0 <= k < |s| - |r| ==> IsSpace(s[k])
    ensures |r| > 0 ==> !IsSpace(r[0])
  {
    if |s| > 0 && IsSpace(s[0]) then StripLeft(s[1..]) else s
  }

  /** `s` with its trailing whitespace removed: a prefix of `s` that ends
      with a non-space character, and everything cut off was whitespace. */
  function StripRight(s: string): (r: string)
    ensures |r| <= |s| && r == s[..|r|]
    ensures forall k :: |r| <= k < |s| ==> IsSpace(s[k])
    ensures |r| > 0 ==> !IsSpace(r[|r| - 1])
  {
    if |s| > 0 && IsSpace(s[|s| - 1]) then StripRight(s[..|s| - 1]) else s
  }

  /** Python's `s.strip()`: the slice `s[lead..lead + |r|]` where everything
      before and after the slice is whitespace and the slice itself neither
      starts nor ends with whitespace. */
  function Strip(s: string): (r: string)
    ensures LeadingSpaces(s) + |r| <= |s|
    ensures r == s[LeadingSpaces(s)..LeadingSpaces(s) + |r|]
    ensures forall k :: 0 <= k < LeadingSpaces(s) ==> IsSpace(s[k])
    ensures forall k :: LeadingSpaces(s) + |r| <= k < |s| ==> IsSpace(s[k])
    ensures |r| > 0 ==> !IsSpace(r[0]) && !IsSpace(r[|r| - 1])
  {
    StripRight(StripLeft(s))
  }

  /** How many characters `Strip` removes from the front of `s`. */
  function LeadingSpaces(s: string): (n: nat)
    ensures n <= |s|
  {
    |s| - |StripLeft(s)|
  }

  /** Stripping is idempotent: text that has been stripped once has no
      surrounding whitespace left to remove. */
  lemma StripIdempotent(s: string)
    ensures Strip(Strip(s)) == Strip(s)
  {
    var r := Strip(s);
    if |r| > 0 {
      assert !IsSpace(r[0]) && !IsSpace(r[|r| - 1]);
      assert StripLeft(r) == r;
      assert StripRight(r) == r;
    }
  }

  /** Trailing whitespace after text that ends in a non-space character is
      exactly what `StripRight` removes. */
  lemma {:induction false} StripRightTrailing(x: string, w: string)
    requires |x| > 0 && !IsSpace(x[|x| - 1])
    requires AllSpace(w)
    ensures StripRight(x + w) == x
    decreases |w|
  {
    if |w| > 0 {
      var w' := w[..|w| - 1];
      assert (x + w)[..|x + w| - 1] == x + w';
      StripRightTrailing(x, w');
    } else {
      assert x + w == x;
    }
  }

  /** Text without surrounding whitespace, followed by trailing whitespace,
      strips back to that text. */
  lemma StripPadded(x: string, w: string)
    requires |x| > 0 && !IsSpace(x[0]) && !IsSpace(x[|x| - 1])
    requires AllSpace(w)
    ensures Strip(x + w) == x
  {
    assert (x + w)[0] == x[0];
    assert StripLeft(x + w) == x + w;
    StripRightTrailing(x, w);
  }

  /** Leading whitespace before text that starts with a non-space character
      is exactly what `StripLeft` removes. */
  lemma {:induction false} StripLeftLeading(w: string, y: string)
    requires AllSpace(w)
    requires |y| > 0 && !IsSpace(y[0])
    ensures StripLeft(w + y) == y
    decreases |w|
  {
    if |w| > 0 {
      assert (w + y)[0] == w[0];
      assert (w + y)[1..] == w[1..] + y;
      StripLeftLeading(w[1..], y);
    } else {
      assert w + y == y;
    }
  }

  /** Text whose ends are not whitespace, surrounded by whitespace on both
      sides, strips back to that text. */
  lemma StripSurrounded(w1: string, x: string, w2: string)
    requires AllSpace(w1) && AllSpace(w2)
    requires |x| > 0 && !IsSpace(x[0]) && !IsSpace(x[|x| - 1])
    ensures Strip(w1 + x + w2) == x
  {
    assert w1 + x + w2 == w1 + (x + w2);
    assert (x + w2)[0] == x[0];
    StripLeftLeading(w1, x + w2);
    StripRightTrailing(x, w2);
  }

  /** Every string is its stripped text with whitespace on either side. */
  lemma StripSplit(s: string)
    ensures exists w1, w2 :: AllSpace(w1) && AllSpace(w2) && s == w1 + Strip(s) + w2
  {
    var n, r := LeadingSpaces(s), Strip(s);
    StripSides(s);
    SpacedBy(s, s[..n], r, s[n + |r|..]);
  }

  /** The whitespace `Strip` cuts from either end of `s`, around the
      stripped text, puts `s` back together. */
  lemma StripSides(s: string)
    ensures AllSpace(s[..LeadingSpaces(s)])
    ensures AllSpace(s[LeadingSpaces(s) + |Strip(s)|..])
    ensures s == s[..LeadingSpaces(s)] + Strip(s) + s[LeadingSpaces(s) + |Strip(s)|..]
  {
    var n, r := LeadingSpaces(s), Strip(s);
    LeadingCut(s, n);
    TrailingCut(s, n + |r|);
    Reassemble(s, n, n + |r|);
  }

  /** Three consecutive slices of `s` put `s` back together. */
  lemma Reassemble(s: string, i: nat, j: nat)
    requires i <= j <= |s|
    ensures s == s[..i] + s[i..j] + s[j..]
  {
    assert s[..j] == s[..i] + s[i..j];
  }

  /** A prefix of `s` whose characters are all whitespace, as a slice. */
  lemma LeadingCut(s: string, n: nat)
    requires n <= |s|
    requires forall k :: 0 <= k < n ==> IsSpace(s[k])
    ensures AllSpace(s[..n])
  {
    forall k | 0 <= k < n ensures IsSpace(s[..n][k]) {
      assert s[..n][k] == s[k];
    }
  }

  /** A suffix of `s` whose characters are all whitespace, as a slice. */
  lemma TrailingCut(s: string, m: nat)
    requires m <= |s|
    requires forall k :: m <= k < |s| ==> IsSpace(s[k])
    ensures AllSpace(s[m..])
  {
    forall k | 0 <= k < |s| - m ensures IsSpace(s[m..][k]) {
      assert s[m..][k] == s[m + k];
    }
  }

  /** Names the whitespace on either side of `x` in `s` as a witness. */
  lemma SpacedBy(s: string, w1: string, x: string, w2: string)
    requires AllSpace(w1) && AllSpace(w2) && s == w1 + x + w2
    ensures exists a, b :: AllSpace(a) && AllSpace(b) && s == a + x + b
  {
  }

  /** Python's `s.startswith(prefix)`. */
  predicate StartsWith(s: string, prefix: string)
  {
    |prefix| <= |s| && s[..|prefix|] == prefix
  }

  /** A string that starts with `prefix` is `prefix` followed by the rest. */
  lemma PrefixRest(s: string, prefix: string)
    requires StartsWith(s, prefix)
    ensures s == prefix + s[|prefix|..]
  {
  }

  /** `prefix + rest` starts with `prefix`, and `rest` follows it. */
  lemma PrefixConcat(prefix: string, rest: string)
    ensures StartsWith(prefix + rest, prefix) && (prefix + rest)[|prefix|..] == rest
  {
    assert (prefix + rest)[..|prefix|] == prefix;
  }

  /** Python's `str.lower()` on one character, for the ASCII letters. */
  function LowerChar(c: char): char
  {
    if 'A' <= c <= 'Z' then (c as int + 32) as char else c
  }

  /** The characters that lower-case to a given small letter are that
      letter and its capital. */
  lemma LowerCharIs(c: char, small: char)
    requires 'a' <= small <= 'z'
    ensures LowerChar(c) == small <==> c == small || c as int == small as int - 32
  {
  }

  /** Python's `str.lower()`, character by character. */
  function Lower(s: string): (r: string)
    ensures |r| == |s|
    ensures forall k :: 0 <= k < |r| ==> !('A' <= r[k] <= 'Z')
    ensures forall k :: 0 <= k < |s| && !('A' <= s[k] <= 'Z') ==> r[k] == s[k]
    ensures forall k :: 0 <= k < |s| && 'A' <= s[k] <= 'Z' ==> 'a' <= r[k] <= 'z' && r[k] as int - s[k] as int == 32
  {
    seq(|s|, k requires 0 <= k < |s| => LowerChar(s[k]))
  }

  /** Lower-casing twice is lower-casing once. */
  lemma LowerIdempotent(s: string)
    ensures Lower(Lower(s)) == Lower(s)
  {
  }

  /** The strings whose lower-case form is `"quit"` are exactly the sixteen
      case variants of the word. */
  lemma LowerIsQuit(s: string)
    ensures Lower(s) == "quit" <==>
      && |s| == 4
      && (s[0] == 'q' || s[0] == 'Q')
      && (s[1] == 'u' || s[1] == 'U')
      && (s[2] == 'i' || s[2] == 'I')
      && (s[3] == 't' || s[3] == 'T')
  {
    var q := "quit";
    var l := Lower(s);
    if |s| != 4 {
      assert |l| != |q|;
    } else {
      LowerCharIs(s[0], 'q');
      LowerCharIs(s[1], 'u');
      LowerCharIs(s[2], 'i');
      LowerCharIs(s[3], 't');
      if l == q {
        assert l[0] == 'q' && l[1] == 'u' && l[2] == 'i' && l[3] == 't';
      }
      if l[0] == 'q' && l[1] == 'u' && l[2] == 'i' && l[3] == 't' {
        assert l == q;
      }
    }
  }
}
