/** The PHP string functions the naming algorithm relies on. */
module PhpString {
  import opened Types

  /** `strstr($s, $pat) !== false`: `$pat` occurs somewhere in `$s`. The
      substring `strstr` returns begins with `$pat`, so for a non-empty
      pattern its truthiness is exactly this. */
  predicate Contains(s: string, pat: string)
    decreases |s|
  {
    |pat| <= |s| && (s[..|pat|] == pat || Contains(s[1..], pat))
  }

  /** `str_replace($pat, $rep, $s)`: scan left to right and replace every
      non-overlapping occurrence of `$pat`. An empty pattern changes nothing. */
  function StrReplace(s: string, pat: string, rep: string): string
    decreases |s|
  {
    if pat == [] || |s| < |pat| then s
    else if s[..|pat|] == pat then rep + StrReplace(s[|pat|..], pat, rep)
    else [s[0]] + StrReplace(s[1..], pat, rep)
  }

  /** `substr($s, 0, $len)`: a negative length drops that many characters
      from the end, and a length past the end keeps the whole string. */
  function SubstrPrefix(s: string, len: int): (r: string)
    ensures |r| <= |s|
    ensures r == s[..|r|]
    ensures 0 <= len <= |s| ==> |r| == len
    ensures -|s| <= len < 0 ==> |r| == |s| + len
    ensures len >= |s| ==> r == s
    ensures len < -|s| ==> r == ""
  {
    if len >= 0 then s[..if len <= |s| then len else |s|]
    else if |s| + len >= 0 then s[..|s| + len]
    else ""
  }

  function DigitChar(d: Digit): (c: char)
  {
    "0123456789"[d]
  }

  /** PHP's conversion of a non-negative integer to a string. */
  function DecimalString(n: nat): (r: string)
    ensures |r| >= 1
    ensures forall i :: 0 <= i < |r| ==> '0' <= r[i] <= '9'
    ensures r[0] == '0' ==> n == 0
  {
    if n < 10 then [DigitChar(n)] else DecimalString(n / 10) + [DigitChar(n % 10)]
  }

  /** The number a string of decimal digits denotes, most significant first. */
  function DigitsValue(s: string): int
  {
    if s == [] then 0 else 10 * DigitsValue(s[..|s| - 1]) + (s[|s| - 1] as int - '0' as int)
  }

  lemma DigitCharValue(d: Digit)
    ensures DigitChar(d) as int - '0' as int == d
  {
  }

  /** The decimal string denotes the number it was made from. */
  lemma {:induction false} DecimalValue(n: nat)
    ensures DigitsValue(DecimalString(n)) == n
  {
    var r := DecimalString(n);
    if n < 10 {
      DigitCharValue(n);
      assert r[..0] == [];
    } else {
      DecimalValue(n / 10);
      DigitCharValue(n % 10);
      assert r[..|r| - 1] == DecimalString(n / 10);
    }
  }

  /** No `{` in the string, so it cannot hold any `{...}` placeholder. */
  predicate NoBrace(s: string)
  {
    forall i :: 0 <= i < |s| ==> s[i] != '{'
  }

  /** A string that does not contain the pattern is left unchanged. */
  lemma {:induction false} ReplaceAbsent(s: string, pat: string, rep: string)
    requires !Contains(s, pat)
    ensures StrReplace(s, pat, rep) == s
  {
    if pat != [] && |pat| <= |s| {
      ReplaceAbsent(s[1..], pat, rep);
      assert s == [s[0]] + s[1..];
    }
  }

  /** A leading occurrence of the pattern becomes the replacement. */
  lemma ReplaceLeading(pat: string, y: string, rep: string)
    requires pat != []
    ensures StrReplace(pat + y, pat, rep) == rep + StrReplace(y, pat, rep)
  {
    assert (pat + y)[..|pat|] == pat;
    assert (pat + y)[|pat|..] == y;
  }

  /** A string whose first character differs from the pattern's is copied
      one character at a time. */
  lemma ReplaceHeadMismatch(s: string, pat: string, rep: string)
    requires pat != [] && |pat| <= |s| && s[0] != pat[0]
    ensures StrReplace(s, pat, rep) == [s[0]] + StrReplace(s[1..], pat, rep)
  {
    assert s[..|pat|][0] == s[0];
  }

  lemma NoBraceTail(x: string)
    requires x != [] && NoBrace(x)
    ensures NoBrace(x[1..])
  {
    forall i | 0 <= i < |x[1..]| ensures x[1..][i] != '{' {
      assert x[1..][i] == x[i + 1];
    }
  }

  /** For a pattern that starts with `{`, a brace-free prefix is copied
      through unchanged, whatever follows it. */
  lemma {:induction false} ReplaceSkipsPrefix(x: string, y: string, pat: string, rep: string)
    requires pat != [] && pat[0] == '{'
    requires NoBrace(x)
    ensures StrReplace(x + y, pat, rep) == x + StrReplace(y, pat, rep)
  {
    if x == [] {
      assert x + y == y;
    } else if |x + y| < |pat| {
      assert StrReplace(y, pat, rep) == y;
    } else {
      assert x[0] != '{';
      ReplaceHeadMismatch(x + y, pat, rep);
      assert (x + y)[1..] == x[1..] + y;
      NoBraceTail(x);
      ReplaceSkipsPrefix(x[1..], y, pat, rep);
      calc {
        StrReplace(x + y, pat, rep);
        [x[0]] + (x[1..] + StrReplace(y, pat, rep));
        { assert x == [x[0]] + x[1..]; }
        x + StrReplace(y, pat, rep);
      }
    }
  }

  /** For a pattern that starts with `{`, another placeholder-like word that
      differs from the pattern in its second character is copied through. */
  lemma ReplaceSkipsOtherWord(w: string, y: string, pat: string, rep: string)
    requires |pat| >= 2 && pat[0] == '{'
    requires |w| >= 2 && w[0] == '{' && w[1] != pat[1] && NoBrace(w[1..])
    ensures StrReplace(w + y, pat, rep) == w + StrReplace(y, pat, rep)
  {
    var s := w + y;
    if |s| < |pat| {
      assert StrReplace(y, pat, rep) == y;
    } else {
      assert s[..|pat|] != pat by {
        assert s[..|pat|][1] == w[1];
      }
      assert StrReplace(s, pat, rep) == [s[0]] + StrReplace(s[1..], pat, rep);
      assert s[1..] == w[1..] + y;
      ReplaceSkipsPrefix(w[1..], y, pat, rep);
      calc {
        StrReplace(s, pat, rep);
        [w[0]] + (w[1..] + StrReplace(y, pat, rep));
        { assert w == [w[0]] + w[1..]; }
        w + StrReplace(y, pat, rep);
      }
    }
  }

  /** A pattern placed anywhere in a string is found there. */
  lemma {:induction false} ContainsPlaced(x: string, pat: string, y: string)
    ensures Contains(x + pat + y, pat)
  {
    var s := x + pat + y;
    if x == [] {
      assert s[..|pat|] == pat;
    } else {
      ContainsPlaced(x[1..], pat, y);
      assert s[1..] == x[1..] + pat + y;
    }
  }

  /** Where the first occurrence starts: the substring `strstr` returns
      begins there. */
  function Position(s: string, pat: string): (i: nat)
    requires Contains(s, pat)
    ensures i + |pat| <= |s| && s[i..i + |pat|] == pat
    decreases |s|
  {
    if s[..|pat|] == pat then 0
    else
      var k := Position(s[1..], pat);
      assert s[1..][k..k + |pat|] == s[k + 1..k + 1 + |pat|];
      k + 1
  }

  /** Conversely, a string that contains the pattern is some text, the
      pattern, and more text. */
  lemma ContainsAt(s: string, pat: string)
    requires Contains(s, pat)
    ensures exists x, y :: s == x + pat + y
  {
    var i := Position(s, pat);
    assert s == s[..i] + pat + s[i + |pat|..];
  }

  /** `strstr` finds the pattern exactly when the string is some text, the
      pattern, and more text. */
  lemma ContainsIff(s: string, pat: string)
    ensures Contains(s, pat) <==> exists x, y :: s == x + pat + y
  {
    if Contains(s, pat) {
      ContainsAt(s, pat);
    }
    if exists x, y :: s == x + pat + y {
      var x, y :| s == x + pat + y;
      ContainsPlaced(x, pat, y);
    }
  }

  /** Decimal numbers contain no braces. */
  lemma DecimalNoBrace(n: nat)
    ensures NoBrace(DecimalString(n))
  {
  }
}
