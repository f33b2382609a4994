/**
 * The few Python 2 `str` operations the generator relies on: `lower()`,
 * `strip()` and `'%i' % n`, written out over `seq<char>`.
 */
module Text {
  import opened Base

  // ---------------------------------------------------------------- lower()

  /** Python 2 `str.lower()` on one character: only ASCII capitals change. */
  function LowerChar(ch: char): (r: char)
  {
    if 'A' <= ch <= 'Z' then (ch as int - 'A' as int + 'a' as int) as char else ch
  }

  function Lower(s: string): (r: string)
    ensures |r| == |s|
    ensures forall i :: 0 <= i < |s| ==> r[i] == LowerChar(s[i])
  {
    if |s| == 0 then "" else [LowerChar(s[0])] + Lower(s[1..])
  }

  /** Lowering twice is lowering once, so a lowered tag compares like its original. */
  lemma LowerIdempotent(s: string)
    ensures Lower(Lower(s)) == Lower(s)
  {
    assert forall i :: 0 <= i < |s| ==> LowerChar(LowerChar(s[i])) == LowerChar(s[i]);
  }

  // ---------------------------------------------------------------- strip()

  /**
   * The characters Python 2 `unicode.strip()` removes by default: those
   * `unicode.isspace()` accepts, i.e. of Unicode 5.2 category Zs or of
   * bidirectional class WS, B or S. The realiser's text is a Java string,
   * which arrives as `unicode`.
   */
  predicate IsSpace(ch: char)
  {
    ch in UnicodeSpaces
  }

  const UnicodeSpaces: set<char> := {
    '\t', '\n', '\U{B}', '\U{C}', '\r', '\U{1C}', '\U{1D}', '\U{1E}', '\U{1F}', ' ',
    '\U{85}', '\U{A0}', '\U{1680}', '\U{180E}',
    '\U{2000}', '\U{2001}', '\U{2002}', '\U{2003}', '\U{2004}', '\U{2005}',
    '\U{2006}', '\U{2007}', '\U{2008}', '\U{2009}', '\U{200A}',
    '\U{2028}', '\U{2029}', '\U{202F}', '\U{205F}', '\U{3000}'
  }

  predicate AllSpace(s: string)
  {
    forall i :: 0 <= i < |s| ==> IsSpace(s[i])
  }

  /** Length of the run of whitespace that opens `s`. */
  function LeadingSpaces(s: string): (n: nat)
    ensures n <= |s|
    ensures AllSpace(s[..n])
    ensures n < |s| ==> !IsSpace(s[n])
  {
    if |s| > 0 && IsSpace(s[0]) then 1 + LeadingSpaces(s[1..]) else 0
  }

  /** Length of the run of whitespace that closes `s`. */
  function TrailingSpaces(s: string): (n: nat)
    ensures n <= |s|
    ensures AllSpace(s[|s| - n..])
    ensures n < |s| ==> !IsSpace(s[|s| - n - 1])
  {
    if |s| > 0 && IsSpace(s[|s| - 1]) then 1 + TrailingSpaces(s[..|s| - 1]) else 0
  }

  /** `s` with its leading and trailing whitespace runs cut off. */
  function Trimmed(s: string): (r: string)
  {
    var t := s[LeadingSpaces(s)..];
    t[..|t| - TrailingSpaces(t)]
  }

  /** The trimmed text is the slice of `s` after its leading run. */
  lemma TrimmedSlice(s: string)
    ensures var r, i := Trimmed(s), LeadingSpaces(s); 0 <= i <= |s| - |r| && r == s[i..i + |r|]
  {
    var i := LeadingSpaces(s);
    var t := s[i..];
    var r := t[..|t| - TrailingSpaces(t)];
    assert r == s[i..i + |r|];
  }

  /** Neither end of the trimmed text is whitespace. */
  lemma TrimmedEnds(s: string)
    ensures var r := Trimmed(s); |r| > 0 ==> !IsSpace(r[0]) && !IsSpace(r[|r| - 1])
  {
    var t := s[LeadingSpaces(s)..];
    var j := TrailingSpaces(t);
    var r := t[..|t| - j];
    if |r| > 0 {
      assert r[0] == t[0];
      assert r[|r| - 1] == t[|t| - j - 1];
    }
  }

  /** What the trimming cuts off on the right is whitespace. */
  lemma TrimmedTail(s: string)
    ensures var r, i := Trimmed(s), LeadingSpaces(s); i + |r| <= |s| && AllSpace(s[i + |r|..])
  {
    var i := LeadingSpaces(s);
    var t := s[i..];
    var j := TrailingSpaces(t);
    assert s[i + (|t| - j)..] == t[|t| - j..];
  }

  lemma TrimmedShape(s: string)
    ensures var r := Trimmed(s);
      && (|r| > 0 ==> !IsSpace(r[0]) && !IsSpace(r[|r| - 1]))
      && var i := LeadingSpaces(s);
         0 <= i <= |s| - |r| && r == s[i..i + |r|] && AllSpace(s[..i]) && AllSpace(s[i + |r|..])
  {
    TrimmedSlice(s);
    TrimmedEnds(s);
    TrimmedTail(s);
  }

  /**
   * Python 2's `s.strip()` on `unicode` text: `s` is whitespace, then the result, then whitespace,
   * and the result neither starts nor ends with whitespace.
   */
  function Strip(s: string): (r: string)
    ensures |r| > 0 ==> !IsSpace(r[0]) && !IsSpace(r[|r| - 1])
    ensures exists i :: 0 <= i <= |s| - |r| && r == s[i..i + |r|] && AllSpace(s[..i]) && AllSpace(s[i + |r|..])
  {
    TrimmedShape(s);
    var r := Trimmed(s);
    assert var i := LeadingSpaces(s);
      0 <= i <= |s| - |r| && r == s[i..i + |r|] && AllSpace(s[..i]) && AllSpace(s[i + |r|..]);
    r
  }

  /** A no-break space before and an ideographic space after the text are stripped. */
  lemma NoBreakSpacesStripped()
    ensures Strip("\U{A0}x\U{3000}") == "x"
  {
    var s := "\U{A0}x\U{3000}";
    assert LeadingSpaces(s[1..]) == 0;
    assert LeadingSpaces(s) == 1;
    var t := s[1..];
    assert t[..1] == "x";
    assert TrailingSpaces(t[..1]) == 0;
    assert TrailingSpaces(t) == 1;
  }

  /** A leading line separator and a trailing newline are stripped. */
  lemma LineSeparatorStripped()
    ensures Strip("\U{2028}x\n") == "x"
  {
    var s := "\U{2028}x\n";
    assert LeadingSpaces(s[1..]) == 0;
    assert LeadingSpaces(s) == 1;
    var t := s[1..];
    assert t[..1] == "x";
    assert TrailingSpaces(t[..1]) == 0;
    assert TrailingSpaces(t) == 1;
  }

  // ---------------------------------------------------------------- '%i' % n

  function DigitChar(d: nat): (r: char)
    requires d < 10
  {
    "0123456789"[d]
  }

  predicate IsDigit(ch: char)
  {
    '0' <= ch <= '9'
  }

  function DigitValue(ch: char): (r: nat)
    requires IsDigit(ch)
  {
    ch as int - '0' as int
  }

  /** The decimal digits of `n`, most significant first, without leading zeros. */
  function NatDigits(n: nat): (r: string)
    ensures |r| > 0
    ensures forall i :: 0 <= i < |r| ==> IsDigit(r[i])
    ensures |r| > 1 ==> r[0] != '0'
  {
    if n < 10 then [DigitChar(n)] else NatDigits(n / 10) + [DigitChar(n % 10)]
  }

  /** Python's `'%i' % n` for an integer `n`: a minus sign for negatives, then the digits. */
  function DecimalString(n: int): (r: string)
    ensures |r| > 0
    ensures n < 0 <==> r[0] == '-'
  {
    if n < 0 then "-" + NatDigits(-n) else NatDigits(n)
  }

  /** Reads back a non-empty run of decimal digits. */
  function ParseNat(s: string): (r: Option<nat>)
    ensures r.Some? <==> |s| > 0 && forall i :: 0 <= i < |s| ==> IsDigit(s[i])
  {
    if |s| == 0 || !IsDigit(s[|s| - 1]) then None
    else if |s| == 1 then Some(DigitValue(s[0]))
    else match ParseNat(s[..|s| - 1])
      case None => None
      case Some(v) => Some(10 * v + DigitValue(s[|s| - 1]))
  }

  /** Reads back what `DecimalString` writes: an optional minus sign and digits. */
  function ParseDecimal(s: string): (r: Option<int>)
  {
    if |s| > 0 && s[0] == '-' then
      match ParseNat(s[1..])
      case None => None
      case Some(v) => Some(0 - v as int)
    else
      match ParseNat(s)
      case None => None
      case Some(v) => Some(v as int)
  }

  lemma {:induction false} ParseNatDigits(n: nat)
    ensures ParseNat(NatDigits(n)) == Some(n)
  {
    if n >= 10 {
      var s := NatDigits(n);
      assert s[..|s| - 1] == NatDigits(n / 10);
      ParseNatDigits(n / 10);
      assert DigitValue(DigitChar(n % 10)) == n % 10;
    } else {
      assert DigitValue(DigitChar(n)) == n;
    }
  }

  /** `'%i'` formatting loses nothing: the integer can be read back. */
  lemma DecimalRoundTrip(n: int)
    ensures ParseDecimal(DecimalString(n)) == Some(n)
  {
    var s := DecimalString(n);
    if n < 0 {
      ParseNatDigits(-n);
      assert s == "-" + NatDigits(-n);
      assert s[1..] == NatDigits(-n);
      assert ParseDecimal(s) == Some(0 - (-n));
    } else {
      ParseNatDigits(n);
      assert s == NatDigits(n);
      assert IsDigit(s[0]);
      assert ParseDecimal(s) == Some(n);
    }
  }

  /** Distinct integers are formatted differently. */
  lemma DecimalInjective(m: int, n: int)
    ensures DecimalString(m) == DecimalString(n) ==> m == n
  {
    DecimalRoundTrip(m);
    DecimalRoundTrip(n);
  }
}
