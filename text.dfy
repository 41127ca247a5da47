/** The string operations the dashboards rely on: `String.prototype.trim` and
    the decimal rendering of an integer id (`Number.prototype.toString`). */
module Text {

  /** The characters JavaScript's `trim` strips: the ECMAScript WhiteSpace and
      LineTerminator code points. */
  predicate IsSpace(c: char)
  {
    c == ' ' || c == '\t' || c == '\n' || c == '\r' || c == '\U{000B}' || c == '\U{000C}'
    || c == '\U{00A0}' || c == '\U{1680}' || ('\U{2000}' <= c <= '\U{200A}')
    || c == '\U{2028}' || c == '\U{2029}' || c == '\U{202F}' || c == '\U{205F}'
    || c == '\U{3000}' || c == '\U{FEFF}'
  }

  /** `s` without its leading white space. */
  function TrimStart(s: string): (r: string)
    ensures |r| <= |s| && r == s[|s| - |r|..]
    ensures forall i :: 0 <= i < |s| - |r| ==> IsSpace(s[i])
    ensures r == [] || !IsSpace(r[0])
  {
    if s != [] && IsSpace(s[0]) then TrimStart(s[1..]) else s
  }

  /** `s` without its trailing white space. */
  function TrimEnd(s: string): (r: string)
    ensures |r| <= |s| && r == s[..|r|]
    ensures forall i :: |r| <= i < |s| ==> IsSpace(s[i])
    ensures r == [] || !IsSpace(r[|r| - 1])
  {
    if s != [] && IsSpace(s[|s| - 1]) then TrimEnd(s[..|s| - 1]) else s
  }

  /** Number of white-space characters `trim` strips from the front of `s`. */
  function LeadingSpaces(s: string): nat
  {
    |s| - |TrimStart(s)|
  }

  /** `s.trim()`: white space stripped from both ends. */
  function Trim(s: string): (r: string)
    ensures |r| <= |s|
    ensures r != [] ==> !IsSpace(r[0]) && !IsSpace(r[|r| - 1])
  {
    var t := TrimStart(s);
    var r := TrimEnd(t);
    assert r != [] ==> r[0] == t[0];
    r
  }

  /** `!s.trim()`: nothing but white space. */
  predicate IsBlank(s: string)
  {
    forall i :: 0 <= i < |s| ==> IsSpace(s[i])
  }

  /** A prefix of a suffix of `s` is a slice of `s`. */
  lemma PrefixOfSuffix(s: string, l: nat, t: string, r: string)
    requires l <= |s| && t == s[l..] && |r| <= |t| && r == t[..|r|]
    ensures l + |r| <= |s| && forall i :: 0 <= i < |r| ==> r[i] == s[l + i]
  {
  }

  /** Trimming keeps a contiguous slice of `s`, starting after its leading
      white space, and strips only white space before and after it. */
  lemma TrimSlice(s: string)
    ensures var r, l := Trim(s), LeadingSpaces(s);
      l + |r| <= |s| && forall i :: 0 <= i < |r| ==> r[i] == s[l + i]
    ensures var r, l := Trim(s), LeadingSpaces(s);
      (forall i :: 0 <= i < l ==> IsSpace(s[i])) &&
      (forall i :: l + |r| <= i < |s| ==> IsSpace(s[i]))
  {
    PrefixOfSuffix(s, LeadingSpaces(s), TrimStart(s), Trim(s));
    TrimStrips(s);
  }

  /** What trimming strips on either side of that slice is white space. */
  lemma TrimStrips(s: string)
    ensures var r, l := Trim(s), LeadingSpaces(s);
      (forall i :: 0 <= i < l ==> IsSpace(s[i])) &&
      (forall i :: l + |r| <= i < |s| ==> IsSpace(s[i]))
  {
    var t := TrimStart(s);
    var l := |s| - |t|;
    var r := TrimEnd(t);
    forall i | l + |r| <= i < |s|
      ensures IsSpace(s[i])
    {
      assert t == s[l..];
      assert s[i] == t[i - l];
    }
  }

  /** Trimming leaves the empty string exactly when `s` is blank, and otherwise
      a string that starts and ends with a non-space. */
  lemma TrimBlank(s: string)
    ensures Trim(s) == [] <==> IsBlank(s)
    ensures Trim(s) != [] ==> !IsSpace(Trim(s)[0]) && !IsSpace(Trim(s)[|Trim(s)| - 1])
  {
    TrimSlice(s);
    TrimStrips(s);
  }

  function DigitChar(d: nat): (c: char)
    requires d < 10
    ensures '0' <= c <= '9'
  {
    "0123456789"[d]
  }

  /** Decimal digits of a natural number, most significant first. */
  function Digits(n: nat): (r: string)
    ensures |r| >= 1
    ensures forall i :: 0 <= i < |r| ==> '0' <= r[i] <= '9'
  {
    if n < 10 then [DigitChar(n)] else Digits(n / 10) + [DigitChar(n % 10)]
  }

  /** `n.toString()` for an integer id: an optional minus sign and the digits.
      It never starts or ends with white space, so trimming leaves it whole. */
  function DecimalText(n: int): (r: string)
    ensures r != [] && Trim(r) == r && !IsBlank(r)
  {
    var r := if n < 0 then "-" + Digits(-n) else Digits(n);
    assert !IsSpace(r[0]) && !IsSpace(r[|r| - 1]);
    assert TrimStart(r) == r;
    assert TrimEnd(r) == r;
    r
  }
}
