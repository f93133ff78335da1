/** Character classes and string helpers shared by the extension and the server model.
    Case folding and the character classes are restricted to ASCII. */
module Text {

  /** ASCII part of String.prototype.toLowerCase / Python's case-insensitive compare. */
  function LowerChar(c: char): char
  {
    if 'A' <= c <= 'Z' then (c as int + 32) as char else c
  }

  function ToLower(s: string): (r: string)
    ensures |r| == |s|
    ensures forall i :: 0 <= i < |s| ==> r[i] == LowerChar(s[i])
  {
    seq(|s|, i requires 0 <= i < |s| => LowerChar(s[i]))
  }

  /** Case-insensitive equality, as used by re.IGNORECASE on literal text. */
  predicate EqualsIgnoreCase(a: string, b: string)
  {
    ToLower(a) == ToLower(b)
  }

  /** Whitespace removed by String.prototype.trim (ASCII part: TAB, LF, VT, FF, CR, SPACE). */
  predicate IsJsSpace(c: char)
  {
    c == ' ' || '\t' <= c <= '\r'
  }

  /** Characters matched by Python's \s and split on by str.split() (ASCII part:
      TAB..CR, the four information separators 0x1C..0x1F, SPACE). */
  predicate IsPySpace(c: char)
  {
    c == ' ' || '\t' <= c <= '\r' || '\U{1C}' <= c <= '\U{1F}'
  }

  /** Characters matched by Python's \w (ASCII part). */
  predicate IsWordChar(c: char)
  {
    'a' <= c <= 'z' || 'A' <= c <= 'Z' || '0' <= c <= '9' || c == '_'
  }

  predicate OccursAt(s: string, sub: string, i: int)
  {
    0 <= i <= |s| - |sub| && s[i..i + |sub|] == sub
  }

  /** String.prototype.includes. */
  predicate Contains(s: string, sub: string)
  {
    exists i | 0 <= i <= |s| - |sub| :: OccursAt(s, sub, i)
  }

  /** A string that lacks the first character of sub cannot contain sub. */
  lemma NotContainsWithoutFirstChar(s: string, sub: string)
    requires |sub| > 0 && sub[0] !in s
    ensures !Contains(s, sub)
  {
    forall i | 0 <= i <= |s| - |sub|
      ensures !OccursAt(s, sub, i)
    {
      assert s[i..i + |sub|][0] == s[i];
    }
  }

  /** When the prefix p lacks the first character of sub, an occurrence of sub in
      p + t lies inside t. */
  lemma ContainsInSuffix(p: string, t: string, sub: string)
    requires |sub| > 0 && sub[0] !in p
    requires Contains(p + t, sub)
    ensures Contains(t, sub)
  {
    var s := p + t;
    var i :| 0 <= i <= |s| - |sub| && OccursAt(s, sub, i);
    assert s[i..i + |sub|][0] == s[i];
    assert forall k :: 0 <= k < |p| ==> s[k] == p[k];
    assert s[i..i + |sub|] == t[i - |p|..i - |p| + |sub|];
    assert OccursAt(t, sub, i - |p|);
  }

  function DigitChar(d: nat): char
    requires d < 10
  {
    "0123456789"[d]
  }

  /** Decimal rendering of a non-negative integer, as String(n) gives it. */
  function NatToString(n: nat): (r: string)
    ensures |r| > 0
    ensures forall i :: 0 <= i < |r| ==> '0' <= r[i] <= '9'
    decreases n
  {
    if n < 10 then [DigitChar(n)] else NatToString(n / 10) + [DigitChar(n % 10)]
  }
}
