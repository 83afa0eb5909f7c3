/** The notions of Python's `str` that the components rely on. */
module PythonText {
  /** `str.isspace` for one character. */
  predicate IsSpace(c: char) {
    var n := c as int;
    || 0x09 <= n <= 0x0D || 0x1C <= n <= 0x20 || n == 0x85 || n == 0xA0 || n == 0x1680
    || 0x2000 <= n <= 0x200A || n == 0x2028 || n == 0x2029 || n == 0x202F || n == 0x205F || n == 0x3000
  }

  /** `not s.strip()`. */
  predicate Blank(s: string) { forall c | c in s :: IsSpace(c) }

  function StripLeft(s: string): string {
    if |s| > 0 && IsSpace(s[0]) then StripLeft(s[1..]) else s
  }

  function StripRight(s: string): string {
    if |s| > 0 && IsSpace(s[|s| - 1]) then StripRight(s[..|s| - 1]) else s
  }

  /** `s.strip()`. */
  function Strip(s: string): string { StripRight(StripLeft(s)) }

  predicate Stripped(s: string) { |s| > 0 ==> !IsSpace(s[0]) && !IsSpace(s[|s| - 1]) }

  lemma {:induction false} StripLeftStrips(s: string)
    ensures |StripLeft(s)| <= |s| && (|StripLeft(s)| > 0 ==> !IsSpace(StripLeft(s)[0]))
    ensures StripLeft(s) == "" <==> Blank(s)
  {
    if |s| > 0 && IsSpace(s[0]) {
      StripLeftStrips(s[1..]);
      assert s == [s[0]] + s[1..];
    } else if |s| > 0 {
      assert s[0] in s;
    }
  }

  lemma {:induction false} StripRightStrips(s: string)
    ensures |StripRight(s)| <= |s| && StripRight(s) == s[..|StripRight(s)|]
    ensures |StripRight(s)| > 0 ==> !IsSpace(StripRight(s)[|StripRight(s)| - 1])
    ensures |s| > 0 && !IsSpace(s[0]) ==> |StripRight(s)| > 0
  {
    if |s| > 0 && IsSpace(s[|s| - 1]) {
      StripRightStrips(s[..|s| - 1]);
    }
  }

  /** Stripping removes the spaces at both ends, and everything exactly when the text is blank. */
  lemma StripStrips(s: string)
    ensures Stripped(Strip(s)) && |Strip(s)| <= |s|
    ensures Strip(s) == "" <==> Blank(s)
  {
    StripLeftStrips(s);
    StripRightStrips(StripLeft(s));
  }

  lemma StrippedIsFixed(s: string)
    requires Stripped(s)
    ensures Strip(s) == s
  {
  }

  predicate LowerHex(c: char) { '0' <= c <= '9' || 'a' <= c <= 'f' }

  /** A lowercase SHA-256 digest. */
  predicate IsDigest(s: string) { |s| == 64 && forall c | c in s :: LowerHex(c) }
}
