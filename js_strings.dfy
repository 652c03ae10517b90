/** JavaScript's `String.prototype.trim`, on which every emptiness check of
    the chat service, the reply generator and the validation middleware rests.
    `trim` removes leading and trailing characters of the ECMAScript
    WhiteSpace and LineTerminator classes. */
module JsStrings {

  /** ECMAScript WhiteSpace (tab, vertical tab, form feed, space, no-break
      space, byte order mark and the Unicode space separators) and
      LineTerminator (line feed, carriage return, line and paragraph
      separators). */
  predicate IsWhitespace(c: char) {
    var n := c as int;
    || n == 0x09 || n == 0x0B || n == 0x0C || n == 0x20
    || n == 0xA0 || n == 0xFEFF
    || n == 0x1680 || (0x2000 <= n <= 0x200A)
    || n == 0x202F || n == 0x205F || n == 0x3000
    || n == 0x0A || n == 0x0D || n == 0x2028 || n == 0x2029
  }

  /** Every character of `s` from index `lo` up to (not including) `hi` is
      whitespace. */
  predicate WhitespaceBetween(s: string, lo: int, hi: int)
    requires 0 <= lo <= hi <= |s|
  {
    forall i :: lo <= i < hi ==> IsWhitespace(s[i])
  }

  predicate AllWhitespace(s: string) {
    WhitespaceBetween(s, 0, |s|)
  }

  /** Drops the leading whitespace: the result is a suffix of `s`, what was
      dropped is all whitespace, and what is left does not start with it. */
  function TrimStart(s: string): (r: string)
    ensures |r| <= |s| && r == s[|s| - |r|..]
    ensures WhitespaceBetween(s, 0, |s| - |r|)
    ensures r != [] ==> !IsWhitespace(r[0])
  {
    if s != [] && IsWhitespace(s[0]) then TrimStart(s[1..]) else s
  }

  /** Drops the trailing whitespace: the result is a prefix of `s`, what was
      dropped is all whitespace, and what is left does not end with it. */
  function TrimEnd(s: string): (r: string)
    ensures |r| <= |s| && r == s[..|r|]
    ensures WhitespaceBetween(s, |r|, |s|)
    ensures r != [] ==> !IsWhitespace(r[|r| - 1])
  {
    if s != [] && IsWhitespace(s[|s| - 1]) then TrimEnd(s[..|s| - 1]) else s
  }

  /** `s.trim()`: the part of `s` between its leading and its trailing
      whitespace, which are both dropped. */
  function Trim(s: string): (r: string)
    ensures |r| <= |s|
    ensures var a := |s| - |TrimStart(s)|;
      && a + |r| <= |s| && r == s[a..a + |r|]
      && WhitespaceBetween(s, 0, a) && WhitespaceBetween(s, a + |r|, |s|)
    ensures r != [] ==> !IsWhitespace(r[0]) && !IsWhitespace(r[|r| - 1])
  {
    var t := TrimStart(s);
    var r := TrimEnd(t);
    PrefixOfSuffix(s, t, r);
    r
  }

  /** A prefix `r` of a suffix `t` of `s` is a slice of `s`, and whitespace
      after `r` in `t` is whitespace after it in `s`. */
  lemma PrefixOfSuffix(s: string, t: string, r: string)
    requires |t| <= |s| && t == s[|s| - |t|..]
    requires |r| <= |t| && r == t[..|r|]
    requires WhitespaceBetween(t, |r|, |t|)
    ensures var a := |s| - |t|;
      && r == s[a..a + |r|]
      && WhitespaceBetween(s, a + |r|, |s|)
  {
    var a := |s| - |t|;
    forall i | a + |r| <= i < |s| ensures IsWhitespace(s[i]) {
      assert s[i] == t[i - a];
    }
  }

  /** JavaScript's `!s.trim()`: the trimmed string is empty (falsy). */
  predicate IsBlank(s: string) {
    Trim(s) == ""
  }

  /** A string is blank exactly when every character in it is whitespace. */
  lemma BlankIffAllWhitespace(s: string)
    ensures IsBlank(s) <==> AllWhitespace(s)
  {
    var r := Trim(s);
    var a := |s| - |TrimStart(s)|;
    if r == [] {
      assert a == |s| && s[..a] == s;
    }
  }

  /** A string whose first character is visible is not blank; every fixed
      reply text of the service is of this kind. */
  lemma VisibleFirstCharNotBlank(s: string)
    requires s != [] && !IsWhitespace(s[0])
    ensures !IsBlank(s)
  {
    BlankIffAllWhitespace(s);
  }

  /** Trimming twice is trimming once. */
  lemma TrimIdempotent(s: string)
    ensures Trim(Trim(s)) == Trim(s)
  {
    var r := Trim(s);
    if r != [] {
      assert TrimStart(r) == r;
      assert TrimEnd(r) == r;
    }
  }

  /** The trimmed text of a non-blank string is itself non-blank. */
  lemma TrimOfNonBlankIsNonBlank(s: string)
    requires !IsBlank(s)
    ensures Trim(s) != "" && !IsBlank(Trim(s))
  {
    TrimIdempotent(s);
  }

  /** Trailing whitespace never changes the trimmed text, so a string can be
      arbitrarily long while its trimmed text stays short. */
  lemma {:induction false} TrimIgnoresTrailingWhitespace(s: string, pad: string)
    requires AllWhitespace(pad)
    ensures Trim(s + pad) == Trim(s)
    decreases |s|
  {
    if s != [] && IsWhitespace(s[0]) {
      assert (s + pad)[1..] == s[1..] + pad;
      TrimIgnoresTrailingWhitespace(s[1..], pad);
    } else if s != [] {
      TrimEndIgnoresTrailingWhitespace(s, pad);
    } else {
      assert s + pad == pad;
      BlankIffAllWhitespace(pad);
    }
  }

  lemma {:induction false} TrimEndIgnoresTrailingWhitespace(s: string, pad: string)
    requires AllWhitespace(pad)
    ensures TrimEnd(s + pad) == TrimEnd(s)
    decreases |pad|
  {
    if pad != [] {
      var shorter := pad[..|pad| - 1];
      assert (s + pad)[..|s + pad| - 1] == s + shorter;
      TrimEndIgnoresTrailingWhitespace(s, shorter);
    } else {
      assert s + pad == s;
    }
  }
}
