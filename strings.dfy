/** The string operations the core relies on: joining a directory and a relative path
    (Go's path.Join on two elements), rendering a counter in decimal (Go's strconv.Itoa,
    Rust's format!("{}")) and JavaScript's String.prototype.trim. */
module Strings {

  // ------------------------------------------------------------------------------------
  //  Paths
  // ------------------------------------------------------------------------------------

  /** path.Join(dir, rel): empty elements are dropped, the rest joined with one slash.
      (Lexical cleaning of "." , ".." and doubled slashes is not modelled.) */
  function Join(dir: string, rel: string): (p: string)
    ensures dir != "" && rel != "" ==> |p| == |dir| + 1 + |rel| && p[..|dir|] == dir && p[|dir|] == '/'
    ensures dir == "" ==> p == rel
    ensures rel == "" ==> p == dir
  {
    if dir == "" then rel
    else if rel == "" then dir
    else dir + "/" + rel
  }

  /** The part of a joined path after the directory: the inverse of Join(dir, _). */
  function RelativeTo(dir: string, p: string): string
  {
    if dir == "" then p
    else if |p| > |dir| then p[|dir| + 1..]
    else ""
  }

  lemma JoinRelativeRoundTrip(dir: string, rel: string)
    ensures RelativeTo(dir, Join(dir, rel)) == rel
  {
    if dir != "" && rel != "" {
      assert (dir + "/" + rel)[|dir| + 1..] == rel;
    }
  }

  /** Distinct relative paths under the same directory give distinct joined paths. */
  lemma JoinInjective(dir: string, x: string, y: string)
    requires Join(dir, x) == Join(dir, y)
    ensures x == y
  {
    JoinRelativeRoundTrip(dir, x);
    JoinRelativeRoundTrip(dir, y);
  }

  // ------------------------------------------------------------------------------------
  //  Decimal rendering of a counter
  // ------------------------------------------------------------------------------------

  predicate IsDigit(c: char) { '0' <= c <= '9' }

  function DigitChar(d: nat): (c: char)
    requires d < 10
    ensures IsDigit(c)
  {
    ['0', '1', '2', '3', '4', '5', '6', '7', '8', '9'][d]
  }

  function DigitValue(c: char): (d: nat)
    requires IsDigit(c)
    ensures d < 10
  {
    (c as int - '0' as int) as nat
  }

  /** strconv.Itoa on a non-negative int: no sign, no leading zeros, "0" for zero. */
  function NatToString(n: nat): (s: string)
    decreases n
  {
    if n < 10 then [DigitChar(n)]
    else NatToString(n / 10) + [DigitChar(n % 10)]
  }

  predicate AllDigits(s: string) { forall i | 0 <= i < |s| :: IsDigit(s[i]) }

  /** Reads a string of decimal digits back as a number. */
  function ParseDecimal(s: string): nat
    requires AllDigits(s)
    decreases |s|
  {
    if s == [] then 0
    else ParseDecimal(s[..|s| - 1]) * 10 + DigitValue(s[|s| - 1])
  }

  lemma {:induction false} NatToStringDigits(n: nat)
    ensures NatToString(n) != [] && AllDigits(NatToString(n))
    ensures n >= 10 ==> NatToString(n)[0] != '0'
    decreases n
  {
    if n >= 10 {
      NatToStringDigits(n / 10);
    }
  }

  lemma DigitRoundTrip(d: nat)
    requires d < 10
    ensures DigitValue(DigitChar(d)) == d
  {
  }

  /** Parsing the rendering of n gives n back. */
  lemma {:induction false} NatToStringRoundTrip(n: nat)
    ensures AllDigits(NatToString(n))
    ensures ParseDecimal(NatToString(n)) == n
    decreases n
  {
    NatToStringDigits(n);
    var s := NatToString(n);
    if n < 10 {
      DigitRoundTrip(n);
      assert s[..|s| - 1] == [];
    } else {
      NatToStringRoundTrip(n / 10);
      DigitRoundTrip(n % 10);
      assert s[..|s| - 1] == NatToString(n / 10);
    }
  }

  /** Distinct counters render to distinct strings. */
  lemma NatToStringInjective(a: nat, b: nat)
    requires NatToString(a) == NatToString(b)
    ensures a == b
  {
    NatToStringRoundTrip(a);
    NatToStringRoundTrip(b);
  }

  /** A fixed prefix followed by a rendered counter is injective in the counter. */
  lemma PrefixedNatInjective(prefix: string, a: nat, b: nat)
    requires prefix + NatToString(a) == prefix + NatToString(b)
    ensures a == b
  {
    assert NatToString(a) == (prefix + NatToString(a))[|prefix|..];
    assert NatToString(b) == (prefix + NatToString(b))[|prefix|..];
    NatToStringInjective(a, b);
  }

  // ------------------------------------------------------------------------------------
  //  JavaScript String.prototype.trim
  // ------------------------------------------------------------------------------------

  /** ECMAScript WhiteSpace and LineTerminator code points, the set trim() removes. */
  predicate IsJsWhitespace(c: char)
  {
    c == '\t' || c == '\n' || c == '\U{B}' || c == '\U{C}' || c == '\r' || c == ' '
    || c == '\U{A0}' || c == '\U{1680}' || ('\U{2000}' <= c <= '\U{200A}')
    || c == '\U{2028}' || c == '\U{2029}' || c == '\U{202F}' || c == '\U{205F}'
    || c == '\U{3000}' || c == '\U{FEFF}'
  }

  predicate IsBlank(s: string) { forall i | 0 <= i < |s| :: IsJsWhitespace(s[i]) }

  function TrimStart(s: string): string
    decreases |s|
  {
    if s != [] && IsJsWhitespace(s[0]) then TrimStart(s[1..]) else s
  }

  function TrimEnd(s: string): string
    decreases |s|
  {
    if s != [] && IsJsWhitespace(s[|s| - 1]) then TrimEnd(s[..|s| - 1]) else s
  }

  function Trim(s: string): string
  {
    TrimEnd(TrimStart(s))
  }

  lemma {:induction false} TrimStartShape(s: string)
    ensures TrimStart(s) == [] <==> IsBlank(s)
    ensures TrimStart(s) != [] ==> !IsJsWhitespace(TrimStart(s)[0])
    decreases |s|
  {
    if s != [] && IsJsWhitespace(s[0]) {
      TrimStartShape(s[1..]);
      if IsBlank(s[1..]) {
        forall i | 0 <= i < |s| ensures IsJsWhitespace(s[i]) {
          if i > 0 { assert s[i] == s[1..][i - 1]; }
        }
      }
    }
  }

  lemma {:induction false} TrimEndShape(s: string)
    ensures |TrimEnd(s)| <= |s| && TrimEnd(s) == s[..|TrimEnd(s)|]
    ensures TrimEnd(s) == [] <==> IsBlank(s)
    ensures TrimEnd(s) != [] ==> !IsJsWhitespace(TrimEnd(s)[|TrimEnd(s)| - 1])
    decreases |s|
  {
    if s != [] && IsJsWhitespace(s[|s| - 1]) {
      var t := s[..|s| - 1];
      TrimEndShape(t);
      assert t[..|TrimEnd(t)|] == s[..|TrimEnd(t)|];
      if IsBlank(t) {
        forall i | 0 <= i < |s| ensures IsJsWhitespace(s[i]) {
          if i < |s| - 1 { assert s[i] == t[i]; }
        }
      } else {
        var i :| 0 <= i < |t| && !IsJsWhitespace(t[i]);
        assert s[i] == t[i];
      }
    }
  }

  /** trim() yields "" exactly when every character is whitespace. */
  lemma TrimEmptyIffBlank(s: string)
    ensures Trim(s) == "" <==> IsBlank(s)
  {
    TrimStartShape(s);
    var t := TrimStart(s);
    TrimEndShape(t);
    if t != [] {
      assert !IsJsWhitespace(t[0]);
      assert !IsBlank(t);
    }
  }
}
