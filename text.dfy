/**
 * String semantics the validators rely on: JavaScript's whitespace set (what
 * `\s` matches and what `String.prototype.trim` strips), `trim` itself, and the
 * regular expressions of the form pages written out as predicates over
 * sequences of characters.
 */
module Text {

  /** A JavaScript WhiteSpace or LineTerminator code point. */
  predicate IsSpace(c: char) {
    || c == '\t' || c == '\n' || c == '\U{B}' || c == '\U{C}' || c == '\r'
    || c == ' ' || c == '\U{A0}' || c == '\U{1680}'
    || ('\U{2000}' <= c <= '\U{200A}')
    || c == '\U{2028}' || c == '\U{2029}' || c == '\U{202F}' || c == '\U{205F}'
    || c == '\U{3000}' || c == '\U{FEFF}'
  }

  /** A LineTerminator: the characters a regular expression's `.` does not match. */
  predicate IsLineTerminator(c: char) {
    c == '\n' || c == '\r' || c == '\U{2028}' || c == '\U{2029}'
  }

  predicate IsAsciiLower(c: char) { 'a' <= c <= 'z' }
  predicate IsAsciiUpper(c: char) { 'A' <= c <= 'Z' }
  predicate IsAsciiDigit(c: char) { '0' <= c <= '9' }

  /** A character of `\w`, used by the word boundary `\b`. */
  predicate IsWordChar(c: char) {
    IsAsciiLower(c) || IsAsciiUpper(c) || IsAsciiDigit(c) || c == '_'
  }

  predicate AllSpace(s: string) {
    forall k :: 0 <= k < |s| ==> IsSpace(s[k])
  }

  predicate NoSpace(s: string) {
    forall k :: 0 <= k < |s| ==> !IsSpace(s[k])
  }

  predicate HasPrefix(s: string, prefix: string) {
    |prefix| <= |s| && s[..|prefix|] == prefix
  }

  // ---------------------------------------------------------------------------
  // trim

  /** `s` with its leading whitespace removed. */
  function TrimStart(s: string): (r: string)
    ensures |r| <= |s|
  {
    if s != [] && IsSpace(s[0]) then TrimStart(s[1..]) else s
  }

  /** `TrimStart` keeps a suffix that does not start with whitespace, and drops only whitespace. */
  lemma {:induction false} TrimStartDropsSpace(s: string)
    ensures |TrimStart(s)| <= |s| && TrimStart(s) == s[|s| - |TrimStart(s)|..]
    ensures TrimStart(s) == [] || !IsSpace(TrimStart(s)[0])
    ensures AllSpace(s[..|s| - |TrimStart(s)|])
  {
    if s != [] && IsSpace(s[0]) {
      TrimStartDropsSpace(s[1..]);
      assert s[1..][|s| - 1 - |TrimStart(s)|..] == s[|s| - |TrimStart(s)|..];
      var n := |s| - |TrimStart(s)|;
      forall k | 0 <= k < n ensures IsSpace(s[..n][k]) {
        if k > 0 {
          assert s[..n][k] == s[1..][..n - 1][k - 1];
        }
      }
    }
  }

  /** `s` with its trailing whitespace removed. */
  function TrimEnd(s: string): (r: string)
    ensures |r| <= |s|
  {
    if s != [] && IsSpace(s[|s| - 1]) then TrimEnd(s[..|s| - 1]) else s
  }

  /** `TrimEnd` keeps a prefix that does not end with whitespace, and drops only whitespace. */
  lemma {:induction false} TrimEndDropsSpace(s: string)
    ensures |TrimEnd(s)| <= |s| && TrimEnd(s) == s[..|TrimEnd(s)|]
    ensures TrimEnd(s) == [] || !IsSpace(TrimEnd(s)[|TrimEnd(s)| - 1])
    ensures AllSpace(s[|TrimEnd(s)|..])
  {
    if s != [] && IsSpace(s[|s| - 1]) {
      var t := s[..|s| - 1];
      TrimEndDropsSpace(t);
      assert t[..|TrimEnd(s)|] == s[..|TrimEnd(s)|];
      var m := |TrimEnd(s)|;
      forall k | 0 <= k < |s| - m ensures IsSpace(s[m..][k]) {
        if m + k < |s| - 1 {
          assert s[m..][k] == t[m..][k];
        }
      }
    }
  }

  /** `String.prototype.trim`: the whitespace at both ends removed. */
  function Trim(s: string): (r: string)
    ensures |r| <= |s|
  {
    TrimEnd(TrimStart(s))
  }

  /** What `trim()` keeps neither starts nor ends with whitespace. */
  lemma TrimEndsAreNotSpace(s: string)
    ensures Trim(s) == [] || (!IsSpace(Trim(s)[0]) && !IsSpace(Trim(s)[|Trim(s)| - 1]))
  {
    var a := TrimStart(s);
    TrimStartDropsSpace(s);
    TrimEndDropsSpace(a);
    if Trim(s) != [] {
      assert Trim(s)[0] == a[0];
    }
  }

  /** A trimmed string is a contiguous piece of the original, with only whitespace around it. */
  lemma {:induction false} TrimIsMiddle(s: string)
    ensures exists i :: 0 <= i && i + |Trim(s)| <= |s|
                        && Trim(s) == s[i..i + |Trim(s)|]
                        && AllSpace(s[..i]) && AllSpace(s[i + |Trim(s)|..])
  {
    var a := TrimStart(s);
    var r := TrimEnd(a);
    var i := |s| - |a|;
    TrimStartDropsSpace(s);
    TrimEndDropsSpace(a);
    assert a == s[i..];
    assert r == a[..|r|];
    assert r == s[i..i + |r|];
    assert s[i + |r|..] == a[|r|..];
    assert AllSpace(s[..i]) && AllSpace(s[i + |r|..]);
  }

  /** `trim()` yields the empty string exactly when the input is all whitespace. */
  lemma {:induction false} TrimEmptyIffAllSpace(s: string)
    ensures Trim(s) == [] <==> AllSpace(s)
  {
    var a := TrimStart(s);
    if Trim(s) == [] {
      TrimStartDropsSpace(s);
      TrimEndDropsSpace(a);
      assert s[..|s|] == s;
    } else {
      var r := Trim(s);
      TrimIsMiddle(s);
      TrimEndsAreNotSpace(s);
      var i :| 0 <= i && i + |r| <= |s| && r == s[i..i + |r|]
               && AllSpace(s[..i]) && AllSpace(s[i + |r|..]);
      assert s[i] == r[0];
    }
  }

  /** A string with no whitespace at either end is its own trim. */
  lemma {:induction false} TrimOfTrimmed(s: string)
    requires s == [] || (!IsSpace(s[0]) && !IsSpace(s[|s| - 1]))
    ensures Trim(s) == s
  {
    assert TrimStart(s) == s;
    if s != [] {
      assert TrimEnd(s) == s;
    }
  }

  /** Trimming twice is trimming once. */
  lemma TrimIdempotent(s: string)
    ensures Trim(Trim(s)) == Trim(s)
  {
    TrimEndsAreNotSpace(s);
    TrimOfTrimmed(Trim(s));
  }

  // ---------------------------------------------------------------------------
  // The email pattern `^[^\s@]+@[^\s@]+\.[^\s@]+$`

  /** A character of the class `[^\s@]`. */
  predicate IsEmailPartChar(c: char) {
    !IsSpace(c) && c != '@'
  }

  /** `[^\s@]+`: one or more characters of the class. */
  predicate IsEmailPart(t: string) {
    |t| > 0 && forall k :: 0 <= k < |t| ==> IsEmailPartChar(t[k])
  }

  /** The pattern read as a grammar: three parts joined by an `@` and a `.`. */
  ghost predicate EmailGrammar(s: string) {
    exists i, j :: 0 <= i < j < |s| && s[i] == '@' && s[j] == '.'
                   && IsEmailPart(s[..i]) && IsEmailPart(s[i + 1..j]) && IsEmailPart(s[j + 1..])
  }

  /** The index of the first `c` in `s`, or `|s|` when there is none. */
  function IndexOf(s: string, c: char): (i: nat)
    ensures i <= |s|
    ensures i < |s| ==> s[i] == c
    ensures forall k :: 0 <= k < i ==> s[k] != c
  {
    if s == [] then 0
    else if s[0] == c then 0
    else 1 + IndexOf(s[1..], c)
  }

  /**
   * The email pattern as the browser decides it, in one pass: no whitespace,
   * a single `@` that is not first, and a `.` with at least one character on
   * each side between the `@` and the end.
   */
  predicate MatchesEmailPattern(s: string) {
    var at := IndexOf(s, '@');
    && NoSpace(s)
    && 0 < at && at + 4 <= |s|
    && '@' !in s[at + 1..]
    && '.' in s[at + 2..|s| - 1]
  }

  /** Every string the one-pass check accepts has the grammar's shape. */
  lemma {:induction false} EmailPatternSound(s: string)
    requires MatchesEmailPattern(s)
    ensures EmailGrammar(s)
  {
    var at := IndexOf(s, '@');
    var t := s[at + 2..|s| - 1];
    var d :| 0 <= d < |t| && t[d] == '.';
    var j := at + 2 + d;
    assert s[j] == t[d];
    var tail := s[at + 1..];
    forall k | 0 <= k < |s| && k != at ensures IsEmailPartChar(s[k]) {
      if k > at {
        assert s[k] == tail[k - at - 1];
      }
    }
    assert IsEmailPart(s[..at]);
    assert IsEmailPart(s[at + 1..j]);
    assert IsEmailPart(s[j + 1..]);
  }

  /** Every string of the grammar's shape passes the one-pass check. */
  lemma {:induction false} EmailPatternComplete(s: string)
    requires EmailGrammar(s)
    ensures MatchesEmailPattern(s)
  {
    var i, j :| 0 <= i < j < |s| && s[i] == '@' && s[j] == '.'
                && IsEmailPart(s[..i]) && IsEmailPart(s[i + 1..j]) && IsEmailPart(s[j + 1..]);
    var before, middle, after := s[..i], s[i + 1..j], s[j + 1..];
    forall k | 0 <= k < |s| && k != i ensures IsEmailPartChar(s[k]) {
      if k < i {
        assert s[k] == before[k];
      } else if k < j {
        assert s[k] == middle[k - i - 1];
      } else if k > j {
        assert s[k] == after[k - j - 1];
      }
    }
    var at := IndexOf(s, '@');
    assert at == i;
    var tail := s[at + 1..];
    forall k | 0 <= k < |tail| ensures tail[k] != '@' {
      assert tail[k] == s[at + 1 + k];
    }
    var t := s[at + 2..|s| - 1];
    assert t[j - at - 2] == '.';
  }

  /** The one-pass check accepts exactly the strings the grammar describes. */
  lemma EmailPatternIsGrammar(s: string)
    ensures MatchesEmailPattern(s) <==> EmailGrammar(s)
  {
    if MatchesEmailPattern(s) { EmailPatternSound(s); }
    if EmailGrammar(s) { EmailPatternComplete(s); }
  }

  // ---------------------------------------------------------------------------
  // The password composition pattern `(?=.*[a-z])(?=.*[A-Z])(?=.*\d)`

  /** The three character classes the lookaheads look for. */
  datatype CharClass = Lower | Upper | Digit

  predicate InClass(c: char, cls: CharClass) {
    match cls
    case Lower => IsAsciiLower(c)
    case Upper => IsAsciiUpper(c)
    case Digit => IsAsciiDigit(c)
  }

  /**
   * `(?=.*X)` tried at position `p`: a character of the class occurs at or after
   * `p` with no line terminator before it, since `.` stops at line ends.
   */
  predicate LookaheadAt(s: string, p: nat, cls: CharClass) {
    exists k :: p <= k < |s| && InClass(s[k], cls)
                && forall m :: p <= m < k ==> !IsLineTerminator(s[m])
  }

  /**
   * `RegExp.prototype.test` with the three lookaheads: some start position
   * satisfies all of them.
   */
  predicate MatchesPasswordPattern(s: string) {
    exists p :: 0 <= p <= |s|
                && LookaheadAt(s, p, Lower) && LookaheadAt(s, p, Upper) && LookaheadAt(s, p, Digit)
  }

  predicate Contains(s: string, cls: CharClass) {
    exists k :: 0 <= k < |s| && InClass(s[k], cls)
  }

  predicate SingleLine(s: string) {
    forall k :: 0 <= k < |s| ==> !IsLineTerminator(s[k])
  }

  /** On one line the pattern means: a lower-case letter, an upper-case letter and a digit all occur. */
  lemma PasswordPatternOnOneLine(s: string)
    requires SingleLine(s)
    ensures MatchesPasswordPattern(s) <==> Contains(s, Lower) && Contains(s, Upper) && Contains(s, Digit)
  {
    if Contains(s, Lower) && Contains(s, Upper) && Contains(s, Digit) {
      assert LookaheadAt(s, 0, Lower) && LookaheadAt(s, 0, Upper) && LookaheadAt(s, 0, Digit);
    }
  }

  /** Whatever the line structure, a match implies that each class occurs somewhere. */
  lemma PasswordPatternNeedsAllClasses(s: string)
    requires MatchesPasswordPattern(s)
    ensures Contains(s, Lower) && Contains(s, Upper) && Contains(s, Digit)
  {
    var p :| 0 <= p <= |s| && LookaheadAt(s, p, Lower) && LookaheadAt(s, p, Upper) && LookaheadAt(s, p, Digit);
  }

  /** Across lines the classes must meet on a single line: "aB" then a newline then "1" fails. */
  lemma PasswordPatternSplitAcrossLines()
    ensures Contains("aB\n1", Lower) && Contains("aB\n1", Upper) && Contains("aB\n1", Digit)
    ensures !MatchesPasswordPattern("aB\n1")
  {
    var s := "aB\n1";
    assert InClass(s[0], Lower) && InClass(s[1], Upper) && InClass(s[3], Digit);
    forall p | 0 <= p <= |s| ensures !(LookaheadAt(s, p, Upper) && LookaheadAt(s, p, Digit)) {
      if LookaheadAt(s, p, Digit) {
        var k :| p <= k < |s| && InClass(s[k], Digit) && forall m :: p <= m < k ==> !IsLineTerminator(s[m]);
        assert k == 3;
        assert !IsLineTerminator(s[2]) || p > 2;
        assert p == 3;
      }
    }
  }

  // ---------------------------------------------------------------------------
  // ASCII case folding, for the case-insensitive user-agent patterns

  function ToLowerAscii(c: char): (d: char)
    ensures IsAsciiUpper(c) ==> IsAsciiLower(d)
    ensures !IsAsciiUpper(c) ==> d == c
  {
    if IsAsciiUpper(c) then (c as int + 32) as char else c
  }

  /** `needle` occurs at `i` in `hay`, letters compared without case (the `i` flag). */
  predicate OccursAtIgnoreCase(hay: string, needle: string, i: nat) {
    i + |needle| <= |hay|
    && forall k :: 0 <= k < |needle| ==> ToLowerAscii(hay[i + k]) == ToLowerAscii(needle[k])
  }

  predicate ContainsIgnoreCase(hay: string, needle: string) {
    exists i :: 0 <= i <= |hay| && OccursAtIgnoreCase(hay, needle, i)
  }
}
