/** The fragment of JavaScript regular expressions that the client's form validators use,
    given a meaning of its own: a pattern anchored at both ends (`^...$`) is a sequence of
    literal texts, character classes repeated between a lower and an optional upper bound,
    and `(?=.*[...])` look-aheads. A string matches when some choice of repetition counts
    consumes it exactly, which is what the back-tracking `RegExp.prototype.test` decides for
    these patterns. None of the patterns carries the `u` flag, so a repetition counts UTF-16
    code units: `.` consumes each half of a surrogate pair, while every other class holds
    only characters of the Basic Multilingual Plane and never a surrogate. */
module Pattern {
  import opened Common

  /** The bracket expressions and escapes that occur in the validators. */
  datatype CharClass =
    | Digit          // \d
    | Upper          // [A-Z]
    | Letter         // [A-Z] under the `i` flag
    | NameChar       // [A-Za-zÁÉÍÓÚáéíóúÑñ\s]
    | EmailLocal     // [A-Za-z0-9._%+-]
    | Symbol         // [!@#$%^&*()_+\[\]{};':"\\|,.<>\/?]
    | AnyButNewline  // .

  predicate IsAccentedLetter(c: char) {
    c in "ÁÉÍÓÚáéíóúÑñ"
  }

  predicate IsNameChar(c: char) {
    IsAsciiLetter(c) || IsAccentedLetter(c) || IsWhitespace(c)
  }

  predicate IsEmailLocalChar(c: char) {
    IsAsciiLetter(c) || IsDigit(c) || c in "._%+-"
  }

  /** The password symbols; `-`, `=`, `~` and the back-quote are not among them. */
  predicate IsPasswordSymbol(c: char) {
    c in "!@#$%^&*()_+[]{};':\"\\|,.<>/?"
  }

  predicate InClass(c: char, k: CharClass) {
    match k
    case Digit => IsDigit(c)
    case Upper => IsAsciiUpper(c)
    case Letter => IsAsciiLetter(c)
    case NameChar => IsNameChar(c)
    case EmailLocal => IsEmailLocalChar(c)
    case Symbol => IsPasswordSymbol(c)
    case AnyButNewline => !IsLineTerminator(c)
  }

  predicate AllIn(s: string, k: CharClass) {
    forall i :: 0 <= i < |s| ==> InClass(s[i], k)
  }

  /** Only `.` accepts a character outside the Basic Multilingual Plane (as two code units),
      so a run of any other class is as many code units long as it is characters. */
  lemma ClassUnits(s: string, k: CharClass)
    requires k != AnyButNewline && AllIn(s, k)
    ensures UnitLength(s) == |s|
  {
    forall i | 0 <= i < |s| ensures s[i] as int < 0x1_0000 {
      ClassIsBmp(s[i], k);
    }
    UnitLengthBmp(s);
  }

  lemma ClassIsBmp(c: char, k: CharClass)
    requires k != AnyButNewline && InClass(c, k)
    ensures c as int < 0x1_0000
  {
    match k
    case Digit =>
    case Upper =>
    case Letter =>
    case NameChar =>
    case EmailLocal =>
    case Symbol =>
  }

  datatype Item =
    | Lit(text: string)                               // the text itself
    | Rep(cls: CharClass, min: nat, max: Option<nat>) // cls{min,max}; `+` is {1,}
    | Ahead(cls: CharClass)                           // (?=.*cls)

  /** A character of class `k` occurs before the first line terminator of `s`. */
  predicate AheadHolds(s: string, k: CharClass) {
    exists j :: 0 <= j < |s| && InClass(s[j], k) && AllIn(s[..j], AnyButNewline)
  }

  /** `/^p$/.test(s)` */
  predicate Matches(p: seq<Item>, s: string)
    decreases |p|
  {
    if p == [] then s == []
    else
      match p[0]
      case Lit(t) => |t| <= |s| && s[..|t|] == t && Matches(p[1..], s[|t|..])
      case Rep(k, lo, hi) =>
        exists n :: 0 <= n <= |s| && lo <= UnitLength(s[..n])
                    && (hi.None? || UnitLength(s[..n]) <= hi.value)
                    && AllIn(s[..n], k) && Matches(p[1..], s[n..])
      case Ahead(k) => AheadHolds(s, k) && Matches(p[1..], s)
  }

  /** A single bounded repetition `cls{n}` matches exactly the strings of class members that
      are n code units long. */
  lemma MatchesExactly(k: CharClass, n: nat, s: string)
    ensures Matches([Rep(k, n, Some(n))], s) <==> UnitLength(s) == n && AllIn(s, k)
  {
    var p := [Rep(k, n, Some(n))];
    assert p[1..] == [];
    if UnitLength(s) == n && AllIn(s, k) {
      assert s[..|s|] == s && s[|s|..] == [];
    }
    if Matches(p, s) {
      var m :| 0 <= m <= |s| && UnitLength(s[..m]) == n && AllIn(s[..m], k) && Matches(p[1..], s[m..]);
      assert s[..m] == s;
    }
  }

  /** A single unbounded repetition `cls{lo,}` matches exactly the strings of class members
      that are at least `lo` code units long (`cls+` is the case lo = 1). */
  lemma MatchesAtLeast(k: CharClass, lo: nat, s: string)
    ensures Matches([Rep(k, lo, None)], s) <==> UnitLength(s) >= lo && AllIn(s, k)
  {
    var p := [Rep(k, lo, None)];
    assert p[1..] == [];
    if UnitLength(s) >= lo && AllIn(s, k) {
      assert s[..|s|] == s && s[|s|..] == [];
    }
    if Matches(p, s) {
      var n :| 0 <= n <= |s| && lo <= UnitLength(s[..n]) && AllIn(s[..n], k) && Matches(p[1..], s[n..]);
      assert n == |s|;
      assert s[..n] == s;
    }
  }

  /** A single literal matches exactly itself. */
  lemma MatchesLiteral(t: string, s: string)
    ensures Matches([Lit(t)], s) <==> s == t
  {
    var p := [Lit(t)];
    assert p[1..] == [];
    if s == t {
      assert s[..|t|] == t && s[|t|..] == [];
    }
    if Matches(p, s) {
      assert s == s[..|t|] + s[|t|..];
    }
  }
}
