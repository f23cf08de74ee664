/**
 * The JavaScript string operations the plugin relies on, over `seq<char>`:
 * `toLowerCase` (ASCII letters), `trim`, `slice(0, n)`, `includes`,
 * `startsWith`, `split(c).pop()`, `split(c)[0]`, a global literal `replace`,
 * and `String(n)` for a natural number.
 */
module Text {

  predicate IsUpper(c: char) { 'A' <= c <= 'Z' }

  predicate IsLower(c: char) { 'a' <= c <= 'z' }

  function LowerChar(c: char): (d: char)
    ensures !IsUpper(d)
    ensures IsUpper(c) ==> IsLower(d) && d as int == c as int + 32
    ensures !IsUpper(c) ==> d == c
  {
    if IsUpper(c) then (c as int + 32) as char else c
  }

  /** `s.toLowerCase()` restricted to the ASCII letters. */
  function Lower(s: string): (r: string)
    ensures |r| == |s|
    ensures forall i :: 0 <= i < |s| ==> r[i] == LowerChar(s[i])
    ensures forall i :: 0 <= i < |r| ==> !IsUpper(r[i])
  {
    seq(|s|, i requires 0 <= i < |s| => LowerChar(s[i]))
  }

  /** The characters `trim` and the regular expression `\s` treat as white space in ECMAScript. */
  predicate IsSpace(c: char)
  {
    c == '\t' || c == '\n' || c == '\U{000B}' || c == '\U{000C}' || c == '\r' || c == ' '
    || c == '\U{00A0}' || c == '\U{1680}' || ('\U{2000}' <= c <= '\U{200A}')
    || c == '\U{2028}' || c == '\U{2029}' || c == '\U{202F}' || c == '\U{205F}'
    || c == '\U{3000}' || c == '\U{FEFF}'
  }

  /** Drops the leading white space. */
  function TrimStart(s: string): (r: string)
    ensures |r| <= |s| && r == s[|s| - |r|..]
    ensures forall i :: 0 <= i < |s| - |r| ==> IsSpace(s[i])
    ensures r != [] ==> !IsSpace(r[0])
  {
    if s != [] && IsSpace(s[0]) then TrimStart(s[1..]) else s
  }

  /** Drops the trailing white space. */
  function TrimEnd(s: string): (r: string)
    ensures |r| <= |s| && r == s[..|r|]
    ensures forall i :: |r| <= i < |s| ==> IsSpace(s[i])
    ensures r != [] ==> !IsSpace(r[|r| - 1])
  {
    if s != [] && IsSpace(s[|s| - 1]) then TrimEnd(s[..|s| - 1]) else s
  }

  /** How many white-space characters `trim` drops from the front of `s`. */
  function TrimOffset(s: string): nat
  {
    |s| - |TrimStart(s)|
  }

  /** `s.trim()`: the slice of `s` left once white space is dropped from both ends. */
  function Trim(s: string): (r: string)
    ensures TrimOffset(s) + |r| <= |s| && r == s[TrimOffset(s)..TrimOffset(s) + |r|]
    ensures forall i :: 0 <= i < TrimOffset(s) ==> IsSpace(s[i])
    ensures forall i :: TrimOffset(s) + |r| <= i < |s| ==> IsSpace(s[i])
    ensures r != [] ==> !IsSpace(r[0]) && !IsSpace(r[|r| - 1])
  {
    TrimEnd(TrimStart(s))
  }

  /** `s.slice(0, n)` for a non-negative `n`. */
  function Take(s: string, n: nat): (r: string)
    ensures |r| <= n && |r| <= |s|
    ensures r == s[..|r|]
    ensures |s| <= n ==> r == s
    ensures n <= |s| ==> |r| == n
  {
    if |s| <= n then s else s[..n]
  }

  predicate StartsWith(s: string, p: string)
  {
    |p| <= |s| && s[..|p|] == p
  }

  predicate EndsWith(s: string, p: string)
  {
    |p| <= |s| && s[|s| - |p|..] == p
  }

  /** `s.includes(p)` */
  predicate Contains(s: string, p: string)
    decreases |s|
  {
    StartsWith(s, p) || (s != [] && Contains(s[1..], p))
  }

  /** `Contains` holds exactly when `p` occurs at some position of `s`. */
  lemma {:induction false} ContainsAt(s: string, p: string)
    ensures Contains(s, p) <==> exists k :: 0 <= k <= |s| && StartsWith(s[k..], p)
    decreases |s|
  {
    assert s[0..] == s;
    if s != [] {
      ContainsAt(s[1..], p);
      if Contains(s[1..], p) {
        var k :| 0 <= k <= |s[1..]| && StartsWith(s[1..][k..], p);
        assert s[1..][k..] == s[k + 1..];
      }
      forall k | 1 <= k <= |s| && StartsWith(s[k..], p)
        ensures Contains(s[1..], p)
      {
        assert s[1..][k - 1..] == s[k..];
      }
    }
  }

  /** A pattern whose first character is absent from a text does not occur in it. */
  lemma ContainsNeedsFirstChar(s: string, p: string)
    requires p != [] && p[0] !in s
    ensures !Contains(s, p)
  {
    assert s[..|s|] == s;
    NotContainsBefore(s, p, |s|);
  }

  /**
   * A pattern does not occur in a text whose first `n` characters lack the
   * pattern's first character and whose rest is shorter than the pattern.
   */
  lemma {:induction false} NotContainsBefore(s: string, p: string, n: nat)
    requires p != [] && n <= |s| && p[0] !in s[..n] && |s| - n < |p|
    ensures !Contains(s, p)
    decreases |s|
  {
    if s != [] {
      if n > 0 {
        assert s[0] in s[..n];
        assert s[1..][..n - 1] == s[1..n];
        assert forall c :: c in s[1..n] ==> c in s[..n];
        NotContainsBefore(s[1..], p, n - 1);
      } else {
        NotContainsBefore(s[1..], p, 0);
      }
    }
  }

  /** The text after the last separator is what follows a separator and holds none. */
  lemma LastSegmentAfter(x: string, sep: char, y: string)
    requires sep !in y
    ensures LastSegment(x + [sep] + y, sep) == y
  {
    var s := x + [sep] + y;
    var r := LastSegment(s, sep);
    assert s[|s| - |y| - 1] == sep;
    assert s[|s| - |y|..] == y;
  }

  /** `s.split(sep).pop()`: the text after the last `sep`, or all of `s` when there is none. */
  function LastSegment(s: string, sep: char): (r: string)
    ensures |r| <= |s| && r == s[|s| - |r|..]
    ensures sep !in r
    ensures |r| < |s| ==> s[|s| - |r| - 1] == sep
  {
    if s == [] then []
    else if s[|s| - 1] == sep then []
    else LastSegment(s[..|s| - 1], sep) + [s[|s| - 1]]
  }

  /** `s.split(sep)[0]`: the text before the first `sep`, or all of `s` when there is none. */
  function FirstSegment(s: string, sep: char): (r: string)
    ensures |r| <= |s| && r == s[..|r|]
    ensures sep !in r
    ensures |r| < |s| ==> s[|r|] == sep
  {
    if s == [] then []
    else if s[0] == sep then []
    else [s[0]] + FirstSegment(s[1..], sep)
  }

  /**
   * `GetSubstitution` for a pattern without capture groups: in the
   * replacement text "$$" stands for "$", "$&" for the matched text, "$`"
   * for the whole input before the match and "$'" for the whole input after
   * it; every other character, any other "$" included, is copied.
   */
  function Substitute(rep: string, matched: string, before: string, after: string): string
    decreases |rep|
  {
    if rep == [] then []
    else if |rep| >= 2 && rep[0] == '$' && rep[1] == '$' then "$" + Substitute(rep[2..], matched, before, after)
    else if |rep| >= 2 && rep[0] == '$' && rep[1] == '&' then matched + Substitute(rep[2..], matched, before, after)
    else if |rep| >= 2 && rep[0] == '$' && rep[1] == '`' then before + Substitute(rep[2..], matched, before, after)
    else if |rep| >= 2 && rep[0] == '$' && rep[1] == '\'' then after + Substitute(rep[2..], matched, before, after)
    else [rep[0]] + Substitute(rep[1..], matched, before, after)
  }

  /** A replacement text without '$' is inserted as it is. */
  lemma {:induction false} SubstituteLiteral(rep: string, matched: string, before: string, after: string)
    requires '$' !in rep
    ensures Substitute(rep, matched, before, after) == rep
    decreases |rep|
  {
    if rep != [] {
      assert rep[0] in rep;
      assert forall c :: c in rep[1..] ==> c in rep;
      SubstituteLiteral(rep[1..], matched, before, after);
    }
  }

  /**
   * The scan of `s.replace(/p/g, rep)` from position `i` on, for a pattern
   * that matches only itself: occurrences are replaced left to right and do
   * not overlap, and each is replaced by `Substitute` with the text before
   * and after it in the whole input.
   */
  function ReplaceFrom(s: string, i: nat, p: string, rep: string): string
    requires p != [] && i <= |s|
  {
    Scan(s, i, p, rep)
  }

  /** The steps of `ReplaceFrom`: copy the rest where the pattern no longer fits, else replace a match or copy one character. */
  function Scan(s: string, i: nat, p: string, rep: string): string
    requires p != [] && i <= |s|
    decreases |s| - i
  {
    if |s| - i < |p| then s[i..]
    else if StartsWith(s[i..], p) then
      Substitute(rep, p, s[..i], s[i + |p|..]) + Scan(s, i + |p|, p, rep)
    else [s[i]] + Scan(s, i + 1, p, rep)
  }

  /** `s.replace(/p/g, rep)` */
  function ReplaceAll(s: string, p: string, rep: string): string
    requires p != []
  {
    ReplaceFrom(s, 0, p, rep)
  }

  /** A character that cannot start the pattern is copied, and the scan moves on by one. */
  lemma ReplaceFromSkip(s: string, i: nat, p: string, rep: string)
    requires p != [] && i < |s| && s[i] != p[0]
    ensures ReplaceFrom(s, i, p, rep) == [s[i]] + ReplaceFrom(s, i + 1, p, rep)
  {
    if |s| - i >= |p| {
      assert s[i..][0] == s[i];
      assert !StartsWith(s[i..], p);
    } else {
      assert s[i..] == [s[i]] + s[i + 1..];
    }
  }

  /** Scanning a stretch without the pattern's first character copies it. */
  lemma {:induction false} ReplaceFromCopies(s: string, i: nat, n: nat, p: string, rep: string)
    requires p != [] && i + n <= |s|
    requires forall k :: i <= k < i + n ==> s[k] != p[0]
    ensures ReplaceFrom(s, i, p, rep) == s[i..i + n] + ReplaceFrom(s, i + n, p, rep)
    decreases n
  {
    if n > 0 {
      ReplaceFromSkip(s, i, p, rep);
      ReplaceFromCopies(s, i + 1, n - 1, p, rep);
      assert s[i..i + n] == [s[i]] + s[i + 1..i + n];
    }
  }

  /** Near the end of the input, where the pattern no longer fits, the rest is copied. */
  lemma ReplaceFromShort(s: string, i: nat, p: string, rep: string)
    requires p != [] && i <= |s| && |s| - i < |p|
    ensures ReplaceFrom(s, i, p, rep) == s[i..]
  {
  }

  /**
   * At an occurrence of a text `q` that shares its first character with the
   * pattern but differs from it in the second, and holds the first nowhere
   * else, the scan copies `q` and goes on after it.
   */
  lemma ReplaceFromOther(s: string, i: nat, p: string, q: string, rep: string)
    requires |p| >= 2 && |q| >= 2 && p[0] == q[0] && p[1] != q[1]
    requires forall k :: 1 <= k < |q| ==> q[k] != p[0]
    requires i + |q| <= |s| && s[i..i + |q|] == q
    ensures ReplaceFrom(s, i, p, rep) == q + ReplaceFrom(s, i + |q|, p, rep)
  {
    if |s| - i < |p| {
      ReplaceFromShort(s, i, p, rep);
      ReplaceFromShort(s, i + |q|, p, rep);
      assert s[i..] == s[i..i + |q|] + s[i + |q|..];
    } else {
      OtherMissed(s, i, p, q, rep);
      OtherCopied(s, i, p, q, rep);
    }
  }

  lemma OtherMissed(s: string, i: nat, p: string, q: string, rep: string)
    requires |p| >= 2 && |q| >= 2 && p[1] != q[1]
    requires i + |q| <= |s| && s[i..i + |q|] == q && i + |p| <= |s|
    ensures ReplaceFrom(s, i, p, rep) == [s[i]] + ReplaceFrom(s, i + 1, p, rep)
  {
    assert s[i + 1] == q[1];
    assert s[i..][..|p|][1] == s[i + 1];
    ReplaceFromMiss(s, i, p, rep);
  }

  lemma OtherCopied(s: string, i: nat, p: string, q: string, rep: string)
    requires |p| >= 2 && |q| >= 2 && p[0] == q[0]
    requires forall k :: 1 <= k < |q| ==> q[k] != p[0]
    requires i + |q| <= |s| && s[i..i + |q|] == q
    ensures [s[i]] + ReplaceFrom(s, i + 1, p, rep) == q + ReplaceFrom(s, i + |q|, p, rep)
  {
    forall k | i + 1 <= k < i + |q| ensures s[k] != p[0] {
      assert s[k] == s[i..i + |q|][k - i];
    }
    ReplaceFromCopies(s, i + 1, |q| - 1, p, rep);
    assert q == [s[i]] + s[i + 1..i + |q|];
  }

  /** Where the pattern fits but does not occur, one character is copied and the scan moves on. */
  lemma ReplaceFromMiss(s: string, i: nat, p: string, rep: string)
    requires p != [] && i + |p| <= |s| && !StartsWith(s[i..], p)
    ensures ReplaceFrom(s, i, p, rep) == [s[i]] + ReplaceFrom(s, i + 1, p, rep)
  {
  }

  /** A stretch without the pattern's first character is copied as it is. */
  lemma ReplaceFromLiteral(s: string, i: nat, t: string, p: string, rep: string)
    requires p != [] && p[0] !in t && i + |t| <= |s| && s[i..i + |t|] == t
    ensures ReplaceFrom(s, i, p, rep) == t + ReplaceFrom(s, i + |t|, p, rep)
  {
    forall k | i <= k < i + |t| ensures s[k] != p[0] {
      assert s[k] == t[k - i];
    }
    ReplaceFromCopies(s, i, |t|, p, rep);
  }

  /** An occurrence is replaced by a replacement text without '$' as it is. */
  lemma ReplaceFromFill(s: string, i: nat, p: string, v: string)
    requires p != [] && '$' !in v && i + |p| <= |s| && s[i..i + |p|] == p
    ensures ReplaceFrom(s, i, p, v) == v + ReplaceFrom(s, i + |p|, p, v)
  {
    ReplaceFromMatch(s, i, p, v);
    SubstituteLiteral(v, p, s[..i], s[i + |p|..]);
  }

  /** A text without any occurrence of the pattern is left as it is. */
  lemma ReplaceAllAbsent(s: string, p: string, rep: string)
    requires p != [] && !Contains(s, p)
    ensures ReplaceAll(s, p, rep) == s
  {
    ReplaceFromAbsent(s, 0, p, rep);
  }

  lemma {:induction false} ReplaceFromAbsent(s: string, i: nat, p: string, rep: string)
    requires p != [] && i <= |s| && !Contains(s[i..], p)
    ensures ReplaceFrom(s, i, p, rep) == s[i..]
    decreases |s| - i
  {
    if |s| - i >= |p| {
      assert s[i..][1..] == s[i + 1..];
      ReplaceFromAbsent(s, i + 1, p, rep);
      assert s[i..] == [s[i]] + s[i + 1..];
    }
  }

  /**
   * A prefix that does not hold the pattern's first character is copied
   * unchanged, and the scan goes on right after it within the same input.
   */
  lemma ReplaceAllPrefix(x: string, y: string, p: string, rep: string)
    requires p != [] && p[0] !in x
    ensures ReplaceAll(x + y, p, rep) == x + ReplaceFrom(x + y, |x|, p, rep)
  {
    assert (x + y)[0..|x|] == x;
    assert forall k :: 0 <= k < |x| ==> (x + y)[k] == x[k];
    ReplaceFromCopies(x + y, 0, |x|, p, rep);
  }

  /** An occurrence at the scan position is replaced, and the scan resumes after it. */
  lemma ReplaceFromMatch(s: string, i: nat, p: string, rep: string)
    requires p != [] && i + |p| <= |s| && s[i..i + |p|] == p
    ensures ReplaceFrom(s, i, p, rep) == Substitute(rep, p, s[..i], s[i + |p|..]) + ReplaceFrom(s, i + |p|, p, rep)
  {
    assert s[i..][..|p|] == s[i..i + |p|];
  }

  /**
   * A single occurrence between two stretches free of the pattern's first
   * character is replaced by the substituted replacement text, which sees
   * those stretches as the text before and after the match.
   */
  lemma ReplaceAllOnce(x: string, p: string, y: string, rep: string)
    requires p != [] && p[0] !in x && p[0] !in y
    ensures ReplaceAll(x + p + y, p, rep) == x + Substitute(rep, p, x, y) + y
  {
    OnceBefore(x, p, y, rep);
    OnceMatch(x, p, y, rep);
    OnceAfter(x, p, y, rep);
  }

  lemma OnceBefore(x: string, p: string, y: string, rep: string)
    requires p != [] && p[0] !in x
    ensures ReplaceAll(x + p + y, p, rep) == x + ReplaceFrom(x + p + y, |x|, p, rep)
  {
    assert x + p + y == x + (p + y);
    ReplaceAllPrefix(x, p + y, p, rep);
  }

  lemma OnceMatch(x: string, p: string, y: string, rep: string)
    requires p != []
    ensures ReplaceFrom(x + p + y, |x|, p, rep)
            == Substitute(rep, p, x, y) + ReplaceFrom(x + p + y, |x| + |p|, p, rep)
  {
    var s := x + p + y;
    assert s[|x|..|x| + |p|] == p;
    ReplaceFromMatch(s, |x|, p, rep);
    assert s[..|x|] == x && s[|x| + |p|..] == y;
  }

  lemma OnceAfter(x: string, p: string, y: string, rep: string)
    requires p != [] && p[0] !in y
    ensures ReplaceFrom(x + p + y, |x| + |p|, p, rep) == y
  {
    var s := x + p + y;
    var j := |x| + |p|;
    assert forall k :: j <= k < j + |y| ==> s[k] == y[k - j];
    ReplaceFromCopies(s, j, |y|, p, rep);
    assert s[j..j + |y|] == y;
    ReplaceFromShort(s, j + |y|, p, rep);
  }


  /** "$&" at the front of the replacement text stands for the matched text. */
  lemma SubstituteMatched(t: string, matched: string, before: string, after: string)
    ensures Substitute("$&" + t, matched, before, after) == matched + Substitute(t, matched, before, after)
  {
    assert ("$&" + t)[2..] == t;
  }

  /** A character other than '$' at the front of the replacement text is copied. */
  lemma SubstituteChar(c: char, t: string, matched: string, before: string, after: string)
    requires c != '$'
    ensures Substitute([c] + t, matched, before, after) == [c] + Substitute(t, matched, before, after)
  {
    assert ([c] + t)[1..] == t;
  }

  /** "$$" at the front of the replacement text stands for one "$". */
  lemma SubstituteDollar(t: string, matched: string, before: string, after: string)
    ensures Substitute("$$" + t, matched, before, after) == "$" + Substitute(t, matched, before, after)
  {
    assert ("$$" + t)[2..] == t;
  }

  /**
   * JavaScript expands the patterns of the replacement text:
   * `"x{filename}y".replace(/{filename}/g, "a$&.png")` is "xa{filename}.pngy".
   */
  lemma MatchPatternExpanded()
    ensures ReplaceAll("x{filename}y", "{filename}", "a$&.png") == "xa" + "{filename}" + ".pngy"
  {
    assert "x{filename}y" == "x" + "{filename}" + "y";
    ReplaceAllOnce("x", "{filename}", "y", "a$&.png");
    SubstituteLiteral(".png", "{filename}", "x", "y");
    SubstituteMatched(".png", "{filename}", "x", "y");
    SubstituteChar('a', "$&.png", "{filename}", "x", "y");
    assert "a$&.png" == ['a'] + "$&.png" && "$&.png" == "$&" + ".png";
    assert "x" + (['a'] + ("{filename}" + ".png")) + "y" == "xa" + "{filename}" + ".pngy";
  }

  /** "$$" in the replacement text becomes a single "$". */
  lemma DollarPatternExpanded()
    ensures ReplaceAll("x{filename}y", "{filename}", "p$$.png") == "xp$.pngy"
  {
    assert "x{filename}y" == "x" + "{filename}" + "y";
    ReplaceAllOnce("x", "{filename}", "y", "p$$.png");
    DollarSubstituted("{filename}", "x", "y");
  }

  lemma DollarSubstituted(matched: string, before: string, after: string)
    ensures Substitute("p$$.png", matched, before, after) == "p$.png"
  {
    SubstituteLiteral(".png", matched, before, after);
    SubstituteDollar(".png", matched, before, after);
    SubstituteChar('p', "$$.png", matched, before, after);
    assert "p$$.png" == ['p'] + "$$.png" && "$$.png" == "$$" + ".png";
  }

  /** "$`" and "$'" in the replacement text copy the input before and after the match. */
  lemma ContextPatternsExpanded()
    ensures ReplaceAll("x{filename}y", "{filename}", "$`$'") == "xxyy"
  {
    assert "x{filename}y" == "x" + "{filename}" + "y";
    ReplaceAllOnce("x", "{filename}", "y", "$`$'");
  }

  function DigitChar(d: nat): char
    requires d < 10
  {
    ('0' as int + d) as char
  }

  /** The number a string of decimal digits denotes. */
  function DigitsValue(s: string): nat
  {
    if s == [] then 0
    else 10 * DigitsValue(s[..|s| - 1]) + (if '0' <= s[|s| - 1] <= '9' then s[|s| - 1] as int - '0' as int else 0)
  }

  /** `String(n)` for a natural number: its decimal digits, without leading zeros. */
  function NatToString(n: nat): (r: string)
    ensures r != []
    ensures forall i :: 0 <= i < |r| ==> '0' <= r[i] <= '9'
    ensures |r| > 1 ==> r[0] != '0'
    ensures DigitsValue(r) == n
  {
    if n < 10 then [DigitChar(n)] else NatToString(n / 10) + [DigitChar(n % 10)]
  }
}
