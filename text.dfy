/** The JavaScript string operations the channel rules use: `toLowerCase`,
    `includes`, `startsWith` and the regular expression `/20\d\d/`. Each
    scanning function is paired with a declarative definition and a lemma
    proving the two agree. */
module Text {

  /** `toLowerCase` on one character; only the ASCII letters A-Z change. */
  function LowerChar(c: char): char
  {
    if 'A' <= c <= 'Z' then (c as int + 32) as char else c
  }

  function Lower(s: string): string
  {
    seq(|s|, i requires 0 <= i < |s| => LowerChar(s[i]))
  }

  /** Lower-casing keeps the length, maps each ASCII upper-case letter to
      the letter 32 code points later, leaves every other character alone,
      leaves no ASCII upper-case letter, and is idempotent. */
  lemma LowerIsLower(s: string)
    ensures |Lower(s)| == |s|
    ensures forall i :: 0 <= i < |s| && 'A' <= s[i] <= 'Z' ==> Lower(s)[i] as int == s[i] as int + 32
    ensures forall i :: 0 <= i < |s| && !('A' <= s[i] <= 'Z') ==> Lower(s)[i] == s[i]
    ensures forall i :: 0 <= i < |s| ==> !('A' <= Lower(s)[i] <= 'Z')
    ensures Lower(Lower(s)) == Lower(s)
  {
  }

  /** `s.startsWith(p)`. */
  predicate StartsWith(s: string, p: string)
  {
    |p| <= |s| && s[..|p|] == p
  }

  /** `p` occurs in `s` at position `i`. */
  predicate MatchAt(s: string, p: string, i: nat)
  {
    i + |p| <= |s| && s[i..i + |p|] == p
  }

  /** Declarative substring occurrence. */
  ghost predicate Occurs(p: string, s: string)
  {
    exists i: nat :: MatchAt(s, p, i)
  }

  /** `s.includes(p)`, scanning from the left. */
  predicate Includes(s: string, p: string)
  {
    StartsWith(s, p) || (s != [] && Includes(s[1..], p))
  }

  lemma {:induction false} IncludesIffOccurs(s: string, p: string)
    ensures Includes(s, p) <==> Occurs(p, s)
  {
    if Includes(s, p) {
      IncludesHasMatch(s, p);
    }
    if Occurs(p, s) {
      var i: nat :| MatchAt(s, p, i);
      MatchIncludes(s, p, i);
    }
  }

  lemma {:induction false} IncludesHasMatch(s: string, p: string)
    requires Includes(s, p)
    ensures Occurs(p, s)
  {
    if StartsWith(s, p) {
      assert MatchAt(s, p, 0);
    } else {
      IncludesHasMatch(s[1..], p);
      var j: nat :| MatchAt(s[1..], p, j);
      assert s[1..][j..j + |p|] == s[j + 1..j + 1 + |p|];
      assert MatchAt(s, p, j + 1);
    }
  }

  lemma {:induction false} MatchIncludes(s: string, p: string, i: nat)
    requires MatchAt(s, p, i)
    ensures Includes(s, p)
    decreases i
  {
    if i > 0 {
      assert s[1..][i - 1..i - 1 + |p|] == s[i..i + |p|];
      MatchIncludes(s[1..], p, i - 1);
    }
  }

  /** A pattern holding a character that `s` lacks does not occur in `s`. */
  lemma MissingCharNoMatch(s: string, p: string, k: nat)
    requires k < |p| && forall i :: 0 <= i < |s| ==> s[i] != p[k]
    ensures !Includes(s, p) && !Occurs(p, s)
  {
    forall i: nat ensures !MatchAt(s, p, i) {
      if i + |p| <= |s| {
        assert s[i..i + |p|][k] == s[i + k];
      }
    }
    IncludesIffOccurs(s, p);
  }

  predicate IsDigit(c: char)
  {
    '0' <= c <= '9'
  }

  /** `s` holds "20" followed by two digits at position `i`. */
  predicate YearAt(s: string, i: nat)
  {
    i + 4 <= |s| && s[i] == '2' && s[i + 1] == '0' && IsDigit(s[i + 2]) && IsDigit(s[i + 3])
  }

  /** Declarative reading of `/20\d\d/.test(s)`. */
  ghost predicate HasYearToken(s: string)
  {
    exists i: nat :: YearAt(s, i)
  }

  /** `/20\d\d/.test(s)`, scanning from the left. */
  predicate TestYear(s: string)
  {
    |s| >= 4 && (YearAt(s, 0) || TestYear(s[1..]))
  }

  lemma {:induction false} TestYearIffHasYearToken(s: string)
    ensures TestYear(s) <==> HasYearToken(s)
  {
    if TestYear(s) {
      TestYearHasToken(s);
    }
    if HasYearToken(s) {
      var i: nat :| YearAt(s, i);
      YearAtTests(s, i);
    }
  }

  lemma {:induction false} TestYearHasToken(s: string)
    requires TestYear(s)
    ensures HasYearToken(s)
  {
    if !YearAt(s, 0) {
      TestYearHasToken(s[1..]);
      var j: nat :| YearAt(s[1..], j);
      assert YearAt(s, j + 1);
    }
  }

  lemma {:induction false} YearAtTests(s: string, i: nat)
    requires YearAt(s, i)
    ensures TestYear(s)
    decreases i
  {
    if i > 0 {
      assert YearAt(s[1..], i - 1);
      YearAtTests(s[1..], i - 1);
    }
  }
}
