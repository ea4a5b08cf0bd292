/** The Python string operations the partition builder uses: `str.replace`,
    `str.split`, `str.join`, slicing off the last character, `str.upper` and
    `%`-formatting of templates whose only conversions are `%s`. */
module Text {

  /** `pat` occurs in `s` starting at index `i`. */
  predicate OccursAt(s: string, pat: string, i: nat) {
    i + |pat| <= |s| && s[i..i + |pat|] == pat
  }

  predicate Contains(s: string, pat: string) {
    exists i: nat | i <= |s| :: OccursAt(s, pat, i)
  }

  /** `sep.join(parts)`. */
  function Join(sep: string, parts: seq<string>): string
    decreases |parts|
  {
    if |parts| == 0 then ""
    else if |parts| == 1 then parts[0]
    else parts[0] + sep + Join(sep, parts[1..])
  }

  /** `s.split(pat)` for a non-empty separator: occurrences are found left to
      right and never overlap. */
  function Split(s: string, pat: string): (r: seq<string>)
    requires |pat| > 0
    ensures |r| >= 1
    decreases |s|
  {
    if |s| < |pat| then [s]
    else if s[..|pat|] == pat then [""] + Split(s[|pat|..], pat)
    else
      var rest := Split(s[1..], pat);
      [[s[0]] + rest[0]] + rest[1..]
  }

  /** `s.replace(pat, rep)` for a non-empty pattern. */
  function Replace(s: string, pat: string, rep: string): string
    requires |pat| > 0
    decreases |s|
  {
    if |s| < |pat| then s
    else if s[..|pat|] == pat then rep + Replace(s[|pat|..], pat, rep)
    else [s[0]] + Replace(s[1..], pat, rep)
  }

  /** `s[:-1]`: Python slicing yields the empty string for an empty `s`. */
  function DropLast(s: string): (r: string)
    ensures |s| > 0 ==> s == r + [s[|s| - 1]]
    ensures |s| == 0 ==> r == ""
  {
    if |s| == 0 then "" else s[..|s| - 1]
  }

  function UpperChar(c: char): char {
    if 'a' <= c <= 'z' then (c as int - 32) as char else c
  }

  /** `s.upper()` on ASCII letters; other characters are kept. */
  function Upper(s: string): string {
    seq(|s|, i requires 0 <= i < |s| => UpperChar(s[i]))
  }

  /** The `%s` conversions of a template, counted left to right as the
      `%`-operator and the database driver's parameter binding count them. */
  function Placeholders(s: string): nat
    decreases |s|
  {
    if |s| < 2 then 0
    else if s[0] == '%' && s[1] == 's' then 1 + Placeholders(s[2..])
    else Placeholders(s[1..])
  }

  /** `t % tuple(args)` for a template whose only conversions are `%s`; Python
      raises unless the template has exactly one `%s` per argument. */
  function Format(t: string, args: seq<string>): string
    requires Placeholders(t) == |args|
    decreases |t|
  {
    if |t| < 2 then t
    else if t[0] == '%' && t[1] == 's' then args[0] + Format(t[2..], args[1..])
    else [t[0]] + Format(t[1..], args)
  }

  /** `upper` maps each ASCII lower-case letter to its upper-case letter, at
      the same position, and keeps every other character. */
  lemma UpperMapsLetters(s: string)
    ensures |Upper(s)| == |s|
    ensures forall i :: 0 <= i < |s| && 'a' <= s[i] <= 'z' ==>
              'A' <= Upper(s)[i] <= 'Z' && Upper(s)[i] as int - 'A' as int == s[i] as int - 'a' as int
    ensures forall i :: 0 <= i < |s| && !('a' <= s[i] <= 'z') ==> Upper(s)[i] == s[i]
  {
  }

  /** The result holds no ASCII lower-case letter, so upper-casing it again
      changes nothing. */
  lemma UpperIdempotent(s: string)
    ensures forall i :: 0 <= i < |Upper(s)| ==> !('a' <= Upper(s)[i] <= 'z')
    ensures Upper(Upper(s)) == Upper(s)
  {
    UpperMapsLetters(s);
    UpperMapsLetters(Upper(s));
  }

  /** `[x for _ in range(n)]`. */
  function Repeat(x: string, n: nat): (r: seq<string>)
    ensures |r| == n
  {
    seq(n, _ => x)
  }

  /** The text `lits[0] + args[0] + lits[1] + ... + lits[n]`. */
  function Interleave(lits: seq<string>, args: seq<string>): string
    requires |lits| == |args| + 1
    decreases |args|
  {
    if |args| == 0 then lits[0]
    else lits[0] + args[0] + Interleave(lits[1..], args[1..])
  }

  // ---------------------------------------------------------------------
  // join / split / replace

  lemma JoinCons(sep: string, x: string, xs: seq<string>)
    requires |xs| > 0
    ensures Join(sep, [x] + xs) == x + sep + Join(sep, xs)
  {
    assert ([x] + xs)[1..] == xs;
  }

  lemma JoinPrependChar(sep: string, c: char, parts: seq<string>)
    requires |parts| > 0
    ensures Join(sep, [[c] + parts[0]] + parts[1..]) == [c] + Join(sep, parts)
  {
    var q := [[c] + parts[0]] + parts[1..];
    if |parts| > 1 {
      assert q[1..] == parts[1..];
    }
  }

  lemma {:induction false} SplitFirstIsPrefix(s: string, pat: string)
    requires |pat| > 0
    ensures Split(s, pat)[0] <= s
    decreases |s|
  {
    if |s| < |pat| {
    } else if s[..|pat|] == pat {
    } else {
      SplitFirstIsPrefix(s[1..], pat);
      var r0 := Split(s[1..], pat)[0];
      assert [s[0]] + r0 <= [s[0]] + s[1..];
      assert [s[0]] + s[1..] == s;
    }
  }

  /** Joining the pieces of a split with the separator gives back the text. */
  lemma {:induction false} SplitJoinRoundTrip(s: string, pat: string)
    requires |pat| > 0
    ensures Join(pat, Split(s, pat)) == s
    decreases |s|
  {
    if |s| < |pat| {
    } else if s[..|pat|] == pat {
      var rest := Split(s[|pat|..], pat);
      assert Split(s, pat) == [""] + rest;
      SplitJoinRoundTrip(s[|pat|..], pat);
      JoinCons(pat, "", rest);
      assert Join(pat, Split(s, pat)) == "" + pat + s[|pat|..];
      assert s == s[..|pat|] + s[|pat|..];
    } else {
      var rest := Split(s[1..], pat);
      assert Split(s, pat) == [[s[0]] + rest[0]] + rest[1..];
      SplitJoinRoundTrip(s[1..], pat);
      JoinPrependChar(pat, s[0], rest);
      assert s == [s[0]] + s[1..];
    }
  }

  /** `s.replace(pat, rep)` is `rep.join(s.split(pat))`. */
  lemma {:induction false} ReplaceJoinsPieces(s: string, pat: string, rep: string)
    requires |pat| > 0
    ensures Replace(s, pat, rep) == Join(rep, Split(s, pat))
    decreases |s|
  {
    if |s| < |pat| {
    } else if s[..|pat|] == pat {
      ReplaceJoinsPieces(s[|pat|..], pat, rep);
      JoinCons(rep, "", Split(s[|pat|..], pat));
    } else {
      ReplaceJoinsPieces(s[1..], pat, rep);
      JoinPrependChar(rep, s[0], Split(s[1..], pat));
    }
  }

  /** No piece of a split contains the separator: every occurrence of the
      pattern in the text lies between two pieces. */
  lemma {:induction false} SplitPiecesAvoidPattern(s: string, pat: string)
    requires |pat| > 0
    ensures forall j :: 0 <= j < |Split(s, pat)| ==> !Contains(Split(s, pat)[j], pat)
    decreases |s|
  {
    var r := Split(s, pat);
    if |s| < |pat| {
      assert !Contains(s, pat);
    } else if s[..|pat|] == pat {
      SplitPiecesAvoidPattern(s[|pat|..], pat);
      assert !Contains("", pat);
      assert r[1..] == Split(s[|pat|..], pat);
    } else {
      var rest := Split(s[1..], pat);
      SplitPiecesAvoidPattern(s[1..], pat);
      SplitFirstIsPrefix(s[1..], pat);
      var piece := [s[0]] + rest[0];
      assert piece <= s;
      forall i: nat | i + |pat| <= |piece|
        ensures !OccursAt(piece, pat, i)
      {
        if i == 0 {
          assert piece[..|pat|] == s[..|pat|];
        } else {
          assert piece[i..i + |pat|] == rest[0][i - 1..i - 1 + |pat|];
          assert !OccursAt(rest[0], pat, i - 1);
        }
      }
      assert r[0] == piece;
      assert r[1..] == rest[1..];
    }
  }

  // ---------------------------------------------------------------------
  // %-formatting and placeholder counting

  /** Text without a `%` neither holds a conversion nor is changed by formatting. */
  lemma {:induction false} FormatText(lit: string, rest: string, args: seq<string>)
    requires '%' !in lit
    requires Placeholders(rest) == |args|
    ensures Placeholders(lit + rest) == Placeholders(rest)
    ensures Format(lit + rest, args) == lit + Format(rest, args)
    decreases |lit|
  {
    if |lit| == 0 {
      assert lit + rest == rest;
    } else {
      var t := lit + rest;
      if |t| >= 2 {
        assert t[1..] == lit[1..] + rest;
        FormatText(lit[1..], rest, args);
        assert [t[0]] + (lit[1..] + Format(rest, args)) == lit + Format(rest, args);
      } else {
        assert rest == "";
      }
    }
  }

  lemma FormatHole(rest: string, args: seq<string>)
    requires |args| > 0 && Placeholders(rest) == |args| - 1
    ensures Placeholders("%s" + rest) == |args|
    ensures Format("%s" + rest, args) == args[0] + Format(rest, args[1..])
  {
    assert ("%s" + rest)[2..] == rest;
  }

  /** Formatting the template `"%s".join(lits)` fills its holes with the
      arguments in order. */
  lemma {:induction false} FormatFillsHoles(lits: seq<string>, args: seq<string>)
    requires |lits| == |args| + 1
    requires forall i :: 0 <= i < |lits| ==> '%' !in lits[i]
    ensures Placeholders(Join("%s", lits)) == |args|
    ensures Format(Join("%s", lits), args) == Interleave(lits, args)
    decreases |args|
  {
    if |args| == 0 {
      assert Format("", []) == "";
      FormatText(lits[0], "", []);
      assert lits[0] + "" == lits[0];
    } else {
      var tail := Join("%s", lits[1..]);
      FormatFillsHoles(lits[1..], args[1..]);
      FormatHole(tail, args);
      FormatText(lits[0], "%s" + tail, args);
      JoinCons("%s", lits[0], lits[1..]);
      assert [lits[0]] + lits[1..] == lits;
      assert lits[0] + "%s" + tail == lits[0] + ("%s" + tail);
    }
  }

  lemma Interleave2(l0: string, l1: string, l2: string, a0: string, a1: string)
    ensures Interleave([l0, l1, l2], [a0, a1]) == l0 + a0 + l1 + a1 + l2
  {
    assert [l0, l1, l2][1..] == [l1, l2] && [a0, a1][1..] == [a1];
    assert [l1, l2][1..] == [l2] && [a1][1..] == [];
    assert Interleave([l2], []) == l2;
    assert Interleave([l1, l2], [a1]) == l1 + a1 + l2;
  }

  lemma Interleave3(l0: string, l1: string, l2: string, l3: string, a0: string, a1: string, a2: string)
    ensures Interleave([l0, l1, l2, l3], [a0, a1, a2]) == l0 + a0 + l1 + a1 + l2 + a2 + l3
  {
    assert [l0, l1, l2, l3][1..] == [l1, l2, l3] && [a0, a1, a2][1..] == [a1, a2];
    Interleave2(l1, l2, l3, a1, a2);
    assert l0 + a0 + (l1 + a1 + l2 + a2 + l3) == l0 + a0 + l1 + a1 + l2 + a2 + l3;
  }

  lemma Interleave4(l0: string, l1: string, l2: string, l3: string, l4: string,
                    a0: string, a1: string, a2: string, a3: string)
    ensures Interleave([l0, l1, l2, l3, l4], [a0, a1, a2, a3])
         == l0 + a0 + l1 + a1 + l2 + a2 + l3 + a3 + l4
  {
    assert [l0, l1, l2, l3, l4][1..] == [l1, l2, l3, l4] && [a0, a1, a2, a3][1..] == [a1, a2, a3];
    Interleave3(l1, l2, l3, l4, a1, a2, a3);
    assert l0 + a0 + (l1 + a1 + l2 + a2 + l3 + a3 + l4) == l0 + a0 + l1 + a1 + l2 + a2 + l3 + a3 + l4;
  }

  lemma PlaceholdersHole(rest: string)
    ensures Placeholders("%s" + rest) == 1 + Placeholders(rest)
  {
    assert ("%s" + rest)[2..] == rest;
  }

  lemma PlaceholdersNone(s: string)
    requires '%' !in s
    ensures Placeholders(s) == 0
  {
    FormatText(s, "", []);
    assert s + "" == s;
  }

  /** `",".join(["%s" for _ in range(n)])` holds exactly `n` conversions and no blank. */
  lemma {:induction false} PlaceholderListCount(n: nat, tail: string)
    requires '%' !in tail
    ensures Placeholders(Join(",", Repeat("%s", n)) + tail) == n
    ensures ' ' !in Join(",", Repeat("%s", n))
    decreases n
  {
    var holes := Join(",", Repeat("%s", n));
    if n == 0 {
      assert holes + tail == tail;
      PlaceholdersNone(tail);
    } else if n == 1 {
      assert holes == "%s";
      PlaceholdersHole(tail);
      PlaceholdersNone(tail);
    } else {
      PlaceholderListCount(n - 1, tail);
      var more := Join(",", Repeat("%s", n - 1));
      assert Repeat("%s", n) == ["%s"] + Repeat("%s", n - 1);
      JoinCons(",", "%s", Repeat("%s", n - 1));
      assert holes + tail == "%s" + ("," + (more + tail));
      PlaceholdersHole("," + (more + tail));
      FormatText(",", more + tail, Repeat("%s", n - 1));
    }
  }
}
