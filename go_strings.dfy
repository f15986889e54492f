/** The functions of Go's `strings` package that the core relies on, on
    `seq<char>`, with the facts about them that the identifier codec and the
    indentation sanitiser need. */
module GoStrings {

  /** `strings.HasPrefix` */
  predicate HasPrefix(s: string, p: string) {
    |p| <= |s| && s[..|p|] == p
  }

  /** `strings.HasSuffix` */
  predicate HasSuffix(s: string, p: string) {
    |p| <= |s| && s[|s| - |p|..] == p
  }

  /** `strings.Contains`: p occurs somewhere in s. */
  predicate Contains(s: string, p: string)
    decreases |s|
  {
    HasPrefix(s, p) || (s != [] && Contains(s[1..], p))
  }

  /** `strings.ReplaceAll(s, pat, rep)` for a non-empty pattern: every
      non-overlapping occurrence of `pat`, found left to right, becomes `rep`. */
  function ReplaceAll(s: string, pat: string, rep: string): string
    requires pat != []
    decreases |s|
  {
    if HasPrefix(s, pat) then rep + ReplaceAll(s[|pat|..], pat, rep)
    else if s == [] then []
    else [s[0]] + ReplaceAll(s[1..], pat, rep)
  }

  /** `strings.Replace(s, pat, rep, -1)` with any pattern: an empty pattern
      matches before every character and at the end. */
  function Replace(s: string, pat: string, rep: string): string {
    if pat == [] then Interleave(s, rep) else ReplaceAll(s, pat, rep)
  }

  /** rep before each character of s, and once more at the end. */
  function Interleave(s: string, rep: string): string {
    if s == [] then rep else rep + [s[0]] + Interleave(s[1..], rep)
  }

  /** `strings.Split(s, string(sep))` for a one-character separator: never
      empty, and `""` splits into `[""]`. */
  function Split(s: string, sep: char): (parts: seq<string>)
    ensures |parts| >= 1
  {
    if s == [] then [""]
    else
      var rest := Split(s[1..], sep);
      if s[0] == sep then [""] + rest else [[s[0]] + rest[0]] + rest[1..]
  }

  /** `strings.Repeat` */
  function Repeat(s: string, n: nat): string {
    if n == 0 then "" else s + Repeat(s, n - 1)
  }

  /** Number of occurrences of the character c in s. */
  function Count(c: char, s: string): nat {
    if s == [] then 0 else (if s[0] == c then 1 else 0) + Count(c, s[1..])
  }

  /** A string that is empty or ends with the separator. */
  predicate EndsWithSep(x: string, sep: char) {
    x == [] || x[|x| - 1] == sep
  }

  /** A keyword such as `databases/`: non-empty, its last character is the
      separator and no other character is. */
  predicate KeywordShape(k: string, sep: char) {
    k != [] && k[|k| - 1] == sep && sep !in k[..|k| - 1]
  }

  /** n is separator-free and does not end with the keyword's stem, so
      `n + sep` holds no occurrence of the keyword. */
  predicate Clean(n: string, k: string, sep: char)
    requires k != []
  {
    sep !in n && !HasSuffix(n, k[..|k| - 1])
  }

  // ---------------------------------------------------------------------
  // Facts about Contains

  lemma {:induction false} ContainsLength(s: string, p: string)
    requires Contains(s, p)
    ensures |p| <= |s|
    decreases |s|
  {
    if !HasPrefix(s, p) {
      ContainsLength(s[1..], p);
    }
  }

  /** Every character of an occurring pattern occurs in the string. */
  lemma {:induction false} ContainsChar(s: string, p: string, c: char)
    requires Contains(s, p) && c in p
    ensures c in s
    decreases |s|
  {
    if HasPrefix(s, p) {
      var i :| 0 <= i < |p| && p[i] == c;
      assert s[i] == c;
    } else {
      ContainsChar(s[1..], p, c);
      var i :| 0 <= i < |s[1..]| && s[1..][i] == c;
      assert s[i + 1] == c;
    }
  }

  /** A character that is not in s does not occur in it as a pattern. */
  lemma NoCharNoContains(s: string, c: char)
    requires c !in s
    ensures !Contains(s, [c])
  {
    if Contains(s, [c]) {
      ContainsChar(s, [c], c);
    }
  }

  /** A pattern occurs in any string that has it in the middle. */
  lemma {:induction false} ContainsInfix(a: string, p: string, b: string)
    ensures Contains(a + p + b, p)
    decreases |a|
  {
    if a == [] {
      assert a + p + b == p + b;
      assert (p + b)[..|p|] == p;
    } else {
      assert (a + p + b)[1..] == a[1..] + p + b;
      ContainsInfix(a[1..], p, b);
    }
  }

  /** An occurrence of a keyword cannot straddle a separator-terminated prefix. */
  lemma {:induction false} ContainsSplit(x: string, y: string, k: string, sep: char)
    requires KeywordShape(k, sep) && EndsWithSep(x, sep)
    ensures Contains(x + y, k) <==> Contains(x, k) || Contains(y, k)
    decreases |x|
  {
    if x == [] {
      assert x + y == y;
      assert !Contains(x, k);
    } else {
      PrefixAcrossSep(x, y, k, sep);
      assert (x + y)[1..] == x[1..] + y;
      ContainsSplit(x[1..], y, k, sep);
    }
  }

  /** Whether `x + y` starts with a keyword depends on x alone when x is
      non-empty and ends with the separator. */
  lemma PrefixAcrossSep(x: string, y: string, k: string, sep: char)
    requires KeywordShape(k, sep) && x != [] && x[|x| - 1] == sep
    ensures HasPrefix(x + y, k) <==> HasPrefix(x, k)
  {
    if |k| <= |x| {
      assert (x + y)[..|k|] == x[..|k|];
    } else {
      assert k[..|k| - 1][|x| - 1] == k[|x| - 1];
      assert k[|x| - 1] != sep;
      assert |k| > |x + y| || (x + y)[..|k|][|x| - 1] == sep;
    }
  }

  /** A keyword occurs in `n + sep` for a separator-free n only as its tail:
      n ends with the keyword's stem. */
  lemma {:induction false} ContainsStemSuffix(n: string, k: string, sep: char)
    requires KeywordShape(k, sep) && sep !in n && Contains(n + [sep], k)
    ensures HasSuffix(n, k[..|k| - 1])
    decreases |n|
  {
    var s := n + [sep];
    var stem := k[..|k| - 1];
    if HasPrefix(s, k) {
      assert s[|k| - 1] == k[|k| - 1] == sep;
      assert forall j :: 0 <= j < |n| ==> s[j] == n[j];
      assert |k| == |s|;
      assert stem == n;
    } else {
      assert Contains(s[1..], k);
      ContainsLength(s[1..], k);
      var n' := n[1..];
      assert s[1..] == n' + [sep];
      ContainsStemSuffix(n', k, sep);
      assert n[|n| - |stem|..] == n'[|n'| - |stem|..];
    }
  }

  lemma CleanPieceHasNoKeyword(n: string, k: string, sep: char)
    requires KeywordShape(k, sep) && Clean(n, k, sep)
    ensures !Contains(n + [sep], k)
  {
    if Contains(n + [sep], k) {
      ContainsStemSuffix(n, k, sep);
    }
  }

  /** A clean piece in front of y changes nothing about where the keyword
      occurs. */
  lemma ContainsAfterCleanPiece(n: string, y: string, k: string, sep: char)
    requires KeywordShape(k, sep) && Clean(n, k, sep)
    ensures Contains(n + [sep] + y, k) <==> Contains(y, k)
  {
    CleanPieceHasNoKeyword(n, k, sep);
    ContainsSplit(n + [sep], y, k, sep);
  }

  /** A separator-free string holds no keyword. */
  lemma NoSepNoKeyword(n: string, k: string, sep: char)
    requires KeywordShape(k, sep) && sep !in n
    ensures !Contains(n, k)
  {
    if Contains(n, k) {
      ContainsChar(n, k, sep);
    }
  }

  // ---------------------------------------------------------------------
  // Facts about ReplaceAll

  /** Nothing is replaced when the pattern does not occur. */
  lemma {:induction false} ReplaceAllAbsent(s: string, pat: string, rep: string)
    requires pat != [] && !Contains(s, pat)
    ensures ReplaceAll(s, pat, rep) == s
    decreases |s|
  {
    if s != [] {
      ReplaceAllAbsent(s[1..], pat, rep);
    }
  }

  /** Replacing a keyword distributes over a separator-terminated prefix. */
  lemma {:induction false} ReplaceAllSplit(x: string, y: string, k: string, rep: string, sep: char)
    requires KeywordShape(k, sep) && EndsWithSep(x, sep)
    ensures ReplaceAll(x + y, k, rep) == ReplaceAll(x, k, rep) + ReplaceAll(y, k, rep)
    decreases |x|
  {
    if x == [] {
      assert x + y == y;
    } else {
      PrefixAcrossSep(x, y, k, sep);
      if HasPrefix(x, k) {
        assert (x + y)[|k|..] == x[|k|..] + y;
        ReplaceAllSplit(x[|k|..], y, k, rep, sep);
      } else {
        assert (x + y)[1..] == x[1..] + y;
        ReplaceAllSplit(x[1..], y, k, rep, sep);
      }
    }
  }

  /** A string equal to the pattern becomes the replacement. */
  lemma ReplaceAllWhole(k: string, rep: string)
    requires k != []
    ensures ReplaceAll(k, k, rep) == rep
  {
    assert HasPrefix(k, k);
    assert k[|k|..] == [];
  }

  /** A clean piece in front passes through a replacement of the keyword. */
  lemma ReplaceAllKeepsCleanPiece(n: string, y: string, k: string, rep: string, sep: char)
    requires KeywordShape(k, sep) && Clean(n, k, sep)
    ensures ReplaceAll(n + [sep] + y, k, rep) == n + [sep] + ReplaceAll(y, k, rep)
  {
    ReplaceAllSplit(n + [sep], y, k, rep, sep);
    CleanPieceHasNoKeyword(n, k, sep);
    ReplaceAllAbsent(n + [sep], k, rep);
  }

  /** The keyword itself in front is replaced. */
  lemma ReplaceAllReplacesKeyword(k: string, y: string, rep: string, sep: char)
    requires KeywordShape(k, sep)
    ensures ReplaceAll(k + y, k, rep) == rep + ReplaceAll(y, k, rep)
  {
    ReplaceAllSplit(k, y, k, rep, sep);
    ReplaceAllWhole(k, rep);
  }

  /** A character that is in neither the pattern nor the replacement keeps its
      number of occurrences. */
  lemma {:induction false} ReplaceAllKeepsCount(s: string, pat: string, rep: string, c: char)
    requires pat != [] && c !in pat && c !in rep
    ensures Count(c, ReplaceAll(s, pat, rep)) == Count(c, s)
    decreases |s|
  {
    if HasPrefix(s, pat) {
      ReplaceAllKeepsCount(s[|pat|..], pat, rep, c);
      CountConcat(c, rep, ReplaceAll(s[|pat|..], pat, rep));
      CountAbsent(c, rep);
      CountAbsent(c, pat);
      assert s == pat + s[|pat|..];
      CountConcat(c, pat, s[|pat|..]);
    } else if s != [] {
      ReplaceAllKeepsCount(s[1..], pat, rep, c);
      CountConcat(c, [s[0]], ReplaceAll(s[1..], pat, rep));
    }
  }

  /** A one-character pattern whose character is not in the replacement is
      gone from the result. */
  lemma {:induction false} ReplaceAllRemovesChar(s: string, c: char, rep: string)
    requires c !in rep
    ensures c !in ReplaceAll(s, [c], rep)
    decreases |s|
  {
    if HasPrefix(s, [c]) {
      ReplaceAllRemovesChar(s[1..], c, rep);
    } else if s != [] {
      ReplaceAllRemovesChar(s[1..], c, rep);
    }
  }

  /** A character in neither s nor the replacement is not in the result. */
  lemma {:induction false} ReplaceAllNoNewChar(s: string, pat: string, rep: string, c: char)
    requires pat != [] && c !in s && c !in rep
    ensures c !in ReplaceAll(s, pat, rep)
    decreases |s|
  {
    if HasPrefix(s, pat) {
      ReplaceAllNoNewChar(s[|pat|..], pat, rep, c);
    } else if s != [] {
      ReplaceAllNoNewChar(s[1..], pat, rep, c);
    }
  }

  // ---------------------------------------------------------------------
  // Facts about Count, Repeat and Split

  lemma {:induction false} CountConcat(c: char, a: string, b: string)
    ensures Count(c, a + b) == Count(c, a) + Count(c, b)
    decreases |a|
  {
    if a == [] {
      assert a + b == b;
    } else {
      assert (a + b)[0] == a[0];
      assert (a + b)[1..] == a[1..] + b;
      CountConcat(c, a[1..], b);
    }
  }

  lemma {:induction false} CountAbsent(c: char, s: string)
    requires c !in s
    ensures Count(c, s) == 0
    decreases |s|
  {
    if s != [] {
      CountAbsent(c, s[1..]);
    }
  }

  lemma {:induction false} RepeatChars(s: string, n: nat, c: char)
    requires c !in s
    ensures c !in Repeat(s, n)
    decreases n
  {
    if n > 0 {
      RepeatChars(s, n - 1, c);
    }
  }

  /** Split yields one more part than there are separators, and no part
      contains the separator. */
  lemma {:induction false} SplitParts(s: string, sep: char)
    ensures |Split(s, sep)| == Count(sep, s) + 1
    ensures forall i :: 0 <= i < |Split(s, sep)| ==> sep !in Split(s, sep)[i]
    decreases |s|
  {
    if s != [] {
      SplitParts(s[1..], sep);
    }
  }

  /** A character that is not in s is in none of its parts. */
  lemma {:induction false} SplitKeepsOut(s: string, sep: char, c: char)
    requires c !in s
    ensures forall i :: 0 <= i < |Split(s, sep)| ==> c !in Split(s, sep)[i]
    decreases |s|
  {
    if s != [] {
      SplitKeepsOut(s[1..], sep, c);
    }
  }

  /** A separator-free string is one part. */
  lemma {:induction false} SplitNoSep(a: string, sep: char)
    requires sep !in a
    ensures Split(a, sep) == [a]
    decreases |a|
  {
    if a != [] {
      SplitNoSep(a[1..], sep);
      assert [a[0]] + a[1..] == a;
    }
  }

  /** The first part is everything before the first separator. */
  lemma {:induction false} SplitAt(a: string, b: string, sep: char)
    requires sep !in a
    ensures Split(a + [sep] + b, sep) == [a] + Split(b, sep)
    decreases |a|
  {
    if a == [] {
      assert a + [sep] + b == [sep] + b;
      assert ([sep] + b)[1..] == b;
    } else {
      assert (a + [sep] + b)[1..] == a[1..] + [sep] + b;
      SplitAt(a[1..], b, sep);
      assert [a[0]] + a[1..] == a;
    }
  }

  // ---------------------------------------------------------------------
  // Facts about Replace

  /** Replacing the empty pattern by nothing changes nothing. */
  lemma {:induction false} InterleaveEmpty(s: string)
    ensures Replace(s, "", "") == s
    decreases |s|
  {
    if s != [] {
      InterleaveEmpty(s[1..]);
      assert [s[0]] + s[1..] == s;
    }
  }

  /** Deleting a character keeps exactly the other characters. */
  lemma {:induction false} DeleteCharMember(s: string, c: char, x: char)
    ensures x in ReplaceAll(s, [c], "") <==> x in s && x != c
    decreases |s|
  {
    if s != [] {
      DeleteCharMember(s[1..], c, x);
      assert s == [s[0]] + s[1..];
      if HasPrefix(s, [c]) {
        assert s[|[c]|..] == s[1..];
      }
    }
  }
}
