/** Indentation sanitising for long descriptions
    (internal/common/string/indent): tabs become spaces, the text is cut into
    lines, and every line that is not blank loses as many leading spaces as
    the least indented such line has. Blank lines become empty, and every
    line, the last one included, is followed by a newline. */
module Indent {
  import opened GoStrings
  import opened Replace

  /** `ProjectTabSize` */
  const ProjectTabSize: nat := 2

  /** `indentUndefined`: the least indent while no line has been seen. */
  const IndentUndefined: int := -1

  /** What `isEmpty` tests: nothing but spaces and tabs. */
  predicate Blank(line: string) {
    forall i :: 0 <= i < |line| ==> line[i] == ' ' || line[i] == '\t'
  }

  /** The number of leading spaces: the index of the first character that is
      not a space, or the length when there is none. */
  function IndentSize(line: string): (k: nat)
    ensures k <= |line|
    ensures forall j :: 0 <= j < k ==> line[j] == ' '
    ensures k < |line| ==> line[k] != ' '
    ensures k == |line| ==> Blank(line)
  {
    if line == [] || line[0] != ' ' then 0 else 1 + IndentSize(line[1..])
  }

  /** The lines `Sanitize` works on: tabs expanded to tabSize spaces, then
      split at every newline. */
  function Lines(s: string, tabSize: nat): seq<string> {
    Split(ReplaceAll(s, "\t", Repeat(" ", tabSize)), '\n')
  }

  /** Every line that is not blank is at least m characters long. */
  predicate Cuttable(lines: seq<string>, m: int) {
    forall i :: 0 <= i < |lines| && !Blank(lines[i]) ==> 0 <= m <= |lines[i]|
  }

  /** The least indent of the lines that are not blank, and
      `IndentUndefined` when every line is blank. */
  function MinIndent(lines: seq<string>): (r: int)
    ensures r == IndentUndefined <==> forall i :: 0 <= i < |lines| ==> Blank(lines[i])
    ensures r != IndentUndefined ==> r >= 0
    ensures forall i :: 0 <= i < |lines| && !Blank(lines[i]) ==> r <= IndentSize(lines[i])
    ensures r != IndentUndefined ==>
      exists i :: 0 <= i < |lines| && !Blank(lines[i]) && IndentSize(lines[i]) == r
    ensures Cuttable(lines, r)
  {
    if lines == [] then IndentUndefined
    else
      var init := lines[..|lines| - 1];
      var line := lines[|lines| - 1];
      var m := MinIndent(init);
      assert forall i :: 0 <= i < |init| ==> init[i] == lines[i];
      if Blank(line) then m
      else if m == IndentUndefined || IndentSize(line) < m then IndentSize(line)
      else m
  }

  /** The text a line contributes before its newline. */
  function OutLine(line: string, m: int): string
    requires !Blank(line) ==> 0 <= m <= |line|
  {
    if Blank(line) then "" else line[m..]
  }

  /** The lines, each cut by m and followed by a newline. */
  function Joined(lines: seq<string>, m: int): string
    requires Cuttable(lines, m)
  {
    if lines == [] then ""
    else
      assert forall i :: 1 <= i < |lines| ==> lines[1..][i - 1] == lines[i];
      OutLine(lines[0], m) + "\n" + Joined(lines[1..], m)
  }

  /** The texts the lines contribute, one per line. */
  function Cuts(lines: seq<string>, m: int): (r: seq<string>)
    requires Cuttable(lines, m)
    ensures |r| == |lines| && forall i :: 0 <= i < |lines| ==> r[i] == OutLine(lines[i], m)
  {
    if lines == [] then []
    else
      assert forall i :: 1 <= i < |lines| ==> lines[1..][i - 1] == lines[i];
      [OutLine(lines[0], m)] + Cuts(lines[1..], m)
  }

  /** What `Sanitize(s, tabSize)` returns. */
  function Sanitized(s: string, tabSize: nat): string {
    var lines := Lines(s, tabSize);
    Joined(lines, MinIndent(lines))
  }

  /** One more line: the step of the first loop of `Sanitize`. */
  lemma MinIndentSnoc(a: seq<string>, x: string)
    ensures MinIndent(a + [x]) ==
      if Blank(x) then MinIndent(a)
      else if MinIndent(a) == IndentUndefined || IndentSize(x) < MinIndent(a) then IndentSize(x)
      else MinIndent(a)
  {
    assert (a + [x])[..|a + [x]| - 1] == a;
  }

  /** A prefix of cuttable lines is cuttable. */
  lemma CuttablePrefix(lines: seq<string>, m: int, k: nat)
    requires Cuttable(lines, m) && k <= |lines|
    ensures Cuttable(lines[..k], m)
  {
    assert forall i :: 0 <= i < k ==> lines[..k][i] == lines[i];
  }

  /** One more line that m can cut keeps the lines cuttable. */
  lemma CuttableSnoc(a: seq<string>, x: string, m: int)
    requires Cuttable(a, m) && (!Blank(x) ==> 0 <= m <= |x|)
    ensures Cuttable(a + [x], m)
  {
    assert forall i :: 0 <= i < |a| ==> (a + [x])[i] == a[i];
  }

  /** One more line: the step of the second loop of `Sanitize`. */
  lemma {:induction false} JoinedSnoc(a: seq<string>, x: string, m: int)
    requires Cuttable(a, m) && (!Blank(x) ==> 0 <= m <= |x|)
    ensures Cuttable(a + [x], m)
    ensures Joined(a + [x], m) == Joined(a, m) + OutLine(x, m) + "\n"
    decreases |a|
  {
    CuttableSnoc(a, x, m);
    if a == [] {
      assert a + [x] == [x];
    } else {
      var tail := a[1..];
      assert (a + [x])[0] == a[0];
      assert (a + [x])[1..] == tail + [x];
      assert Cuttable(tail, m) by {
        assert forall i :: 0 <= i < |tail| ==> tail[i] == a[i + 1];
      }
      JoinedSnoc(tail, x, m);
    }
  }

  /** Joining writes one newline per line when the lines hold none. */
  lemma {:induction false} JoinedCount(lines: seq<string>, m: int)
    requires Cuttable(lines, m)
    requires forall i :: 0 <= i < |lines| ==> '\n' !in lines[i]
    ensures Count('\n', Joined(lines, m)) == |lines|
    decreases |lines|
  {
    if lines != [] {
      var head := OutLine(lines[0], m);
      assert forall c :: c in head ==> c in lines[0];
      CountAbsent('\n', head);
      JoinedCount(lines[1..], m);
      CountConcat('\n', head, "\n");
      CountConcat('\n', head + "\n", Joined(lines[1..], m));
    }
  }

  /** A character that no line holds, other than the newline, is not in the
      joined text. */
  lemma {:induction false} JoinedKeepsOut(lines: seq<string>, m: int, c: char)
    requires Cuttable(lines, m)
    requires c != '\n'
    requires forall i :: 0 <= i < |lines| ==> c !in lines[i]
    ensures c !in Joined(lines, m)
    decreases |lines|
  {
    if lines != [] {
      var head := OutLine(lines[0], m);
      assert forall x :: x in head ==> x in lines[0];
      JoinedKeepsOut(lines[1..], m, c);
    }
  }

  /** A joined text of at least one line ends with a newline. */
  lemma {:induction false} JoinedEnds(lines: seq<string>, m: int)
    requires Cuttable(lines, m)
    requires lines != []
    ensures |Joined(lines, m)| > 0 && Joined(lines, m)[|Joined(lines, m)| - 1] == '\n'
    decreases |lines|
  {
    if |lines| > 1 {
      JoinedEnds(lines[1..], m);
    }
  }

  /** Splitting the joined text at its newlines gives back each line as cut,
      and one empty part after the last newline. */
  lemma {:induction false} JoinedSplit(lines: seq<string>, m: int)
    requires Cuttable(lines, m)
    requires forall i :: 0 <= i < |lines| ==> '\n' !in lines[i]
    ensures Split(Joined(lines, m), '\n') == Cuts(lines, m) + [""]
    decreases |lines|
  {
    if lines != [] {
      var head := OutLine(lines[0], m);
      var tail := lines[1..];
      assert forall i :: 0 <= i < |tail| ==> tail[i] == lines[i + 1];
      assert '\n' !in head by {
        assert forall x :: x in head ==> x in lines[0];
      }
      JoinedSplit(tail, m);
      SplitAt(head, Joined(tail, m), '\n');
      assert Cuts(lines, m) + [""] == [head] + (Cuts(tail, m) + [""]);
    }
  }

  /** The expanded text holds no tab and as many newlines as s. */
  lemma ExpandedFacts(s: string, tabSize: nat)
    ensures '\t' !in ReplaceAll(s, "\t", Repeat(" ", tabSize))
    ensures Count('\n', ReplaceAll(s, "\t", Repeat(" ", tabSize))) == Count('\n', s)
  {
    RepeatChars(" ", tabSize, '\t');
    RepeatChars(" ", tabSize, '\n');
    ReplaceAllRemovesChar(s, '\t', Repeat(" ", tabSize));
    ReplaceAllKeepsCount(s, "\t", Repeat(" ", tabSize), '\n');
  }

  /** No tab survives sanitising. */
  lemma SanitizedHasNoTab(s: string, tabSize: nat)
    ensures '\t' !in Sanitized(s, tabSize)
  {
    var expanded := ReplaceAll(s, "\t", Repeat(" ", tabSize));
    var lines := Lines(s, tabSize);
    ExpandedFacts(s, tabSize);
    SplitKeepsOut(expanded, '\n', '\t');
    JoinedKeepsOut(lines, MinIndent(lines), '\t');
  }

  /** The result has one newline more than s: one per line, and s has one
      line more than it has newlines. */
  lemma SanitizedNewlines(s: string, tabSize: nat)
    ensures Count('\n', Sanitized(s, tabSize)) == Count('\n', s) + 1
  {
    var expanded := ReplaceAll(s, "\t", Repeat(" ", tabSize));
    var lines := Lines(s, tabSize);
    ExpandedFacts(s, tabSize);
    SplitParts(expanded, '\n');
    JoinedCount(lines, MinIndent(lines));
  }

  /** The result always ends with a newline, even for the empty string. */
  lemma SanitizedEndsWithNewline(s: string, tabSize: nat)
    ensures |Sanitized(s, tabSize)| > 0
    ensures Sanitized(s, tabSize)[|Sanitized(s, tabSize)| - 1] == '\n'
  {
    var lines := Lines(s, tabSize);
    JoinedEnds(lines, MinIndent(lines));
  }

  /** Line by line: a blank line becomes empty, every other line loses
      exactly the least indent, which is made of spaces only, and the text
      ends with the newline of the last line. */
  lemma SanitizedLines(s: string, tabSize: nat)
    ensures var lines := Lines(s, tabSize);
      var out := Split(Sanitized(s, tabSize), '\n');
      |out| == |lines| + 1 && out[|lines|] == "" &&
      forall i :: 0 <= i < |lines| ==>
        (Blank(lines[i]) ==> out[i] == "") &&
        (!Blank(lines[i]) ==>
           (out[i] == lines[i][MinIndent(lines)..] &&
            forall j :: 0 <= j < MinIndent(lines) ==> lines[i][j] == ' '))
  {
    var expanded := ReplaceAll(s, "\t", Repeat(" ", tabSize));
    var lines := Lines(s, tabSize);
    SplitParts(expanded, '\n');
    JoinedSplit(lines, MinIndent(lines));
  }

  /** When some line is not blank, some line of the result starts with a
      character other than a space: the least indent is removed entirely. */
  lemma SanitizedLeastIndent(s: string, tabSize: nat, k: nat)
    requires k < |Lines(s, tabSize)| && !Blank(Lines(s, tabSize)[k])
    ensures |Split(Sanitized(s, tabSize), '\n')| == |Lines(s, tabSize)| + 1
    ensures exists i ::
      (0 <= i < |Lines(s, tabSize)| &&
       Split(Sanitized(s, tabSize), '\n')[i] != "" && Split(Sanitized(s, tabSize), '\n')[i][0] != ' ')
  {
    var lines := Lines(s, tabSize);
    var m := MinIndent(lines);
    SanitizedLines(s, tabSize);
    var i :| 0 <= i < |lines| && !Blank(lines[i]) && IndentSize(lines[i]) == m;
    assert lines[i][m..][0] == lines[i][m];
  }

  /** Lines that contribute the same text join to the same text. */
  lemma {:induction false} JoinedPointwise(a: seq<string>, ma: int, b: seq<string>, mb: int)
    requires Cuttable(a, ma) && Cuttable(b, mb) && |a| == |b|
    requires forall i :: 0 <= i < |a| ==> OutLine(a[i], ma) == OutLine(b[i], mb)
    ensures Joined(a, ma) == Joined(b, mb)
    decreases |a|
  {
    if a != [] {
      assert OutLine(a[0], ma) == OutLine(b[0], mb);
      JoinedPointwise(a[1..], ma, b[1..], mb);
    }
  }

  /** A line with neither tabs nor only spaces keeps a character other than
      a space and a tab after its indent, whatever part of the indent is cut. */
  lemma CutStaysNonBlank(line: string, m: int)
    requires '\t' !in line && !Blank(line) && 0 <= m <= IndentSize(line)
    ensures !Blank(line[m..]) && IndentSize(line[m..]) == IndentSize(line) - m
  {
    var k := IndentSize(line);
    assert line[k] in line;
    assert line[m..][k - m] == line[k];
    forall j | 0 <= j < k - m
      ensures line[m..][j] == ' '
    {
      assert line[m..][j] == line[j + m];
    }
  }

  /** The lines of a sanitised text are the cut lines and one empty line. */
  lemma SanitizedParts(s: string, tabSize: nat)
    ensures Lines(Sanitized(s, tabSize), tabSize) ==
      Cuts(Lines(s, tabSize), MinIndent(Lines(s, tabSize))) + [""]
  {
    var expanded := ReplaceAll(s, "\t", Repeat(" ", tabSize));
    var lines := Lines(s, tabSize);
    var m := MinIndent(lines);
    var out := Joined(lines, m);
    assert out == Sanitized(s, tabSize);
    SanitizedHasNoTab(s, tabSize);
    NoCharNoContains(out, '\t');
    ReplaceAllAbsent(out, "\t", Repeat(" ", tabSize));
    assert Lines(out, tabSize) == Split(out, '\n');
    ExpandedFacts(s, tabSize);
    SplitParts(expanded, '\n');
    JoinedSplit(lines, m);
  }

  /** A cut line of tab-free lines is blank exactly when its line is, and
      keeps the rest of its line's indent. */
  lemma CutsBlank(lines: seq<string>, i: nat)
    requires forall j :: 0 <= j < |lines| ==> '\t' !in lines[j]
    requires i < |lines|
    ensures Blank(Cuts(lines, MinIndent(lines))[i]) == Blank(lines[i])
    ensures !Blank(lines[i]) ==>
      IndentSize(Cuts(lines, MinIndent(lines))[i]) == IndentSize(lines[i]) - MinIndent(lines)
  {
    if !Blank(lines[i]) {
      CutStaysNonBlank(lines[i], MinIndent(lines));
    }
  }

  /** The least indent of the cut lines of tab-free lines is zero, or
      undefined when every line is blank. */
  lemma CutsMinIndent(lines: seq<string>)
    requires forall i :: 0 <= i < |lines| ==> '\t' !in lines[i]
    ensures MinIndent(Cuts(lines, MinIndent(lines))) ==
      if MinIndent(lines) == IndentUndefined then IndentUndefined else 0
  {
    var m := MinIndent(lines);
    var cut := Cuts(lines, m);
    if m != IndentUndefined {
      var w :| 0 <= w < |lines| && !Blank(lines[w]) && IndentSize(lines[w]) == m;
      CutsBlank(lines, w);
      LeastIndentZero(cut, w);
    } else {
      forall i | 0 <= i < |cut|
        ensures Blank(cut[i])
      {
        CutsBlank(lines, i);
      }
    }
  }

  /** A line that is not blank and has no indent makes the least indent
      zero. */
  lemma LeastIndentZero(lines: seq<string>, w: nat)
    requires w < |lines| && !Blank(lines[w]) && IndentSize(lines[w]) == 0
    ensures MinIndent(lines) == 0
  {
  }

  /** Cutting a cut line of tab-free lines again by the least indent of
      the cut lines leaves it as it was. */
  lemma RecutLine(lines: seq<string>, i: nat)
    requires forall j :: 0 <= j < |lines| ==> '\t' !in lines[j]
    requires i < |lines|
    ensures var cut := Cuts(lines, MinIndent(lines));
      OutLine(cut[i], MinIndent(cut)) == OutLine(lines[i], MinIndent(lines))
  {
    var cut := Cuts(lines, MinIndent(lines));
    CutsMinIndent(lines);
    CutsBlank(lines, i);
    if !Blank(lines[i]) {
      assert cut[i][0..] == cut[i];
    }
  }

  /** One more empty line changes neither the least indent nor the other
      lines, and adds one newline. */
  lemma JoinedEmptyLine(lines: seq<string>)
    ensures MinIndent(lines + [""]) == MinIndent(lines)
    ensures Joined(lines + [""], MinIndent(lines + [""])) == Joined(lines, MinIndent(lines)) + "\n"
  {
    assert Blank("");
    MinIndentSnoc(lines, "");
    JoinedSnoc(lines, "", MinIndent(lines));
  }

  /** Joining the cut lines of tab-free lines, with one empty line more,
      gives the joined lines and one more newline. */
  lemma RejoinCuts(lines: seq<string>)
    requires forall i :: 0 <= i < |lines| ==> '\t' !in lines[i]
    ensures var cut := Cuts(lines, MinIndent(lines));
      Joined(cut + [""], MinIndent(cut + [""])) == Joined(lines, MinIndent(lines)) + "\n"
  {
    var m := MinIndent(lines);
    var cut := Cuts(lines, m);
    JoinedEmptyLine(cut);
    forall i | 0 <= i < |lines|
      ensures OutLine(cut[i], MinIndent(cut)) == OutLine(lines[i], m)
    {
      RecutLine(lines, i);
    }
    JoinedPointwise(cut, MinIndent(cut), lines, m);
  }

  /** Sanitising a sanitised text changes nothing but one more newline at
      the end: the text has no tab left, its least indent is zero, and the
      empty part after its last newline becomes one more empty line. */
  lemma SanitizedIdempotent(s: string, tabSize: nat)
    ensures Sanitized(Sanitized(s, tabSize), tabSize) == Sanitized(s, tabSize) + "\n"
  {
    var expanded := ReplaceAll(s, "\t", Repeat(" ", tabSize));
    var lines := Lines(s, tabSize);
    SanitizedParts(s, tabSize);
    ExpandedFacts(s, tabSize);
    SplitKeepsOut(expanded, '\n', '\t');
    RejoinCuts(lines);
  }

  /** `getIndentSize` */
  method GetIndentSize(s: string) returns (k: int)
    ensures k == IndentSize(s)
  {
    for i := 0 to |s|
      invariant forall j :: 0 <= j < i ==> s[j] == ' '
    {
      if s[i] != ' ' {
        return i;
      }
    }
    return |s|;
  }

  /** `isEmpty`: deletes spaces, then tabs, and compares with "". */
  method IsEmpty(s: string) returns (b: bool)
    ensures b == Blank(s)
  {
    var chain := new Chain([Replacement(" ", ""), Replacement("\t", "")]);
    var rest := chain.Apply(s);
    BlankChain(s);
    b := rest == "";
  }

  /** The first loop of `Sanitize`: the least indent of the lines that are
      not blank. */
  method LeastIndent(lines: seq<string>) returns (minIndent: int)
    ensures minIndent == MinIndent(lines)
  {
    minIndent := IndentUndefined;
    for i := 0 to |lines|
      invariant minIndent == MinIndent(lines[..i])
    {
      assert lines[..i + 1] == lines[..i] + [lines[i]];
      MinIndentSnoc(lines[..i], lines[i]);
      var empty := IsEmpty(lines[i]);
      if !empty {
        var indent := GetIndentSize(lines[i]);
        if minIndent == IndentUndefined || indent < minIndent {
          minIndent := indent;
        }
      }
    }
    assert lines[..|lines|] == lines;
  }

  /** The second loop of `Sanitize`: each line cut by the least indent, or
      emptied when blank, and followed by a newline. */
  method Cut(lines: seq<string>, minIndent: int) returns (sanitized: string)
    requires Cuttable(lines, minIndent)
    ensures sanitized == Joined(lines, minIndent)
  {
    sanitized := "";
    for i := 0 to |lines|
      invariant Cuttable(lines[..i], minIndent)
      invariant sanitized == Joined(lines[..i], minIndent)
    {
      assert lines[..i + 1] == lines[..i] + [lines[i]];
      JoinedSnoc(lines[..i], lines[i], minIndent);
      var empty := IsEmpty(lines[i]);
      if empty {
        sanitized := sanitized + "\n";
      } else {
        sanitized := sanitized + lines[i][minIndent..] + "\n";
      }
    }
    assert lines[..|lines|] == lines;
  }

  /** `Sanitize`: tabs expanded, the text split into lines, then the two
      loops. */
  method Sanitize(s: string, tabSize: nat) returns (sanitized: string)
    ensures sanitized == Sanitized(s, tabSize)
  {
    var expanded := ReplaceAll(s, "\t", Repeat(" ", tabSize));
    var lines := Split(expanded, '\n');
    var minIndent := LeastIndent(lines);
    sanitized := Cut(lines, minIndent);
  }
}
