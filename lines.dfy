/** Reading a text as lines, as a recipient of the share text sees it. */
module Lines {

  /** The lines of `[c] + s`, given the lines of `s`. */
  function PrependChar(c: char, lines: seq<string>): (r: seq<string>)
    requires |lines| > 0
    ensures |r| > 0
  {
    if c == '\n' then [""] + lines else [[c] + lines[0]] + lines[1..]
  }

  /** Splits a text at every line break. */
  function SplitLines(s: string): (lines: seq<string>)
    ensures |lines| > 0
  {
    if s == [] then [""] else PrependChar(s[0], SplitLines(s[1..]))
  }

  lemma PrependCharAppend(c: char, front: seq<string>, back: seq<string>)
    requires |front| > 0
    ensures PrependChar(c, front + back) == PrependChar(c, front) + back
  {
    if c != '\n' {
      assert (front + back)[1..] == front[1..] + back;
    }
  }

  /** A text without a line break is one line. */
  lemma {:induction false} SplitSingleLine(a: string)
    requires '\n' !in a
    ensures SplitLines(a) == [a]
  {
    if a != [] {
      SplitSingleLine(a[1..]);
      assert [a[0]] + a[1..] == a;
    }
  }

  /** The lines of two texts joined by a line break are the lines of the first, then those of the second. */
  lemma {:induction false} SplitAtBreak(x: string, y: string)
    ensures SplitLines(x + "\n" + y) == SplitLines(x) + SplitLines(y)
  {
    var s := x + "\n" + y;
    if x == [] {
      assert s == "\n" + y;
      assert s[1..] == y;
    } else {
      assert s[0] == x[0] && s[1..] == x[1..] + "\n" + y;
      SplitAtBreak(x[1..], y);
      PrependCharAppend(x[0], SplitLines(x[1..]), SplitLines(y));
    }
  }

  /** Two line breaks leave an empty line between the two texts. */
  lemma SplitAtBlankLine(x: string, y: string)
    ensures SplitLines(x + "\n\n" + y) == SplitLines(x) + [""] + SplitLines(y)
  {
    assert x + "\n\n" + y == x + "\n" + ("\n" + y);
    SplitAtBreak(x, "\n" + y);
    assert ("\n" + y)[1..] == y;
  }

  /** The lines of the share template, for arbitrary parts. */
  lemma SplitTemplate(header: string, names: string, score: string, quoted: string, footer: string)
    ensures SplitLines(header + "\n\n" + names + "\n" + score + "\n\n" + quoted + "\n\n" + footer)
      == SplitLines(header) + [""] + SplitLines(names) + SplitLines(score) + [""]
        + SplitLines(quoted) + [""] + SplitLines(footer)
  {
    var a := header + "\n\n" + names;
    var b := a + "\n" + score;
    var c := b + "\n\n" + quoted;
    SplitAtBlankLine(header, names);
    SplitAtBreak(a, score);
    SplitAtBlankLine(b, quoted);
    SplitAtBlankLine(c, footer);
  }

  /** With single-line parts, the share template reads as exactly eight lines. */
  lemma TemplateLines(header: string, names: string, score: string, quoted: string, footer: string)
    requires '\n' !in header && '\n' !in names && '\n' !in score && '\n' !in quoted && '\n' !in footer
    ensures SplitLines(header + "\n\n" + names + "\n" + score + "\n\n" + quoted + "\n\n" + footer)
      == [header, "", names, score, "", quoted, "", footer]
  {
    SplitTemplate(header, names, score, quoted, footer);
    SplitSingleLine(header);
    SplitSingleLine(names);
    SplitSingleLine(score);
    SplitSingleLine(quoted);
    SplitSingleLine(footer);
  }
}
