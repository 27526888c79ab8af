/**
 * The two insight prompts are Kotlin raw strings of the form
 *
 *     """
 *         <header line>
 *         …
 *         $combined
 *     """.trimIndent()
 *
 * where `combined` is the entries joined by newlines. `trimIndent()` runs on
 * the string after interpolation, so the lines of `combined` after the first
 * take part in the common-indent computation. `AsWritten` models that;
 * `Intended` is the template with its indentation removed and the entries
 * appended, which is what the templates evidently mean.
 */
module Prompts {
  import opened Text

  /** The indentation of the template lines inside the literal. */
  const Indent: string := "            "
  /** The spaces in front of the closing quotes, the literal's last line. */
  const ClosingIndent: string := "        "

  /** The header lines as they stand in the literal: indented, except the empty line. */
  function IndentLines(header: seq<string>): (r: seq<string>)
    ensures |r| == |header|
    ensures forall i :: 0 <= i < |header| ==> r[i] == if header[i] == "" then "" else Indent + header[i]
  {
    seq(|header|, i requires 0 <= i < |header| => if header[i] == "" then "" else Indent + header[i])
  }

  /** The raw literal after interpolation: a first empty line, the header, the entries block, the closing line. */
  function RawTemplate(header: seq<string>, combined: string): string {
    JoinLines([""] + IndentLines(header) + [Indent + combined, ClosingIndent])
  }

  /** The prompt the source builds. */
  function AsWritten(header: seq<string>, combined: string): string {
    TrimIndent(RawTemplate(header, combined))
  }

  /** The prompt the template describes: the header lines, then the entries block. */
  function Intended(header: seq<string>, combined: string): string {
    JoinLines(header + [combined])
  }

  /** A header line: a single line, empty or starting with a visible character. */
  predicate HeaderLine(l: string) {
    NoLineBreak(l) && (l == "" || !IsWhitespace(l[0]))
  }

  predicate HeaderLines(header: seq<string>) {
    forall i :: 0 <= i < |header| ==> HeaderLine(header[i])
  }

  /** Entry lines: at least one, each a single line starting with a visible character. */
  predicate EntryLines(bullets: seq<string>) {
    && |bullets| >= 1
    && forall i :: 0 <= i < |bullets| ==>
         NoLineBreak(bullets[i]) && bullets[i] != "" && !IsWhitespace(bullets[i][0])
  }

  lemma IndentShape()
    ensures |Indent| == 12 && IsBlank(Indent) && NoLineBreak(Indent)
    ensures IsBlank(ClosingIndent) && NoLineBreak(ClosingIndent)
  {
  }

  lemma NoLineBreakAppend(a: string, b: string)
    requires NoLineBreak(a) && NoLineBreak(b)
    ensures NoLineBreak(a + b)
  {
    assert forall i :: 0 <= i < |a + b| ==> (a + b)[i] == if i < |a| then a[i] else b[i - |a|];
  }

  /** A header line stays one when more text without line breaks follows it. */
  lemma HeaderLineAppend(a: string, b: string)
    requires HeaderLine(a) && a != "" && NoLineBreak(b)
    ensures HeaderLine(a + b)
  {
    NoLineBreakAppend(a, b);
  }

  /** The first character of a joined block is the first character of its first line. */
  lemma JoinLinesFirst(ls: seq<string>)
    requires |ls| >= 1 && ls[0] != ""
    ensures JoinLines(ls) != "" && JoinLines(ls)[0] == ls[0][0]
  {
  }

  /** The lines `lines()` finds in the interpolated literal. */
  function RawLines(header: seq<string>, bullets: seq<string>): seq<string>
    requires |bullets| >= 1
  {
    ([""] + IndentLines(header)) + (([Indent + bullets[0]] + bullets[1..]) + [ClosingIndent])
  }

  lemma JoinTwo(x: string, y: string)
    ensures JoinLines([x, y]) == x + "\n" + y
  {
    assert [x, y][1..] == [y];
  }

  /** A block put between `a` and a last line `c` joins like its lines spread out. */
  lemma {:induction false} JoinAround(a: seq<string>, p: string, block: seq<string>, c: string)
    requires |a| >= 1 && |block| >= 1
    ensures JoinLines(a + [p + JoinLines(block), c]) ==
            JoinLines(a + (([p + block[0]] + block[1..]) + [c]))
  {
    var spread := [p + block[0]] + block[1..];
    assert a + [p + JoinLines(block), c] == a + [p + JoinLines(block), c];
    JoinLinesAppend(a, [p + JoinLines(block), c]);
    JoinTwo(p + JoinLines(block), c);
    JoinLinesPrefix(p, block);
    JoinLinesAppend(spread, [c]);
    JoinLinesAppend(a, spread + [c]);
  }

  /** The interpolated literal is the raw lines joined: the entries block spreads over several lines. */
  lemma RawTemplateJoin(header: seq<string>, bullets: seq<string>)
    requires |bullets| >= 1
    ensures RawTemplate(header, JoinLines(bullets)) == JoinLines(RawLines(header, bullets))
  {
    var a := [""] + IndentLines(header);
    JoinAround(a, Indent, bullets, ClosingIndent);
  }

  /** Lines none of which holds a line break. */
  predicate SingleLines(ls: seq<string>) {
    forall i :: 0 <= i < |ls| ==> NoLineBreak(ls[i])
  }

  lemma SingleLinesAppend(a: seq<string>, b: seq<string>)
    requires SingleLines(a) && SingleLines(b)
    ensures SingleLines(a + b)
  {
    forall i | 0 <= i < |a + b| ensures NoLineBreak((a + b)[i]) {
      if i >= |a| {
        assert (a + b)[i] == b[i - |a|];
      }
    }
  }

  /** The indented header lines hold no line break. */
  lemma IndentLinesSingle(header: seq<string>)
    requires HeaderLines(header)
    ensures SingleLines(IndentLines(header))
  {
    IndentShape();
    forall i | 0 <= i < |header| ensures NoLineBreak(IndentLines(header)[i]) {
      if header[i] != "" {
        NoLineBreakAppend(Indent, header[i]);
      }
    }
  }

  /** None of the raw lines holds a line break. */
  lemma RawLinesSingle(header: seq<string>, bullets: seq<string>)
    requires HeaderLines(header) && EntryLines(bullets)
    ensures SingleLines(RawLines(header, bullets))
  {
    var first := [""] + IndentLines(header);
    var block := [Indent + bullets[0]] + bullets[1..];
    assert SingleLines(first) by {
      IndentLinesSingle(header);
      SingleLinesAppend([""], IndentLines(header));
    }
    assert SingleLines(block + [ClosingIndent]) by {
      IndentShape();
      NoLineBreakAppend(Indent, bullets[0]);
      assert SingleLines([Indent + bullets[0]]);
      assert SingleLines(bullets[1..]) by {
        forall i | 0 <= i < |bullets[1..]| ensures NoLineBreak(bullets[1..][i]) {
          assert bullets[1..][i] == bullets[i + 1];
        }
      }
      SingleLinesAppend([Indent + bullets[0]], bullets[1..]);
      SingleLinesAppend(block, [ClosingIndent]);
    }
    SingleLinesAppend(first, block + [ClosingIndent]);
  }

  lemma RawTemplateLines(header: seq<string>, bullets: seq<string>)
    requires HeaderLines(header) && EntryLines(bullets)
    ensures Lines(RawTemplate(header, JoinLines(bullets))) == RawLines(header, bullets)
  {
    RawTemplateJoin(header, bullets);
    RawLinesSingle(header, bullets);
    LinesJoinLines(RawLines(header, bullets));
  }

  /** The interior raw lines: the header lines and the entries block, without the first and closing lines. */
  function Interior(header: seq<string>, bullets: seq<string>): seq<string>
    requires |bullets| >= 1
  {
    IndentLines(header) + ([Indent + bullets[0]] + bullets[1..])
  }

  /** `trimIndent()` of text whose first and last lines are blank. */
  lemma TrimFramed(s: string, ls: seq<string>)
    requires Lines(s) == ls && |ls| >= 2
    requires ls[0] == "" && IsBlank(ls[|ls| - 1])
    ensures TrimIndent(s) == JoinLines(DropEach(ls[1..|ls| - 1], MinIndent(ls)))
  {
    var n := MinIndent(ls);
    assert Reindent(ls, n, 0) == Reindent(ls, n, 1);
    ReindentInterior(ls, n, 1);
  }

  lemma DropEachZero(ls: seq<string>)
    ensures DropEach(ls, 0) == ls
  {
    assert forall i :: 0 <= i < |ls| ==> Drop(ls[i], 0) == ls[i];
  }

  /** The raw lines are the interior framed by an empty first line and the closing line. */
  lemma RawLinesFrame(header: seq<string>, bullets: seq<string>)
    requires |bullets| >= 1
    ensures var ls := RawLines(header, bullets);
      |ls| >= 2 && ls[0] == "" && ls[|ls| - 1] == ClosingIndent && ls[1..|ls| - 1] == Interior(header, bullets)
  {
    var a := [""] + IndentLines(header);
    var block := [Indent + bullets[0]] + bullets[1..];
    assert RawLines(header, bullets) == [""] + (IndentLines(header) + block) + [ClosingIndent];
  }

  /**
   * `trimIndent()` on the interpolated literal `s` with lines `ls`: the blank
   * first and closing lines go, every interior line loses the common indent.
   */
  lemma TrimRaw(header: seq<string>, bullets: seq<string>, s: string, ls: seq<string>, mid: seq<string>)
    requires |bullets| >= 1
    requires ls == RawLines(header, bullets) && mid == Interior(header, bullets)
    requires Lines(s) == ls
    ensures TrimIndent(s) == JoinLines(DropEach(mid, MinIndent(ls)))
  {
    assert |ls| >= 2 && ls[0] == "" && ls[|ls| - 1] == ClosingIndent && ls[1..|ls| - 1] == mid by {
      RawLinesFrame(header, bullets);
    }
    assert IsBlank(ls[|ls| - 1]) by {
      IndentShape();
    }
    TrimFramed(s, ls);
  }

  /** `trimIndent()` on the interpolated template: the interior lines, each without the common indent. */
  lemma TrimTemplate(header: seq<string>, bullets: seq<string>)
    requires HeaderLines(header) && EntryLines(bullets)
    ensures AsWritten(header, JoinLines(bullets)) ==
            JoinLines(DropEach(Interior(header, bullets), MinIndent(RawLines(header, bullets))))
  {
    var s := RawTemplate(header, JoinLines(bullets));
    var ls := RawLines(header, bullets);
    assert Lines(s) == ls by {
      RawTemplateLines(header, bullets);
    }
    TrimRaw(header, bullets, s, ls, Interior(header, bullets));
  }

  /**
   * As written, with two or more entry lines: the second entry line has no
   * indent, so the common indent is zero and `trimIndent()` only drops the
   * blank first and last lines; the template keeps its indentation.
   */
  lemma MultiLineKeepsIndent(header: seq<string>, bullets: seq<string>)
    requires HeaderLines(header) && EntryLines(bullets) && |bullets| >= 2
    ensures AsWritten(header, JoinLines(bullets)) == JoinLines(Interior(header, bullets))
  {
    TrimTemplate(header, bullets);
    var ls := RawLines(header, bullets);
    assert MinIndent(ls) == 0 by {
      var k := |header| + 2;
      assert ls[k] == bullets[1];
      assert IndentWidth(ls[k]) == 0;
      MinIndentAtMost(ls, k);
    }
    DropEachZero(Interior(header, bullets));
  }

  /** Consequently the prompt differs from the intended one: it opens with indentation. */
  lemma MultiLineDiffers(header: seq<string>, bullets: seq<string>)
    requires HeaderLines(header) && EntryLines(bullets) && |bullets| >= 2
    requires |header| >= 1 && header[0] != ""
    ensures |AsWritten(header, JoinLines(bullets))| > 0 && AsWritten(header, JoinLines(bullets))[0] == ' '
    ensures |Intended(header, JoinLines(bullets))| > 0 && Intended(header, JoinLines(bullets))[0] == header[0][0] != ' '
    ensures AsWritten(header, JoinLines(bullets)) != Intended(header, JoinLines(bullets))
  {
    MultiLineKeepsIndent(header, bullets);
    var ls := Interior(header, bullets);
    assert ls[0] == Indent + header[0];
    JoinLinesFirst(ls);
    JoinLinesFirst(header + [JoinLines(bullets)]);
  }

  /**
   * As written, with exactly one entry line: every non-blank line carries the
   * twelve spaces, so `trimIndent()` removes them and the prompt is the
   * intended one.
   */
  lemma SingleLineAsIntended(header: seq<string>, bullet: string)
    requires HeaderLines(header) && EntryLines([bullet])
    ensures AsWritten(header, bullet) == Intended(header, bullet)
  {
    var bullets := [bullet];
    assert JoinLines(bullets) == bullet;
    TrimTemplate(header, bullets);
    SingleLineIndent(header, bullet);
    SingleLineDrop(header, bullet);
  }

  /** With one entry line every non-blank raw line is indented by exactly the twelve spaces or more. */
  lemma SingleLineIndent(header: seq<string>, bullet: string)
    requires HeaderLines(header) && EntryLines([bullet])
    ensures MinIndent(RawLines(header, [bullet])) == 12
  {
    IndentShape();
    var ls := RawLines(header, [bullet]);
    var k := |header| + 1;
    assert ls == [""] + IndentLines(header) + [Indent + bullet, ClosingIndent];
    assert ls[k] == Indent + bullet && ls[k][12] == bullet[0];
    assert !IsBlank(ls[k]);
    assert 12 >= MinIndent(ls) by {
      IndentWidthAfterBlank(Indent, bullet);
      MinIndentAtMost(ls, k);
    }
    forall i | 0 <= i < |ls| && !IsBlank(ls[i]) ensures 12 <= IndentWidth(ls[i]) {
      if 1 <= i <= |header| {
        assert ls[i] == IndentLines(header)[i - 1] == Indent + header[i - 1];
        IndentWidthAfterBlank(Indent, header[i - 1]);
      } else if i == k {
        IndentWidthAfterBlank(Indent, bullet);
      }
    }
    MinIndentAtLeast(ls, 12);
  }

  /** Dropping the twelve spaces from the interior lines of a one-entry template leaves the intended lines. */
  lemma SingleLineDrop(header: seq<string>, bullet: string)
    requires HeaderLines(header) && EntryLines([bullet])
    ensures DropEach(Interior(header, [bullet]), 12) == header + [bullet]
  {
    IndentShape();
    var mid := Interior(header, [bullet]);
    assert mid == IndentLines(header) + [Indent + bullet];
    forall i | 0 <= i < |mid| ensures DropEach(mid, 12)[i] == (header + [bullet])[i] {
      if i < |header| && header[i] != "" {
        assert (Indent + header[i])[12..] == header[i];
      } else if i == |header| {
        assert (Indent + bullet)[12..] == bullet;
      }
    }
  }

  /**
   * The intended prompt is the header lines followed by exactly one line per
   * entry line, in order.
   */
  lemma IntendedLines(header: seq<string>, bullets: seq<string>)
    requires |header| >= 1 && HeaderLines(header)
    requires |bullets| >= 1 && forall i :: 0 <= i < |bullets| ==> NoLineBreak(bullets[i])
    ensures Lines(Intended(header, JoinLines(bullets))) == header + bullets
  {
    JoinLinesAppend(header, [JoinLines(bullets)]);
    JoinLinesAppend(header, bullets);
    LinesJoinLines(header + bullets);
  }
}
