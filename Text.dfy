/**
 * The few Kotlin string operations the screens rely on: `contains`, `trim`,
 * `isBlank`, `take`/`drop`, `lowercase`, `replaceFirstChar`, `joinToString("\n")`,
 * `lines()` and `trimIndent()`. Case mapping is modelled on ASCII letters only.
 */
module Text {

  /** Kotlin's `Char.isWhitespace()` on the JVM: `Character.isWhitespace(c) || Character.isSpaceChar(c)`. */
  predicate IsWhitespace(c: char) {
    || c == '\t' || c == '\n' || c == '\U{000B}' || c == '\U{000C}' || c == '\r'
    || ('\U{001C}' <= c <= '\U{001F}')
    || c == ' ' || c == '\U{00A0}' || c == '\U{1680}'
    || ('\U{2000}' <= c <= '\U{200A}')
    || c == '\U{2028}' || c == '\U{2029}' || c == '\U{202F}' || c == '\U{205F}' || c == '\U{3000}'
  }

  /** Kotlin's `isBlank()`: empty or whitespace only. */
  predicate IsBlank(s: string) {
    forall i :: 0 <= i < |s| ==> IsWhitespace(s[i])
  }

  /** The line terminators `lines()` splits on. */
  predicate IsLineBreak(c: char) {
    c == '\n' || c == '\r'
  }

  predicate NoLineBreak(s: string) {
    forall i :: 0 <= i < |s| ==> !IsLineBreak(s[i])
  }

  // ---------------------------------------------------------------- contains

  predicate StartsWith(s: string, prefix: string) {
    |prefix| <= |s| && s[..|prefix|] == prefix
  }

  /** `sub in s` (Kotlin `CharSequence.contains`): `sub` occurs somewhere in `s`. */
  predicate Contains(s: string, sub: string)
    decreases |s|
  {
    StartsWith(s, sub) || (|s| > 0 && Contains(s[1..], sub))
  }

  /**
   * Text put in front of `x` cannot create an occurrence of `k` when the first
   * character of `k` does not appear in it.
   */
  lemma {:induction false} ContainsAfterPrefix(p: string, x: string, k: string)
    requires k != [] && k[0] !in p
    ensures Contains(p + x, k) <==> Contains(x, k)
    decreases |p|
  {
    if p != [] {
      assert (p + x)[1..] == p[1..] + x;
      ContainsAfterPrefix(p[1..], x, k);
      assert (p + x)[0] == p[0] != k[0];
    } else {
      assert p + x == x;
    }
  }

  /** A text lacking one of the characters of `sub` does not contain `sub`. */
  lemma {:induction false} MissingCharNotContained(s: string, sub: string, i: nat)
    requires i < |sub| && sub[i] !in s
    ensures !Contains(s, sub)
    decreases |s|
  {
    if |s| > 0 {
      MissingCharNotContained(s[1..], sub, i);
    }
  }

  // ---------------------------------------------------------------- case mapping

  /** `Char.lowercaseChar()` restricted to ASCII letters. */
  function LowerChar(c: char): (r: char)
    ensures 'A' <= c <= 'Z' ==> r as int == c as int + 32
    ensures !('A' <= c <= 'Z') ==> r == c
  {
    if 'A' <= c <= 'Z' then (c as int + 32) as char else c
  }

  /** `Char.uppercaseChar()` restricted to ASCII letters. */
  function UpperChar(c: char): (r: char)
    ensures 'a' <= c <= 'z' ==> r as int == c as int - 32
    ensures !('a' <= c <= 'z') ==> r == c
  {
    if 'a' <= c <= 'z' then (c as int - 32) as char else c
  }

  /** `String.lowercase()`. */
  function Lower(s: string): (r: string)
    ensures |r| == |s|
    ensures forall i :: 0 <= i < |s| ==> r[i] == LowerChar(s[i])
  {
    seq(|s|, i requires 0 <= i < |s| => LowerChar(s[i]))
  }

  /** A lowercase letter that occurs in `s` in neither case does not occur in its lowercase form. */
  lemma LowerAvoids(s: string, c: char)
    requires 'a' <= c <= 'z' && c !in s && UpperChar(c) !in s
    ensures c !in Lower(s)
  {
    forall i | 0 <= i < |s| ensures Lower(s)[i] != c {
      assert s[i] != c && s[i] != UpperChar(c);
    }
  }

  /** `replaceFirstChar { it.uppercase() }`. */
  function CapitalizeFirst(s: string): (r: string)
    ensures |r| == |s|
    ensures s != [] ==> r[0] == UpperChar(s[0]) && r[1..] == s[1..]
  {
    if s == [] then s else [UpperChar(s[0])] + s[1..]
  }

  /** Capitalising the first letter is forgotten again by lower-casing. */
  lemma LowerCapitalizeFirst(s: string)
    ensures Lower(CapitalizeFirst(s)) == Lower(s)
  {
    if s != [] {
      var c := s[0];
      assert LowerChar(UpperChar(c)) == LowerChar(c);
    }
  }

  /** Lower-casing twice is lower-casing once. */
  lemma LowerIdempotent(s: string)
    ensures Lower(Lower(s)) == Lower(s)
  {
  }

  lemma LowerAppend(a: string, b: string)
    ensures Lower(a + b) == Lower(a) + Lower(b)
  {
  }

  // ---------------------------------------------------------------- trim

  /** `trimStart()`: drop leading whitespace. */
  function TrimStart(s: string): (r: string)
    ensures |r| <= |s| && r == s[|s| - |r|..]
    ensures IsBlank(s[..|s| - |r|])
    ensures r == [] || !IsWhitespace(r[0])
    decreases |s|
  {
    if |s| > 0 && IsWhitespace(s[0]) then
      var r := TrimStart(s[1..]);
      assert s[..|s| - |r|] == [s[0]] + s[1..][..|s| - 1 - |r|];
      r
    else
      s
  }

  /** `trimEnd()`: drop trailing whitespace. */
  function TrimEnd(s: string): (r: string)
    ensures |r| <= |s| && r == s[..|r|]
    ensures IsBlank(s[|r|..])
    ensures r == [] || !IsWhitespace(r[|r| - 1])
    decreases |s|
  {
    if |s| > 0 && IsWhitespace(s[|s| - 1]) then
      var r := TrimEnd(s[..|s| - 1]);
      assert s[|r|..] == s[..|s| - 1][|r|..] + [s[|s| - 1]];
      r
    else
      s
  }

  /** `trim()`. */
  function Trim(s: string): string {
    TrimEnd(TrimStart(s))
  }

  /** `s.trim().isEmpty()` exactly when `s` is blank. */
  lemma TrimEmptyIffBlank(s: string)
    ensures Trim(s) == [] <==> IsBlank(s)
  {
    var t := TrimStart(s);
    var k := |s| - |t|;
    if Trim(s) == [] {
      assert t[0..] == t;
      forall i | 0 <= i < |s| ensures IsWhitespace(s[i]) {
        if i < k {
          assert s[..k][i] == s[i];
        }
      }
    }
  }

  // ---------------------------------------------------------------- take / drop

  /** `take(n)`: the first `n` characters, or all of them. */
  function Take<T>(s: seq<T>, n: nat): (r: seq<T>)
    ensures |r| == if n <= |s| then n else |s|
    ensures r == s[..|r|]
  {
    if n <= |s| then s[..n] else s
  }

  /** `drop(n)`: all but the first `n` characters. */
  function Drop(s: string, n: nat): (r: string)
    ensures |r| == if n <= |s| then |s| - n else 0
    ensures r == s[|s| - |r|..]
  {
    if n <= |s| then s[n..] else []
  }

  // ---------------------------------------------------------------- lines

  /** `joinToString("\n")`. */
  function JoinLines(ls: seq<string>): string
    decreases |ls|
  {
    if |ls| == 0 then ""
    else if |ls| == 1 then ls[0]
    else ls[0] + "\n" + JoinLines(ls[1..])
  }

  /** `lines()`: split on CRLF, LF and CR; there is always at least one line. */
  function Lines(s: string): (ls: seq<string>)
    ensures |ls| >= 1
    decreases |s|
  {
    if s == [] then [""]
    else if s[0] == '\n' then [""] + Lines(s[1..])
    else if s[0] == '\r' then [""] + Lines(if |s| > 1 && s[1] == '\n' then s[2..] else s[1..])
    else
      var rest := Lines(s[1..]);
      [[s[0]] + rest[0]] + rest[1..]
  }

  /** A line without terminators is glued onto the first line of what follows it. */
  lemma {:induction false} LinesAfterLine(l: string, t: string)
    requires NoLineBreak(l)
    ensures Lines(l + t) == [l + Lines(t)[0]] + Lines(t)[1..]
    decreases |l|
  {
    if l != [] {
      assert (l + t)[0] == l[0];
      assert (l + t)[1..] == l[1..] + t;
      LinesAfterLine(l[1..], t);
      assert [l[0]] + (l[1..] + Lines(t)[0]) == l + Lines(t)[0];
    } else {
      assert l + t == t;
      assert Lines(t) == [Lines(t)[0]] + Lines(t)[1..];
      assert l + Lines(t)[0] == Lines(t)[0];
    }
  }

  /** Splitting what `joinToString("\n")` built gives back the lines (round trip). */
  lemma {:induction false} LinesJoinLines(ls: seq<string>)
    requires |ls| >= 1
    requires forall i :: 0 <= i < |ls| ==> NoLineBreak(ls[i])
    ensures Lines(JoinLines(ls)) == ls
    decreases |ls|
  {
    if |ls| == 1 {
      LinesAfterLine(ls[0], "");
      assert ls[0] + "" == ls[0];
    } else {
      var rest := JoinLines(ls[1..]);
      LinesJoinLines(ls[1..]);
      assert ls[0] + "\n" + rest == ls[0] + ("\n" + rest);
      LinesAfterLine(ls[0], "\n" + rest);
      assert ("\n" + rest)[1..] == rest;
      assert Lines("\n" + rest) == [""] + ls[1..];
      assert ls[0] + "" == ls[0];
    }
  }

  /** `joinToString("\n")` of two non-empty lists is the two joined by one more newline. */
  lemma {:induction false} JoinLinesAppend(xs: seq<string>, ys: seq<string>)
    requires |xs| >= 1 && |ys| >= 1
    ensures JoinLines(xs + ys) == JoinLines(xs) + "\n" + JoinLines(ys)
    decreases |xs|
  {
    if |xs| == 1 {
      assert (xs + ys)[1..] == ys;
    } else {
      assert (xs + ys)[1..] == xs[1..] + ys;
      JoinLinesAppend(xs[1..], ys);
    }
  }

  /** Text written in front of a joined block lands on its first line. */
  lemma {:induction false} JoinLinesPrefix(p: string, ls: seq<string>)
    requires |ls| >= 1
    ensures p + JoinLines(ls) == JoinLines([p + ls[0]] + ls[1..])
  {
    var ls' := [p + ls[0]] + ls[1..];
    assert |ls'| == |ls| && ls'[0] == p + ls[0] && ls'[1..] == ls[1..];
    if |ls| > 1 {
      var rest := JoinLines(ls[1..]);
      calc {
        p + JoinLines(ls);
        p + (ls[0] + "\n" + rest);
        (p + ls[0]) + "\n" + rest;
        JoinLines(ls');
      }
    }
  }

  // ---------------------------------------------------------------- trimIndent

  /** Width of the leading whitespace of a line (Kotlin's private `indentWidth`). */
  function IndentWidth(l: string): (w: nat)
    ensures w <= |l|
    decreases |l|
  {
    if l == [] then 0
    else if IsWhitespace(l[0]) then 1 + IndentWidth(l[1..])
    else 0
  }

  /** `minOrNull()` of the indent widths of the non-blank lines. */
  function MinIndent(ls: seq<string>): (m: nat)
    decreases |ls|
  {
    if ls == [] then 0
    else if IsBlank(ls[0]) then MinIndent(ls[1..])
    else if NoneNonBlank(ls[1..]) then IndentWidth(ls[0])
    else
      var rest := MinIndent(ls[1..]);
      if rest < IndentWidth(ls[0]) then rest else IndentWidth(ls[0])
  }

  predicate NoneNonBlank(ls: seq<string>) {
    forall i :: 0 <= i < |ls| ==> IsBlank(ls[i])
  }

  /**
   * `reindent` with an empty new indent, from line `i` on: the first and the
   * last line are dropped when blank, every other line loses `n` characters.
   */
  function Reindent(ls: seq<string>, n: nat, i: nat): seq<string>
    requires i <= |ls|
    decreases |ls| - i
  {
    if i == |ls| then []
    else if (i == 0 || i == |ls| - 1) && IsBlank(ls[i]) then Reindent(ls, n, i + 1)
    else [Drop(ls[i], n)] + Reindent(ls, n, i + 1)
  }

  /** `trimIndent()` (that is, `replaceIndent("")`). */
  function TrimIndent(s: string): string {
    var ls := Lines(s);
    JoinLines(Reindent(ls, MinIndent(ls), 0))
  }

  /** Every non-blank line is at least as indented as the common indent. */
  lemma {:induction false} MinIndentAtMost(ls: seq<string>, i: nat)
    requires i < |ls| && !IsBlank(ls[i])
    ensures MinIndent(ls) <= IndentWidth(ls[i])
    decreases |ls|
  {
    if i > 0 {
      assert ls[1..][i - 1] == ls[i];
      if !IsBlank(ls[0]) {
        assert !NoneNonBlank(ls[1..]);
      }
      MinIndentAtMost(ls[1..], i - 1);
    }
  }

  /** When every non-blank line is indented by `k` or more, so is the common indent. */
  lemma {:induction false} MinIndentAtLeast(ls: seq<string>, k: nat)
    requires exists i :: 0 <= i < |ls| && !IsBlank(ls[i])
    requires forall i :: 0 <= i < |ls| && !IsBlank(ls[i]) ==> k <= IndentWidth(ls[i])
    ensures k <= MinIndent(ls)
    decreases |ls|
  {
    var i :| 0 <= i < |ls| && !IsBlank(ls[i]);
    if IsBlank(ls[0]) || !NoneNonBlank(ls[1..]) {
      if IsBlank(ls[0]) {
        assert i > 0 && ls[1..][i - 1] == ls[i];
      }
      if !NoneNonBlank(ls[1..]) {
        forall j | 0 <= j < |ls[1..]| && !IsBlank(ls[1..][j]) ensures k <= IndentWidth(ls[1..][j]) {
          assert ls[1..][j] == ls[j + 1];
        }
        MinIndentAtLeast(ls[1..], k);
      }
    }
  }

  /** A blank run followed by a non-whitespace character: the indent is the run's length. */
  lemma {:induction false} IndentWidthAfterBlank(p: string, t: string)
    requires IsBlank(p)
    requires t != [] && !IsWhitespace(t[0])
    ensures IndentWidth(p + t) == |p|
    decreases |p|
  {
    if p != [] {
      assert (p + t)[1..] == p[1..] + t;
      IndentWidthAfterBlank(p[1..], t);
    } else {
      assert p + t == t;
    }
  }

  /** Every line with its first `n` characters removed. */
  function DropEach(ls: seq<string>, n: nat): (r: seq<string>)
    ensures |r| == |ls|
    ensures forall k :: 0 <= k < |ls| ==> r[k] == Drop(ls[k], n)
  {
    seq(|ls|, k requires 0 <= k < |ls| => Drop(ls[k], n))
  }

  lemma DropEachCons(ls: seq<string>, n: nat)
    requires |ls| >= 1
    ensures DropEach(ls, n) == [Drop(ls[0], n)] + DropEach(ls[1..], n)
  {
    assert forall k :: 1 <= k < |ls| ==> ls[1..][k - 1] == ls[k];
  }

  /**
   * From an interior line on, with a blank last line, reindenting drops `n`
   * characters from every line before the last and drops the last one.
   */
  lemma {:induction false} ReindentInterior(ls: seq<string>, n: nat, i: nat)
    requires 1 <= i <= |ls| - 1
    requires IsBlank(ls[|ls| - 1])
    ensures Reindent(ls, n, i) == DropEach(ls[i..|ls| - 1], n)
    decreases |ls| - i
  {
    if i < |ls| - 1 {
      var t := ls[i..|ls| - 1];
      assert t[0] == ls[i] && t[1..] == ls[i + 1..|ls| - 1];
      DropEachCons(t, n);
      ReindentInterior(ls, n, i + 1);
    } else {
      assert Reindent(ls, n, i + 1) == [];
    }
  }
}
