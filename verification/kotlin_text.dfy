/** The Kotlin standard-library text functions the program relies on: String.lines(), joining
    with "\n", and String.trimIndent() (which is replaceIndent("")). */
module KotlinText {
  import opened Base

  predicate IsLineBreak(c: char) {
    c == '\n' || c == '\r'
  }

  predicate NoBreaks(s: string) {
    forall i :: 0 <= i < |s| ==> !IsLineBreak(s[i])
  }

  /** Index of the first line break in `s`, or |s|. */
  function FirstBreak(s: string): (k: nat)
    ensures k <= |s|
    ensures forall j :: 0 <= j < k ==> !IsLineBreak(s[j])
    ensures k < |s| ==> IsLineBreak(s[k])
  {
    if |s| == 0 || IsLineBreak(s[0]) then 0 else 1 + FirstBreak(s[1..])
  }

  /** String.lines(): split at "\r\n", "\n" and "\r"; a trailing break leaves an empty last line. */
  function Lines(s: string): (ls: seq<string>)
    ensures |ls| >= 1
    ensures forall i :: 0 <= i < |ls| ==> NoBreaks(ls[i])
    decreases |s|
  {
    var k := FirstBreak(s);
    if k == |s| then [s]
    else
      var next := if s[k] == '\r' && k + 1 < |s| && s[k + 1] == '\n' then k + 2 else k + 1;
      [s[..k]] + Lines(s[next..])
  }

  /** joinToString("\n"). */
  function Join(ls: seq<string>): string {
    if |ls| == 0 then ""
    else if |ls| == 1 then ls[0]
    else ls[0] + "\n" + Join(ls[1..])
  }

  /** Splitting what was joined gives back the lines, when no line holds a break. */
  lemma {:induction false} LinesOfJoin(ls: seq<string>)
    requires |ls| >= 1
    requires forall i :: 0 <= i < |ls| ==> NoBreaks(ls[i])
    ensures Lines(Join(ls)) == ls
  {
    if |ls| > 1 {
      var s := Join(ls);
      var rest := Join(ls[1..]);
      assert s == ls[0] + "\n" + rest;
      assert s[|ls[0]|] == '\n';
      assert FirstBreak(s) == |ls[0]|;
      assert s[..|ls[0]|] == ls[0];
      assert s[|ls[0]| + 1..] == rest;
      LinesOfJoin(ls[1..]);
    }
  }

  /** Joining two non-empty groups of lines puts one break between them. */
  lemma {:induction false} JoinAppend(a: seq<string>, b: seq<string>)
    requires |a| >= 1 && |b| >= 1
    ensures Join(a + b) == Join(a) + "\n" + Join(b)
  {
    if |a| > 1 {
      assert (a + b)[1..] == a[1..] + b;
      JoinAppend(a[1..], b);
    } else {
      assert (a + b)[1..] == b;
    }
  }

  /** Text put in front of the first line becomes part of it. */
  lemma {:induction false} JoinPrepend(x: string, ls: seq<string>)
    requires |ls| >= 1
    ensures x + Join(ls) == Join([x + ls[0]] + ls[1..])
  {
    var ms := [x + ls[0]] + ls[1..];
    if |ls| > 1 {
      assert ms[0] == x + ls[0] && ms[1..] == ls[1..];
      assert Join(ms) == ms[0] + "\n" + Join(ms[1..]);
      assert Join(ls) == ls[0] + "\n" + Join(ls[1..]);
    } else {
      assert ms == [x + ls[0]];
    }
  }

  // ---------------------------------------------------------------------------
  // trimIndent
  // ---------------------------------------------------------------------------

  /** The number of leading whitespace characters; the whole length for a blank line. */
  function IndentWidth(l: string): (w: nat)
    ensures w <= |l|
    ensures forall j :: 0 <= j < w ==> IsWhitespace(l[j])
    ensures w < |l| ==> !IsWhitespace(l[w])
  {
    if |l| == 0 || !IsWhitespace(l[0]) then 0 else 1 + IndentWidth(l[1..])
  }

  /** The smallest indent of a non-blank line, 0 when every line is blank. */
  function MinIndent(ls: seq<string>): (m: nat)
    ensures forall i :: 0 <= i < |ls| && !IsBlank(ls[i]) ==> m <= IndentWidth(ls[i])
    ensures (exists i :: 0 <= i < |ls| && !IsBlank(ls[i])) ==>
      exists i :: 0 <= i < |ls| && !IsBlank(ls[i]) && m == IndentWidth(ls[i])
  {
    if |ls| == 0 then 0
    else
      var rest := MinIndent(ls[1..]);
      var restHasText := exists i :: 0 <= i < |ls| - 1 && !IsBlank(ls[1..][i]);
      if IsBlank(ls[0]) then
        (assert forall i :: 1 <= i < |ls| ==> ls[i] == ls[1..][i - 1]; rest)
      else if !restHasText || IndentWidth(ls[0]) <= rest then
        (assert forall i :: 1 <= i < |ls| ==> ls[i] == ls[1..][i - 1]; IndentWidth(ls[0]))
      else
        (assert forall i :: 1 <= i < |ls| ==> ls[i] == ls[1..][i - 1]; rest)
  }

  /** The minimum is determined by its two defining facts. */
  lemma MinIndentIs(ls: seq<string>, m: nat, k: nat)
    requires k < |ls| && !IsBlank(ls[k]) && IndentWidth(ls[k]) == m
    requires forall i :: 0 <= i < |ls| && !IsBlank(ls[i]) ==> m <= IndentWidth(ls[i])
    ensures MinIndent(ls) == m
  {
  }

  /** String.drop(n). */
  function Drop(l: string, n: nat): (d: string)
    ensures |d| == if n <= |l| then |l| - n else 0
  {
    if n <= |l| then l[n..] else ""
  }

  /** The lines replaceIndent keeps: a blank first or last line is dropped, every other line loses
      `m` characters. */
  function Reindent(ls: seq<string>, m: nat): (out: seq<string>)
  {
    var a := if |ls| > 0 && IsBlank(ls[0]) then 1 else 0;
    var b := if |ls| > 1 && IsBlank(ls[|ls| - 1]) then |ls| - 1 else |ls|;
    if a >= b then [] else seq(b - a, i requires 0 <= i < b - a => Drop(ls[a + i], m))
  }

  /** String.trimIndent(). */
  function TrimIndent(s: string): string {
    var ls := Lines(s);
    Join(Reindent(ls, MinIndent(ls)))
  }
}
