/** The text the `logs` and `logerr` commands deliver: the empty-output sentinel,
    truncation to `'...'` plus the last 1984 characters, the code block around it, and the line
    filter `grep 'ERROR'` applies to the concatenated log files. */
module LogReply {

  const NoErrorsFound := "no errors found in logs"
  const MaxLength := 2000
  const KeptTail := 1984
  const Ellipsis := "..."
  const ErrorToken := "ERROR"

  /** A reply wrapped in a code block: "```\n" + s + "\n```". */
  function CodeBlock(s: string): (r: string)
    ensures |r| == |s| + 8 && r[4..4 + |s|] == s
    ensures r[..4] == "```\n" && r[4 + |s|..] == "\n```"
  {
    "```\n" + s + "\n```"
  }

  /** `output = stdout or 'no errors found in logs'`, then, when longer than
      2000 characters, `'...' + output[-1984:]`. */
  function ReplyText(stdout: string): (r: string)
    ensures stdout == [] ==> r == NoErrorsFound
    ensures 0 < |stdout| <= MaxLength ==> r == stdout
    ensures |stdout| > MaxLength ==> |r| == 3 + KeptTail && r == Ellipsis + stdout[|stdout| - KeptTail..]
    ensures 0 < |r| <= MaxLength
  {
    var output := if stdout == [] then NoErrorsFound else stdout;
    if |output| > MaxLength then Ellipsis + output[|output| - KeptTail..] else output
  }

  /** Shortening an already shortened reply changes nothing. */
  lemma ReplyTextIdempotent(stdout: string)
    ensures ReplyText(ReplyText(stdout)) == ReplyText(stdout)
  {
  }

  /** Whatever the length of the output, its last characters, up to 1984 of
      them, end the reply unchanged. */
  lemma ReplyTextKeepsTail(stdout: string)
    requires stdout != []
    ensures var r, n := ReplyText(stdout), if |stdout| < KeptTail then |stdout| else KeptTail;
      n <= |r| && r[|r| - n..] == stdout[|stdout| - n..]
  {
  }

  // ---------------------------------------------------------------------------
  // Lines and the line filter

  /** The index of the first line feed in `s`, or `|s|` when there is none. */
  function FirstNewline(s: string): (i: nat)
    ensures i <= |s|
    ensures '\n' !in s[..i]
    ensures i < |s| ==> s[i] == '\n'
  {
    if s == [] || s[0] == '\n' then 0
    else
      var j := FirstNewline(s[1..]);
      assert s[..j + 1] == [s[0]] + s[1..][..j];
      1 + j
  }

  /** The lines of `s` without their line feeds, as `grep` reads them: a last
      line without a line feed is still a line. */
  function Lines(s: string): (ls: seq<string>)
    ensures s != [] ==> ls != []
    decreases |s|
  {
    if s == [] then []
    else
      var i := FirstNewline(s);
      if i == |s| then [s] else [s[..i]] + Lines(s[i + 1..])
  }

  /** No line contains a line feed. */
  lemma {:induction false} LinesHaveNoNewline(s: string)
    ensures forall l :: l in Lines(s) ==> '\n' !in l
    decreases |s|
  {
    if s != [] {
      var i := FirstNewline(s);
      if i < |s| {
        LinesHaveNoNewline(s[i + 1..]);
        assert '\n' !in s[..i];
      }
    }
  }

  /** Lines written out, each followed by a line feed, as `grep` prints them. */
  function Unlines(ls: seq<string>): string {
    if ls == [] then [] else ls[0] + "\n" + Unlines(ls[1..])
  }

  /** `pat` occurs in `line` (case-sensitive). */
  predicate Contains(line: string, pat: string)
    decreases |line|
  {
    |pat| <= |line| && (line[..|pat|] == pat || Contains(line[1..], pat))
  }

  /** `a` is `b` with some elements removed, the rest in their order. */
  predicate IsSubsequence(a: seq<string>, b: seq<string>) {
    if a == [] then true
    else if b == [] then false
    else if a[0] == b[0] then IsSubsequence(a[1..], b[1..])
    else IsSubsequence(a, b[1..])
  }

  /** The lines that contain `pat`, in their order. */
  function Matching(ls: seq<string>, pat: string): (r: seq<string>)
    ensures forall l :: l in r <==> l in ls && Contains(l, pat)
    ensures IsSubsequence(r, ls)
    ensures forall l :: multiset(r)[l] == if Contains(l, pat) then multiset(ls)[l] else 0
  {
    if ls == [] then []
    else
      assert ls == [ls[0]] + ls[1..];
      if Contains(ls[0], pat) then [ls[0]] + Matching(ls[1..], pat)
      else Matching(ls[1..], pat)
  }

  /** What `grep pat` prints for the text on its input. */
  function Grep(text: string, pat: string): string {
    Unlines(Matching(Lines(text), pat))
  }

  lemma SplitAtNewline(a: string, b: string)
    requires '\n' !in a
    ensures FirstNewline(a + "\n" + b) == |a|
  {
    var s := a + "\n" + b;
    assert forall k :: 0 <= k < |a| ==> s[k] == a[k];
    assert s[|a|] == '\n';
  }

  /** Splitting written-out lines gives the lines back. */
  lemma {:induction false} LinesOfUnlines(ls: seq<string>)
    requires forall l :: l in ls ==> '\n' !in l
    ensures Lines(Unlines(ls)) == ls
  {
    if ls != [] {
      var rest := Unlines(ls[1..]);
      var s := ls[0] + "\n" + rest;
      SplitAtNewline(ls[0], rest);
      assert s[..|ls[0]|] == ls[0];
      assert s[|ls[0]| + 1..] == rest;
      LinesOfUnlines(ls[1..]);
    }
  }

  /** A text that ends in a line feed has a line feed before its end, and what
      follows the first one ends in a line feed too. */
  lemma NewlineBeforeEnd(s: string)
    requires s != [] && s[|s| - 1] == '\n'
    ensures FirstNewline(s) < |s|
    ensures var rest := s[FirstNewline(s) + 1..]; rest == [] || rest[|rest| - 1] == '\n'
  {
  }

  /** A text is split at its first line feed into its first line and the rest. */
  lemma LinesAtNewline(s: string)
    requires FirstNewline(s) < |s|
    ensures var i := FirstNewline(s);
      Lines(s) == [s[..i]] + Lines(s[i + 1..]) && s == s[..i] + "\n" + s[i + 1..]
  {
    SplitAround(s, FirstNewline(s));
  }

  lemma SplitAround(s: string, i: nat)
    requires i < |s| && s[i] == '\n'
    ensures s == s[..i] + "\n" + s[i + 1..]
  {
    assert s == s[..i] + s[i..];
    assert s[i..] == [s[i]] + s[i + 1..];
  }

  lemma UnlinesCons(line: string, ls: seq<string>)
    ensures Unlines([line] + ls) == line + "\n" + Unlines(ls)
  {
    assert ([line] + ls)[1..] == ls;
  }

  /** Writing out the lines of a text that ends in a line feed gives the text back. */
  lemma {:induction false} UnlinesOfLines(s: string)
    requires s == [] || s[|s| - 1] == '\n'
    ensures Unlines(Lines(s)) == s
    decreases |s|
  {
    if s != [] {
      NewlineBeforeEnd(s);
      LinesAtNewline(s);
      var i := FirstNewline(s);
      UnlinesOfLines(s[i + 1..]);
      UnlinesCons(s[..i], Lines(s[i + 1..]));
    }
  }

  /** A text without a line feed is one line. */
  lemma SingleLine(s: string)
    requires s != [] && FirstNewline(s) == |s|
    ensures Lines(s) == [s]
  {
  }

  /** After the first line feed of a text whose last character is not a line
      feed, the rest is again such a text. */
  lemma RestUnterminated(s: string)
    requires FirstNewline(s) < |s| && s[|s| - 1] != '\n'
    ensures var rest := s[FirstNewline(s) + 1..]; rest != [] && rest[|rest| - 1] != '\n'
  {
  }

  /** A text whose last line has no line feed is written back out with one
      added, as `grep` prints such a line. */
  lemma {:induction false} UnlinesOfLinesUnterminated(s: string)
    requires s != [] && s[|s| - 1] != '\n'
    ensures Unlines(Lines(s)) == s + "\n"
    decreases |s|
  {
    var i := FirstNewline(s);
    if i == |s| {
      SingleLine(s);
      UnlinesCons(s, []);
    } else {
      LinesAtNewline(s);
      RestUnterminated(s);
      UnlinesOfLinesUnterminated(s[i + 1..]);
      UnlinesCons(s[..i], Lines(s[i + 1..]));
    }
  }

  /** The output of `grep pat`, read as lines, is exactly the input lines that
      contain `pat`, in their original order. */
  lemma GrepKeepsMatchingLines(text: string, pat: string)
    ensures Lines(Grep(text, pat)) == Matching(Lines(text), pat)
    ensures forall l :: l in Lines(Grep(text, pat)) <==> l in Lines(text) && Contains(l, pat)
    ensures IsSubsequence(Lines(Grep(text, pat)), Lines(text))
    ensures forall l :: multiset(Lines(Grep(text, pat)))[l] == (if Contains(l, pat) then multiset(Lines(text))[l] else 0)
  {
    LinesHaveNoNewline(text);
    LinesOfUnlines(Matching(Lines(text), pat));
  }

  /** A text whose every line contains `pat` and that ends in a line feed passes
      through `grep pat` unchanged. */
  lemma {:induction false} GrepAllMatching(text: string, pat: string)
    requires text == [] || text[|text| - 1] == '\n'
    requires forall l :: l in Lines(text) ==> Contains(l, pat)
    ensures Grep(text, pat) == text
  {
    MatchingAll(Lines(text), pat);
    UnlinesOfLines(text);
  }

  lemma {:induction false} MatchingAll(ls: seq<string>, pat: string)
    requires forall l :: l in ls ==> Contains(l, pat)
    ensures Matching(ls, pat) == ls
  {
    if ls != [] {
      MatchingAll(ls[1..], pat);
    }
  }
}
