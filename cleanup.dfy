/** The four clean-up passes that end `generatePrompt`, written as explicit
    scanners over the text. Each pass has a matcher that says how long a match
    starting at the front of a text is, proved to return the match the
    regular expression takes (the longest one, which for these patterns is
    what backtracking finds first), and a scanner that applies it leftmost
    first, without overlaps, as `String.prototype.replace` does. */
module CleanupPasses {
  import opened Seqs
  import opened Strings

  /** The length of the run of `\w` characters at the front of `s`. */
  function WordRun(s: string): (n: nat)
    ensures n <= |s| && AllWord(s[..n])
    ensures n < |s| ==> !IsWordChar(s[n])
  {
    if s == [] || !IsWordChar(s[0]) then 0
    else
      var n := 1 + WordRun(s[1..]);
      assert forall i :: 1 <= i < n ==> s[..n][i] == s[1..][..n - 1][i - 1];
      n
  }

  /** The length of the run of `\s` characters at the front of `s`. */
  function SpaceRun(s: string): (n: nat)
    ensures n <= |s| && AllSpace(s[..n])
    ensures n < |s| ==> !IsSpace(s[n])
  {
    if s == [] || !IsSpace(s[0]) then 0
    else
      var n := 1 + SpaceRun(s[1..]);
      assert forall i :: 1 <= i < n ==> s[..n][i] == s[1..][..n - 1][i - 1];
      n
  }

  /** No longer run of white space starts at the front of `s`. */
  lemma {:induction false} SpaceRunLongest(s: string, k: nat)
    requires k <= |s| && AllSpace(s[..k])
    ensures k <= SpaceRun(s)
  {
    if k > 0 {
      assert IsSpace(s[..k][0]);
      var t := s[1..];
      var w := t[..k - 1];
      forall i | 0 <= i < |w|
        ensures IsSpace(w[i])
      {
        assert w[i] == s[..k][i + 1];
      }
      SpaceRunLongest(t, k - 1);
    }
  }

  /** The position of the last line feed in `s`. */
  function LastNewline(s: string): (r: Option<nat>)
    ensures r.Some? ==> r.value < |s| && s[r.value] == '\n'
    ensures r.Some? ==> forall q :: r.value < q < |s| ==> s[q] != '\n'
    ensures r.None? ==> forall q :: 0 <= q < |s| ==> s[q] != '\n'
  {
    if s == [] then None
    else if s[|s| - 1] == '\n' then Some(|s| - 1)
    else LastNewline(s[..|s| - 1])
  }

  /** `\(\[\w*\]\)`: an unfilled placeholder in parentheses. */
  predicate IsParenPlaceholder(m: string) {
    && |m| >= 4 && m[0] == '(' && m[1] == '['
    && AllWord(m[2..|m| - 2]) && m[|m| - 2] == ']' && m[|m| - 1] == ')'
  }

  /** `\(\s*\)`: parentheses holding only white space. */
  predicate IsEmptyParens(m: string) {
    |m| >= 2 && m[0] == '(' && AllSpace(m[1..|m| - 1]) && m[|m| - 1] == ')'
  }

  /** `\[\w+\]:`: a placeholder used as a label. */
  predicate IsLabel(m: string) {
    && |m| >= 4 && m[0] == '['
    && AllWord(m[1..|m| - 2]) && m[|m| - 2] == ']' && m[|m| - 1] == ':'
  }

  /** `\[\w+\]:\s*\n`: a label, white space, and a line feed that ends it. */
  ghost predicate IsLabelLine(m: string) {
    exists j :: 0 <= j < |m| && IsLabel(m[..j]) && AllSpace(m[j..]) && m[|m| - 1] == '\n'
  }

  /** `\[\w+\]:\s*`: a label followed by white space only. */
  ghost predicate IsTrailingLabel(m: string) {
    exists j :: 0 <= j <= |m| && IsLabel(m[..j]) && AllSpace(m[j..])
  }

  /** A stretch of word characters followed by a non-word character is the
      whole run. */
  lemma WordRunEnds(s: string, k: nat)
    requires k < |s| && AllWord(s[..k]) && !IsWordChar(s[k])
    ensures WordRun(s) == k
  {
    if k > 0 {
      assert s[0] == s[..k][0];
      assert s[1..][..k - 1] == s[..k][1..];
      WordRunEnds(s[1..], k - 1);
    }
  }

  lemma SpaceRunEnds(s: string, k: nat)
    requires k < |s| && AllSpace(s[..k]) && !IsSpace(s[k])
    ensures SpaceRun(s) == k
  {
    if k > 0 {
      assert s[0] == s[..k][0];
      assert s[1..][..k - 1] == s[..k][1..];
      SpaceRunEnds(s[1..], k - 1);
    }
  }

  /** The only prefix of `s` that can be a label. */
  lemma LabelUnique(s: string, j: nat)
    requires j <= |s| && IsLabel(s[..j])
    ensures s[0] == '[' && j == 1 + WordRun(s[1..]) + 2
  {
    assert s[1..][..j - 3] == s[..j][1..j - 2];
    WordRunEnds(s[1..], j - 3);
  }

  lemma ParenPlaceholderUnique(s: string, j: nat)
    requires j <= |s| && IsParenPlaceholder(s[..j])
    ensures s[0] == '(' && s[1] == '[' && j == 2 + WordRun(s[2..]) + 2
  {
    assert s[2..][..j - 4] == s[..j][2..j - 2];
    WordRunEnds(s[2..], j - 4);
  }

  lemma EmptyParensUnique(s: string, j: nat)
    requires j <= |s| && IsEmptyParens(s[..j])
    ensures s[0] == '(' && j == 1 + SpaceRun(s[1..]) + 1
  {
    assert s[1..][..j - 2] == s[..j][1..j - 1];
    SpaceRunEnds(s[1..], j - 2);
  }

  /** The length of `([word])` at the front of `s`, if it starts with one. */
  function ParenPlaceholderLength(s: string): (r: Option<nat>)
    ensures r.Some? ==> r.value <= |s| && IsParenPlaceholder(s[..r.value])
  {
    if |s| < 2 || s[0] != '(' || s[1] != '[' then None
    else
      var k := 2 + WordRun(s[2..]);
      if k + 2 <= |s| && s[k] == ']' && s[k + 1] == ')' then
        assert s[..k + 2][2..k] == s[2..][..k - 2];
        Some(k + 2)
      else None
  }

  /** Every prefix in the pattern's language is the one found. */
  lemma ParenPlaceholderOnly(s: string, j: nat)
    requires j <= |s| && IsParenPlaceholder(s[..j])
    ensures ParenPlaceholderLength(s) == Some(j)
  {
    ParenPlaceholderUnique(s, j);
    assert s[..j][j - 2] == s[j - 2] && s[..j][j - 1] == s[j - 1];
  }

  /** The length of `(` white space `)` at the front of `s`, if it starts with one. */
  function EmptyParensLength(s: string): (r: Option<nat>)
    ensures r.Some? ==> r.value <= |s| && IsEmptyParens(s[..r.value])
  {
    if |s| < 1 || s[0] != '(' then None
    else
      var k := 1 + SpaceRun(s[1..]);
      if k < |s| && s[k] == ')' then
        assert s[..k + 1][1..k] == s[1..][..k - 1];
        Some(k + 1)
      else None
  }

  lemma EmptyParensOnly(s: string, j: nat)
    requires j <= |s| && IsEmptyParens(s[..j])
    ensures EmptyParensLength(s) == Some(j)
  {
    EmptyParensUnique(s, j);
    assert s[..j][j - 1] == s[j - 1];
  }

  /** The length of the label `[word]:` at the front of `s`, if it starts with one. */
  function LabelLength(s: string): (r: Option<nat>)
    ensures r.Some? ==> r.value <= |s| && IsLabel(s[..r.value])
  {
    if |s| < 1 || s[0] != '[' then None
    else
      var k := 1 + WordRun(s[1..]);
      if k > 1 && k + 2 <= |s| && s[k] == ']' && s[k + 1] == ':' then
        assert s[..k + 2][1..k] == s[1..][..k - 1];
        Some(k + 2)
      else None
  }

  lemma LabelOnly(s: string, j: nat)
    requires j <= |s| && IsLabel(s[..j])
    ensures LabelLength(s) == Some(j)
  {
    LabelUnique(s, j);
    assert s[..j][j - 2] == s[j - 2] && s[..j][j - 1] == s[j - 1];
  }

  /** `\[\w+\]:\s*\n` at the front of `s`: the label, then the white space
      after it up to and including the last line feed in that white space,
      which is where the greedy `\s*` backs off to. No match when that white
      space holds no line feed. */
  function LabelLineLength(s: string): (r: Option<nat>)
    ensures r.Some? ==> 5 <= r.value <= |s| && IsLabelLine(s[..r.value])
  {
    match LabelLength(s)
    case None => None
    case Some(j) =>
      var t := s[j..];
      match LastNewline(t[..SpaceRun(t)])
      case None => None
      case Some(p) =>
        LabelLineFound(s, j, p);
        Some(j + p + 1)
  }

  /** The label, its white space and that white space's last line feed form
      a label line. */
  lemma LabelLineFound(s: string, j: nat, p: nat)
    requires LabelLength(s) == Some(j)
    requires LastNewline(s[j..][..SpaceRun(s[j..])]) == Some(p)
    ensures j + p + 1 <= |s| && IsLabelLine(s[..j + p + 1])
  {
    var t := s[j..];
    var u := t[..SpaceRun(t)];
    var n := j + p + 1;
    var m := s[..n];
    assert m[..j] == s[..j];
    assert AllSpace(u);
    forall i | 0 <= i < |m| - j
      ensures IsSpace(m[j..][i])
    {
      assert m[j..][i] == u[i];
    }
    assert m[n - 1] == u[p] == '\n';
    assert IsLabel(m[..j]) && AllSpace(m[j..]);
  }

  /** The match found is the longest: every label line at the front of `s`
      ends no later. */
  lemma LabelLineLongest(s: string, n: nat)
    requires n <= |s| && IsLabelLine(s[..n])
    ensures LabelLineLength(s).Some? && n <= LabelLineLength(s).value
  {
    var j :| 0 <= j < n && IsLabel(s[..n][..j]) && AllSpace(s[..n][j..]) && s[..n][n - 1] == '\n';
    assert s[..n][..j] == s[..j];
    LabelOnly(s, j);
    var t := s[j..];
    assert t[..n - j] == s[..n][j..];
    SpaceRunLongest(t, n - j);
    var u := t[..SpaceRun(t)];
    assert u[n - 1 - j] == s[..n][n - 1];
  }

  /** `\[\w+\]:\s*$` without the `m` flag at the front of `s`: it matches
      only when the rest of the whole text is a label and white space. */
  function TrailingLabelLength(s: string): (r: Option<nat>)
    ensures r.Some? ==> 4 <= r.value == |s| && IsTrailingLabel(s)
  {
    match LabelLength(s)
    case None => None
    case Some(j) =>
      if j + SpaceRun(s[j..]) == |s| then
        assert s[..j] == s[..|s|][..j];
        assert s[j..] == s[j..][..SpaceRun(s[j..])];
        Some(|s|)
      else None
  }

  /** A text that is a label and white space is matched whole. */
  lemma TrailingLabelFound(s: string)
    requires IsTrailingLabel(s)
    ensures TrailingLabelLength(s) == Some(|s|)
  {
    var j :| 0 <= j <= |s| && IsLabel(s[..j]) && AllSpace(s[j..]);
    LabelOnly(s, j);
    assert s[j..][..|s| - j] == s[j..];
    SpaceRunLongest(s[j..], |s| - j);
  }

  /** The four passes, in the order they run. */
  datatype Pass = ParenPlaceholder | EmptyParens | LabelLine | TrailingLabel

  /** The character every match of the pass starts with. */
  function Lead(pass: Pass): char {
    match pass
    case ParenPlaceholder | EmptyParens => '('
    case LabelLine | TrailingLabel => '['
  }

  /** The length of the shortest text the pass matches: `([])`, `()`,
      `[a]:` followed by a line feed, `[a]:`. */
  function MinMatch(pass: Pass): nat {
    match pass
    case ParenPlaceholder => 4
    case EmptyParens => 2
    case LabelLine => 5
    case TrailingLabel => 4
  }

  /** The length of the pass's match at the front of `s`. */
  function MatchAt(pass: Pass, s: string): (r: Option<nat>)
    ensures r.Some? ==> 0 < MinMatch(pass) <= r.value <= |s| && s[0] == Lead(pass)
  {
    match pass
    case ParenPlaceholder => ParenPlaceholderLength(s)
    case EmptyParens => EmptyParensLength(s)
    case LabelLine =>
      var r := LabelLineLength(s);
      if r.Some? then
        assert s[..r.value][0] == s[0];
        r
      else r
    case TrailingLabel => TrailingLabelLength(s)
  }

  /** `s.replace(/pattern/g, v)`: every match, leftmost first, none
      overlapping, scanning on after each match. */
  function ReplaceEach(pass: Pass, s: string, v: string): (r: string)
    ensures |v| <= MinMatch(pass) ==> |r| <= |s|
    decreases |s|
  {
    if s == [] then []
    else match MatchAt(pass, s)
      case Some(n) => v + ReplaceEach(pass, s[n..], v)
      case None => [s[0]] + ReplaceEach(pass, s[1..], v)
  }

  /** `s.replace(/pattern/, v)`: the leftmost match only. */
  function ReplaceLeftmost(pass: Pass, s: string, v: string): (r: string)
    ensures |v| <= MinMatch(pass) ==> |r| <= |s|
    decreases |s|
  {
    if s == [] then []
    else match MatchAt(pass, s)
      case Some(n) => v + s[n..]
      case None => [s[0]] + ReplaceLeftmost(pass, s[1..], v)
  }

  /** The clean-up at the end of `generatePrompt`, each pass once, in order. */
  function Cleanup(s: string): (r: string)
    ensures |r| <= |s|
  {
    var s1 := ReplaceEach(ParenPlaceholder, s, "()");
    var s2 := ReplaceEach(EmptyParens, s1, "");
    var s3 := ReplaceEach(LabelLine, s2, "");
    ReplaceLeftmost(TrailingLabel, s3, "")
  }

  /** Text without the pass's lead character is copied through. */
  lemma {:induction false} ReplaceEachSkips(pass: Pass, a: string, b: string, v: string)
    requires Lead(pass) !in a
    ensures ReplaceEach(pass, a + b, v) == a + ReplaceEach(pass, b, v)
    decreases |a|
  {
    if a == [] {
      assert a + b == b;
    } else {
      assert (a + b)[0] == a[0];
      assert MatchAt(pass, a + b).None?;
      TailOfAppend(a, b);
      ReplaceEachSkips(pass, a[1..], b, v);
      AppendAssoc([a[0]], a[1..], ReplaceEach(pass, b, v));
      assert [a[0]] + a[1..] == a;
    }
  }

  lemma {:induction false} ReplaceLeftmostSkips(pass: Pass, a: string, b: string, v: string)
    requires Lead(pass) !in a
    ensures ReplaceLeftmost(pass, a + b, v) == a + ReplaceLeftmost(pass, b, v)
    decreases |a|
  {
    if a == [] {
      assert a + b == b;
    } else {
      assert (a + b)[0] == a[0];
      assert MatchAt(pass, a + b).None?;
      TailOfAppend(a, b);
      ReplaceLeftmostSkips(pass, a[1..], b, v);
      AppendAssoc([a[0]], a[1..], ReplaceLeftmost(pass, b, v));
      assert [a[0]] + a[1..] == a;
    }
  }

  /** Text with no parenthesis and no bracket is left as it is, and the
      clean-up of the rest is unaffected by it. */
  lemma CleanupSkips(a: string, b: string)
    requires '(' !in a && '[' !in a
    ensures Cleanup(a + b) == a + Cleanup(b)
  {
    var s1 := ReplaceEach(ParenPlaceholder, b, "()");
    var s2 := ReplaceEach(EmptyParens, s1, "");
    var s3 := ReplaceEach(LabelLine, s2, "");
    ReplaceEachSkips(ParenPlaceholder, a, b, "()");
    ReplaceEachSkips(EmptyParens, a, s1, "");
    ReplaceEachSkips(LabelLine, a, s2, "");
    ReplaceLeftmostSkips(TrailingLabel, a, s3, "");
  }

  /** White space holds no parenthesis and no bracket. */
  lemma SpaceHasNoLead(sp: string)
    requires AllSpace(sp)
    ensures '(' !in sp && '[' !in sp
  {
    forall i | 0 <= i < |sp| ensures sp[i] != '(' && sp[i] != '[' {
      assert IsSpace(sp[i]);
    }
  }

  /** Where the pass matches, the scanner puts the replacement in place of
      the match and goes on after it. */
  lemma ReplaceEachMatch(pass: Pass, x: string, v: string, n: nat)
    requires x != [] && MatchAt(pass, x) == Some(n)
    ensures ReplaceEach(pass, x, v) == v + ReplaceEach(pass, x[n..], v)
  {
  }

  /** The first pass leaves `(` white space `)` alone. */
  lemma FirstPassKeepsEmptyParens(sp: string, b: string)
    requires AllSpace(sp)
    ensures ReplaceEach(ParenPlaceholder, "(" + (sp + (")" + b)), "()") ==
      "(" + (sp + (")" + ReplaceEach(ParenPlaceholder, b, "()")))
  {
    var rest := sp + (")" + b);
    var x := "(" + rest;
    assert x[1] != '[' by {
      if sp == [] { assert x[1] == ')'; } else { assert x[1] == sp[0]; }
    }
    assert MatchAt(ParenPlaceholder, x) == None;
    ReplaceEachStep(ParenPlaceholder, x, "()");
    assert x[1..] == rest;
    SpaceHasNoLead(sp);
    ReplaceEachSkips(ParenPlaceholder, sp, ")" + b, "()");
    ReplaceEachSkips(ParenPlaceholder, ")", b, "()");
  }

  /** The second pass deletes `(` white space `)`. */
  lemma SecondPassDropsEmptyParens(sp: string, b: string)
    requires AllSpace(sp)
    ensures ReplaceEach(EmptyParens, "(" + (sp + (")" + b)), "") == ReplaceEach(EmptyParens, b, "")
  {
    var x := "(" + (sp + (")" + b));
    var n := |sp| + 2;
    assert x[..n][1..n - 1] == sp;
    EmptyParensOnly(x, n);
    ReplaceEachMatch(EmptyParens, x, "", n);
    assert x[n..] == b;
  }

  /** Parentheses holding only white space vanish. */
  lemma CleanupDropsEmptyParens(sp: string, b: string)
    requires AllSpace(sp)
    ensures Cleanup("(" + (sp + (")" + b))) == Cleanup(b)
  {
    FirstPassKeepsEmptyParens(sp, b);
    SecondPassDropsEmptyParens(sp, ReplaceEach(ParenPlaceholder, b, "()"));
  }

  /** A placeholder left unfilled inside parentheses vanishes with them: the
      first pass empties the parentheses and the second deletes them. */
  lemma CleanupDropsParenPlaceholder(ph: string, b: string)
    requires IsParenPlaceholder(ph)
    ensures Cleanup(ph + b) == Cleanup(b)
  {
    FirstPassesDropParenPlaceholder(ph, b);
  }

  /** The first two passes over a `([word])` at the front. */
  lemma FirstPassesDropParenPlaceholder(ph: string, b: string)
    requires IsParenPlaceholder(ph)
    ensures ReplaceEach(EmptyParens, ReplaceEach(ParenPlaceholder, ph + b, "()"), "") ==
      ReplaceEach(EmptyParens, ReplaceEach(ParenPlaceholder, b, "()"), "")
  {
    FirstPassEmptiesParenPlaceholder(ph, b);
    SecondPassDropsPair(ReplaceEach(ParenPlaceholder, b, "()"));
  }

  /** The second pass deletes a `()` at the front. */
  lemma SecondPassDropsPair(rest: string)
    ensures ReplaceEach(EmptyParens, "()" + rest, "") == ReplaceEach(EmptyParens, rest, "")
  {
    assert "()" + rest == "(" + ("" + (")" + rest));
    SecondPassDropsEmptyParens("", rest);
  }

  /** The first pass turns a `([word])` at the front into `()`. */
  lemma FirstPassEmptiesParenPlaceholder(ph: string, b: string)
    requires IsParenPlaceholder(ph)
    ensures ReplaceEach(ParenPlaceholder, ph + b, "()") == "()" + ReplaceEach(ParenPlaceholder, b, "()")
  {
    TakePrefix(ph, b);
    ParenPlaceholderOnly(ph + b, |ph|);
    ReplaceEachMatch(ParenPlaceholder, ph + b, "()", |ph|);
    DropPrefix(ph, b);
  }

  /** Without a bracket the first pass finds nothing to fill. */
  lemma {:induction false} FirstPassNeedsBracket(s: string)
    requires '[' !in s
    ensures ReplaceEach(ParenPlaceholder, s, "()") == s
    decreases |s|
  {
    if s != [] {
      assert |s| >= 2 ==> s[1] != '[';
      assert ParenPlaceholderLength(s) == None;
      FirstPassNeedsBracket(s[1..]);
      assert s == [s[0]] + s[1..];
    }
  }

  /** On `(( ))` the second pass deletes only the inner parentheses. */
  lemma SecondPassOnNested()
    ensures ReplaceEach(EmptyParens, "(( ))", "") == "()"
  {
    var inner := "(" + (" " + (")" + ")"));
    NestedStartsUnmatched(inner);
    SecondPassDropsEmptyParens(" ", ")");
    ReplaceEachSkips(EmptyParens, ")", [], "");
    assert ")" + [] == ")";
  }

  /** The outer `(` of `(( ))` opens no `(\s*)` match and is copied. */
  lemma NestedStartsUnmatched(inner: string)
    requires inner == "(" + (" " + (")" + ")"))
    ensures ReplaceEach(EmptyParens, "(( ))", "") == "(" + ReplaceEach(EmptyParens, inner, "")
  {
    var x := "(( ))";
    assert x[1..] == inner;
    assert SpaceRun(inner) == 0;
    assert MatchAt(EmptyParens, x) == None;
    ReplaceEachStep(EmptyParens, x, "");
  }

  /** The last two passes need a bracket to do anything. */
  lemma LabelPassesNeedBracket(s: string)
    requires '[' !in s
    ensures ReplaceLeftmost(TrailingLabel, ReplaceEach(LabelLine, s, ""), "") == s
  {
    ReplaceEachSkips(LabelLine, s, [], "");
    ReplaceLeftmostSkips(TrailingLabel, s, [], "");
    assert s + [] == s;
  }

  /** One clean-up of `(( ))` leaves the outer parentheses. */
  lemma CleanupNested()
    ensures Cleanup("(( ))") == "()"
  {
    FirstPassNeedsBracket("(( ))");
    SecondPassOnNested();
    LabelPassesNeedBracket("()");
  }

  /** One clean-up of `()` removes it. */
  lemma CleanupEmptyPair()
    ensures Cleanup("()") == ""
  {
    CleanupDropsEmptyParens("", []);
    assert "(" + ("" + (")" + [])) == "()";
  }

  /** The clean-up is not idempotent: each pass runs once, so parentheses
      that only become empty in the second pass survive it. */
  lemma CleanupNotIdempotent()
    ensures Cleanup("(( ))") == "()"
    ensures Cleanup(Cleanup("(( ))")) == ""
  {
    CleanupNested();
    CleanupEmptyPair();
  }

  /** A label at the front of a text is found whole. */
  lemma LabelAtFront(tag: string, rest: string)
    requires IsLabel(tag)
    ensures LabelLength(tag + rest) == Some(|tag|)
  {
    TakePrefix(tag, rest);
    LabelOnly(tag + rest, |tag|);
  }

  /** A run of white space that the text after it does not continue. */
  lemma SpaceRunWhole(s: string, k: nat)
    requires k <= |s| && AllSpace(s[..k]) && (k == |s| || !IsSpace(s[k]))
    ensures SpaceRun(s) == k
  {
    if k < |s| {
      SpaceRunEnds(s, k);
    }
  }

  /** White space before a text that does not start with white space is
      the whole run. */
  lemma SpaceBefore(sp: string, b: string)
    requires AllSpace(sp) && (b == [] || !IsSpace(b[0]))
    ensures SpaceRun(sp + b) == |sp|
  {
    TakePrefix(sp, b);
    if b != [] {
      assert (sp + b)[|sp|] == b[0];
    }
    SpaceRunWhole(sp + b, |sp|);
  }

  /** A label, white space and a line feed at the front of a text whose next
      line does not start with white space form a label line, found whole. */
  lemma LabelLineAtFront(tag: string, sp: string, b: string)
    requires IsLabel(tag) && AllSpace(sp)
    requires b == [] || !IsSpace(b[0])
    ensures LabelLineLength((tag + (sp + "\n")) + b) == Some(|tag| + |sp| + 1)
  {
    var line := sp + "\n";
    var t := line + b;
    AppendAssoc(tag, line, b);
    LabelAtFront(tag, t);
    DropPrefix(tag, t);
    assert AllSpace(line) by {
      assert forall i :: 0 <= i < |sp| ==> line[i] == sp[i];
    }
    SpaceBefore(line, b);
    TakePrefix(line, b);
    assert LastNewline(line) == Some(|sp|);
  }

  /** The third pass deletes a label line through the last line feed of the
      white space after the label. */
  lemma LabelLineDropped(tag: string, sp: string, b: string)
    requires IsLabel(tag) && AllSpace(sp)
    requires b == [] || !IsSpace(b[0])
    ensures ReplaceEach(LabelLine, (tag + (sp + "\n")) + b, "") == ReplaceEach(LabelLine, b, "")
  {
    var m := tag + (sp + "\n");
    LabelLineAtFront(tag, sp, b);
    assert MatchAt(LabelLine, m + b) == Some(|m|);
    ReplaceEachMatch(LabelLine, m + b, "", |m|);
    DropPrefix(m, b);
  }

  /** A label whose white space holds no line feed starts no label line. */
  lemma NoLabelLineWithoutLineFeed(tag: string, sp: string, b: string)
    requires IsLabel(tag) && AllSpace(sp) && '\n' !in sp
    requires b == [] || !IsSpace(b[0])
    ensures LabelLineLength(tag + (sp + b)) == None
  {
    LabelAtFront(tag, sp + b);
    DropPrefix(tag, sp + b);
    SpaceBefore(sp, b);
    TakePrefix(sp, b);
  }

  /** After its `[`, a label holds no bracket that opens. */
  lemma LabelTailHasNoBracket(tag: string)
    requires IsLabel(tag)
    ensures '[' !in tag[1..]
  {
    forall i | 1 <= i < |tag| ensures tag[i] != '[' {
      if i < |tag| - 2 {
        assert tag[i] == tag[1..|tag| - 2][i - 1];
      }
    }
  }

  /** Where the pass does not match, the scanner copies one character. */
  lemma ReplaceEachStep(pass: Pass, x: string, v: string)
    requires x != [] && MatchAt(pass, x) == None
    ensures ReplaceEach(pass, x, v) == [x[0]] + ReplaceEach(pass, x[1..], v)
  {
  }

  /** So a label whose white space holds no line feed is kept by the third
      pass: its `[` is copied, and the rest of it and the white space hold
      no `[` for the pass to start at. */
  lemma LabelWithoutLineFeedKept(tag: string, sp: string, b: string)
    requires IsLabel(tag) && AllSpace(sp) && '\n' !in sp
    requires b == [] || !IsSpace(b[0])
    ensures ReplaceEach(LabelLine, tag + (sp + b), "") == tag + (sp + ReplaceEach(LabelLine, b, ""))
  {
    var x := tag + (sp + b);
    var tail := tag[1..];
    NoLabelLineWithoutLineFeed(tag, sp, b);
    ReplaceEachStep(LabelLine, x, "");
    TailOfAppend(tag, sp + b);
    LabelTailHasNoBracket(tag);
    SpaceHasNoLead(sp);
    ReplaceEachSkips(LabelLine, tail, sp + b, "");
    ReplaceEachSkips(LabelLine, sp, b, "");
    assert x[0] == tag[0];
    AppendAssoc([tag[0]], tail, sp + ReplaceEach(LabelLine, b, ""));
    assert [tag[0]] + tail == tag;
  }

  /** A label and white space that end the text are a trailing label. */
  lemma TrailingLabelAtEnd(tag: string, sp: string)
    requires IsLabel(tag) && AllSpace(sp)
    ensures TrailingLabelLength(tag + sp) == Some(|tag| + |sp|)
  {
    LabelAtFront(tag, sp);
    DropPrefix(tag, sp);
    SpaceBefore(sp, []);
    assert sp + [] == sp;
  }

  /** The fourth pass deletes a label and white space that end the text. */
  lemma TrailingLabelDropped(a: string, tag: string, sp: string)
    requires '[' !in a && IsLabel(tag) && AllSpace(sp)
    ensures ReplaceLeftmost(TrailingLabel, a + (tag + sp), "") == a
  {
    var x := tag + sp;
    TrailingLabelAtEnd(tag, sp);
    assert ReplaceLeftmost(TrailingLabel, x, "") == [];
    ReplaceLeftmostSkips(TrailingLabel, a, x, "");
    assert a + [] == a;
  }
}
