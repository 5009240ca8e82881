/** `String.prototype.replace` with a literal pattern: the global form the
    renderer builds from a `g` regular expression that matches one fixed
    string, and the first-occurrence form a plain string pattern gives.
    Replacement text is inserted literally. */
module Replace {
  import opened Seqs
  import opened Strings

  /** `p` occurs in `s` starting at index `i`. */
  predicate OccursAt(s: string, p: string, i: int) {
    0 <= i && i + |p| <= |s| && s[i..i + |p|] == p
  }

  /** A slice of the tail is the slice of the text one place further on. */
  lemma SliceOfTail(s: string, i: nat, n: nat)
    requires s != [] && i + n <= |s| - 1
    ensures s[i + 1..i + 1 + n] == s[1..][i..i + n]
  {
    var a, b := s[i + 1..i + 1 + n], s[1..][i..i + n];
    forall k | 0 <= k < n ensures a[k] == b[k] {
      assert a[k] == s[i + 1 + k];
    }
  }

  ghost predicate Free(s: string, p: string) {
    forall i :: !OccursAt(s, p, i)
  }

  /** Leftmost, non-overlapping replacement of every occurrence of `p` by `v`. */
  function ReplaceAll(s: string, p: string, v: string): (r: string)
    requires |p| > 0
    ensures |v| <= |p| ==> |r| <= |s|
    decreases |s|
  {
    if s == [] then []
    else if p <= s then v + ReplaceAll(s[|p|..], p, v)
    else [s[0]] + ReplaceAll(s[1..], p, v)
  }

  /** The pieces of `s` between the occurrences of `p` that `ReplaceAll` finds. */
  function Split(s: string, p: string): (pieces: seq<string>)
    requires |p| > 0
    ensures |pieces| > 0 && pieces[0] <= s
    decreases |s|
  {
    if s == [] then [[]]
    else if p <= s then [[]] + Split(s[|p|..], p)
    else
      var rest := Split(s[1..], p);
      [[s[0]] + rest[0]] + rest[1..]
  }

  /** Gluing the pieces back with the pattern gives the text back. */
  lemma {:induction false} SplitJoin(s: string, p: string)
    requires |p| > 0
    ensures Join(Split(s, p), p) == s
    decreases |s|
  {
    if s == [] {
    } else if p <= s {
      SplitJoin(s[|p|..], p);
      var rest := Split(s[|p|..], p);
      assert ([[]] + rest)[1..] == rest;
      assert s == p + s[|p|..];
    } else {
      SplitJoin(s[1..], p);
      JoinConsHead([s[0]], Split(s[1..], p), p);
      assert s == [s[0]] + s[1..];
    }
  }

  /** No piece contains the pattern: every occurrence was cut out. */
  lemma {:induction false} SplitPiecesFree(s: string, p: string)
    requires |p| > 0
    ensures forall k :: 0 <= k < |Split(s, p)| ==> Free(Split(s, p)[k], p)
    decreases |s|
  {
    if s == [] {
    } else if p <= s {
      SplitPiecesFree(s[|p|..], p);
      var rest := Split(s[|p|..], p);
      assert forall k :: 1 <= k < |[[]] + rest| ==> ([[]] + rest)[k] == rest[k - 1];
    } else {
      SplitPiecesFree(s[1..], p);
      var rest := Split(s[1..], p);
      var head := [s[0]] + rest[0];
      assert head <= s;
      forall i ensures !OccursAt(head, p, i) {
        if i == 0 && |p| <= |head| {
          assert s[..|p|] == head[..|p|];
          assert head[0..|p|] == head[..|p|];
          assert s[..|p|] != p;
        } else if i > 0 && i + |p| <= |head| {
          SliceOfTail(head, i - 1, |p|);
          assert Free(rest[0], p);
          assert !OccursAt(rest[0], p, i - 1);
        }
      }
      var pieces := [head] + rest[1..];
      assert forall k :: 1 <= k < |pieces| ==> pieces[k] == rest[k];
    }
  }

  /** Global replacement puts `v` exactly where `Split` cut the pattern out. */
  lemma {:induction false} ReplaceAllIsJoin(s: string, p: string, v: string)
    requires |p| > 0
    ensures ReplaceAll(s, p, v) == Join(Split(s, p), v)
    decreases |s|
  {
    if s == [] {
    } else if p <= s {
      ReplaceAllIsJoin(s[|p|..], p, v);
      var rest := Split(s[|p|..], p);
      assert ([[]] + rest)[1..] == rest;
    } else {
      ReplaceAllIsJoin(s[1..], p, v);
      JoinConsHead([s[0]], Split(s[1..], p), v);
    }
  }

  /** Text free of the pattern is returned unchanged. */
  lemma {:induction false} ReplaceAllAbsent(s: string, p: string, v: string)
    requires |p| > 0 && Free(s, p)
    ensures ReplaceAll(s, p, v) == s
    decreases |s|
  {
    if s != [] {
      assert !(p <= s) by {
        assert !OccursAt(s, p, 0);
        if |p| <= |s| {
          assert s[0..|p|] == s[..|p|];
        }
      }
      FreeTail(s, p);
      ReplaceAllAbsent(s[1..], p, v);
      assert s == [s[0]] + s[1..];
    }
  }

  /** Text free of the pattern stays free of it without its first character. */
  lemma FreeTail(s: string, p: string)
    requires s != [] && Free(s, p)
    ensures Free(s[1..], p)
  {
    forall i ensures !OccursAt(s[1..], p, i) {
      if 0 <= i && i + |p| <= |s| - 1 {
        SliceOfTail(s, i, |p|);
        assert !OccursAt(s, p, i + 1);
      }
    }
  }

  /** A prefix that cannot start the pattern is copied as it is. */
  lemma {:induction false} ReplaceAllSkips(a: string, b: string, p: string, v: string)
    requires |p| > 0 && p[0] !in a
    ensures ReplaceAll(a + b, p, v) == a + ReplaceAll(b, p, v)
    decreases |a|
  {
    if a == [] {
      assert a + b == b;
    } else {
      assert (a + b)[0] == a[0];
      TailOfAppend(a, b);
      ReplaceAllSkips(a[1..], b, p, v);
    }
  }

  /** The first occurrence of `p` in `s`, if any. */
  function FirstOccurrence(s: string, p: string): (r: Option<nat>)
    requires |p| > 0
    ensures r.Some? ==> OccursAt(s, p, r.value)
    ensures r.Some? ==> forall j :: 0 <= j < r.value ==> !OccursAt(s, p, j)
    ensures r.None? ==> Free(s, p)
    decreases |s|
  {
    if |s| < |p| then None
    else if p <= s then Some(0)
    else match FirstOccurrence(s[1..], p)
      case None =>
        FreeCons(s, p);
        None
      case Some(i) =>
        SliceOfTail(s, i, |p|);
        NoneBefore(s, p, i);
        Some(i + 1)
  }

  /** Text that does not start with the pattern and whose tail is free of it
      is free of it. */
  lemma FreeCons(s: string, p: string)
    requires s != [] && |p| > 0 && !(p <= s) && Free(s[1..], p)
    ensures Free(s, p)
  {
    forall i ensures !OccursAt(s, p, i) {
      if i == 0 && |p| <= |s| {
        assert s[0..|p|] == s[..|p|];
      } else if 0 < i && i + |p| <= |s| {
        SliceOfTail(s, i - 1, |p|);
        assert !OccursAt(s[1..], p, i - 1);
      }
    }
  }

  /** An occurrence first in the tail, with none at the front, is the first
      occurrence one place further on. */
  lemma NoneBefore(s: string, p: string, i: nat)
    requires s != [] && |p| > 0 && !(p <= s)
    requires forall j :: 0 <= j < i ==> !OccursAt(s[1..], p, j)
    ensures forall j :: 0 <= j < i + 1 ==> !OccursAt(s, p, j)
  {
    forall j | 0 <= j < i + 1 ensures !OccursAt(s, p, j) {
      if j == 0 && |p| <= |s| {
        assert s[0..|p|] == s[..|p|];
      } else if 0 < j && j + |p| <= |s| {
        SliceOfTail(s, j - 1, |p|);
        assert !OccursAt(s[1..], p, j - 1);
      }
    }
  }

  /** `s.replace(p, v)` with a string pattern: only the first occurrence is
      replaced. */
  function ReplaceFirst(s: string, p: string, v: string): (r: string)
    requires |p| > 0
    ensures |r| == |s| || |r| == |s| - |p| + |v|
    decreases |s|
  {
    if s == [] then []
    else if p <= s then v + s[|p|..]
    else [s[0]] + ReplaceFirst(s[1..], p, v)
  }

  /** Without an occurrence nothing changes; otherwise the text before the
      first occurrence and everything after it, later occurrences included,
      is kept. */
  lemma {:induction false} ReplaceFirstSpec(s: string, p: string, v: string)
    requires |p| > 0
    ensures FirstOccurrence(s, p).None? ==> ReplaceFirst(s, p, v) == s
    ensures FirstOccurrence(s, p).Some? ==>
      var i := FirstOccurrence(s, p).value;
      ReplaceFirst(s, p, v) == s[..i] + v + s[i + |p|..]
    decreases |s|
  {
    if s != [] && !(p <= s) {
      ReplaceFirstSpec(s[1..], p, v);
      assert s == [s[0]] + s[1..];
      if |s| >= |p| && FirstOccurrence(s[1..], p).Some? {
        var i := FirstOccurrence(s[1..], p).value;
        assert s[..i + 1] == [s[0]] + s[1..][..i];
        assert s[i + 1 + |p|..] == s[1..][i + |p|..];
      }
    }
  }

  /** A prefix that cannot start the pattern is copied as it is. */
  lemma {:induction false} ReplaceFirstSkips(a: string, b: string, p: string, v: string)
    requires |p| > 0 && p[0] !in a
    ensures ReplaceFirst(a + b, p, v) == a + ReplaceFirst(b, p, v)
    decreases |a|
  {
    if a == [] {
      assert a + b == b;
    } else {
      assert (a + b)[0] == a[0];
      assert (a + b)[1..] == a[1..] + b;
      ReplaceFirstSkips(a[1..], b, p, v);
    }
  }

  /** Once the first occurrence is replaced, the rest of the text is kept
      as it is, further occurrences included. */
  lemma ReplaceFirstHere(p: string, b: string, v: string)
    requires |p| > 0
    ensures ReplaceFirst(p + b, p, v) == v + b
  {
    assert (p + b)[|p|..] == b;
  }

  /** `[n]` for a non-empty run of word characters: what a placeholder looks like. */
  predicate IsToken(t: string) {
    |t| >= 3 && t[0] == '[' && t[|t| - 1] == ']' && AllWord(t[1..|t| - 1])
  }

  /** A piece of text that a scan for a token treats as a whole: it holds no
      `[` at all, or it is a token itself. */
  predicate Closed(t: string) {
    '[' !in t || IsToken(t)
  }

  function Concat(pieces: seq<string>): string {
    if pieces == [] then [] else pieces[0] + Concat(pieces[1..])
  }

  /** Every piece equal to `t` replaced by `v`. */
  function Swap(pieces: seq<string>, t: string, v: string): (r: seq<string>)
    ensures |r| == |pieces|
    ensures forall i :: 0 <= i < |r| ==> r[i] == if pieces[i] == t then v else pieces[i]
  {
    if pieces == [] then []
    else [if pieces[0] == t then v else pieces[0]] + Swap(pieces[1..], t, v)
  }

  /** A token followed by anything does not start with a different token. */
  lemma TokenMiss(a: string, b: string, rest: string)
    requires IsToken(a) && IsToken(b) && a != b
    ensures !(b <= a + rest)
  {
    var x := a + rest;
    if |a| == |b| {
      assert x[..|b|] == a;
    } else if |b| < |a| {
      var k := |b| - 1;
      assert IsWordChar(a[1..|a| - 1][k - 1]);
      assert x[k] == a[k];
    } else {
      var k := |a| - 1;
      assert IsWordChar(b[1..|b| - 1][k - 1]);
      assert x[k] == a[k];
    }
  }

  /** The inside and end of a token hold no `[`. */
  lemma TokenTail(t: string)
    requires IsToken(t)
    ensures '[' !in t[1..]
  {
    forall i | 1 <= i < |t| ensures t[i] != '[' {
      if i < |t| - 1 {
        assert IsWordChar(t[1..|t| - 1][i - 1]);
      }
    }
  }

  /** Replacing a token in a closed piece followed by more text replaces the
      piece exactly when it is the token, and goes on after it. */
  lemma ReplaceAllClosed(a: string, rest: string, t: string, v: string)
    requires IsToken(t) && Closed(a)
    ensures ReplaceAll(a + rest, t, v) == (if a == t then v else a) + ReplaceAll(rest, t, v)
  {
    var x := a + rest;
    if '[' !in a {
      assert t[0] !in a;
      ReplaceAllSkips(a, rest, t, v);
    } else if a == t {
      TakePrefix(a, rest);
      DropPrefix(a, rest);
    } else {
      TokenMiss(a, t, rest);
      TokenTail(a);
      assert x[0] == a[0];
      TailOfAppend(a, rest);
      ReplaceAllSkips(a[1..], rest, t, v);
      AppendAssoc([a[0]], a[1..], ReplaceAll(rest, t, v));
      assert [a[0]] + a[1..] == a;
    }
  }

  /** Replacing a token in text cut into closed pieces replaces exactly the
      pieces equal to it; nothing across a boundary can match. */
  lemma {:induction false} ReplaceAllPieces(pieces: seq<string>, t: string, v: string)
    requires IsToken(t)
    requires forall i :: 0 <= i < |pieces| ==> Closed(pieces[i])
    ensures ReplaceAll(Concat(pieces), t, v) == Concat(Swap(pieces, t, v))
  {
    if pieces != [] {
      var swapped := Swap(pieces, t, v);
      ReplaceAllPieces(pieces[1..], t, v);
      ReplaceAllClosed(pieces[0], Concat(pieces[1..]), t, v);
      assert swapped[1..] == Swap(pieces[1..], t, v);
    }
  }

}
