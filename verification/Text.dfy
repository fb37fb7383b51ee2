/** The string operations of the Go standard library that the modelled code relies on. */
module Text {

  predicate HasPrefix(s: string, p: string) {
    |p| <= |s| && s[..|p|] == p
  }

  predicate HasSuffix(s: string, p: string) {
    |p| <= |s| && s[|s| - |p|..] == p
  }

  lemma Associate(a: string, b: string, c: string)
    ensures a + (b + c) == a + b + c && a + "" == a
  {
  }

  lemma PrefixChars(s: string, p: string)
    ensures HasPrefix(s, p) <==> |p| <= |s| && forall k :: 0 <= k < |p| ==> s[k] == p[k]
  {
    if |p| <= |s| && forall k :: 0 <= k < |p| ==> s[k] == p[k] {
      assert s[..|p|] == p;
    }
  }

  predicate Contains(s: string, sub: string) {
    exists k :: 0 <= k <= |s| - |sub| && HasPrefix(s[k..], sub)
  }

  /** Number of non-overlapping occurrences, found greedily from the left. */
  function Count(s: string, sub: string): nat
    requires sub != ""
  {
    if s == "" then 0
    else if HasPrefix(s, sub) then 1 + Count(s[|sub|..], sub)
    else Count(s[1..], sub)
  }

  /** Replaces every non-overlapping occurrence, found greedily from the left. */
  function ReplaceAll(s: string, find: string, put: string): string
    requires find != ""
  {
    if s == "" then ""
    else if HasPrefix(s, find) then put + ReplaceAll(s[|find|..], find, put)
    else [s[0]] + ReplaceAll(s[1..], find, put)
  }

  /** Replaces the leftmost occurrence only. */
  function ReplaceFirst(s: string, find: string, put: string): string
    requires find != ""
  {
    if s == "" then ""
    else if HasPrefix(s, find) then put + s[|find|..]
    else [s[0]] + ReplaceFirst(s[1..], find, put)
  }

  lemma {:induction false} NothingToReplace(s: string, find: string, put: string)
    requires find != "" && Count(s, find) == 0
    ensures ReplaceAll(s, find, put) == s
  {
    if s != "" {
      assert !HasPrefix(s, find);
      NothingToReplace(s[1..], find, put);
    }
  }

  /** A single occurrence makes the one-shot and the global replacement agree. */
  lemma {:induction false} UniqueReplacement(s: string, find: string, put: string)
    requires find != "" && Count(s, find) == 1
    ensures ReplaceFirst(s, find, put) == ReplaceAll(s, find, put)
  {
    if HasPrefix(s, find) {
      NothingToReplace(s[|find|..], find, put);
    } else {
      UniqueReplacement(s[1..], find, put);
    }
  }

  /** Every counted occurrence contributes the length difference, and nothing else does. */
  lemma {:induction false} ReplacementLength(s: string, find: string, put: string)
    requires find != ""
    ensures |ReplaceAll(s, find, put)| == |s| + Count(s, find) * (|put| - |find|)
  {
    if s != "" {
      if HasPrefix(s, find) {
        var rest := s[|find|..];
        ReplacementLength(rest, find, put);
        OneMore(Count(rest, find), |put| - |find|);
      } else {
        ReplacementLength(s[1..], find, put);
      }
    }
  }

  lemma OneMore(n: nat, d: int)
    ensures (1 + n) * d == d + n * d
  {
  }

  /** strings.Split(s, "\n"): always at least one, possibly empty, line. */
  function Split(s: string): (lines: seq<string>)
    ensures |lines| >= 1
  {
    if s == "" then [""]
    else
      var rest := Split(s[1..]);
      if s[0] == '\n' then [""] + rest else [[s[0]] + rest[0]] + rest[1..]
  }

  function Join(lines: seq<string>): string
    requires |lines| >= 1
  {
    if |lines| == 1 then lines[0] else lines[0] + "\n" + Join(lines[1..])
  }

  lemma {:induction false} JoinSplit(s: string)
    ensures Join(Split(s)) == s
  {
    if s != "" {
      JoinSplit(s[1..]);
      assert [s[0]] + s[1..] == s;
      SplitStep(s[0], s[1..]);
      JoinPrepended(s[0], Split(s[1..]));
    }
  }

  lemma JoinStep(lines: seq<string>)
    requires |lines| >= 1
    ensures Join(lines) == if |lines| == 1 then lines[0] else lines[0] + "\n" + Join(lines[1..])
  {
  }

  lemma JoinPrepended(c: char, lines: seq<string>)
    requires |lines| >= 1
    ensures Join(Prepend(c, lines)) == [c] + Join(lines)
  {
    hide Join;
    var more := Prepend(c, lines);
    JoinStep(more);
    JoinStep(lines);
    if c == '\n' {
      assert more[1..] == lines && "" + "\n" == [c];
    } else {
      assert more[1..] == lines[1..];
      if |lines| > 1 {
        Regroup([c], lines[0], "\n", Join(lines[1..]));
      }
    }
  }

  lemma Regroup(a: string, b: string, c: string, d: string)
    ensures a + b + c + d == a + (b + c + d)
  {
  }

  /** Splitting loses nothing: two texts with the same lines are the same text. */
  lemma SplitInjective(a: string, b: string)
    ensures Split(a) == Split(b) <==> a == b
  {
    JoinSplit(a);
    JoinSplit(b);
  }

  lemma {:induction false} SplitNoNewline(s: string)
    requires '\n' !in s
    ensures Split(s) == [s]
  {
    if s != "" {
      SplitNoNewline(s[1..]);
      assert [s[0]] + s[1..] == s;
    }
  }

  lemma {:induction false} SplitLinesClean(s: string)
    ensures forall k :: 0 <= k < |Split(s)| ==> '\n' !in Split(s)[k]
  {
    if s != "" {
      SplitLinesClean(s[1..]);
    }
  }

  function Prepend(c: char, lines: seq<string>): seq<string>
    requires |lines| >= 1
  {
    if c == '\n' then [""] + lines else [[c] + lines[0]] + lines[1..]
  }

  lemma SplitStep(c: char, t: string)
    ensures Split([c] + t) == Prepend(c, Split(t))
  {
    assert ([c] + t)[1..] == t;
  }

  lemma Prepended(c: char, a: seq<string>, b: seq<string>)
    requires |a| >= 1
    ensures Prepend(c, a + b) == Prepend(c, a) + b
  {
    assert (a + b)[1..] == a[1..] + b;
  }

  /** A newline between two texts is a cut between their lines. */
  lemma {:induction false} SplitAppend(a: string, b: string)
    ensures Split(a + "\n" + b) == Split(a) + Split(b)
  {
    if a == "" {
      SplitStep('\n', b);
      assert a + "\n" + b == ['\n'] + b;
    } else {
      SplitAppend(a[1..], b);
      SplitStep(a[0], a[1..] + "\n" + b);
      SplitStep(a[0], a[1..]);
      assert a + "\n" + b == [a[0]] + (a[1..] + "\n" + b);
      assert a == [a[0]] + a[1..];
      Prepended(a[0], Split(a[1..]), Split(b));
    }
  }
}
