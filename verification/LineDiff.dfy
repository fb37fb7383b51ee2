/** The greedy windowed line diff (tools/diff/diff.go). */
module LineDiff {
  import opened Text

  /** One recorded line: its 1-based number, its text, and ' ', '-' or '+'. */
  datatype Line = Line(lineNo: nat, text: string, kind: char)

  datatype Hunk = Hunk(oldStart: nat, newStart: nat, lines: seq<Line>)

  // ---------------------------------------------------------------------------
  // What a recording means
  // ---------------------------------------------------------------------------

  /** The line numbers recorded with a kind. */
  function Marked(lines: seq<Line>, kind: char): set<nat> {
    if lines == [] then {}
    else
      var last := lines[|lines| - 1];
      var before := Marked(lines[..|lines| - 1], kind);
      if last.kind == kind then before + {last.lineNo} else before
  }

  /** How many lines are recorded with a kind. */
  function Tally(lines: seq<Line>, kind: char): nat {
    if lines == [] then 0
    else Tally(lines[..|lines| - 1], kind) + if lines[|lines| - 1].kind == kind then 1 else 0
  }

  /** The line numbers recorded from the old text: context and removed lines. */
  function OldNums(lines: seq<Line>): seq<nat> {
    if lines == [] then []
    else
      var last := lines[|lines| - 1];
      var before := OldNums(lines[..|lines| - 1]);
      if last.kind != '+' then before + [last.lineNo] else before
  }

  /** The first n lines, without those whose 1-based number is in dead. */
  function Without(lines: seq<string>, n: nat, dead: set<nat>): seq<string>
    requires n <= |lines|
  {
    if n == 0 then []
    else Without(lines, n - 1, dead) + if n in dead then [] else [lines[n - 1]]
  }

  function Flat(hunks: seq<Hunk>): seq<Line> {
    if hunks == [] then [] else Flat(hunks[..|hunks| - 1]) + hunks[|hunks| - 1].lines
  }

  ghost predicate Within(nums: set<nat>, n: nat) {
    forall x :: x in nums ==> 1 <= x <= n
  }

  ghost predicate Changed(lines: seq<Line>) {
    exists k :: 0 <= k < |lines| && lines[k].kind != ' '
  }

  /** A recorded line quotes the text it numbers. */
  ghost predicate Quotes(oldLines: seq<string>, newLines: seq<string>, l: Line) {
    && l.kind in [' ', '-', '+']
    && (l.kind != '+' ==> 1 <= l.lineNo <= |oldLines| && l.text == oldLines[l.lineNo - 1])
    && (l.kind == '+' ==> 1 <= l.lineNo <= |newLines| && l.text == newLines[l.lineNo - 1])
  }

  ghost predicate AllQuote(oldLines: seq<string>, newLines: seq<string>, lines: seq<Line>) {
    forall k :: 0 <= k < |lines| ==> Quotes(oldLines, newLines, lines[k])
  }

  /** The old side of a hunk is one contiguous block starting at oldStart. */
  ghost predicate Contiguous(h: Hunk) {
    && h.oldStart >= 1
    && forall k :: 0 <= k < |OldNums(h.lines)| ==> OldNums(h.lines)[k] == h.oldStart + k
  }

  lemma Push(lines: seq<Line>, l: Line)
    ensures forall kind :: Marked(lines + [l], kind)
                        == if l.kind == kind then Marked(lines, kind) + {l.lineNo} else Marked(lines, kind)
    ensures forall kind :: Tally(lines + [l], kind) == Tally(lines, kind) + if l.kind == kind then 1 else 0
    ensures OldNums(lines + [l]) == if l.kind != '+' then OldNums(lines) + [l.lineNo] else OldNums(lines)
  {
    assert (lines + [l])[..|lines|] == lines;
  }

  lemma {:induction false} WithoutFrame(lines: seq<string>, n: nat, dead: set<nat>, x: nat)
    requires n <= |lines| && x > n
    ensures Without(lines, n, dead + {x}) == Without(lines, n, dead)
  {
    if n > 0 {
      WithoutFrame(lines, n - 1, dead, x);
    }
  }

  lemma {:induction false} WithoutLength(lines: seq<string>, n: nat, dead: set<nat>)
    requires n <= |lines| && Within(dead, n)
    ensures |Without(lines, n, dead)| == n - |dead|
  {
    if n == 0 {
      assert dead == {};
    } else if n in dead {
      var fewer := dead - {n};
      assert dead == fewer + {n};
      WithoutLength(lines, n - 1, fewer);
      WithoutFrame(lines, n - 1, fewer, n);
    } else {
      WithoutLength(lines, n - 1, dead);
    }
  }

  // ---------------------------------------------------------------------------
  // The algorithm
  // ---------------------------------------------------------------------------

  method HasChanges(lines: seq<Line>) returns (changed: bool)
    ensures changed <==> Changed(lines)
    ensures changed ==> lines != []
  {
    for k := 0 to |lines|
      invariant forall m :: 0 <= m < k ==> lines[m].kind == ' '
    {
      if lines[k].kind != ' ' {
        return true;
      }
    }
    return false;
  }

  const Window := 5

  /** Offsets (di, dj) inside the search window at which the two texts agree. */
  ghost predicate MatchAt(oldLines: seq<string>, newLines: seq<string>, i: nat, j: nat, di: nat, dj: nat) {
    && di < Window && dj < Window && di + dj > 0
    && i + di < |oldLines| && j + dj < |newLines|
    && oldLines[i + di] == newLines[j + dj]
  }

  /** The nearest match in row order, or else one line of each text. */
  method FindNextMatch(oldLines: seq<string>, newLines: seq<string>, i: nat, j: nat) returns (oi: nat, oj: nat)
    requires i <= |oldLines| && j <= |newLines|
    ensures i <= oi <= |oldLines| && j <= oj <= |newLines|
    ensures i < |oldLines| || j < |newLines| ==> oi + oj > i + j
    ensures (exists di: nat, dj: nat :: MatchAt(oldLines, newLines, i, j, di, dj)) ==>
              && MatchAt(oldLines, newLines, i, j, oi - i, oj - j)
              && forall di: nat, dj: nat :: MatchAt(oldLines, newLines, i, j, di, dj) ==>
                   oi - i < di || (oi - i == di && oj - j <= dj)
    ensures !(exists di: nat, dj: nat :: MatchAt(oldLines, newLines, i, j, di, dj)) ==>
              && oi == (if i < |oldLines| then i + 1 else i)
              && oj == (if j < |newLines| then j + 1 else j)
  {
    var di := 0;
    while di < Window && i + di < |oldLines|
      invariant forall a: nat, b: nat :: a < di ==> !MatchAt(oldLines, newLines, i, j, a, b)
    {
      var dj := 0;
      while dj < Window && j + dj < |newLines|
        invariant forall a: nat, b: nat :: a < di || (a == di && b < dj) ==> !MatchAt(oldLines, newLines, i, j, a, b)
      {
        if !(di == 0 && dj == 0) && oldLines[i + di] == newLines[j + dj] {
          assert MatchAt(oldLines, newLines, i, j, di, dj);
          return i + di, j + dj;
        }
        dj := dj + 1;
      }
      di := di + 1;
    }
    oi := i + 1;
    if oi > |oldLines| {
      oi := |oldLines|;
    }
    oj := j + 1;
    if oj > |newLines| {
      oj := |newLines|;
    }
  }

  /** Everything the loop keeps about what it has recorded so far. */
  ghost predicate Recorded(oldLines: seq<string>, newLines: seq<string>, i: nat, j: nat, log: seq<Line>) {
    && i <= |oldLines| && j <= |newLines|
    && AllQuote(oldLines, newLines, log)
    && Within(Marked(log, '-'), i) && |Marked(log, '-')| == Tally(log, '-')
    && Within(Marked(log, '+'), j) && |Marked(log, '+')| == Tally(log, '+')
    && Without(oldLines, i, Marked(log, '-')) == Without(newLines, j, Marked(log, '+'))
  }

  lemma RecordContext(oldLines: seq<string>, newLines: seq<string>, i: nat, j: nat, log: seq<Line>, k: nat)
    requires Recorded(oldLines, newLines, i, j, log) && k < |oldLines|
    ensures Recorded(oldLines, newLines, i, j, log + [Line(k + 1, oldLines[k], ' ')])
  {
    Push(log, Line(k + 1, oldLines[k], ' '));
  }

  lemma RecordRemoved(oldLines: seq<string>, newLines: seq<string>, i: nat, j: nat, log: seq<Line>)
    requires Recorded(oldLines, newLines, i, j, log) && i < |oldLines|
    ensures Recorded(oldLines, newLines, i + 1, j, log + [Line(i + 1, oldLines[i], '-')])
  {
    Push(log, Line(i + 1, oldLines[i], '-'));
    WithoutFrame(oldLines, i, Marked(log, '-'), i + 1);
  }

  lemma RecordAdded(oldLines: seq<string>, newLines: seq<string>, i: nat, j: nat, log: seq<Line>)
    requires Recorded(oldLines, newLines, i, j, log) && j < |newLines|
    ensures Recorded(oldLines, newLines, i, j + 1, log + [Line(j + 1, newLines[j], '+')])
  {
    hide Tally, Marked;
    Push(log, Line(j + 1, newLines[j], '+'));
    WithoutFrame(newLines, j, Marked(log, '+'), j + 1);
  }

  lemma KeepBoth(oldLines: seq<string>, newLines: seq<string>, i: nat, j: nat, log: seq<Line>)
    requires Recorded(oldLines, newLines, i, j, log)
    requires i < |oldLines| && j < |newLines| && oldLines[i] == newLines[j]
    ensures Recorded(oldLines, newLines, i + 1, j + 1, log)
  {
  }

  /** A hunk whose old side is one contiguous block that ends just before line i. */
  ghost predicate EndsAt(h: Hunk, i: nat) {
    Contiguous(h) && h.oldStart + |OldNums(h.lines)| == i + 1
  }

  lemma ExtendOld(h: Hunk, i: nat, l: Line)
    requires EndsAt(h, i) && l.lineNo == i + 1 && l.kind != '+'
    ensures EndsAt(h.(lines := h.lines + [l]), i + 1)
  {
    Push(h.lines, l);
  }

  lemma ExtendNew(h: Hunk, i: nat, l: Line)
    requires EndsAt(h, i) && l.kind == '+'
    ensures EndsAt(h.(lines := h.lines + [l]), i)
  {
    Push(h.lines, l);
  }

  lemma FlatPush(hunks: seq<Hunk>, h: Hunk)
    ensures Flat(hunks + [h]) == Flat(hunks) + h.lines
  {
    assert (hunks + [h])[..|hunks|] == hunks;
  }

  lemma StillChanged(a: seq<Line>, b: seq<Line>)
    requires Changed(a)
    ensures Changed(a + b)
  {
    var k :| 0 <= k < |a| && a[k].kind != ' ';
    assert (a + b)[k].kind != ' ';
  }

  ghost predicate Finished(hunks: seq<Hunk>) {
    forall k :: 0 <= k < |hunks| ==> Contiguous(hunks[k]) && Changed(hunks[k].lines)
  }

  /** The hunk being built records a change and reaches line i, or is still empty. */
  ghost predicate Building(current: Hunk, i: nat) {
    current.lines != [] ==> Changed(current.lines) && EndsAt(current, i)
  }

  /** Nothing has been recorded exactly as long as the two texts have agreed so far. */
  ghost predicate Agreement(oldLines: seq<string>, newLines: seq<string>, i: nat, j: nat, log: seq<Line>)
    requires i <= |oldLines| && j <= |newLines|
  {
    && (log == [] ==> i == j && oldLines[..i] == newLines[..j])
    && (log != [] ==> oldLines != newLines)
  }

  // ---------------------------------------------------------------------------
  // Where a hunk starts in the new text, and where it ends
  // ---------------------------------------------------------------------------

  /** Lines added less lines removed. */
  function Surplus(lines: seq<Line>): int {
    Tally(lines, '+') - Tally(lines, '-')
  }

  /** The start of a hunk in the new text is its start in the old one, moved by all that the hunks before it
      have added and removed, and 1 at least. */
  predicate StartsRight(h: Hunk, before: seq<Line>) {
    var start := h.oldStart + Surplus(before);
    h.newStart == if start < 1 then 1 else start
  }

  ghost predicate Headed(hunks: seq<Hunk>) {
    forall k :: 0 <= k < |hunks| ==> StartsRight(hunks[k], Flat(hunks[..k]))
  }

  lemma HeadedPush(hunks: seq<Hunk>, h: Hunk)
    requires Headed(hunks) && StartsRight(h, Flat(hunks))
    ensures Headed(hunks + [h])
  {
    forall k | 0 <= k < |hunks + [h]| ensures StartsRight((hunks + [h])[k], Flat((hunks + [h])[..k])) {
      assert (hunks + [h])[..k] == hunks[..k];
      assert k == |hunks| ==> hunks[..k] == hunks;
    }
  }

  /** How far the two texts are apart is what has been recorded as added and removed. */
  lemma Apart(oldLines: seq<string>, newLines: seq<string>, i: nat, j: nat, log: seq<Line>)
    requires Recorded(oldLines, newLines, i, j, log)
    ensures j - i == Surplus(log)
  {
    WithoutLength(oldLines, i, Marked(log, '-'));
    WithoutLength(newLines, j, Marked(log, '+'));
  }

  /** A place after a change at which the n lines of a hunk end it: a context line, the third line or later. */
  ghost predicate EndsHunk(lines: seq<Line>, n: nat)
    requires n <= |lines|
  {
    n >= 3 && lines[n - 1].kind == ' ' && Changed(lines[..n])
  }

  /** No line before the nth ends the hunk. */
  ghost predicate Uncut(lines: seq<Line>, n: nat)
    requires n <= |lines|
  {
    forall m :: 0 <= m < n ==> !EndsHunk(lines, m)
  }

  /** Every hunk goes on to the first line that ends it, and only the last one may stop short of one. */
  ghost predicate CutRight(hunks: seq<Hunk>) {
    && (forall k :: 0 <= k < |hunks| ==> Uncut(hunks[k].lines, |hunks[k].lines|))
    && (forall k :: 0 <= k < |hunks| - 1 ==> EndsHunk(hunks[k].lines, |hunks[k].lines|))
  }

  ghost predicate AllCut(hunks: seq<Hunk>) {
    forall k :: 0 <= k < |hunks| ==> Uncut(hunks[k].lines, |hunks[k].lines|) && EndsHunk(hunks[k].lines, |hunks[k].lines|)
  }

  /** Not even the last line ends the hunk. */
  ghost predicate StillOpen(lines: seq<Line>) {
    Uncut(lines, |lines|) && !EndsHunk(lines, |lines|)
  }

  lemma OneMoreLine(lines: seq<Line>, l: Line)
    requires StillOpen(lines)
    ensures Uncut(lines + [l], |lines| + 1)
    ensures l.kind != ' ' ==> StillOpen(lines + [l])
  {
    var more := lines + [l];
    forall m | 0 <= m <= |lines| ensures !EndsHunk(more, m) {
      assert more[..m] == lines[..m] && (m > 0 ==> more[m - 1] == lines[m - 1]);
      assert !EndsHunk(lines, m);
    }
  }

  lemma AllCutPush(hunks: seq<Hunk>, h: Hunk)
    requires AllCut(hunks) && Uncut(h.lines, |h.lines|)
    ensures CutRight(hunks + [h])
    ensures EndsHunk(h.lines, |h.lines|) ==> AllCut(hunks + [h])
  {
  }

  /** Splits both texts into hunks. What the hunks record as removed and as added is a genuine
      edit: both texts have the same lines left over. */
  method Hunks(oldLines: seq<string>, newLines: seq<string>) returns (hunks: seq<Hunk>)
    ensures Recorded(oldLines, newLines, |oldLines|, |newLines|, Flat(hunks))
    ensures hunks == [] <==> oldLines == newLines
    ensures Finished(hunks) && Headed(hunks) && CutRight(hunks)
  {
    hide EndsAt, Contiguous, Changed, Agreement, Finished, Headed, Surplus, AllCut, CutRight, Uncut, EndsHunk;
    hunks := [];
    var current := Hunk(0, 0, []);
    NothingYet(oldLines, newLines);
    var i, j := 0, 0;
    while i < |oldLines| || j < |newLines|
      invariant Recorded(oldLines, newLines, i, j, Flat(hunks) + current.lines)
      invariant Building(current, i)
      invariant Finished(hunks) && Headed(hunks) && AllCut(hunks)
      invariant current.lines != [] ==> StartsRight(current, Flat(hunks))
      invariant StillOpen(current.lines)
      invariant Agreement(oldLines, newLines, i, j, Flat(hunks) + current.lines)
      decreases |oldLines| + |newLines| - i - j
    {
      if i < |oldLines| && j < |newLines| && oldLines[i] == newLines[j] {
        hunks, current := KeepLine(oldLines, newLines, i, j, hunks, current);
        i := i + 1;
        j := j + 1;
        continue;
      }
      Mismatch(oldLines, newLines, i, j, Flat(hunks) + current.lines);
      ghost var done := Flat(hunks);
      var changed := HasChanges(current.lines);
      if !changed {
        current := LeadingContext(oldLines, newLines, i, j, Flat(hunks), current);
      }
      var oldEnd, newEnd := FindNextMatch(oldLines, newLines, i, j);
      current := RecordRemovals(oldLines, newLines, i, j, oldEnd, Flat(hunks), current);
      current := RecordAdditions(oldLines, newLines, oldEnd, j, newEnd, Flat(hunks), current, oldEnd > i);
      i := oldEnd;
      j := newEnd;
      Disagree(oldLines, newLines, i, j, done, current.lines);
    }
    Conclude(oldLines, newLines, Flat(hunks) + current.lines);
    var pending := HasChanges(current.lines);
    if pending {
      FlatPush(hunks, current);
      FinishedPush(hunks, current, i);
      HeadedPush(hunks, current);
      AllCutPush(hunks, current);
      assert Flat(hunks) + current.lines == Flat(hunks + [current]);
      hunks := hunks + [current];
    } else {
      assert Flat(hunks) + current.lines == Flat(hunks);
      CutBefore(hunks);
    }
    NonEmptyLog(hunks);
  }

  lemma NothingYet(oldLines: seq<string>, newLines: seq<string>)
    ensures Agreement(oldLines, newLines, 0, 0, []) && Finished([]) && Headed([]) && AllCut([]) && StillOpen([])
  {
  }

  lemma CutBefore(hunks: seq<Hunk>)
    requires AllCut(hunks)
    ensures CutRight(hunks)
  {
  }

  lemma Disagree(oldLines: seq<string>, newLines: seq<string>, i: nat, j: nat, a: seq<Line>, b: seq<Line>)
    requires i <= |oldLines| && j <= |newLines| && b != [] && oldLines != newLines
    ensures Agreement(oldLines, newLines, i, j, a + b)
  {
  }

  lemma Conclude(oldLines: seq<string>, newLines: seq<string>, log: seq<Line>)
    requires Agreement(oldLines, newLines, |oldLines|, |newLines|, log)
    ensures log == [] <==> oldLines == newLines
  {
    assert oldLines[..|oldLines|] == oldLines && newLines[..|newLines|] == newLines;
  }

  lemma FinishedPush(hunks: seq<Hunk>, h: Hunk, i: nat)
    requires Finished(hunks) && EndsAt(h, i) && Changed(h.lines)
    ensures Finished(hunks + [h])
  {
  }

  lemma NonEmptyLog(hunks: seq<Hunk>)
    requires Finished(hunks)
    ensures hunks == [] <==> Flat(hunks) == []
  {
    if hunks != [] {
      var last := hunks[|hunks| - 1];
      var k :| 0 <= k < |last.lines| && last.lines[k].kind != ' ';
      assert Flat(hunks) == Flat(hunks[..|hunks| - 1]) + last.lines;
    }
  }

  lemma Mismatch(oldLines: seq<string>, newLines: seq<string>, i: nat, j: nat, log: seq<Line>)
    requires i <= |oldLines| && j <= |newLines| && (i < |oldLines| || j < |newLines|)
    requires !(i < |oldLines| && j < |newLines| && oldLines[i] == newLines[j])
    requires Agreement(oldLines, newLines, i, j, log)
    ensures oldLines != newLines
  {
  }

  lemma NeverCut()
    ensures Uncut([], 0)
  {
  }

  /** The loop body for two equal lines: at most one context line, at most one finished hunk. */
  method KeepLine(oldLines: seq<string>, newLines: seq<string>, i: nat, j: nat, hunks0: seq<Hunk>, current0: Hunk)
    returns (hunks: seq<Hunk>, current: Hunk)
    requires i < |oldLines| && j < |newLines| && oldLines[i] == newLines[j]
    requires Recorded(oldLines, newLines, i, j, Flat(hunks0) + current0.lines)
    requires Building(current0, i) && Finished(hunks0) && Headed(hunks0) && AllCut(hunks0)
    requires current0.lines != [] ==> StartsRight(current0, Flat(hunks0))
    requires StillOpen(current0.lines)
    requires Agreement(oldLines, newLines, i, j, Flat(hunks0) + current0.lines)
    ensures Recorded(oldLines, newLines, i + 1, j + 1, Flat(hunks) + current.lines)
    ensures Building(current, i + 1) && Finished(hunks) && Headed(hunks) && AllCut(hunks)
    ensures current.lines != [] ==> StartsRight(current, Flat(hunks))
    ensures StillOpen(current.lines)
    ensures Agreement(oldLines, newLines, i + 1, j + 1, Flat(hunks) + current.lines)
  {
    hide Recorded, EndsAt, Changed, Headed, AllCut, Uncut;
    hunks, current := hunks0, current0;
    ghost var log := Flat(hunks) + current.lines;
    var changed := HasChanges(current.lines);
    if changed {
      var line := Line(i + 1, oldLines[i], ' ');
      RecordContext(oldLines, newLines, i, j, log, i);
      ExtendOld(current, i, line);
      StillChanged(current.lines, [line]);
      OneMoreLine(current.lines, line);
      current := current.(lines := current.lines + [line]);
      log := log + [line];
      assert log == Flat(hunks) + current.lines;
      assert current.lines[..|current.lines|] == current.lines;
      if |current.lines| >= 3 {
        FlatPush(hunks, current);
        HeadedPush(hunks, current);
        AllCutPush(hunks, current);
        NeverCut();
        hunks := hunks + [current];
        current := Hunk(0, 0, []);
        assert log == Flat(hunks) + current.lines;
      }
    }
    KeepBoth(oldLines, newLines, i, j, log);
  }

  /** Up to three old lines before a change open a new hunk. */
  method LeadingContext(oldLines: seq<string>, newLines: seq<string>, i: nat, j: nat,
                        ghost prefix: seq<Line>, hunk: Hunk) returns (current: Hunk)
    requires hunk.lines == [] && i <= |oldLines|
    requires Recorded(oldLines, newLines, i, j, prefix + hunk.lines)
    requires prefix + hunk.lines == prefix
    ensures StartsRight(current, prefix) && StillOpen(current.lines)
    ensures Recorded(oldLines, newLines, i, j, prefix + current.lines)
    ensures EndsAt(current, i) && current.oldStart == if i < 3 then 1 else i - 2
    ensures forall k :: 0 <= k < |current.lines| ==> current.lines[k].kind == ' '
  {
    Apart(oldLines, newLines, i, j, prefix);
    current := hunk;
    var start := i - 3;
    if start < 0 {
      start := 0;
    }
    var newStart := j - (i - start) + 1;
    if newStart < 1 {
      newStart := 1;
    }
    current := current.(oldStart := start + 1, newStart := newStart);
    for k := start to i
      invariant current.oldStart == start + 1 && current.newStart == newStart
      invariant EndsAt(current, k)
      invariant Recorded(oldLines, newLines, i, j, prefix + current.lines)
      invariant forall m :: 0 <= m < |current.lines| ==> current.lines[m].kind == ' '
    {
      var line := Line(k + 1, oldLines[k], ' ');
      RecordContext(oldLines, newLines, i, j, prefix + current.lines, k);
      ExtendOld(current, k, line);
      assert prefix + (current.lines + [line]) == prefix + current.lines + [line];
      current := current.(lines := current.lines + [line]);
    }
  }

  method RecordRemovals(oldLines: seq<string>, newLines: seq<string>, i: nat, j: nat, oldEnd: nat,
                        ghost prefix: seq<Line>, hunk: Hunk) returns (current: Hunk)
    requires i <= oldEnd <= |oldLines|
    requires Recorded(oldLines, newLines, i, j, prefix + hunk.lines)
    requires EndsAt(hunk, i)
    ensures Recorded(oldLines, newLines, oldEnd, j, prefix + current.lines)
    ensures EndsAt(current, oldEnd)
    ensures Changed(hunk.lines) || oldEnd > i ==> Changed(current.lines)
    ensures |current.lines| == |hunk.lines| + oldEnd - i
    ensures current.oldStart == hunk.oldStart && current.newStart == hunk.newStart
    ensures StillOpen(hunk.lines) ==> StillOpen(current.lines)
  {
    hide Recorded, EndsAt, StillOpen;
    current := hunk;
    for k := i to oldEnd
      invariant Recorded(oldLines, newLines, k, j, prefix + current.lines)
      invariant EndsAt(current, k)
      invariant Changed(hunk.lines) || k > i ==> Changed(current.lines)
      invariant |current.lines| == |hunk.lines| + k - i
      invariant current.oldStart == hunk.oldStart && current.newStart == hunk.newStart
      invariant StillOpen(hunk.lines) ==> StillOpen(current.lines)
    {
      if StillOpen(current.lines) {
        OneMoreLine(current.lines, Line(k + 1, oldLines[k], '-'));
      }
      var line := Line(k + 1, oldLines[k], '-');
      RecordRemoved(oldLines, newLines, k, j, prefix + current.lines);
      ExtendOld(current, k, line);
      assert prefix + (current.lines + [line]) == prefix + current.lines + [line];
      current := current.(lines := current.lines + [line]);
      assert current.lines[|current.lines| - 1].kind != ' ';
    }
  }

  method RecordAdditions(oldLines: seq<string>, newLines: seq<string>, i: nat, j: nat, newEnd: nat,
                         ghost prefix: seq<Line>, hunk: Hunk, ghost removedSome: bool) returns (current: Hunk)
    requires j <= newEnd <= |newLines| && (removedSome || j < newEnd)
    requires Recorded(oldLines, newLines, i, j, prefix + hunk.lines)
    requires EndsAt(hunk, i) && (removedSome ==> Changed(hunk.lines))
    ensures Recorded(oldLines, newLines, i, newEnd, prefix + current.lines)
    ensures EndsAt(current, i) && Changed(current.lines) && current.lines != []
    ensures |current.lines| == |hunk.lines| + newEnd - j
    ensures current.oldStart == hunk.oldStart && current.newStart == hunk.newStart
    ensures StillOpen(hunk.lines) ==> StillOpen(current.lines)
  {
    hide Recorded, EndsAt, StillOpen;
    current := hunk;
    for k := j to newEnd
      invariant Recorded(oldLines, newLines, i, k, prefix + current.lines)
      invariant EndsAt(current, i)
      invariant removedSome || k > j ==> Changed(current.lines)
      invariant |current.lines| == |hunk.lines| + k - j
      invariant current.oldStart == hunk.oldStart && current.newStart == hunk.newStart
      invariant StillOpen(hunk.lines) ==> StillOpen(current.lines)
    {
      if StillOpen(current.lines) {
        OneMoreLine(current.lines, Line(k + 1, newLines[k], '+'));
      }
      var line := Line(k + 1, newLines[k], '+');
      RecordAdded(oldLines, newLines, i, k, prefix + current.lines);
      ExtendNew(current, i, line);
      assert prefix + (current.lines + [line]) == prefix + current.lines + [line];
      current := current.(lines := current.lines + [line]);
      assert current.lines[|current.lines| - 1].kind != ' ';
    }
  }

  /** Added minus removed is the difference of the line counts. */
  lemma CountsBalance(oldLines: seq<string>, newLines: seq<string>, log: seq<Line>)
    requires Recorded(oldLines, newLines, |oldLines|, |newLines|, log)
    ensures Tally(log, '+') - Tally(log, '-') == |newLines| - |oldLines|
  {
    WithoutLength(oldLines, |oldLines|, Marked(log, '-'));
    WithoutLength(newLines, |newLines|, Marked(log, '+'));
  }
}
