/** The textual patch, and the counting of changed lines back out of it (tools/diff/diff.go). */
module Patch {
  import opened Text
  import opened LineDiff

  // ---------------------------------------------------------------------------
  // Rendering
  // ---------------------------------------------------------------------------

  /** Decimal digits, as produced by the %d verb. */
  function Decimal(n: nat): string {
    if n < 10 then ["0123456789"[n]] else Decimal(n / 10) + ["0123456789"[n % 10]]
  }

  lemma {:induction false} DecimalClean(n: nat)
    ensures '\n' !in Decimal(n) && |Decimal(n)| > 0
  {
    assert '\n' !in "0123456789";
    if n >= 10 {
      DecimalClean(n / 10);
    }
  }

  /** Lines of a hunk that exist on one side: the context and the lines of the given kind. */
  function Side(lines: seq<Line>, kind: char): nat {
    Tally(lines, ' ') + Tally(lines, kind)
  }

  function HunkHeader(h: Hunk): string {
    "@@ -" + Decimal(h.oldStart) + "," + Decimal(Side(h.lines, '-'))
    + " +" + Decimal(h.newStart) + "," + Decimal(Side(h.lines, '+')) + " @@"
  }

  /** The number that a row of digits stands for. */
  function Value(digits: string): int {
    if digits == "" then 0 else 10 * Value(digits[..|digits| - 1]) + (digits[|digits| - 1] as int - '0' as int)
  }

  predicate IsNumeral(s: string) {
    s != "" && (forall k :: 0 <= k < |s| ==> '0' <= s[k] <= '9') && (s[0] == '0' ==> |s| == 1)
  }

  lemma OneMoreDigit(digits: string, d: nat)
    requires d < 10
    ensures var c := "0123456789"[d]; '0' <= c <= '9' && Value(digits + [c]) == 10 * Value(digits) + d
  {
    var c := "0123456789"[d];
    assert c as int == '0' as int + d;
    assert (digits + [c])[..|digits|] == digits;
  }

  lemma DecimalStep(n: nat)
    ensures Decimal(n) == (if n < 10 then "" else Decimal(n / 10)) + ["0123456789"[n % 10]]
  {
  }

  /** Reading a number back gives the number, and it is written without leading zeros. */
  lemma {:induction false} DecimalReads(n: nat)
    ensures Value(Decimal(n)) == n && IsNumeral(Decimal(n)) && (Decimal(n)[0] == '0' ==> n == 0)
  {
    DecimalStep(n);
    assert Value("") == 0;
    hide Value, Decimal;
    if n < 10 {
      OneMoreDigit("", n);
      assert Decimal(n) == ["0123456789"[n]];
      assert n > 0 ==> "0123456789"[n] != '0';
    } else {
      DecimalReads(n / 10);
      OneMoreDigit(Decimal(n / 10), n % 10);
      assert Decimal(n)[0] == Decimal(n / 10)[0];
    }
  }

  /** Lines of the three kinds, and no others. */
  predicate ThreeKinds(lines: seq<Line>) {
    forall k :: 0 <= k < |lines| ==> lines[k].kind in [' ', '-', '+']
  }

  lemma {:induction false} SidesCount(lines: seq<Line>)
    requires ThreeKinds(lines)
    ensures Side(lines, '-') == |lines| - Tally(lines, '+') && Side(lines, '+') == |lines| - Tally(lines, '-')
  {
    if lines != [] {
      SidesCount(lines[..|lines| - 1]);
    }
  }

  function HeaderText(oldStart: string, oldCount: string, newStart: string, newCount: string): string {
    "@@ -" + oldStart + "," + oldCount + " +" + newStart + "," + newCount + " @@"
  }

  /** A hunk header holds four numbers: where the old side starts and how many lines are on it, that is all
      but the added ones, and the same of the new side, which has all but the removed ones. */
  lemma HeaderReads(h: Hunk) returns (a: string, b: string, c: string, d: string)
    requires ThreeKinds(h.lines)
    ensures HunkHeader(h) == HeaderText(a, b, c, d)
    ensures IsNumeral(a) && IsNumeral(b) && IsNumeral(c) && IsNumeral(d)
    ensures Value(a) == h.oldStart && Value(b) == |h.lines| - Tally(h.lines, '+')
    ensures Value(c) == h.newStart && Value(d) == |h.lines| - Tally(h.lines, '-')
  {
    hide Decimal, Value, IsNumeral, Side;
    a, b, c, d := Decimal(h.oldStart), Decimal(Side(h.lines, '-')), Decimal(h.newStart), Decimal(Side(h.lines, '+'));
    DecimalReads(h.oldStart);
    DecimalReads(Side(h.lines, '-'));
    DecimalReads(h.newStart);
    DecimalReads(Side(h.lines, '+'));
    SidesCount(h.lines);
  }

  function Body(lines: seq<Line>): seq<string> {
    if lines == [] then []
    else Body(lines[..|lines| - 1]) + [[lines[|lines| - 1].kind] + lines[|lines| - 1].text]
  }

  function HunkLines(hunks: seq<Hunk>): seq<string> {
    if hunks == [] then []
    else
      var last := hunks[|hunks| - 1];
      HunkLines(hunks[..|hunks| - 1]) + ([HunkHeader(last)] + Body(last.lines))
  }

  /** Every line followed by a line feed. */
  function Terminated(lines: seq<string>): string {
    if lines == [] then "" else Terminated(lines[..|lines| - 1]) + lines[|lines| - 1] + "\n"
  }

  function PatchLines(filename: string, hunks: seq<Hunk>): seq<string> {
    ["--- a/" + filename, "+++ b/" + filename] + HunkLines(hunks)
  }

  lemma {:induction false} TerminatedAppend(a: seq<string>, b: seq<string>)
    ensures Terminated(a + b) == Terminated(a) + Terminated(b)
  {
    if b == [] {
      assert a + b == a;
    } else {
      var c := b[..|b| - 1];
      TerminatedAppend(a, c);
      assert (a + b)[..|a + b| - 1] == a + c;
      assert Terminated(a + b) == Terminated(a + c) + b[|b| - 1] + "\n";
      assert Terminated(a + b) == Terminated(a) + (Terminated(c) + b[|b| - 1] + "\n");
    }
  }

  lemma TerminatedPush(a: seq<string>, l: string)
    ensures Terminated(a + [l]) == Terminated(a) + l + "\n"
  {
    assert (a + [l])[..|a|] == a;
  }

  method UnifiedDiff(filename: string, oldContent: string, newContent: string)
    returns (patch: string, ghost hunks: seq<Hunk>)
    ensures Recorded(Split(oldContent), Split(newContent), |Split(oldContent)|, |Split(newContent)|, Flat(hunks))
    ensures Finished(hunks) && Headed(hunks) && CutRight(hunks)
    ensures patch == "" <==> oldContent == newContent
    ensures hunks == [] <==> patch == ""
    ensures patch != "" ==> patch == Terminated(PatchLines(filename, hunks))
  {
    hide Recorded, Finished, Headed, CutRight;
    var oldLines := Split(oldContent);
    var newLines := Split(newContent);
    var found := Hunks(oldLines, newLines);
    hunks := found;
    SplitInjective(oldContent, newContent);
    if |found| == 0 {
      return "", hunks;
    }
    patch := Render(filename, found);
  }

  method Render(filename: string, hunks: seq<Hunk>) returns (patch: string)
    ensures patch != "" && patch == Terminated(PatchLines(filename, hunks))
  {
    hide HunkHeader, Body, HunkLines;
    patch := "";
    patch := patch + ("--- a/" + filename + "\n");
    patch := patch + ("+++ b/" + filename + "\n");
    RenderedHeader(filename, hunks[..0]);
    for n := 0 to |hunks|
      invariant patch != "" && patch == Terminated(PatchLines(filename, hunks[..n]))
    {
      var h := hunks[n];
      patch := WriteHunk(patch, PatchLines(filename, hunks[..n]), h);
      PatchLinesPush(filename, hunks[..n], h);
      assert hunks[..n + 1] == hunks[..n] + [h];
    }
    assert hunks[..|hunks|] == hunks;
  }

  lemma RenderedHeader(filename: string, none: seq<Hunk>)
    requires none == []
    ensures Terminated(PatchLines(filename, none)) == ("--- a/" + filename + "\n") + ("+++ b/" + filename + "\n")
  {
    var a, b := "--- a/" + filename, "+++ b/" + filename;
    TerminatedPush([], a);
    TerminatedPush([a], b);
    assert [] + [a] == [a] && [a] + [b] == PatchLines(filename, none);
  }

  lemma PatchLinesPush(filename: string, hunks: seq<Hunk>, h: Hunk)
    ensures PatchLines(filename, hunks + [h]) == PatchLines(filename, hunks) + ([HunkHeader(h)] + Body(h.lines))
  {
    assert (hunks + [h])[..|hunks|] == hunks;
  }

  /** The two loops over one hunk: counting both sides, then writing header and lines. */
  method WriteHunk(prefix: string, ghost before: seq<string>, h: Hunk) returns (patch: string)
    requires prefix == Terminated(before) && prefix != ""
    ensures patch == Terminated(before + ([HunkHeader(h)] + Body(h.lines))) && patch != ""
  {
    var oldCount, newCount := 0, 0;
    for k := 0 to |h.lines|
      invariant oldCount == Side(h.lines[..k], '-') && newCount == Side(h.lines[..k], '+')
    {
      var cl := h.lines[k];
      assert h.lines[..k + 1][..k] == h.lines[..k];
      match cl.kind {
        case '-' => oldCount := oldCount + 1;
        case '+' => newCount := newCount + 1;
        case ' ' =>
          oldCount := oldCount + 1;
          newCount := newCount + 1;
        case _ =>
      }
    }
    assert h.lines[..|h.lines|] == h.lines;
    var header := "@@ -" + Decimal(h.oldStart) + "," + Decimal(oldCount)
                  + " +" + Decimal(h.newStart) + "," + Decimal(newCount) + " @@";
    assert header == HunkHeader(h);
    TerminatedPush(before, header);
    patch := prefix + header + "\n";
    assert before + [header] == before + ([header] + Body(h.lines[..0]));
    for k := 0 to |h.lines|
      invariant patch != "" && patch == Terminated(before + ([header] + Body(h.lines[..k])))
    {
      var line := [h.lines[k].kind] + h.lines[k].text;
      assert h.lines[..k + 1][..k] == h.lines[..k];
      TerminatedPush(before + ([header] + Body(h.lines[..k])), line);
      assert before + ([header] + Body(h.lines[..k])) + [line] == before + ([header] + Body(h.lines[..k + 1]));
      patch := patch + line + "\n";
    }
  }

  // ---------------------------------------------------------------------------
  // Counting changes back out of a patch
  // ---------------------------------------------------------------------------

  /** A line that starts with the mark c but not with three of them. */
  predicate Counts(line: string, c: char) {
    HasPrefix(line, [c]) && !HasPrefix(line, [c, c, c])
  }

  function CountLines(lines: seq<string>, c: char): nat {
    if lines == [] then 0
    else CountLines(lines[..|lines| - 1], c) + if Counts(lines[|lines| - 1], c) then 1 else 0
  }

  method CountChanges(diffStr: string) returns (added: nat, removed: nat)
    ensures added == CountLines(Split(diffStr), '+')
    ensures removed == CountLines(Split(diffStr), '-')
  {
    added, removed := 0, 0;
    var lines := Split(diffStr);
    for k := 0 to |lines|
      invariant added == CountLines(lines[..k], '+') && removed == CountLines(lines[..k], '-')
    {
      var line := lines[k];
      assert lines[..k + 1][..k] == lines[..k];
      if HasPrefix(line, "+") && !HasPrefix(line, "+++") {
        added := added + 1;
      }
      if HasPrefix(line, "-") && !HasPrefix(line, "---") {
        removed := removed + 1;
      }
    }
    assert lines[..|lines|] == lines;
  }

  lemma {:induction false} CountAppend(a: seq<string>, b: seq<string>, c: char)
    ensures CountLines(a + b, c) == CountLines(a, c) + CountLines(b, c)
  {
    if b == [] {
      assert a + b == a;
    } else {
      var d := b[..|b| - 1];
      CountAppend(a, d, c);
      assert (a + b)[..|a + b| - 1] == a + d;
    }
  }

  lemma CountOne(l: string, c: char)
    ensures CountLines([l], c) == if Counts(l, c) then 1 else 0
  {
    assert [l][..0] == [];
  }

  ghost predicate Clean(lines: seq<string>) {
    forall k :: 0 <= k < |lines| ==> '\n' !in lines[k]
  }

  /** Splitting terminated lines gives back the lines of each, and one empty line at the end. */
  lemma {:induction false} SplitTerminated(lines: seq<string>)
    requires Clean(lines)
    ensures Split(Terminated(lines)) == lines + [""]
  {
    if lines != [] {
      var last := lines[|lines| - 1];
      var before := lines[..|lines| - 1];
      SplitTerminated(before);
      assert Clean(before);
      TerminatedSplit(before, last);
      SplitNoNewline(last);
      assert before + [last] == lines;
    }
  }

  lemma {:induction false} TerminatedSplit(before: seq<string>, last: string)
    requires Clean(before)
    ensures Split(Terminated(before) + last + "\n") == before + Split(last) + [""]
  {
    var t := Terminated(before);
    SplitAppend(t + last, "");
    assert t + last + "\n" + "" == t + last + "\n";
    SplitAfter(before, last);
  }

  lemma {:induction false} SplitAfter(before: seq<string>, rest: string)
    requires Clean(before)
    ensures Split(Terminated(before) + rest) == before + Split(rest)
  {
    if before == [] {
      assert "" + rest == rest;
      assert [] + Split(rest) == Split(rest);
    } else {
      hide Split;
      var first := before[..|before| - 1];
      var l := before[|before| - 1];
      SplitAfter(first, l + "\n" + rest);
      SplitLine(l, rest);
      Regroup(Terminated(first), l, rest);
      assert first + ([l] + Split(rest)) == before + Split(rest);
    }
  }

  lemma SplitLine(l: string, rest: string)
    requires '\n' !in l
    ensures Split(l + "\n" + rest) == [l] + Split(rest)
  {
    SplitAppend(l, rest);
    SplitNoNewline(l);
  }

  lemma Regroup(a: string, l: string, rest: string)
    ensures (a + l + "\n") + rest == a + (l + "\n" + rest)
  {
  }

  lemma {:induction false} SplitPrefix(p: string, s: string)
    requires '\n' !in p
    ensures Split(p + s) == [p + Split(s)[0]] + Split(s)[1..]
  {
    if p == "" {
      assert p + s == s && p + Split(s)[0] == Split(s)[0];
      assert [Split(s)[0]] + Split(s)[1..] == Split(s);
    } else {
      SplitPrefix(p[1..], s);
      SplitStep(p[0], p[1..] + s);
      assert [p[0]] + (p[1..] + s) == p + s;
      assert [p[0]] + (p[1..] + Split(s)[0]) == p + Split(s)[0];
    }
  }

  /** Recorded lines of a kind whose own text makes the patch line look like a file header. */
  function Masked(lines: seq<Line>, kind: char): nat {
    if lines == [] then 0
    else Masked(lines[..|lines| - 1], kind)
         + if lines[|lines| - 1].kind == kind && HasPrefix(lines[|lines| - 1].text, [kind, kind]) then 1 else 0
  }

  lemma MarkedLine(l: Line, c: char)
    requires c == '+' || c == '-'
    ensures Counts([l.kind] + l.text, c) <==> l.kind == c && !HasPrefix(l.text, [c, c])
  {
    var s := [l.kind] + l.text;
    PrefixChars(s, [c]);
    PrefixChars(s, [c, c, c]);
    PrefixChars(l.text, [c, c]);
    if l.kind == c && HasPrefix(l.text, [c, c]) {
      assert s[..3] == [c, c, c];
    }
    if l.kind == c {
      assert s[..1] == [c];
    }
    if |l.text| >= 2 {
      assert s[1] == l.text[0] && s[2] == l.text[1];
      assert l.text[..2] == [l.text[0], l.text[1]];
      assert |s| >= 3 && s[..3] == [s[0], s[1], s[2]];
    }
  }

  lemma {:induction false} CountBody(lines: seq<Line>, c: char)
    requires c == '+' || c == '-'
    ensures CountLines(Body(lines), c) + Masked(lines, c) == Tally(lines, c)
  {
    if lines != [] {
      var last := lines[|lines| - 1];
      CountBody(lines[..|lines| - 1], c);
      MarkedLine(last, c);
      CountAppend(Body(lines[..|lines| - 1]), [[last.kind] + last.text], c);
      CountOne([last.kind] + last.text, c);
    }
  }

  lemma {:induction false} TallyAppend(a: seq<Line>, b: seq<Line>, c: char)
    ensures Tally(a + b, c) == Tally(a, c) + Tally(b, c)
    ensures Masked(a + b, c) == Masked(a, c) + Masked(b, c)
  {
    if b == [] {
      assert a + b == a;
    } else {
      TallyAppend(a, b[..|b| - 1], c);
      assert (a + b)[..|a + b| - 1] == a + b[..|b| - 1];
    }
  }

  lemma {:induction false} CountHunkLines(hunks: seq<Hunk>, c: char)
    requires c == '+' || c == '-'
    ensures CountLines(HunkLines(hunks), c) + Masked(Flat(hunks), c) == Tally(Flat(hunks), c)
  {
    if hunks != [] {
      var last := hunks[|hunks| - 1];
      var before := hunks[..|hunks| - 1];
      CountHunkLines(before, c);
      CountBody(last.lines, c);
      var header := HunkHeader(last);
      assert header[0] == '@';
      PrefixChars(header, [c]);
      assert !Counts(header, c);
      CountOne(header, c);
      CountAppend([header], Body(last.lines), c);
      CountAppend(HunkLines(before), [header] + Body(last.lines), c);
      TallyAppend(Flat(before), last.lines, c);
    }
  }

  lemma HeaderClean(h: Hunk)
    ensures '\n' !in HunkHeader(h)
  {
    DecimalClean(h.oldStart);
    DecimalClean(h.newStart);
    DecimalClean(Side(h.lines, '-'));
    DecimalClean(Side(h.lines, '+'));
  }

  ghost predicate CleanTexts(lines: seq<Line>) {
    forall k :: 0 <= k < |lines| ==> '\n' !in lines[k].text && lines[k].kind != '\n'
  }

  lemma {:induction false} BodyClean(lines: seq<Line>)
    requires CleanTexts(lines)
    ensures Clean(Body(lines))
  {
    if lines != [] {
      BodyClean(lines[..|lines| - 1]);
      assert lines[|lines| - 1].kind != '\n';
    }
  }

  lemma {:induction false} HunkLinesClean(hunks: seq<Hunk>)
    requires CleanTexts(Flat(hunks))
    ensures Clean(HunkLines(hunks))
  {
    if hunks != [] {
      var last := hunks[|hunks| - 1];
      var before := hunks[..|hunks| - 1];
      var log := Flat(before) + last.lines;
      forall k | 0 <= k < |Flat(before)| ensures '\n' !in Flat(before)[k].text && Flat(before)[k].kind != '\n' {
        assert log[k] == Flat(before)[k];
      }
      forall k | 0 <= k < |last.lines| ensures '\n' !in last.lines[k].text && last.lines[k].kind != '\n' {
        assert log[|Flat(before)| + k] == last.lines[k];
      }
      HunkLinesClean(before);
      BodyClean(last.lines);
      HeaderClean(last);
    }
  }

  /** The lines of a whole patch, where the file name may itself span lines. */
  lemma PatchSplit(filename: string, hunks: seq<Hunk>)
    requires CleanTexts(Flat(hunks))
    ensures Split(Terminated(PatchLines(filename, hunks)))
         == (["--- a/" + Split(filename)[0]] + Split(filename)[1..])
            + ((["+++ b/" + Split(filename)[0]] + Split(filename)[1..]) + (HunkLines(hunks) + [""]))
  {
    hide HunkLines, Split;
    var body := HunkLines(hunks);
    var a, b := "--- a/" + filename, "+++ b/" + filename;
    SplitPrefix("--- a/", filename);
    SplitPrefix("+++ b/", filename);
    HunkLinesClean(hunks);
    SplitTerminated(body);
    RenderedHeader(filename, []);
    HeaderThenBody(filename, hunks);
    var t := Terminated(body);
    assert Terminated(PatchLines(filename, hunks)) == a + "\n" + (b + "\n" + t);
    SplitAppend(a, b + "\n" + t);
    SplitAppend(b, t);
  }

  lemma HeaderThenBody(filename: string, hunks: seq<Hunk>)
    ensures Terminated(PatchLines(filename, hunks)) == Terminated(PatchLines(filename, [])) + Terminated(HunkLines(hunks))
  {
    TerminatedAppend(PatchLines(filename, []), HunkLines(hunks));
    assert PatchLines(filename, hunks) == PatchLines(filename, []) + HunkLines(hunks);
  }

  /** The count of '+' (or '-') lines a patch yields: what was recorded, less the recorded lines
      whose text starts with two more marks, plus what a file name with line feeds smuggles in. */
  lemma CountedExactly(filename: string, hunks: seq<Hunk>, c: char)
    requires c == '+' || c == '-'
    requires CleanTexts(Flat(hunks))
    ensures CountLines(Split(Terminated(PatchLines(filename, hunks))), c) + Masked(Flat(hunks), c)
         == Tally(Flat(hunks), c) + 2 * CountLines(Split(filename)[1..], c)
  {
    hide HunkLines, Split, Terminated, PatchLines, CleanTexts, Clean;
    var name := Split(filename);
    PatchSplit(filename, hunks);
    var a, b := "--- a/" + name[0], "+++ b/" + name[0];
    CountHeader(a, name[1..], c);
    CountHeader(b, name[1..], c);
    CountAppend([b] + name[1..], HunkLines(hunks) + [""], c);
    CountAppend([a] + name[1..], ([b] + name[1..]) + (HunkLines(hunks) + [""]), c);
    CountAppend(HunkLines(hunks), [""], c);
    CountOne("", c);
    CountHunkLines(hunks, c);
  }

  lemma CountHeader(h: string, tail: seq<string>, c: char)
    requires HasPrefix(h, "--- a/") || HasPrefix(h, "+++ b/")
    requires c == '+' || c == '-'
    ensures CountLines([h] + tail, c) == CountLines(tail, c)
  {
    HeaderLine(h, c);
    CountOne(h, c);
    CountAppend([h], tail, c);
  }

  lemma HeaderLine(h: string, c: char)
    requires HasPrefix(h, "--- a/") || HasPrefix(h, "+++ b/")
    requires c == '+' || c == '-'
    ensures !Counts(h, c)
  {
    PrefixChars(h, [c]);
    assert h[..3] == h[..6][..3];
    assert h[..3] == "---" || h[..3] == "+++";
    assert h[0] == h[..3][0];
  }

  /** The counter reports the recorded number exactly when file name lines and masked lines cancel. */
  lemma CountChangesExact(filename: string, hunks: seq<Hunk>, c: char)
    requires c == '+' || c == '-'
    requires CleanTexts(Flat(hunks))
    ensures CountLines(Split(Terminated(PatchLines(filename, hunks))), c) == Tally(Flat(hunks), c)
       <==> Masked(Flat(hunks), c) == 2 * CountLines(Split(filename)[1..], c)
  {
    CountedExactly(filename, hunks, c);
  }

  /** Replacing the line "a" by the line "++b", however it is cut into hunks, adds one line, and the counter
      reports none. */
  lemma PlusPlusLineIsNotCounted(hunks: seq<Hunk>)
    requires Recorded(Split("a"), Split("++b"), 1, 1, Flat(hunks))
    ensures Tally(Flat(hunks), '+') == 1
    ensures CountLines(Split(Terminated(PatchLines("f", hunks))), '+') == 0
  {
    hide CountLines, Split, Terminated, PatchLines, Tally, Marked, Without, Masked;
    SplitNoNewline("a");
    SplitNoNewline("++b");
    SplitNoNewline("f");
    OneLineAdded(Flat(hunks));
    assert HasPrefix("++b", "++");
    AllMasked(["a"], ["++b"], Flat(hunks), '+');
    RecordedIsClean("a", "++b", Flat(hunks));
    CountedExactly("f", hunks, '+');
    NoLinesCounted(Split("f")[1..]);
  }

  lemma NoLinesCounted(lines: seq<string>)
    requires lines == []
    ensures CountLines(lines, '+') == 0
  {
  }

  lemma OneLineAdded(log: seq<Line>)
    requires Recorded(["a"], ["++b"], 1, 1, log)
    ensures Tally(log, '+') == 1
  {
    hide Tally, Marked;
    CountsBalance(["a"], ["++b"], log);
    var removed, added := Marked(log, '-'), Marked(log, '+');
    assert added <= {1} && removed <= {1};
    assert Without(["a"], 1, {}) == ["a"] && Without(["++b"], 1, {}) == ["++b"];
    assert added == {} || added == {1};
    assert added == {} ==> |removed| == 0;
  }

  /** When every line of the new text starts with two marks, every addition is masked. */
  lemma {:induction false} AllMasked(oldLines: seq<string>, newLines: seq<string>, log: seq<Line>, c: char)
    requires c == '+' && AllQuote(oldLines, newLines, log)
    requires forall k :: 0 <= k < |newLines| ==> HasPrefix(newLines[k], [c, c])
    ensures Masked(log, c) == Tally(log, c)
  {
    if log != [] {
      assert Quotes(oldLines, newLines, log[|log| - 1]);
      AllMasked(oldLines, newLines, log[..|log| - 1], c);
    }
  }

  /** What the diff records always has clean texts, because splitting removed every line feed. */
  lemma RecordedIsClean(oldContent: string, newContent: string, log: seq<Line>)
    requires AllQuote(Split(oldContent), Split(newContent), log)
    ensures CleanTexts(log)
  {
    SplitLinesClean(oldContent);
    SplitLinesClean(newContent);
    forall k | 0 <= k < |log| ensures '\n' !in log[k].text && log[k].kind != '\n' {
      assert Quotes(Split(oldContent), Split(newContent), log[k]);
    }
  }

  /** Extra lines counted because a file name with line feeds is written into the header twice. */
  function Smuggled(filename: string, hunks: seq<Hunk>, c: char): nat {
    if hunks == [] then 0 else 2 * CountLines(Split(filename)[1..], c)
  }

  /** Diffing and counting together: the reported numbers miss exactly the masked lines. */
  method DiffAndCount(filename: string, oldContent: string, newContent: string) returns (added: int, removed: int)
    ensures exists hunks: seq<Hunk> ::
              && Recorded(Split(oldContent), Split(newContent), |Split(oldContent)|, |Split(newContent)|, Flat(hunks))
              && (hunks == [] <==> oldContent == newContent)
              && added == Tally(Flat(hunks), '+') - Masked(Flat(hunks), '+') + Smuggled(filename, hunks, '+')
              && removed == Tally(Flat(hunks), '-') - Masked(Flat(hunks), '-') + Smuggled(filename, hunks, '-')
  {
    var patch, hunks := UnifiedDiff(filename, oldContent, newContent);
    added, removed := CountChanges(patch);
    if hunks != [] {
      RecordedIsClean(oldContent, newContent, Flat(hunks));
      CountedExactly(filename, hunks, '+');
      CountedExactly(filename, hunks, '-');
    } else {
      CountOne("", '+');
      CountOne("", '-');
    }
  }
}
