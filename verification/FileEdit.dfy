/** The edit tool's replacement pipeline and its line-ending rewrite (tools/fileedit.go). */
module FileEdit {
  import opened Text

  // ---------------------------------------------------------------------------
  // Line endings
  // ---------------------------------------------------------------------------

  function DetectLineEnding(content: string): string {
    var crlfCount := Count(content, "\r\n");
    var lfCount := Count(content, "\n") - crlfCount;
    if crlfCount > lfCount then "\r\n" else "\n"
  }

  /** The two successive rewrites of the tool. */
  function TwoPass(s: string): string {
    ReplaceAll(ReplaceAll(s, "\n", "\r\n"), "\r\r\n", "\r\n")
  }

  /** The intended rewrite: a "\r" goes before every "\n" that does not follow one. */
  function OnePass(s: string, afterCR: bool): string {
    if s == "" then ""
    else if s[0] == '\n' && !afterCR then "\r\n" + OnePass(s[1..], false)
    else [s[0]] + OnePass(s[1..], s[0] == '\r')
  }

  ghost predicate NoLoneLF(s: string) {
    forall k :: 0 <= k < |s| && s[k] == '\n' ==> k > 0 && s[k - 1] == '\r'
  }

  lemma {:induction false} ExpandStep(s: string)
    requires s != ""
    ensures ReplaceAll(s, "\n", "\r\n")
         == (if s[0] == '\n' then "\r\n" else [s[0]]) + ReplaceAll(s[1..], "\n", "\r\n")
  {
    assert HasPrefix(s, "\n") <==> s[0] == '\n';
  }

  lemma {:induction false} ExpandHead(s: string)
    ensures var e := ReplaceAll(s, "\n", "\r\n"); e != "" ==> e[0] != '\n'
  {
    if s != "" {
      ExpandStep(s);
    }
  }

  lemma {:induction false} ContractSkips(c: char, t: string)
    requires c != '\r' || t == "" || t[0] != '\r' || |t| < 2 || t[1] != '\n'
    ensures ReplaceAll([c] + t, "\r\r\n", "\r\n") == [c] + ReplaceAll(t, "\r\r\n", "\r\n")
  {
    var s := [c] + t;
    assert s[1..] == t;
    assert s[0] == c && (|t| > 0 ==> s[1] == t[0]) && (|t| > 1 ==> s[2] == t[1]);
    PrefixChars(s, "\r\r\n");
  }

  lemma ContractMatches(f: string)
    ensures ReplaceAll("\r\r\n" + f, "\r\r\n", "\r\n") == "\r\n" + ReplaceAll(f, "\r\r\n", "\r\n")
  {
    var g := "\r\r\n" + f;
    assert g[..3] == "\r\r\n" && g[3..] == f;
  }

  /** A line end of the first pass comes out of the second as it is, with or without a "\r" before it. */
  lemma ContractLineEnd(f: string)
    ensures ReplaceAll("\r\n" + f, "\r\r\n", "\r\n") == "\r\n" + ReplaceAll(f, "\r\r\n", "\r\n")
    ensures ReplaceAll("\r" + ("\r\n" + f), "\r\r\n", "\r\n") == "\r\n" + ReplaceAll(f, "\r\r\n", "\r\n")
  {
    hide ReplaceAll;
    assert "\r\n" + f == ['\r'] + (['\n'] + f);
    ContractSkips('\n', f);
    ContractSkips('\r', ['\n'] + f);
    ContractMatches(f);
    assert "\r" + ("\r\n" + f) == "\r\r\n" + f;
  }

  lemma ContractOther(c: char, f: string)
    requires c != '\n' && (f == "" || f[0] != '\n')
    ensures c != '\r' ==> ReplaceAll([c] + f, "\r\r\n", "\r\n") == [c] + ReplaceAll(f, "\r\r\n", "\r\n")
    ensures ReplaceAll("\r" + ([c] + f), "\r\r\n", "\r\n") == "\r" + ReplaceAll([c] + f, "\r\r\n", "\r\n")
  {
    hide ReplaceAll;
    if c != '\r' {
      ContractSkips(c, f);
    }
    ContractSkips('\r', [c] + f);
  }

  /** Both passes, run on text that follows a fresh position or a carriage return. */
  lemma {:induction false} TwoPassFrom(s: string)
    ensures TwoPass(s) == OnePass(s, false)
    ensures ReplaceAll("\r" + ReplaceAll(s, "\n", "\r\n"), "\r\r\n", "\r\n") == "\r" + OnePass(s, true)
    decreases |s|
  {
    if s == "" {
      ContractSkips('\r', "");
    } else {
      hide ReplaceAll, OnePass;
      var t := s[1..];
      var f := ReplaceAll(t, "\n", "\r\n");
      TwoPassFrom(t);
      ExpandStep(s);
      ExpandHead(t);
      OnePassUnfold(s, false);
      OnePassUnfold(s, true);
      if s[0] == '\n' {
        ContractLineEnd(f);
        assert "\r" + (['\n'] + OnePass(t, false)) == "\r\n" + OnePass(t, false);
      } else {
        ContractOther(s[0], f);
      }
    }
  }

  /** Main result: the two greedy passes are the one-pass rewrite, for every string. */
  lemma LineEndingRewrite(s: string)
    ensures TwoPass(s) == OnePass(s, false)
  {
    TwoPassFrom(s);
  }

  lemma {:induction false} OnePassClean(s: string, afterCR: bool)
    ensures var r := OnePass(s, afterCR);
            NoLoneLF(if afterCR then "\r" + r else r)
  {
    if s != "" {
      var t := s[1..];
      var r := OnePass(s, afterCR);
      if s[0] == '\n' && !afterCR {
        OnePassClean(t, false);
      } else {
        OnePassClean(t, s[0] == '\r');
        var q := OnePass(t, s[0] == '\r');
        var whole := if s[0] == '\r' then "\r" + q else q;
        var out := if afterCR then "\r" + r else r;
        var offset := |out| - |q|;
        forall k | 0 <= k < |out| && out[k] == '\n'
          ensures k > 0 && out[k - 1] == '\r'
        {
          if k >= offset {
            assert out[k] == q[k - offset];
            if s[0] == '\r' {
              assert whole[k - offset + 1] == q[k - offset];
            } else {
              assert whole[k - offset] == q[k - offset];
            }
          }
        }
      }
    }
  }

  lemma {:induction false} OnePassFixed(s: string, afterCR: bool)
    requires NoLoneLF(if afterCR then "\r" + s else s)
    ensures OnePass(s, afterCR) == s
  {
    if s != "" {
      var whole := if afterCR then "\r" + s else s;
      assert whole[0] == s[0] || afterCR;
      var t := s[1..];
      var next := if s[0] == '\r' then "\r" + t else t;
      var offset := |whole| - |next|;
      forall k | 0 <= k < |next| && next[k] == '\n'
        ensures k > 0 && next[k - 1] == '\r'
      {
        assert next[k] == whole[k + offset];
        assert whole[k + offset - 1] == '\r';
      }
      OnePassFixed(t, s[0] == '\r');
    }
  }

  /** The rewrite leaves no lone "\n", leaves exactly the already clean texts alone, and is idempotent. */
  lemma RewriteIsNormalForm(s: string)
    ensures NoLoneLF(TwoPass(s))
    ensures TwoPass(s) == s <==> NoLoneLF(s)
    ensures TwoPass(TwoPass(s)) == TwoPass(s)
  {
    LineEndingRewrite(s);
    OnePassClean(s, false);
    LineEndingRewrite(TwoPass(s));
    OnePassFixed(TwoPass(s), false);
    if NoLoneLF(s) {
      OnePassFixed(s, false);
    }
  }

  /** The text with every "\r\n" shortened to "\n". */
  function Unix(s: string): string {
    ReplaceAll(s, "\r\n", "\n")
  }

  lemma {:induction false} UnixStep(c: char, t: string)
    ensures Unix([c] + t) == if c == '\r' && t != "" && t[0] == '\n' then "\n" + Unix(t[1..]) else [c] + Unix(t)
  {
    var s := [c] + t;
    assert s[1..] == t;
    if c == '\r' && t != "" && t[0] == '\n' {
      assert s[..2] == "\r\n" && s[2..] == t[1..];
    } else {
      assert s[0] == c && (|t| > 0 ==> s[1] == t[0]);
      PrefixChars(s, "\r\n");
    }
  }

  lemma {:induction false} UnixOfOnePass(s: string)
    ensures Unix(OnePass(s, false)) == Unix(s)
    ensures Unix("\r" + OnePass(s, true)) == Unix("\r" + s)
    decreases |s|
  {
    if s != "" {
      hide OnePass, Unix;
      var t := s[1..];
      assert s == [s[0]] + t;
      UnixOfOnePass(t);
      UnixStep(s[0], t);
      UnixStep('\r', s);
      OnePassUnfold(s, false);
      OnePassUnfold(s, true);
      if s[0] == '\n' {
        var r := OnePass(t, false);
        assert "\r\n" + r == ['\r'] + (['\n'] + r);
        UnixStep('\r', ['\n'] + r);
        assert (['\n'] + r)[1..] == r;
      } else {
        var r := OnePass(t, s[0] == '\r');
        UnixStep(s[0], r);
        UnixStep('\r', [s[0]] + r);
      }
    }
  }

  /** The rewrite changes line endings and nothing else. */
  lemma RewriteKeepsText(s: string)
    ensures Unix(TwoPass(s)) == Unix(s)
  {
    LineEndingRewrite(s);
    UnixOfOnePass(s);
  }

  // ---------------------------------------------------------------------------
  // The edit
  // ---------------------------------------------------------------------------

  function NormalizeQuote(c: char): char {
    if c == '\U{2018}' || c == '\U{2019}' then '\''
    else if c == '\U{201C}' || c == '\U{201D}' then '"'
    else if c == '\U{2013}' || c == '\U{2014}' then '-'
    else c
  }

  function NormalizeQuotes(s: string): string {
    seq(|s|, k requires 0 <= k < |s| => NormalizeQuote(s[k]))
  }

  /** Curly quotes and long dashes become the ones on the keyboard, every other character stays, and nothing
      is left to normalize. */
  lemma QuotesExactly(s: string)
    ensures |NormalizeQuotes(s)| == |s| && NormalizeQuotes(NormalizeQuotes(s)) == NormalizeQuotes(s)
    ensures forall k :: 0 <= k < |s| ==> var c := NormalizeQuotes(s)[k];
              && (s[k] in "\U{2018}\U{2019}" ==> c == '\'')
              && (s[k] in "\U{201C}\U{201D}" ==> c == '"')
              && (s[k] in "\U{2013}\U{2014}" ==> c == '-')
              && (s[k] !in "\U{2018}\U{2019}\U{201C}\U{201D}\U{2013}\U{2014}" ==> c == s[k])
  {
  }

  datatype EditResult =
    | Written(content: string, replacements: nat)
    | OldStringRequired
    | SameStrings
    | QuoteStyleMismatch(matches: nat)
    | NotFound
    | Ambiguous(matches: nat)

  /** What the accepted edit does to the text before line endings are considered. */
  function Plain(content: string, oldString: string, newString: string): string
    requires oldString != ""
  {
    ReplaceAll(content, oldString, newString)
  }

  predicate RewritesEndings(content: string, newString: string) {
    DetectLineEnding(content) == "\r\n" && !Contains(newString, "\r\n")
  }

  method Edit(content: string, oldString: string, newString: string, replaceAll: bool) returns (result: EditResult)
    // The error cases, each with exactly its own trigger.
    ensures result.OldStringRequired? <==> oldString == ""
    ensures result.SameStrings? <==> oldString != "" && oldString == newString
    ensures result.NotFound? || result.QuoteStyleMismatch? <==>
            oldString != "" && oldString != newString && Count(content, oldString) == 0
    ensures result.QuoteStyleMismatch? <==>
            && oldString != "" && oldString != newString && Count(content, oldString) == 0
            && Count(NormalizeQuotes(content), NormalizeQuotes(oldString)) > 0
    ensures result.QuoteStyleMismatch? ==>
              result.matches == Count(NormalizeQuotes(content), NormalizeQuotes(oldString))
    ensures result.Ambiguous? <==>
            oldString != "" && oldString != newString && Count(content, oldString) > 1 && !replaceAll
    ensures result.Ambiguous? ==> result.matches == Count(content, oldString)
    // Every accepted edit replaces all occurrences there are, and reports how many.
    ensures result.Written? ==> oldString != "" && result.replacements == Count(content, oldString) > 0
    ensures result.Written? ==>
              result.content == if RewritesEndings(content, newString)
                                then OnePass(Plain(content, oldString, newString), false)
                                else Plain(content, oldString, newString)
  {
    if oldString == "" {
      return OldStringRequired;
    }
    if oldString == newString {
      return SameStrings;
    }
    var lineEnding := DetectLineEnding(content);
    var count := Count(content, oldString);
    if count == 0 {
      count := Count(NormalizeQuotes(content), NormalizeQuotes(oldString));
      if count > 0 {
        return QuoteStyleMismatch(count);
      }
      return NotFound;
    }
    if count > 1 && !replaceAll {
      return Ambiguous(count);
    }
    var newContent;
    if replaceAll {
      newContent := ReplaceAll(content, oldString, newString);
    } else {
      newContent := ReplaceFirst(content, oldString, newString);
      UniqueReplacement(content, oldString, newString);
    }
    ghost var plain := newContent;
    if lineEnding == "\r\n" && !Contains(newString, "\r\n") {
      newContent := ReplaceAll(newContent, "\n", "\r\n");
      newContent := ReplaceAll(newContent, "\r\r\n", "\r\n");
      LineEndingRewrite(plain);
    }
    var replacements := 1;
    if replaceAll {
      replacements := count;
    }
    result := Written(newContent, replacements);
  }

  /** The written text when the edit is accepted. */
  function WrittenText(content: string, oldString: string, newString: string): string
    requires oldString != ""
  {
    var plain := Plain(content, oldString, newString);
    if RewritesEndings(content, newString) then TwoPass(plain) else plain
  }

  // ---------------------------------------------------------------------------
  // What an edit does to the text between its matches
  // ---------------------------------------------------------------------------

  /** The text cut at its greedy matches: one gap more than there are matches. */
  function Cut(s: string, find: string): (gaps: seq<string>)
    requires find != ""
    ensures |gaps| >= 1
  {
    if s == "" then [""]
    else if HasPrefix(s, find) then [""] + Cut(s[|find|..], find)
    else
      var rest := Cut(s[1..], find);
      [[s[0]] + rest[0]] + rest[1..]
  }

  /** The gaps with a text of its own in each place between two of them. */
  function Interleave(gaps: seq<string>, puts: seq<string>): string
    requires |gaps| == |puts| + 1
  {
    if puts == [] then gaps[0] else gaps[0] + puts[0] + Interleave(gaps[1..], puts[1..])
  }

  function Copies(n: nat, put: string): seq<string> {
    if n == 0 then [] else [put] + Copies(n - 1, put)
  }

  lemma {:induction false} CopiesMany(n: nat, put: string)
    ensures |Copies(n, put)| == n
  {
    if n > 0 {
      CopiesMany(n - 1, put);
    }
  }

  function Weave(gaps: seq<string>, put: string): string
    requires |gaps| >= 1
  {
    CopiesMany(|gaps| - 1, put);
    Interleave(gaps, Copies(|gaps| - 1, put))
  }

  lemma WeaveStep(gaps: seq<string>, put: string)
    requires |gaps| > 1
    ensures Weave(gaps, put) == gaps[0] + put + Weave(gaps[1..], put)
  {
    CopiesMany(|gaps| - 2, put);
    assert Copies(|gaps| - 1, put)[1..] == Copies(|gaps| - 2, put);
  }

  /** Replacing keeps the gaps and puts the new text in every place of the old. */
  lemma {:induction false} ReplaceWeaves(s: string, find: string, put: string)
    requires find != ""
    ensures ReplaceAll(s, find, put) == Weave(Cut(s, find), put)
    ensures |Cut(s, find)| == Count(s, find) + 1
  {
    if s == "" {
    } else if HasPrefix(s, find) {
      ReplaceWeaves(s[|find|..], find, put);
      var gaps := Cut(s, find);
      assert gaps[1..] == Cut(s[|find|..], find);
      WeaveStep(gaps, put);
      assert "" + put == put;
    } else {
      var rest := Cut(s[1..], find);
      ReplaceWeaves(s[1..], find, put);
      LongerFirstGap(s[0], rest, put);
    }
  }

  lemma LongerFirstGap(c: char, rest: seq<string>, put: string)
    requires |rest| >= 1
    ensures Weave([[c] + rest[0]] + rest[1..], put) == [c] + Weave(rest, put)
  {
    var gaps := [[c] + rest[0]] + rest[1..];
    assert gaps[1..] == rest[1..];
    if |rest| > 1 {
      WeaveStep(gaps, put);
      WeaveStep(rest, put);
      assert ([c] + rest[0]) + put + Weave(rest[1..], put) == [c] + (rest[0] + put + Weave(rest[1..], put));
    }
  }

  /** The gaps and the old text make up the content. */
  lemma {:induction false} CutIsContent(s: string, find: string)
    requires find != ""
    ensures Weave(Cut(s, find), find) == s
  {
    hide Weave, Cut;
    CutStep(s, find);
    if s == "" {
    } else if HasPrefix(s, find) {
      CutIsContent(s[|find|..], find);
      WeaveStep([""] + Cut(s[|find|..], find), find);
      assert ([""] + Cut(s[|find|..], find))[1..] == Cut(s[|find|..], find);
      assert "" + find + s[|find|..] == s;
    } else {
      CutIsContent(s[1..], find);
      LongerFirstGap(s[0], Cut(s[1..], find), find);
      assert [s[0]] + s[1..] == s;
    }
  }

  lemma CutStep(s: string, find: string)
    requires find != ""
    ensures s == "" ==> Cut(s, find) == [""] && Weave([""], find) == ""
    ensures s != "" && HasPrefix(s, find) ==> Cut(s, find) == [""] + Cut(s[|find|..], find)
    ensures s != "" && !HasPrefix(s, find) ==> Cut(s, find) == [[s[0]] + Cut(s[1..], find)[0]] + Cut(s[1..], find)[1..]
  {
  }

  predicate EndsInCR(s: string, before: bool) {
    if s == "" then before else s[|s| - 1] == '\r'
  }

  lemma TailOfBoth(a: string, b: string, afterCR: bool)
    requires a != ""
    ensures (a + b)[0] == a[0] && (a + b)[1..] == a[1..] + b
    ensures EndsInCR(a, afterCR) == EndsInCR(a[1..], a[0] == '\r')
  {
  }

  lemma OnePassUnfold(s: string, afterCR: bool)
    requires s != ""
    ensures OnePass(s, afterCR)
         == (if s[0] == '\n' && !afterCR then "\r\n" else [s[0]]) + OnePass(s[1..], s[0] == '\r')
  {
  }

  /** The rewrite works piece by piece, and a piece needs to know only whether a "\r" comes before it. */
  lemma {:induction false} OnePassPieces(a: string, b: string, afterCR: bool)
    ensures OnePass(a + b, afterCR) == OnePass(a, afterCR) + OnePass(b, EndsInCR(a, afterCR))
  {
    if a == "" {
      assert a + b == b;
    } else {
      hide OnePass;
      var cr := a[0] == '\r';
      OnePassPieces(a[1..], b, cr);
      TailOfBoth(a, b, afterCR);
      OnePassUnfold(a, afterCR);
      OnePassUnfold(a + b, afterCR);
      Associate(if a[0] == '\n' && !afterCR then "\r\n" else [a[0]], OnePass(a[1..], cr), OnePass(b, EndsInCR(a, afterCR)));
    }
  }

  /** Is there a "\r" right before gap k of the edited text? */
  predicate AfterCR(gaps: seq<string>, put: string, k: nat)
    requires k < |gaps|
  {
    k > 0 && EndsInCR(put, EndsInCR(gaps[k - 1], AfterCR(gaps, put, k - 1)))
  }

  /** What the rewrite makes of the gaps from number k on, each in its place. */
  function GapsFrom(gaps: seq<string>, put: string, k: nat): (outs: seq<string>)
    requires k < |gaps|
    ensures |outs| == |gaps| - k
    decreases |gaps| - k
  {
    [OnePass(gaps[k], AfterCR(gaps, put, k))] + if k + 1 < |gaps| then GapsFrom(gaps, put, k + 1) else []
  }

  /** And of the new text in the places between them. */
  function PutsFrom(gaps: seq<string>, put: string, k: nat): (puts: seq<string>)
    requires k < |gaps|
    ensures |puts| == |gaps| - k - 1
    decreases |gaps| - k
  {
    if k + 1 == |gaps| then []
    else [OnePass(put, EndsInCR(gaps[k], AfterCR(gaps, put, k)))] + PutsFrom(gaps, put, k + 1)
  }

  lemma {:induction false} GapsFromAt(gaps: seq<string>, put: string, k: nat, i: nat)
    requires k + i < |gaps|
    ensures GapsFrom(gaps, put, k)[i] == OnePass(gaps[k + i], AfterCR(gaps, put, k + i))
    decreases i
  {
    hide OnePass, AfterCR;
    if i > 0 {
      GapsFromAt(gaps, put, k + 1, i - 1);
    }
  }

  /** What the edit makes of the gaps. */
  function GapsOut(content: string, oldString: string, newString: string): seq<string>
    requires oldString != ""
  {
    var gaps := Cut(content, oldString);
    if RewritesEndings(content, newString) then GapsFrom(gaps, newString, 0) else gaps
  }

  /** What it writes between them. */
  function PutsOut(content: string, oldString: string, newString: string): seq<string>
    requires oldString != ""
  {
    var gaps := Cut(content, oldString);
    if RewritesEndings(content, newString) then PutsFrom(gaps, newString, 0) else Copies(|gaps| - 1, newString)
  }

  lemma {:induction false} RewriteWoven(gaps: seq<string>, put: string, k: nat)
    requires k < |gaps|
    ensures OnePass(Weave(gaps[k..], put), AfterCR(gaps, put, k)) == Interleave(GapsFrom(gaps, put, k), PutsFrom(gaps, put, k))
    decreases |gaps| - k
  {
    hide OnePass, EndsInCR, AfterCR, Weave;
    var cr := AfterCR(gaps, put, k);
    if k + 1 == |gaps| {
      assert gaps[k..] == [gaps[k]];
      WeaveOne(gaps[k], put);
    } else {
      hide Interleave, GapsFrom, PutsFrom;
      var rest := Weave(gaps[k + 1..], put);
      assert gaps[k..][1..] == gaps[k + 1..];
      WeaveStep(gaps[k..], put);
      EndsTwice(gaps[k], put, cr);
      AfterStep(gaps, put, k);
      OnePassPieces(gaps[k] + put, rest, cr);
      OnePassPieces(gaps[k], put, cr);
      RewriteWoven(gaps, put, k + 1);
      InterleaveStep(gaps, put, k);
    }
  }

  lemma WeaveOne(gap: string, put: string)
    ensures Weave([gap], put) == gap
  {
  }

  lemma InterleaveStep(gaps: seq<string>, put: string, k: nat)
    requires k + 1 < |gaps|
    ensures var cr := AfterCR(gaps, put, k);
            Interleave(GapsFrom(gaps, put, k), PutsFrom(gaps, put, k))
            == OnePass(gaps[k], cr) + OnePass(put, EndsInCR(gaps[k], cr))
               + Interleave(GapsFrom(gaps, put, k + 1), PutsFrom(gaps, put, k + 1))
  {
    hide OnePass, EndsInCR, AfterCR;
    var outs, puts := GapsFrom(gaps, put, k), PutsFrom(gaps, put, k);
    assert outs[1..] == GapsFrom(gaps, put, k + 1) && puts[1..] == PutsFrom(gaps, put, k + 1);
  }

  lemma EndsTwice(a: string, b: string, before: bool)
    ensures EndsInCR(a + b, before) == EndsInCR(b, EndsInCR(a, before))
  {
    if b == "" {
      assert a + b == a;
    }
  }

  lemma AfterStep(gaps: seq<string>, put: string, k: nat)
    requires k + 1 < |gaps|
    ensures AfterCR(gaps, put, k + 1) == EndsInCR(put, EndsInCR(gaps[k], AfterCR(gaps, put, k)))
  {
  }

  /** The gaps with the old text between them are the content. The gaps as they come out, with the new text,
      as it comes out, between them are the written text. */
  lemma WrittenInPieces(content: string, oldString: string, newString: string)
    requires oldString != ""
    ensures Weave(Cut(content, oldString), oldString) == content
    ensures |GapsOut(content, oldString, newString)| == |PutsOut(content, oldString, newString)| + 1
    ensures WrittenText(content, oldString, newString)
         == Interleave(GapsOut(content, oldString, newString), PutsOut(content, oldString, newString))
  {
    hide OnePass, ReplaceAll, EndsInCR, TwoPass, DetectLineEnding, Contains, Cut, Interleave, GapsFrom, PutsFrom;
    var gaps := Cut(content, oldString);
    CopiesMany(|gaps| - 1, newString);
    ReplaceWeaves(content, oldString, newString);
    CutIsContent(content, oldString);
    if RewritesEndings(content, newString) {
      LineEndingRewrite(Plain(content, oldString, newString));
      assert gaps[0..] == gaps && !AfterCR(gaps, newString, 0);
      RewriteWoven(gaps, newString, 0);
    }
  }

  /** A "\n" without its "\r". For one that opens the text, what comes before it counts. */
  predicate LoneAt(s: string, p: nat, afterCR: bool)
    requires p < |s|
  {
    s[p] == '\n' && !(if p == 0 then afterCR else s[p - 1] == '\r')
  }

  ghost predicate NoLoneLFAfter(s: string, afterCR: bool) {
    forall p: nat :: p < |s| ==> !LoneAt(s, p, afterCR)
  }

  ghost predicate CleanGap(gaps: seq<string>, put: string, k: nat)
    requires k < |gaps|
  {
    NoLoneLFAfter(gaps[k], AfterCR(gaps, put, k))
  }

  lemma PieceUnchanged(s: string, afterCR: bool)
    ensures OnePass(s, afterCR) == s <==> NoLoneLFAfter(s, afterCR)
  {
    hide OnePass, NoLoneLF, NoLoneLFAfter;
    SameAfter(s, afterCR);
    if NoLoneLFAfter(s, afterCR) {
      OnePassFixed(s, afterCR);
    }
    if OnePass(s, afterCR) == s {
      OnePassClean(s, afterCR);
    }
  }

  lemma SameAfter(s: string, afterCR: bool)
    ensures NoLoneLFAfter(s, afterCR) <==> NoLoneLF(if afterCR then "\r" + s else s)
  {
    var before := if afterCR then "\r" else "";
    var whole := before + s;
    assert "" + s == s;
    if NoLoneLFAfter(s, afterCR) {
      forall q | 0 <= q < |whole| && whole[q] == '\n' ensures q > 0 && whole[q - 1] == '\r' {
        assert q >= |before| && !LoneAt(s, q - |before|, afterCR);
        assert whole[q] == s[q - |before|];
      }
    }
    if NoLoneLF(whole) {
      forall p: nat | p < |s| ensures !LoneAt(s, p, afterCR) {
        var q := p + |before|;
        assert whole[q] == s[p];
        if p > 0 {
          assert whole[q - 1] == s[p - 1];
        }
        assert s[p] == '\n' ==> q > 0 && whole[q - 1] == '\r';
      }
    }
  }

  /** The comment above the rewrite says that it preserves line endings. The text outside the replaced
      occurrences comes out as it was if and only if the rewrite is skipped or no gap has a lone "\n". */
  lemma EditTouchesOnlyMatches(content: string, oldString: string, newString: string)
    requires oldString != ""
    ensures GapsOut(content, oldString, newString) == Cut(content, oldString) <==>
            (RewritesEndings(content, newString) ==>
               forall k :: 0 <= k < |Cut(content, oldString)| ==> CleanGap(Cut(content, oldString), newString, k))
  {
    var gaps := Cut(content, oldString);
    var outs := GapsOut(content, oldString, newString);
    if RewritesEndings(content, newString) {
      assert |outs| == |gaps|;
      forall k | 0 <= k < |gaps| ensures outs[k] == gaps[k] <==> CleanGap(gaps, newString, k) {
        GapsFromAt(gaps, newString, 0, k);
        PieceUnchanged(gaps[k], AfterCR(gaps, newString, k));
      }
    }
  }

  /** In a text without lone "\n" every gap is clean, unless the old text ends in a "\r" of its own. */
  lemma {:induction false} GapsOfCleanText(s: string, find: string, afterCR: bool)
    requires find != "" && find[|find| - 1] != '\r'
    requires NoLoneLF(if afterCR then "\r" + s else s)
    ensures var gaps := Cut(s, find);
            && NoLoneLF(if afterCR then "\r" + gaps[0] else gaps[0])
            && forall k :: 1 <= k < |gaps| ==> NoLoneLF(gaps[k])
  {
    var whole := if afterCR then "\r" + s else s;
    if s == "" {
    } else if HasPrefix(s, find) {
      var rest := s[|find|..];
      var shift := |whole| - |rest|;
      assert s[..|find|][|find| - 1] == s[|find| - 1] == whole[shift - 1];
      forall q | 0 <= q < |rest| && rest[q] == '\n' ensures q > 0 && rest[q - 1] == '\r' {
        assert whole[q + shift] == '\n' && whole[q + shift - 1] == '\r';
      }
      GapsOfCleanText(rest, find, false);
      assert Cut(s, find)[1..] == Cut(rest, find);
    } else {
      var t := s[1..];
      var next := if s[0] == '\r' then "\r" + t else t;
      var shift := |whole| - |next|;
      forall q | 0 <= q < |next| && next[q] == '\n' ensures q > 0 && next[q - 1] == '\r' {
        assert whole[q + shift] == next[q] && whole[q + shift - 1] == '\r';
      }
      GapsOfCleanText(t, find, s[0] == '\r');
      FirstGapClean(s[0], Cut(t, find)[0], afterCR);
      assert whole[|whole| - |s|] == s[0];
    }
  }

  lemma FirstGapClean(c: char, g: string, afterCR: bool)
    requires NoLoneLF(if c == '\r' then "\r" + g else g) && (c == '\n' ==> afterCR)
    ensures NoLoneLF(if afterCR then "\r" + ([c] + g) else [c] + g)
  {
    var out := if afterCR then "\r" + ([c] + g) else [c] + g;
    var inner := if c == '\r' then "\r" + g else g;
    var shift := |out| - |inner|;
    forall q | 0 <= q < |out| && out[q] == '\n' ensures q > 0 && out[q - 1] == '\r' {
      if q >= shift {
        assert inner[q - shift] == out[q];
      }
    }
  }

  /** The ordinary use: in a file with no lone "\n", an edit stays inside its matches whatever the new text. */
  lemma CleanFileStaysClean(content: string, oldString: string, newString: string)
    requires oldString != "" && oldString[|oldString| - 1] != '\r' && NoLoneLF(content)
    ensures GapsOut(content, oldString, newString) == Cut(content, oldString)
  {
    var gaps := Cut(content, oldString);
    GapsOfCleanText(content, oldString, false);
    forall k | 0 <= k < |gaps| ensures CleanGap(gaps, newString, k) {
      assert k > 0 ==> NoLoneLF(gaps[k]);
      forall p: nat | p < |gaps[k]| ensures !LoneAt(gaps[k], p, AfterCR(gaps, newString, k)) {
      }
    }
    EditTouchesOnlyMatches(content, oldString, newString);
  }

  lemma CountLF(c: char, t: string)
    ensures Count([c] + t, "\n") == (if c == '\n' then 1 else 0) + Count(t, "\n")
  {
    assert ([c] + t)[1..] == t;
  }

  lemma CountCRLF(c: char, t: string)
    ensures Count([c] + t, "\r\n")
         == if c == '\r' && t != "" && t[0] == '\n' then 1 + Count(t[1..], "\r\n") else Count(t, "\r\n")
  {
    var s := [c] + t;
    assert s[1..] == t;
    if c == '\r' && t != "" && t[0] == '\n' {
      assert s[..2] == "\r\n" && s[2..] == t[1..];
    } else {
      assert s[0] == c && (|t| > 0 ==> s[1] == t[0]);
      PrefixChars(s, "\r\n");
    }
  }

  lemma MixedCounts()
    ensures Count("\r\n\r\n\n", "\n") == 3 && Count("\r\n\r\n\n", "\r\n") == 2
  {
    CountLF('\n', "");
    CountLF('\n', "\n");
    CountLF('\r', "\n\n");
    CountLF('\n', "\r\n\n");
    CountLF('\r', "\n\r\n\n");
    CountCRLF('\n', "");
    CountCRLF('\r', "\n\n");
    CountCRLF('\r', "\n\r\n\n");
    assert "\n\r\n\n"[1..] == "\r\n\n" && "\n\n"[1..] == "\n";
  }

  lemma MixedIsCRLF()
    ensures DetectLineEnding("x\r\n\r\n\n") == "\r\n"
  {
    var rest := "\r\n\r\n\n";
    MixedCounts();
    CountLF('x', rest);
    CountCRLF('x', rest);
    assert "x" + rest == "x\r\n\r\n\n";
  }

  lemma CutMixed()
    ensures Cut("x\r\n\r\n\n", "x") == ["", "\r\n\r\n\n"]
  {
    var rest := "\r\n\r\n\n";
    var content := "x\r\n\r\n\n";
    assert content[..1] == "x" && content[1..] == rest;
    NoX(rest);
  }

  /** In a file with mixed endings, replacing the one "x" also changes the ending of another line. */
  lemma MixedFileLosesItsLoneLF()
    ensures Cut("x\r\n\r\n\n", "x") == ["", "\r\n\r\n\n"]
    ensures GapsOut("x\r\n\r\n\n", "x", "w") != Cut("x\r\n\r\n\n", "x")
  {
    hide Cut, Count, DetectLineEnding, GapsOut;
    MixedIsCRLF();
    CutMixed();
    var gap := "\r\n\r\n\n";
    var gaps := ["", gap];
    assert gaps[1][4] == '\n' && gaps[1][3] == '\n';
    assert LoneAt(gaps[1], 4, AfterCR(gaps, "w", 1));
    assert !CleanGap(gaps, "w", 1);
    EditTouchesOnlyMatches("x\r\n\r\n\n", "x", "w");
  }

  lemma {:induction false} NoX(s: string)
    requires 'x' !in s
    ensures Cut(s, "x") == [s]
  {
    if s != "" {
      PrefixChars(s, "x");
      NoX(s[1..]);
      assert [s[0]] + s[1..] == s;
    }
  }

  /** The line feeds of s that follow a carriage return, or those that do not; afterCR says what precedes s. */
  function LineFeeds(s: string, afterCR: bool, following: bool): nat {
    if s == "" then 0
    else (if s[0] == '\n' && afterCR == following then 1 else 0) + LineFeeds(s[1..], s[0] == '\r', following)
  }

  lemma {:induction false} CountsAreLineFeeds(s: string)
    ensures Count(s, "\r\n") == LineFeeds(s, false, true) && Count("\r" + s, "\r\n") == LineFeeds(s, true, true)
    ensures Count(s, "\n") == LineFeeds(s, false, true) + LineFeeds(s, false, false)
    ensures Count(s, "\n") == LineFeeds(s, true, true) + LineFeeds(s, true, false)
  {
    hide Count;
    CountCRLF('\r', s);
    if s == "" {
      CountNothing();
    } else {
      var t := s[1..];
      assert s == [s[0]] + t;
      CountsAreLineFeeds(t);
      CountLF(s[0], t);
      CountCRLF(s[0], t);
    }
  }

  lemma CountNothing()
    ensures Count("", "\r\n") == 0 && Count("", "\n") == 0
  {
  }

  lemma ContainsCRLFExactly(s: string)
    ensures Contains(s, "\r\n") <==> exists k :: 0 < k < |s| && s[k] == '\n' && s[k - 1] == '\r'
  {
    if k :| 0 < k < |s| && s[k] == '\n' && s[k - 1] == '\r' {
      assert s[k - 1..][..2] == "\r\n";
      assert HasPrefix(s[k - 1..], "\r\n");
    }
    if Contains(s, "\r\n") {
      var k :| 0 <= k <= |s| - 2 && HasPrefix(s[k..], "\r\n");
      assert s[k..][..2] == "\r\n";
      assert s[k] == s[k..][..2][0] && s[k + 1] == s[k..][..2][1];
      assert s[k + 1] == '\n' && s[k + 1 - 1] == '\r';
    }
  }

  /** An edit rewrites line endings exactly when more line feeds of the file follow a carriage return than do
      not, and the new text has none that does. With as many of both it leaves them alone. */
  lemma RewritesEndingsExactly(content: string, newString: string)
    ensures RewritesEndings(content, newString) <==>
              && LineFeeds(content, false, true) > LineFeeds(content, false, false)
              && !exists k :: 0 < k < |newString| && newString[k] == '\n' && newString[k - 1] == '\r'
  {
    hide Count, LineFeeds, Contains;
    CountsAreLineFeeds(content);
    ContainsCRLFExactly(newString);
  }
}
