/** Permission rules, tool bounds and the composed policy (permissions/permissions.go). */
module Permissions {
  import opened Text
  import opened Types

  datatype Rule = Rule(toolName: string, pattern: string)

  // ---------------------------------------------------------------------------
  // Wildcards
  // ---------------------------------------------------------------------------

  predicate SimpleWildcardMatch(pattern: string, value: string) {
    if pattern == "*" then true
    else if HasSuffix(pattern, "*") then HasPrefix(value, pattern[..|pattern| - 1])
    else if HasPrefix(pattern, "*") then HasSuffix(value, pattern[1..])
    else pattern == value
  }

  /** What "*" usually means: any text, wherever it stands. */
  predicate Glob(pattern: string, value: string)
    decreases |pattern|
  {
    if pattern == "" then value == ""
    else if pattern[0] == '*' then exists k :: 0 <= k <= |value| && Glob(pattern[1..], value[k..])
    else value != "" && value[0] == pattern[0] && Glob(pattern[1..], value[1..])
  }

  /** No star, or a single one at one of the two ends. */
  predicate StarAtAnEnd(pattern: string) {
    || '*' !in pattern
    || (pattern != "" && pattern[|pattern| - 1] == '*' && '*' !in pattern[..|pattern| - 1])
    || (pattern != "" && pattern[0] == '*' && '*' !in pattern[1..])
  }

  lemma {:induction false} GlobLiteral(pattern: string, value: string)
    requires '*' !in pattern
    ensures Glob(pattern, value) <==> pattern == value
  {
    if pattern != "" && value != "" {
      GlobLiteral(pattern[1..], value[1..]);
      assert pattern == [pattern[0]] + pattern[1..] && value == [value[0]] + value[1..];
    }
  }

  lemma GlobStar(value: string)
    ensures Glob("*", value)
  {
    assert "*"[1..] == "";
    assert value[|value|..] == "";
    assert Glob("*"[1..], value[|value|..]);
  }

  lemma {:induction false} GlobPrefix(literal: string, value: string)
    requires '*' !in literal
    ensures Glob(literal + "*", value) <==> HasPrefix(value, literal)
  {
    if literal == "" {
      assert literal + "*" == "*";
      GlobStar(value);
    } else {
      assert (literal + "*")[1..] == literal[1..] + "*";
      if value != "" {
        GlobPrefix(literal[1..], value[1..]);
        PrefixStep(value, literal);
      }
    }
  }

  lemma PrefixStep(s: string, p: string)
    requires s != "" && p != ""
    ensures HasPrefix(s, p) <==> s[0] == p[0] && HasPrefix(s[1..], p[1..])
  {
    if |p| <= |s| {
      assert s[..|p|] == [s[0]] + s[1..][..|p| - 1];
      assert p == [p[0]] + p[1..];
    }
  }

  lemma GlobSuffix(literal: string, value: string)
    requires '*' !in literal
    ensures Glob("*" + literal, value) <==> HasSuffix(value, literal)
  {
    assert ("*" + literal)[1..] == literal;
    if HasSuffix(value, literal) {
      var k := |value| - |literal|;
      GlobLiteral(literal, value[k..]);
      assert Glob(("*" + literal)[1..], value[k..]);
    }
    if Glob("*" + literal, value) {
      var k :| 0 <= k <= |value| && Glob(("*" + literal)[1..], value[k..]);
      GlobLiteral(literal, value[k..]);
    }
  }

  lemma {:induction false} GlobSelf(pattern: string, k: nat)
    requires k <= |pattern|
    ensures Glob(pattern[k..], pattern[k..])
    decreases |pattern| - k
  {
    var p := pattern[k..];
    if p != "" {
      GlobSelf(pattern, k + 1);
      assert p[1..] == pattern[k + 1..];
      if p[0] == '*' {
        assert Glob(p[1..], p[1..]);
      }
    }
  }

  /** Dropping one star of the pattern from the value still matches. */
  lemma {:induction false} GlobDropStar(pattern: string, at: nat)
    requires at < |pattern| && pattern[at] == '*'
    ensures Glob(pattern, pattern[..at] + pattern[at + 1..])
    decreases at
  {
    var rest := pattern[1..];
    if at == 0 {
      GlobSelf(pattern, 1);
      assert pattern[..0] + pattern[1..] == rest;
      assert rest[0..] == rest;
      if pattern[0] == '*' { assert Glob(pattern[1..], rest[0..]); }
    } else {
      GlobDropStar(rest, at - 1);
      var v := pattern[..at] + pattern[at + 1..];
      assert v[1..] == rest[..at - 1] + rest[at..];
      if pattern[0] == '*' {
        assert Glob(pattern[1..], v[1..]);
      }
    }
  }

  /** The matcher agrees with the usual meaning of "*" for every value exactly when the pattern
      has no star, or only one, at an end. */
  lemma WildcardIsGlobExactly(pattern: string)
    ensures (forall value :: SimpleWildcardMatch(pattern, value) == Glob(pattern, value)) <==> StarAtAnEnd(pattern)
  {
    if StarAtAnEnd(pattern) {
      forall value ensures SimpleWildcardMatch(pattern, value) == Glob(pattern, value) {
        WildcardIsGlob(pattern, value);
      }
    } else {
      var value := WildcardMisses(pattern);
    }
  }

  /** What the matcher does with any pattern: a star counts at the end, or else at the start, and every other
      star stands for itself. */
  lemma WildcardExactly(pattern: string, literal: string, value: string)
    ensures SimpleWildcardMatch(literal + "*", value) <==> literal <= value
    ensures literal != "" && literal[|literal| - 1] != '*' ==>
              (SimpleWildcardMatch("*" + literal, value) <==> |literal| <= |value| && value[|value| - |literal|..] == literal)
    ensures pattern == "" || (pattern[0] != '*' && pattern[|pattern| - 1] != '*') ==>
              (SimpleWildcardMatch(pattern, value) <==> pattern == value)
  {
    EndStars(literal + "*");
    EndStars("*" + literal);
    EndStars(pattern);
    assert (literal + "*")[..|literal|] == literal;
    assert ("*" + literal)[1..] == literal;
    if literal != "" {
      assert ("*" + literal)[|literal|] == literal[|literal| - 1];
    }
  }

  lemma WildcardIsGlob(pattern: string, value: string)
    requires StarAtAnEnd(pattern)
    ensures SimpleWildcardMatch(pattern, value) == Glob(pattern, value)
  {
    var n := |pattern|;
    EndStars(pattern);
    if '*' !in pattern {
      GlobLiteral(pattern, value);
    } else if pattern[n - 1] == '*' && '*' !in pattern[..n - 1] {
      GlobPrefix(pattern[..n - 1], value);
      assert pattern == pattern[..n - 1] + "*";
      if pattern == "*" { GlobStar(value); }
    } else {
      GlobSuffix(pattern[1..], value);
      assert pattern == "*" + pattern[1..];
      assert !HasSuffix(pattern, "*") by {
        assert n > 1;
        assert pattern[1..][n - 2] == pattern[n - 1];
      }
    }
  }

  lemma EndStars(pattern: string)
    ensures HasSuffix(pattern, "*") <==> pattern != "" && pattern[|pattern| - 1] == '*'
    ensures HasPrefix(pattern, "*") <==> pattern != "" && pattern[0] == '*'
  {
    if pattern != "" {
      assert pattern[|pattern| - 1..] == [pattern[|pattern| - 1]];
      assert pattern[..1] == [pattern[0]];
    }
  }

  /** A pattern with a star elsewhere misses the value obtained by dropping that star. */
  lemma WildcardMisses(pattern: string) returns (value: string)
    requires !StarAtAnEnd(pattern)
    ensures Glob(pattern, value) && !SimpleWildcardMatch(pattern, value)
  {
    var n := |pattern|;
    EndStars(pattern);
    var at :| 0 <= at < n && pattern[at] == '*';
    if pattern[n - 1] == '*' {
      at :| 0 <= at < n - 1 && pattern[..n - 1][at] == '*';
      value := DropTwice(pattern, at);
    } else if pattern[0] == '*' {
      at :| 0 <= at < n - 1 && pattern[1..][at] == '*';
      at := at + 1;
      GlobDropStar(pattern, at);
      value := pattern[..at] + pattern[at + 1..];
      var shorter := value[1..];
      GlobTwoStars(pattern, at);
      value := shorter;
      assert |value| < |pattern[1..]|;
    } else {
      GlobDropStar(pattern, at);
      value := pattern[..at] + pattern[at + 1..];
      assert |value| < |pattern|;
    }
  }

  /** A pattern that starts with a star also matches without what that star stands for. */
  lemma GlobTwoStars(pattern: string, at: nat)
    requires 0 < at < |pattern| && pattern[0] == '*' && pattern[at] == '*'
    ensures Glob(pattern, (pattern[..at] + pattern[at + 1..])[1..])
  {
    var rest := pattern[1..];
    GlobDropStar(rest, at - 1);
    var v := (pattern[..at] + pattern[at + 1..])[1..];
    assert v == rest[..at - 1] + rest[at..];
    assert v[0..] == v;
    assert Glob(pattern[1..], v[0..]);
  }

  /** For a pattern that ends in a star and has another one before it: the value without both. */
  lemma DropTwice(pattern: string, at: nat) returns (value: string)
    requires at < |pattern| - 1 && pattern[at] == '*' && pattern[|pattern| - 1] == '*'
    ensures Glob(pattern, value) && !HasPrefix(value, pattern[..|pattern| - 1])
    ensures |value| == |pattern| - 2
  {
    var n := |pattern|;
    var body := pattern[..n - 1];
    value := body[..at] + body[at + 1..];
    GlobDropStar(body, at);
    GlobAppendStar(body, value);
    assert pattern == body + "*";
  }

  lemma {:induction false} GlobAppendStar(pattern: string, value: string)
    requires Glob(pattern, value)
    ensures Glob(pattern + "*", value)
    decreases |pattern|
  {
    if pattern == "" {
      assert pattern + "*" == "*";
      GlobStar(value);
    } else {
      assert (pattern + "*")[1..] == pattern[1..] + "*";
      if pattern[0] == '*' {
        var k :| 0 <= k <= |value| && Glob(pattern[1..], value[k..]);
        GlobAppendStar(pattern[1..], value[k..]);
        assert Glob((pattern + "*")[1..], value[k..]);
      } else {
        GlobAppendStar(pattern[1..], value[1..]);
      }
    }
  }

  // ---------------------------------------------------------------------------
  // Rules
  // ---------------------------------------------------------------------------

  predicate MatchesRule(rule: Rule, toolName: string, input: Input) {
    if rule.toolName != toolName
       && (!HasPrefix(rule.toolName, "mcp__") || !HasPrefix(toolName, rule.toolName + "__")) then false
    else if rule.pattern == "" then true
    else if toolName == "Bash" then SimpleWildcardMatch(rule.pattern, StringField(input, "command"))
    else if toolName in ["Edit", "Write", "Read"] then SimpleWildcardMatch(rule.pattern, StringField(input, "file_path"))
    else if toolName == "Glob" then SimpleWildcardMatch(rule.pattern, StringField(input, "pattern"))
    else if toolName == "Grep" then SimpleWildcardMatch(rule.pattern, StringField(input, "pattern"))
    else false
  }

  /** What a rule matches, for every pattern on which the matcher is the usual wildcard: the name has to be
      that of the tool, or of the MCP server it comes from, and without a pattern that is enough. With one,
      the command, the file path or the pattern of the input has to match it. Other tools match no pattern. */
  lemma RuleMatchesExactly(rule: Rule, toolName: string, input: Input, command: string, path: string, search: string)
    requires StringUnder(input, "command", command)
    requires StringUnder(input, "file_path", path)
    requires StringUnder(input, "pattern", search)
    requires StarAtAnEnd(rule.pattern)
    ensures MatchesRule(rule, toolName, input) <==>
              && (rule.toolName == toolName || ("mcp__" <= rule.toolName && rule.toolName + "__" <= toolName))
              && (|| rule.pattern == ""
                  || (toolName == "Bash" && Glob(rule.pattern, command))
                  || (toolName in {"Edit", "Write", "Read"} && Glob(rule.pattern, path))
                  || (toolName in {"Glob", "Grep"} && Glob(rule.pattern, search)))
  {
    hide Glob, SimpleWildcardMatch, StarAtAnEnd;
    WildcardIsGlob(rule.pattern, command);
    WildcardIsGlob(rule.pattern, path);
    WildcardIsGlob(rule.pattern, search);
  }

  ghost predicate SomeRuleMatches(rules: seq<Rule>, toolName: string, input: Input) {
    exists k :: 0 <= k < |rules| && MatchesRule(rules[k], toolName, input)
  }

  /** The first matching rule, as the search loop finds it. */
  function FirstMatchingRule(rules: seq<Rule>, toolName: string, input: Input): Option<Rule> {
    if rules == [] then None
    else if MatchesRule(rules[0], toolName, input) then Some(rules[0])
    else FirstMatchingRule(rules[1..], toolName, input)
  }

  predicate FirstAt(rules: seq<Rule>, toolName: string, input: Input, k: nat) {
    && k < |rules| && MatchesRule(rules[k], toolName, input)
    && forall j :: 0 <= j < k ==> !MatchesRule(rules[j], toolName, input)
  }

  /** A rule is found if and only if one matches, and it is the first that does. */
  lemma {:induction false} FirstRuleFound(rules: seq<Rule>, toolName: string, input: Input)
    ensures var found := FirstMatchingRule(rules, toolName, input);
            && (found.Some? <==> SomeRuleMatches(rules, toolName, input))
            && (found.Some? ==> exists k: nat :: FirstAt(rules, toolName, input, k) && rules[k] == found.value)
  {
    if rules != [] && MatchesRule(rules[0], toolName, input) {
      assert FirstAt(rules, toolName, input, 0);
    } else if rules != [] {
      var rest := rules[1..];
      FirstRuleFound(rest, toolName, input);
      if FirstMatchingRule(rest, toolName, input).Some? {
        var k: nat :| FirstAt(rest, toolName, input, k) && rest[k] == FirstMatchingRule(rest, toolName, input).value;
        assert FirstAt(rules, toolName, input, k + 1);
      }
      if SomeRuleMatches(rules, toolName, input) {
        var k :| 0 <= k < |rules| && MatchesRule(rules[k], toolName, input);
        assert rest[k - 1] == rules[k];
      }
      if SomeRuleMatches(rest, toolName, input) {
        var k :| 0 <= k < |rest| && MatchesRule(rest[k], toolName, input);
        assert rules[k + 1] == rest[k];
      }
    }
  }

  method FilterRules(rules: seq<Rule>, names: set<string>) returns (kept: seq<Rule>)
    ensures kept == Surviving(rules, names)
  {
    kept := [];
    for k := 0 to |rules|
      invariant kept == Surviving(rules[..k], names)
    {
      assert rules[..k + 1][..k] == rules[..k];
      if rules[k].toolName !in names {
        kept := kept + [rules[k]];
      }
    }
    assert rules[..|rules|] == rules;
  }

  /** The rules whose tool is not named, in their old order. */
  function Surviving(rules: seq<Rule>, names: set<string>): seq<Rule> {
    if rules == [] then []
    else
      var last := rules[|rules| - 1];
      var before := Surviving(rules[..|rules| - 1], names);
      if last.toolName !in names then before + [last] else before
  }

  /** What survives are the rules of the tools not named, each as often as it was there, in their order:
      at lists their places. */
  lemma {:induction false} SurvivingExactly(rules: seq<Rule>, names: set<string>) returns (at: seq<nat>)
    ensures |Surviving(rules, names)| == |at|
    ensures forall k :: 0 <= k < |at| ==> at[k] < |rules| && Surviving(rules, names)[k] == rules[at[k]]
    ensures forall j, k :: 0 <= j < k < |at| ==> at[j] < at[k]
    ensures forall i :: 0 <= i < |rules| ==> (i in at <==> rules[i].toolName !in names)
  {
    if rules == [] {
      at := [];
    } else {
      var n := |rules| - 1;
      var before := SurvivingExactly(rules[..n], names);
      LastSurvives(rules, names);
      hide Surviving;
      assert forall i :: 0 <= i < n ==> rules[..n][i] == rules[i];
      assert forall i :: 0 <= i < n ==> (i in before <==> rules[..n][i].toolName !in names);
      if rules[n].toolName in names {
        at := before;
      } else {
        at := before + [n];
        assert forall i :: i in at <==> i in before || i == n;
      }
    }
  }

  lemma LastSurvives(rules: seq<Rule>, names: set<string>)
    requires rules != []
    ensures var n := |rules| - 1;
            Surviving(rules, names) == Surviving(rules[..n], names) + if rules[n].toolName !in names then [rules[n]] else []
  {
  }

  // ---------------------------------------------------------------------------
  // The mutable configuration
  // ---------------------------------------------------------------------------

  /** What one evaluation of the policy reads, under the read lock. */
  datatype Snapshot = Snapshot(mode: Mode, allow: seq<Rule>, deny: seq<Rule>)

  class Config {
    var mode: Mode
    var allowRules: seq<Rule>
    var denyRules: seq<Rule>
    var allowedDirs: seq<string>

    constructor (mode: Mode)
      ensures this.mode == mode && allowRules == [] && denyRules == [] && allowedDirs == []
      ensures Read() == Snapshot(if mode == UnsetMode then DefaultMode else mode, [], [])
    {
      this.mode := mode;
      allowRules, denyRules, allowedDirs := [], [], [];
    }

    /** An unset mode means the default mode. */
    function Read(): Snapshot
      reads this
    {
      Snapshot(if mode == UnsetMode then DefaultMode else mode, allowRules, denyRules)
    }

    method SetMode(newMode: Mode)
      modifies this`mode
      ensures mode == newMode
      ensures Read() == old(Read()).(mode := if newMode == UnsetMode then DefaultMode else newMode)
    {
      mode := newMode;
    }

    method AddRules(rules: seq<Rule>, ruleType: string)
      modifies this`allowRules, this`denyRules
      ensures allowRules == old(allowRules) + if ruleType == "allow" then rules else []
      ensures denyRules == old(denyRules) + if ruleType == "deny" then rules else []
      ensures Read() == old(Read()).(allow := allowRules, deny := denyRules)
    {
      if ruleType == "allow" {
        allowRules := allowRules + rules;
      } else if ruleType == "deny" {
        denyRules := denyRules + rules;
      }
    }

    method RemoveRules(toolNames: seq<string>, ruleType: string)
      modifies this`allowRules, this`denyRules
      ensures allowRules == if ruleType == "allow" then Surviving(old(allowRules), set n | n in toolNames) else old(allowRules)
      ensures denyRules == if ruleType == "deny" then Surviving(old(denyRules), set n | n in toolNames) else old(denyRules)
      ensures Read() == old(Read()).(allow := allowRules, deny := denyRules)
    {
      var nameSet := {};
      for k := 0 to |toolNames|
        invariant nameSet == set n | n in toolNames[..k]
      {
        nameSet := nameSet + {toolNames[k]};
      }
      assert toolNames[..|toolNames|] == toolNames;
      if ruleType == "allow" {
        allowRules := FilterRules(allowRules, nameSet);
      } else if ruleType == "deny" {
        denyRules := FilterRules(denyRules, nameSet);
      }
    }

    method ReplaceRules(rules: seq<Rule>, ruleType: string)
      modifies this`allowRules, this`denyRules
      ensures allowRules == if ruleType == "allow" then rules else old(allowRules)
      ensures denyRules == if ruleType == "deny" then rules else old(denyRules)
      ensures Read() == old(Read()).(allow := allowRules, deny := denyRules)
    {
      if ruleType == "allow" {
        allowRules := rules;
      } else if ruleType == "deny" {
        denyRules := rules;
      }
    }
  }

  /** A missing configuration bypasses permissions and has no rules. */
  function PermissionSnapshot(config: Config?): Snapshot
    reads config
  {
    if config == null then Snapshot(BypassPermissions, [], []) else config.Read()
  }

  // ---------------------------------------------------------------------------
  // The policy
  // ---------------------------------------------------------------------------

  /** Immutable tool bounds. No allow list means no bound; an empty one admits nothing. */
  datatype Bounds = Bounds(allowed: Option<seq<string>>, denied: seq<string>)

  predicate InBounds(b: Bounds, name: string) {
    name !in b.denied && (b.allowed.Some? ==> name in b.allowed.value)
  }

  predicate IsPreapproved(tool: Tool, input: Input, mode: Mode, explicitlyAllowed: bool, allowRules: seq<Rule>) {
    if tool.readOnly(input) || explicitlyAllowed || mode == BypassPermissions then true
    else if mode == AcceptEdits && tool.builtInEdit then true
    else FirstMatchingRule(allowRules, tool.name, input).Some?
  }

  function AllowAnyway(): Reply {
    Reply(Some(Decision(Allow, NilInput, "", false)), None)
  }

  function Refuse(reason: string): Reply {
    Reply(Some(DenyWith(reason)), None)
  }

  /** One evaluation of the composed policy, on the snapshot that evaluation read. */
  function Decide(b: Bounds, snap: Snapshot, callback: Option<PermissionFn>, maybeTool: Option<Tool>, input: Input): Reply {
    if maybeTool.None? then Refuse("Tool is unavailable")
    else
      var tool := maybeTool.value;
      var explicit := b.allowed.Some? && tool.name in b.allowed.value;
      var denyRule := FirstMatchingRule(snap.deny, tool.name, input);
      if tool.name in b.denied then Refuse("Tool is in denied list")
      else if denyRule.Some? then Refuse("Denied by rule: " + denyRule.value.toolName)
      else if b.allowed.Some? && tool.name !in b.allowed.value then Refuse("Tool not in allowed list")
      else if snap.mode == PlanMode && !tool.readOnly(input) then Refuse("Plan mode only allows read-only tools")
      else
        var preapproved := IsPreapproved(tool, input, snap.mode, explicit, snap.allow);
        var eligible := preapproved || snap.mode == DefaultMode || snap.mode == AcceptEdits;
        if callback.None? || !eligible then
          if preapproved then AllowAnyway() else Refuse("Permission denied")
        else
          AfterCallback(snap, explicit, tool, input, callback.value(tool, input))
  }

  /** The checks on what the host callback answered. */
  function AfterCallback(snap: Snapshot, explicit: bool, tool: Tool, input: Input, answer: Reply): Reply {
    var decision := if answer.decision.None? then DenyWith("Permission callback returned no decision") else answer.decision.value;
    if answer.err.Some? then Reply(Some(decision), answer.err)
    else
      var checkedInput := Effective(input, decision);
      var denyRule := FirstMatchingRule(snap.deny, tool.name, checkedInput);
      if denyRule.Some? then Refuse("Denied by rule: " + denyRule.value.toolName)
      else if snap.mode == PlanMode && !tool.readOnly(checkedInput) then Refuse("Plan mode only allows read-only tools")
      else if snap.mode == DontAsk && !IsPreapproved(tool, checkedInput, snap.mode, explicit, snap.allow) then
        Refuse("Permission denied")
      else if decision.behavior != Allow then
        Reply(Some(decision.(behavior := Deny,
                             reason := if decision.reason == "" then "Permission denied" else decision.reason)), None)
      else Reply(Some(decision), None)
  }

  /** Approved in advance, said without reference to how the policy computes it. */
  ghost predicate Preapproved(b: Bounds, snap: Snapshot, tool: Tool, x: Input) {
    || tool.readOnly(x)
    || (b.allowed.Some? && tool.name in b.allowed.value)
    || snap.mode == BypassPermissions
    || (snap.mode == AcceptEdits && tool.builtInEdit)
    || SomeRuleMatches(snap.allow, tool.name, x)
  }

  /** What must be true of the concrete input x that a tool is finally called with. */
  ghost predicate Permitted(b: Bounds, snap: Snapshot, tool: Tool, x: Input) {
    && InBounds(b, tool.name)
    && !SomeRuleMatches(snap.deny, tool.name, x)
    && (snap.mode == PlanMode ==> tool.readOnly(x))
    && (snap.mode == DontAsk ==> Preapproved(b, snap, tool, x))
  }

  ghost predicate Allows(r: Reply) {
    r.err.None? && r.decision.Some? && r.decision.value.behavior == Allow
  }

  /** The reply lets the tool run, and with input x. */
  ghost predicate RunsWith(r: Reply, input: Input, x: Input) {
    Allows(r) && Effective(input, r.decision.value) == x
  }

  ghost predicate Normal(r: Reply) {
    && r.decision.Some?
    && (r.err.None? ==> r.decision.value.behavior in {Allow, Deny})
    && (r.err.None? && r.decision.value.behavior == Deny ==> r.decision.value.reason != "")
  }

  /** A reply that is not an error always carries a decision, and it is allow or deny, and a denial says why. */
  lemma RepliesAreNormal(b: Bounds, snap: Snapshot, callback: Option<PermissionFn>, tool: Option<Tool>, input: Input)
    ensures Normal(Decide(b, snap, callback, tool, input))
  {
    hide FirstMatchingRule, IsPreapproved, AfterCallback;
    if callback.Some? && tool.Some? {
      AnswersAreNormal(snap, b.allowed.Some? && tool.value.name in b.allowed.value, tool.value, input, callback.value(tool.value, input));
    }
  }

  lemma AnswersAreNormal(snap: Snapshot, explicit: bool, tool: Tool, input: Input, answer: Reply)
    ensures Normal(AfterCallback(snap, explicit, tool, input, answer))
  {
    hide FirstMatchingRule, IsPreapproved, Effective;
  }

  /** Modes in which a host callback decides on what is not approved in advance. */
  predicate AsksHost(mode: Mode) {
    mode == DefaultMode || mode == AcceptEdits
  }

  lemma PreapprovedAgrees(b: Bounds, snap: Snapshot, tool: Tool, x: Input)
    ensures IsPreapproved(tool, x, snap.mode, b.allowed.Some? && tool.name in b.allowed.value, snap.allow)
       <==> Preapproved(b, snap, tool, x)
  {
    FirstRuleFound(snap.allow, tool.name, x);
  }

  /** What the checks after the callback let through. */
  lemma AnswerAllowsExactly(b: Bounds, snap: Snapshot, tool: Tool, input: Input, answer: Reply, x: Input)
    requires InBounds(b, tool.name)
    ensures RunsWith(AfterCallback(snap, b.allowed.Some? && tool.name in b.allowed.value, tool, input, answer), input, x)
       <==> RunsWith(answer, input, x) && Permitted(b, snap, tool, x)
  {
    hide FirstMatchingRule, IsPreapproved, SomeRuleMatches, Preapproved;
    FirstRuleFound(snap.deny, tool.name, x);
    PreapprovedAgrees(b, snap, tool, x);
  }

  /** Main result: exactly when the policy lets a tool run, and with which input. */
  lemma AllowedExactly(b: Bounds, snap: Snapshot, callback: Option<PermissionFn>, tool: Tool, input: Input, x: Input)
    ensures RunsWith(Decide(b, snap, callback, Some(tool), input), input, x)
       <==> && Permitted(b, snap, tool, input)
            && (callback.None? || !AsksHost(snap.mode) ==> Preapproved(b, snap, tool, input))
            && (if callback.None? then x == input
                else RunsWith(callback.value(tool, input), input, x) && Permitted(b, snap, tool, x))
  {
    FirstRuleFound(snap.deny, tool.name, input);
    PreapprovedAgrees(b, snap, tool, input);
    hide FirstMatchingRule, IsPreapproved, SomeRuleMatches, Preapproved, AfterCallback;
    if callback.Some? && InBounds(b, tool.name) {
      AnswerAllowsExactly(b, snap, tool, input, callback.value(tool, input), x);
    }
  }

  /** Without a configuration and a host, bounds are all that is left: exactly the tools in bounds run, and
      with the input they were given. */
  lemma MissingConfigLeavesBounds(b: Bounds, tool: Tool, input: Input, x: Input)
    ensures RunsWith(Decide(b, PermissionSnapshot(null), None, Some(tool), input), input, x)
       <==> InBounds(b, tool.name) && x == input
  {
    AllowedExactly(b, PermissionSnapshot(null), None, tool, input, x);
  }

  /** The policy used for rechecking a rewritten input: bounds, rules and mode, with a willing host. */
  function BoundsPolicy(b: Bounds, snap: Snapshot, tool: Option<Tool>, input: Input): Reply {
    Decide(b, snap, Some((t: Tool, i: Input) => AllowAnyway()), tool, input)
  }

  lemma BoundsPolicyExactly(b: Bounds, snap: Snapshot, tool: Tool, input: Input)
    ensures var r := BoundsPolicy(b, snap, Some(tool), input);
            && (Allows(r) <==> && Permitted(b, snap, tool, input)
                               && (AsksHost(snap.mode) || Preapproved(b, snap, tool, input)))
            && r.err.None? && r.decision.Some? && r.decision.value.updated == NilInput
  {
    hide FirstMatchingRule, IsPreapproved, SomeRuleMatches, Preapproved;
    FirstRuleFound(snap.deny, tool.name, input);
    PreapprovedAgrees(b, snap, tool, input);
  }

  /** Adding deny rules only takes permissions away, and never gives any. */
  lemma DenyRulesOnlyRestrict(b: Bounds, snap: Snapshot, more: seq<Rule>, tool: Tool, x: Input)
    ensures Permitted(b, snap.(deny := snap.deny + more), tool, x)
       <==> Permitted(b, snap, tool, x) && !SomeRuleMatches(more, tool.name, x)
  {
    var all := snap.deny + more;
    if SomeRuleMatches(all, tool.name, x) {
      var k :| 0 <= k < |all| && MatchesRule(all[k], tool.name, x);
      if k < |snap.deny| { assert all[k] == snap.deny[k]; } else { assert all[k] == more[k - |snap.deny|]; }
    }
    if SomeRuleMatches(snap.deny, tool.name, x) {
      var k :| 0 <= k < |snap.deny| && MatchesRule(snap.deny[k], tool.name, x);
      assert all[k] == snap.deny[k];
    }
    if SomeRuleMatches(more, tool.name, x) {
      var k :| 0 <= k < |more| && MatchesRule(more[k], tool.name, x);
      assert all[|snap.deny| + k] == more[k];
    }
  }

  /** A deny rule on the commands that start with some text refuses exactly these, even when every
      permission is bypassed and no host is asked. */
  lemma CommandRefusedExactly(start: string, tool: Tool, input: Input, command: string)
    requires '*' !in start && tool.name == "Bash"
    requires input.Object? && "command" in input.fields && input.fields["command"] == Str(command)
    ensures var snap := Snapshot(BypassPermissions, [], [Rule("Bash", start + "*")]);
            Allows(Decide(Bounds(None, []), snap, None, Some(tool), input)) <==> !(start <= command)
  {
    var rule := Rule("Bash", start + "*");
    var path := StringField(input, "file_path");
    var search := StringField(input, "pattern");
    StarAppended(start);
    RuleMatchesExactly(rule, tool.name, input, command, path, search);
    GlobPrefix(start, command);
    hide Glob, MatchesRule;
    assert FirstMatchingRule([rule], tool.name, input).Some? <==> MatchesRule(rule, tool.name, input);
  }

  lemma StarAppended(start: string)
    requires '*' !in start
    ensures StarAtAnEnd(start + "*")
  {
    assert (start + "*")[..|start|] == start;
  }
}
