/** Tool bounds along a chain of subagents (agent/agent.go, permissions.FilterTools). */
module ToolBounds {
  import opened Types
  import opened Permissions

  /** The names of list that are in keep, in their order. */
  function Keep(list: seq<string>, keep: seq<string>): seq<string> {
    if list == [] then []
    else
      var last := list[|list| - 1];
      var before := Keep(list[..|list| - 1], keep);
      if last in keep then before + [last] else before
  }

  /** First occurrences only, in their order. */
  function Distinct(list: seq<string>): seq<string> {
    if list == [] then []
    else
      var last := list[|list| - 1];
      var before := Distinct(list[..|list| - 1]);
      if last in list[..|list| - 1] then before else before + [last]
  }

  function OrEmpty(list: Option<seq<string>>): seq<string> {
    if list.None? then [] else list.value
  }

  method IntersectToolBounds(parent: Option<seq<string>>, child: Option<seq<string>>) returns (r: Option<seq<string>>)
    ensures r == Intersection(parent, child)
    ensures r.None? <==> parent.None? && child.None?
  {
    if parent.None? {
      return child;
    }
    if child.None? {
      return parent;
    }
    var childSet := {};
    for k := 0 to |child.value|
      invariant childSet == set n | n in child.value[..k]
    {
      childSet := childSet + {child.value[k]};
    }
    assert child.value[..|child.value|] == child.value;
    var intersection := [];
    for k := 0 to |parent.value|
      invariant intersection == Keep(parent.value[..k], child.value)
    {
      assert parent.value[..k + 1][..k] == parent.value[..k];
      if parent.value[k] in childSet {
        intersection := intersection + [parent.value[k]];
      }
    }
    assert parent.value[..|parent.value|] == parent.value;
    return Some(intersection);
  }

  function Intersection(parent: Option<seq<string>>, child: Option<seq<string>>): Option<seq<string>> {
    if parent.None? then child else if child.None? then parent else Some(Keep(parent.value, child.value))
  }

  method UnionToolBounds(parent: Option<seq<string>>, child: Option<seq<string>>) returns (r: Option<seq<string>>)
    ensures r == Union(parent, child)
    ensures r.None? <==> parent.None? && child.None?
  {
    if parent.None? && child.None? {
      return None;
    }
    var union, seen := [], {};
    var lists := [OrEmpty(parent), OrEmpty(child)];
    ghost var all := [];
    for b := 0 to 2
      invariant all == if b == 0 then [] else if b == 1 then OrEmpty(parent) else OrEmpty(parent) + OrEmpty(child)
      invariant union == Distinct(all) && seen == set n | n in all
    {
      union, seen := AddUnseen(lists[b], union, seen, all);
      all := all + lists[b];
    }
    return Some(union);
  }

  /** The inner loop: names not seen before are added in order. */
  method AddUnseen(names: seq<string>, before: seq<string>, known: set<string>, ghost all: seq<string>)
    returns (union: seq<string>, seen: set<string>)
    requires before == Distinct(all) && known == set n | n in all
    ensures union == Distinct(all + names) && seen == set n | n in all + names
  {
    union, seen := before, known;
    assert all + names[..0] == all;
    for k := 0 to |names|
      invariant union == Distinct(all + names[..k]) && seen == set n | n in all + names[..k]
    {
      var name := names[k];
      ghost var next := all + names[..k + 1];
      assert next[..|next| - 1] == all + names[..k];
      assert next == (all + names[..k]) + [name];
      if name in seen {
        continue;
      }
      seen := seen + {name};
      union := union + [name];
    }
    assert names[..|names|] == names;
  }

  function Union(parent: Option<seq<string>>, child: Option<seq<string>>): Option<seq<string>> {
    if parent.None? && child.None? then None else Some(Distinct(OrEmpty(parent) + OrEmpty(child)))
  }

  lemma {:induction false} KeepExactly(list: seq<string>, keep: seq<string>, name: string)
    ensures name in Keep(list, keep) <==> name in list && name in keep
  {
    if list != [] {
      KeepExactly(list[..|list| - 1], keep, name);
      assert list == list[..|list| - 1] + [list[|list| - 1]];
    }
  }

  /** What two bounds share stands in the order of the parent's: at lists the places there. */
  lemma {:induction false} KeepPlaces(list: seq<string>, keep: seq<string>) returns (at: seq<nat>)
    ensures |Keep(list, keep)| == |at|
    ensures forall k :: 0 <= k < |at| ==> at[k] < |list| && Keep(list, keep)[k] == list[at[k]]
    ensures forall j, k :: 0 <= j < k < |at| ==> at[j] < at[k]
    ensures forall i :: 0 <= i < |list| ==> (i in at <==> list[i] in keep)
  {
    if list == [] {
      at := [];
    } else {
      var n := |list| - 1;
      var before := KeepPlaces(list[..n], keep);
      assert Keep(list, keep) == Keep(list[..n], keep) + if list[n] in keep then [list[n]] else [];
      hide Keep;
      assert forall i :: 0 <= i < n ==> (i in before <==> list[..n][i] in keep);
      if list[n] in keep {
        at := before + [n];
        assert forall i :: i in at <==> i in before || i == n;
      } else {
        at := before;
      }
    }
  }

  /** Bounds joined start with the parent's names, each once. */
  lemma {:induction false} DistinctPrefix(parent: seq<string>, child: seq<string>)
    ensures Distinct(parent) <= Distinct(parent + child)
  {
    if child == [] {
      assert parent + child == parent;
    } else {
      var n := |child| - 1;
      DistinctPrefix(parent, child[..n]);
      assert (parent + child)[..|parent| + n] == parent + child[..n];
    }
  }

  lemma {:induction false} DistinctExactly(list: seq<string>, name: string)
    ensures name in Distinct(list) <==> name in list
  {
    if list != [] {
      DistinctExactly(list[..|list| - 1], name);
      assert list == list[..|list| - 1] + [list[|list| - 1]];
    }
  }

  lemma {:induction false} DistinctHasNoRepeats(list: seq<string>)
    ensures var d := Distinct(list); forall i, j :: 0 <= i < j < |d| ==> d[i] != d[j]
  {
    if list != [] {
      var before := list[..|list| - 1];
      DistinctHasNoRepeats(before);
      DistinctExactly(before, list[|list| - 1]);
    }
  }

  // ---------------------------------------------------------------------------
  // Visibility
  // ---------------------------------------------------------------------------

  /** The tools in bounds, in registry order. */
  function Visible(tools: seq<Option<Tool>>, b: Bounds): seq<Tool> {
    if tools == [] then []
    else
      var last := tools[|tools| - 1];
      var before := Visible(tools[..|tools| - 1], b);
      if last.Some? && InBounds(b, last.value.name) then before + [last.value] else before
  }

  method FilterTools(allTools: seq<Option<Tool>>, allowed: Option<seq<string>>, denied: seq<string>)
    returns (filtered: seq<Tool>)
    ensures filtered == Visible(allTools, Bounds(allowed, denied))
  {
    filtered := [];
    for k := 0 to |allTools|
      invariant filtered == Visible(allTools[..k], Bounds(allowed, denied))
    {
      assert allTools[..k + 1][..k] == allTools[..k];
      if allTools[k].None? || allTools[k].value.name in denied {
        continue;
      }
      if allowed.Some? && allTools[k].value.name !in allowed.value {
        continue;
      }
      filtered := filtered + [allTools[k].value];
    }
    assert allTools[..|allTools|] == allTools;
  }

  function Wrap(tools: seq<Tool>): seq<Option<Tool>> {
    seq(|tools|, k requires 0 <= k < |tools| => Some(tools[k]))
  }

  // ---------------------------------------------------------------------------
  // Chains of subagents
  // ---------------------------------------------------------------------------

  /** What one spawn imposes on the child: the requested tools and the definition's denied tools. */
  datatype Spawn = Spawn(tools: Option<seq<string>>, denied: Option<seq<string>>)

  datatype AgentBounds = AgentBounds(allowed: Option<seq<string>>, denied: Option<seq<string>>)

  function Child(parent: AgentBounds, s: Spawn): AgentBounds {
    AgentBounds(Intersection(parent.allowed, s.tools), Union(parent.denied, s.denied))
  }

  /** The bounds at the end of a chain of spawns. */
  function Descend(root: AgentBounds, spawns: seq<Spawn>): AgentBounds {
    if spawns == [] then root
    else Child(Descend(root, spawns[..|spawns| - 1]), spawns[|spawns| - 1])
  }

  function AsBounds(b: AgentBounds): Bounds {
    Bounds(b.allowed, OrEmpty(b.denied))
  }

  predicate SpawnAdmits(s: Spawn, name: string) {
    (s.tools.Some? ==> name in s.tools.value) && name !in OrEmpty(s.denied)
  }

  lemma ChildExactly(parent: AgentBounds, s: Spawn, name: string)
    ensures InBounds(AsBounds(Child(parent, s)), name) <==> InBounds(AsBounds(parent), name) && SpawnAdmits(s, name)
  {
    if parent.allowed.Some? && s.tools.Some? {
      KeepExactly(parent.allowed.value, s.tools.value, name);
    }
    DistinctExactly(OrEmpty(parent.denied) + OrEmpty(s.denied), name);
  }

  /** Main result: a name is in bounds at depth n exactly when the root and every spawn admit it. */
  lemma {:induction false} ChainExactly(root: AgentBounds, spawns: seq<Spawn>, name: string)
    ensures InBounds(AsBounds(Descend(root, spawns)), name)
       <==> InBounds(AsBounds(root), name) && forall k :: 0 <= k < |spawns| ==> SpawnAdmits(spawns[k], name)
  {
    if spawns != [] {
      var before := spawns[..|spawns| - 1];
      ChainExactly(root, before, name);
      ChildExactly(Descend(root, before), spawns[|spawns| - 1], name);
      assert forall k :: 0 <= k < |before| ==> before[k] == spawns[k];
    }
  }

  lemma {:induction false} DescendSplit(root: AgentBounds, a: seq<Spawn>, b: seq<Spawn>)
    ensures Descend(root, a + b) == Descend(Descend(root, a), b)
  {
    if b == [] {
      assert a + b == a;
    } else {
      DescendSplit(root, a, b[..|b| - 1]);
      assert (a + b)[..|a + b| - 1] == a + b[..|b| - 1];
    }
  }

  lemma {:induction false} VisibleTwice(tools: seq<Option<Tool>>, outer: Bounds, inner: Bounds)
    requires forall name :: InBounds(inner, name) ==> InBounds(outer, name)
    ensures Visible(Wrap(Visible(tools, outer)), inner) == Visible(tools, inner)
  {
    if tools != [] {
      var last := tools[|tools| - 1];
      var before := Visible(tools[..|tools| - 1], outer);
      VisibleTwice(tools[..|tools| - 1], outer, inner);
      if last.Some? && InBounds(outer, last.value.name) {
        var both := before + [last.value];
        assert Wrap(both)[..|before|] == Wrap(before);
        assert Wrap(both)[|before|] == Some(last.value);
      }
    }
  }

  /** A descendant sees nothing that any ancestor's filter hides, and what it sees keeps its order. */
  lemma DescendantsSeeLess(root: AgentBounds, above: seq<Spawn>, below: seq<Spawn>, tools: seq<Option<Tool>>)
    ensures var ancestor := AsBounds(Descend(root, above));
            var descendant := AsBounds(Descend(root, above + below));
            Visible(tools, descendant) == Visible(Wrap(Visible(tools, ancestor)), descendant)
  {
    var ancestor := AsBounds(Descend(root, above));
    var descendant := AsBounds(Descend(root, above + below));
    DescendSplit(root, above, below);
    forall name | InBounds(descendant, name) ensures InBounds(ancestor, name) {
      ChainExactly(Descend(root, above), below, name);
    }
    VisibleTwice(tools, ancestor, descendant);
  }
}
