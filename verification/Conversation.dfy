/** Conversation messages and what is extracted from them (types/message.go). */
module Conversation {
  import opened Types
  import opened ToolCall

  datatype Kind = TextKind | ToolUse | ToolResultKind | ThinkingKind | OtherKind(name: string)

  /** One content block. source stands for the image fields. */
  datatype Block = Block(kind: Kind, text: string, id: string, name: string, input: Input,
                         toolUseID: string, content: seq<Content>, isError: bool, source: int, thinking: string)

  const EmptyBlock := Block(TextKind, "", "", "", NilInput, "", [], false, 0, "")

  datatype Role = User | Assistant

  datatype Message = Message(role: Role, content: seq<Block>)

  datatype Use = Use(id: string, name: string, input: Input)

  function AsUse(b: Block): Use {
    Use(b.id, b.name, b.input)
  }

  /** The tool uses of a message, in order. */
  function Uses(content: seq<Block>): seq<Use> {
    if content == [] then []
    else
      var last := content[|content| - 1];
      Uses(content[..|content| - 1]) + if last.kind.ToolUse? then [AsUse(last)] else []
  }

  function Texts(content: seq<Block>): string {
    if content == [] then ""
    else
      var last := content[|content| - 1];
      Texts(content[..|content| - 1]) + if last.kind.TextKind? then last.text else ""
  }

  method ExtractToolUseBlocks(content: seq<Block>) returns (uses: seq<Use>)
    ensures uses == Uses(content)
  {
    uses := [];
    for k := 0 to |content|
      invariant uses == Uses(content[..k])
    {
      assert content[..k + 1][..k] == content[..k];
      if content[k].kind.ToolUse? {
        uses := uses + [Use(content[k].id, content[k].name, content[k].input)];
      }
    }
    assert content[..|content|] == content;
  }

  /** The text of a message is that of its first part and then that of the rest; of a single block it is its
      text, or nothing if it is no text block. */
  lemma {:induction false} TextsAppend(a: seq<Block>, b: seq<Block>)
    ensures Texts(a + b) == Texts(a) + Texts(b)
    ensures |a| == 1 ==> Texts(a) == if a[0].kind.TextKind? then a[0].text else ""
  {
    if |a| == 1 {
      assert a[..0] == [];
    }
    if b == [] {
      assert a + b == a;
    } else {
      var n := |b| - 1;
      TextsAppend(a, b[..n]);
      assert (a + b)[..|a| + n] == a + b[..n];
    }
  }

  method ExtractText(content: seq<Block>) returns (text: string)
    ensures text == Texts(content)
  {
    text := "";
    for k := 0 to |content|
      invariant text == Texts(content[..k])
    {
      assert content[..k + 1][..k] == content[..k];
      if content[k].kind.TextKind? {
        text := text + content[k].text;
      }
    }
    assert content[..|content|] == content;
  }

  /** Place of block p among the tool uses. */
  function Rank(content: seq<Block>, p: nat): nat
    requires p <= |content|
  {
    |Uses(content[..p])|
  }

  lemma UsesPush(content: seq<Block>, b: Block)
    ensures Uses(content + [b]) == Uses(content) + if b.kind.ToolUse? then [AsUse(b)] else []
  {
    assert (content + [b])[..|content|] == content;
  }

  /** Extraction lists exactly the tool-use blocks, each at its rank. */
  lemma {:induction false} UsesAt(content: seq<Block>, p: nat)
    requires p < |content| && content[p].kind.ToolUse?
    ensures Rank(content, p) < |Uses(content)| && Uses(content)[Rank(content, p)] == AsUse(content[p])
    ensures var use := Uses(content)[Rank(content, p)];
            use.id == content[p].id && use.name == content[p].name && use.input == content[p].input
  {
    var n := |content| - 1;
    if p < n {
      UsesAt(content[..n], p);
      assert content[..n][..p] == content[..p];
    }
  }

  /** Rewriting a block without changing its kind changes the extraction at most at its rank. */
  lemma {:induction false} UsesUpdate(content: seq<Block>, p: nat, b: Block)
    requires p < |content| && b.kind == content[p].kind
    ensures Rank(content, p) + (if b.kind.ToolUse? then 1 else 0) <= |Uses(content)|
    ensures Uses(content[p := b]) ==
            if b.kind.ToolUse? then Uses(content)[Rank(content, p) := AsUse(b)] else Uses(content)
  {
    var n := |content| - 1;
    if p < n {
      UsesUpdate(content[..n], p, b);
      assert content[..n][..p] == content[..p];
      assert content[p := b][..n] == content[..n][p := b];
    } else {
      assert content[p := b][..n] == content[..n];
    }
  }

  ghost predicate DistinctIds(uses: seq<Use>) {
    forall i, j :: 0 <= i < j < |uses| ==> uses[i].id != uses[j].id
  }

  predicate SameIds(a: seq<Use>, b: seq<Use>) {
    |a| == |b| && forall k :: 0 <= k < |a| ==> a[k].id == b[k].id && a[k].name == b[k].name
  }
}
