/** Stream assembly: provider events folded in place into an assistant message and a side list of tool
    uses (agent/loop.go processStreamEvent). The JSON parser is a parameter. */
module Assembly {
  import opened Types
  import opened Conversation
  import opened Accounting
  import Text

  type Parser = string -> Option<Input>

  datatype Started = Started(model: string, usage: Option<Usage>)

  /** A nil delta is NilInput. Blocks are addressed by index. */
  datatype Event =
    | MessageStart(message: Option<Started>)
    | BlockStart(block: Option<Block>)
    | BlockDelta(index: nat, delta: Input)
    | BlockStop(index: nat)
    | MessageDelta(delta: Input, usage: Option<Usage>)
    | OtherEvent

  // ---------------------------------------------------------------------------
  // What a stream means, block by block
  // ---------------------------------------------------------------------------

  function Init(events: seq<Event>): seq<Event>
    requires events != []
  {
    events[..|events| - 1]
  }

  function Last(events: seq<Event>): Event
    requires events != []
  {
    events[|events| - 1]
  }

  predicate Opens(e: Event) {
    e.BlockStart? && e.block.Some?
  }

  /** How many blocks the stream has started. */
  function Blocks(events: seq<Event>): nat {
    if events == [] then 0 else Blocks(Init(events)) + if Opens(Last(events)) then 1 else 0
  }

  /** The i-th block as it was started. */
  function Opening(events: seq<Event>, i: nat): Block
    requires i < Blocks(events)
  {
    if i < Blocks(Init(events)) then Opening(Init(events), i) else Last(events).block.value
  }

  datatype Piece = Delta(delta: Input) | Stop

  /** What the stream says to block i alone, in order, from its start on. */
  function Own(events: seq<Event>, i: nat): seq<Piece> {
    if events == [] then []
    else Own(Init(events), i) + if i < Blocks(Init(events)) then PieceFor(Last(events), i) else []
  }

  function PieceFor(e: Event, i: nat): seq<Piece> {
    match e
    case BlockDelta(index, delta) => if index == i && delta.Object? then [Delta(delta)] else []
    case BlockStop(index) => if index == i then [Stop] else []
    case _ => []
  }

  function TextOf(delta: Input): string {
    match StringField(delta, "type")
    case "text_delta" => StringField(delta, "text")
    case "input_json_delta" => StringField(delta, "partial_json")
    case _ => ""
  }

  function ThoughtOf(delta: Input): string {
    if StringField(delta, "type") == "thinking_delta" then StringField(delta, "thinking") else ""
  }

  predicate Parses(parse: Parser, b: Block) {
    b.kind.ToolUse? && b.text != "" && parse(b.text).Some?
  }

  function Act(parse: Parser, b: Block, p: Piece): Block {
    match p
    case Delta(d) => b.(text := b.text + TextOf(d), thinking := b.thinking + ThoughtOf(d))
    case Stop => if Parses(parse, b) then b.(input := parse(b.text).value, text := "") else b
  }

  function Fold(parse: Parser, b: Block, pieces: seq<Piece>): Block {
    if pieces == [] then b
    else Act(parse, Fold(parse, b, pieces[..|pieces| - 1]), pieces[|pieces| - 1])
  }

  /** The message content: every block is made of its own opening and its own pieces, and of nothing else. */
  function ContentOf(parse: Parser, events: seq<Event>): seq<Block> {
    seq(Blocks(events), i requires 0 <= i < Blocks(events) => Fold(parse, Opening(events, i), Own(events, i)))
  }

  lemma {:induction false} NothingBeforeOpening(events: seq<Event>, i: nat)
    requires i >= Blocks(events)
    ensures Own(events, i) == []
  {
    if events != [] {
      NothingBeforeOpening(Init(events), i);
    }
  }

  lemma Push(events: seq<Event>, e: Event)
    ensures Init(events + [e]) == events && Last(events + [e]) == e
  {
  }

  /** An event that names block i moves block i one piece on; any other leaves it alone. */
  lemma PushKeeps(parse: Parser, events: seq<Event>, e: Event, i: nat)
    requires i < Blocks(events)
    ensures i < Blocks(events + [e])
    ensures ContentOf(parse, events + [e])[i] ==
            if PieceFor(e, i) == [] then ContentOf(parse, events)[i]
            else Act(parse, ContentOf(parse, events)[i], PieceFor(e, i)[0])
  {
    Push(events, e);
    var own, p := Own(events, i), PieceFor(e, i);
    if p == [] {
      assert own + p == own;
    } else {
      assert (own + p)[..|own| + |p| - 1] == own;
    }
  }

  lemma PushOpening(parse: Parser, events: seq<Event>, e: Event)
    requires Opens(e)
    ensures ContentOf(parse, events + [e]) == ContentOf(parse, events) + [e.block.value]
  {
    Push(events, e);
    var n := Blocks(events);
    NothingBeforeOpening(events, n);
    forall i | 0 <= i < n ensures ContentOf(parse, events + [e])[i] == ContentOf(parse, events)[i] {
      PushKeeps(parse, events, e, i);
    }
    assert ContentOf(parse, events + [e])[n] == e.block.value;
  }

  lemma PushPiece(parse: Parser, events: seq<Event>, e: Event, index: nat)
    requires index < Blocks(events) && (e == BlockStop(index) || exists d :: e == BlockDelta(index, d) && d.Object?)
    ensures ContentOf(parse, events + [e]) ==
            ContentOf(parse, events)[index := Act(parse, ContentOf(parse, events)[index], PieceFor(e, index)[0])]
  {
    Push(events, e);
    assert Blocks(events + [e]) == Blocks(events);
    hide Fold, Opening, Own, Act, Blocks;
    forall i | 0 <= i < Blocks(events) && i != index
      ensures ContentOf(parse, events + [e])[i] == ContentOf(parse, events)[i]
    {
      PushKeeps(parse, events, e, i);
    }
    PushKeeps(parse, events, e, index);
  }

  lemma PushNothing(parse: Parser, events: seq<Event>, e: Event)
    requires !Opens(e) && forall i :: 0 <= i < Blocks(events) ==> PieceFor(e, i) == []
    ensures ContentOf(parse, events + [e]) == ContentOf(parse, events)
  {
    Push(events, e);
    forall i | 0 <= i < Blocks(events) ensures ContentOf(parse, events + [e])[i] == ContentOf(parse, events)[i] {
      PushKeeps(parse, events, e, i);
    }
  }

  // ---------------------------------------------------------------------------
  // The side list
  // ---------------------------------------------------------------------------

  /** The first entry with the id gets the input. */
  function SetFirst(uses: seq<Use>, id: string, input: Input): seq<Use> {
    if uses == [] then []
    else if uses[0].id == id then [uses[0].(input := input)] + uses[1..]
    else [uses[0]] + SetFirst(uses[1..], id, input)
  }

  lemma {:induction false} SetFirstAt(uses: seq<Use>, id: string, input: Input, i: nat)
    requires i <= |uses| && (forall k :: 0 <= k < i ==> uses[k].id != id) && (i < |uses| ==> uses[i].id == id)
    ensures SetFirst(uses, id, input) == if i < |uses| then uses[i := uses[i].(input := input)] else uses
  {
    if uses != [] && i > 0 {
      var rest := uses[1..];
      assert forall k :: 0 <= k < |rest| ==> rest[k] == uses[k + 1];
      assert uses[0].id != id;
      SetFirstAt(rest, id, input, i - 1);
      assert i < |uses| ==> uses[i := uses[i].(input := input)] == [uses[0]] + rest[i - 1 := rest[i - 1].(input := input)];
      assert uses == [uses[0]] + rest;
    }
  }

  function SideList(parse: Parser, events: seq<Event>): seq<Use> {
    if events == [] then []
    else
      var before, e := SideList(parse, Init(events)), Last(events);
      match e
      case BlockStart(Some(b)) => if b.kind.ToolUse? then before + [AsUse(b)] else before
      case BlockStop(i) =>
        if i < Blocks(Init(events)) then
          var b := ContentOf(parse, Init(events))[i];
          if Parses(parse, b) then SetFirst(before, b.id, parse(b.text).value) else before
        else before
      case _ => before
  }

  lemma {:induction false} SetFirstKeepsIds(uses: seq<Use>, id: string, input: Input)
    ensures SameIds(SetFirst(uses, id, input), uses)
  {
    if uses != [] {
      SetFirstKeepsIds(uses[1..], id, input);
    }
  }

  // ---------------------------------------------------------------------------
  // The fold itself
  // ---------------------------------------------------------------------------

  function ModelOf(events: seq<Event>): string {
    if events == [] then ""
    else if Last(events).MessageStart? && Last(events).message.Some? then Last(events).message.value.model
    else ModelOf(Init(events))
  }

  /** The last stop reason given, even an empty one. */
  function StopReasonOf(events: seq<Event>): string {
    if events == [] then ""
    else if Last(events).MessageDelta? && Names(Last(events).delta, "stop_reason") then
      StringField(Last(events).delta, "stop_reason")
    else StopReasonOf(Init(events))
  }

  predicate Names(delta: Input, key: string) {
    delta.Object? && key in delta.fields && delta.fields[key].Str?
  }

  /** Usage starts over at a message start that carries one; later only output tokens are added. */
  function UsageOf(events: seq<Event>): Option<Usage> {
    if events == [] then None
    else
      var before := UsageOf(Init(events));
      match Last(events)
      case MessageStart(Some(m)) => if m.usage.Some? then m.usage else before
      case MessageDelta(_, Some(u)) =>
        if before.None? then Some(u) else Some(before.value.(output := before.value.output + u.output))
      case _ => before
  }

  /** The assistant message under construction and the tool uses collected beside it. */
  class Assembler {
    const parse: Parser
    var content: seq<Block>
    var model: string
    var stopReason: string
    var usage: Option<Usage>
    var toolUses: seq<Use>
    ghost var seen: seq<Event>

    ghost predicate Valid()
      reads this
    {
      && content == ContentOf(parse, seen)
      && toolUses == SideList(parse, seen)
      && model == ModelOf(seen) && stopReason == StopReasonOf(seen) && usage == UsageOf(seen)
    }

    constructor (parse: Parser)
      ensures Valid() && seen == [] && this.parse == parse
    {
      this.parse := parse;
      content, model, stopReason, usage, toolUses := [], "", "", None, [];
      seen := [];
    }

    method ProcessStreamEvent(event: Event)
      requires Valid()
      modifies this
      ensures Valid() && seen == old(seen) + [event]
    {
      Push(seen, event);
      ghost var before := seen;
      seen := seen + [event];
      match event {
        case MessageStart(message) =>
          PushNothing(parse, before, event);
          if message.Some? {
            model := message.value.model;
            if message.value.usage.Some? {
              usage := message.value.usage;
            }
          }
        case BlockStart(block) =>
          if block.Some? {
            PushOpening(parse, before, event);
            content := content + [block.value];
            if block.value.kind.ToolUse? {
              toolUses := toolUses + [Use(block.value.id, block.value.name, block.value.input)];
            }
          } else {
            PushNothing(parse, before, event);
          }
        case BlockDelta(index, delta) =>
          if delta.NilInput? || |content| == 0 || index >= |content| {
            PushNothing(parse, before, event);
            return;
          }
          PushPiece(parse, before, event, index);
          AddDelta(index, delta);
        case BlockStop(index) =>
          if index >= |content| {
            PushNothing(parse, before, event);
            return;
          }
          PushPiece(parse, before, event, index);
          StopBlock(index);
        case MessageDelta(delta, u) =>
          PushNothing(parse, before, event);
          if Names(delta, "stop_reason") {
            stopReason := delta.fields["stop_reason"].s;
          }
          if u.Some? {
            if usage.None? {
              usage := u;
            } else {
              usage := Some(usage.value.(output := usage.value.output + u.value.output));
            }
          }
        case OtherEvent =>
          PushNothing(parse, before, event);
      }
    }

    method AddDelta(index: nat, delta: Input)
      requires index < |content| && delta.Object?
      modifies this`content
      ensures content == old(content)[index := Act(parse, old(content)[index], Delta(delta))]
    {
      var b := content[index];
      assert b.text + "" == b.text && b.thinking + "" == b.thinking && content[index := b] == content;
      if StringField(delta, "type") == "text_delta" {
        content := content[index := b.(text := b.text + StringField(delta, "text"))];
      } else if StringField(delta, "type") == "input_json_delta" {
        content := content[index := b.(text := b.text + StringField(delta, "partial_json"))];
      } else if StringField(delta, "type") == "thinking_delta" {
        content := content[index := b.(thinking := b.thinking + StringField(delta, "thinking"))];
      }
    }

    method StopBlock(index: nat)
      requires index < |content|
      modifies this`content, this`toolUses
      ensures content == old(content)[index := Act(parse, old(content)[index], Stop)]
      ensures toolUses ==
              if Parses(parse, old(content)[index])
              then SetFirst(old(toolUses), old(content)[index].id, parse(old(content)[index].text).value)
              else old(toolUses)
    {
      var b := content[index];
      if b.kind.ToolUse? && b.text != "" {
        var input := parse(b.text);
        if input.Some? {
          content := content[index := b.(input := input.value, text := "")];
          var i := 0;
          while i < |toolUses| && toolUses[i].id != b.id
            invariant 0 <= i <= |toolUses| && forall k :: 0 <= k < i ==> toolUses[k].id != b.id
          {
            i := i + 1;
          }
          SetFirstAt(toolUses, b.id, input.value, i);
          if i < |toolUses| {
            toolUses := toolUses[i := toolUses[i].(input := input.value)];
          }
        }
      }
    }
  }

  // ---------------------------------------------------------------------------
  // Main results
  // ---------------------------------------------------------------------------

  /** One event, seen from the side list: it grows with the message, or one input is set. */
  lemma {:induction false} SideListHasTheIds(parse: Parser, events: seq<Event>)
    ensures SameIds(SideList(parse, events), Uses(ContentOf(parse, events)))
  {
    if events != [] {
      SideListHasTheIds(parse, Init(events));
      ContentStep(parse, events);
      IdsStep(parse, events);
    }
  }

  /** The content after the last event, in terms of the content before it. */
  lemma ContentStep(parse: Parser, events: seq<Event>)
    requires events != []
    ensures var before, after, e := ContentOf(parse, Init(events)), ContentOf(parse, events), Last(events);
            if Opens(e) then after == before + [e.block.value]
            else if e.BlockStop? && e.index < |before| then after == before[e.index := Act(parse, before[e.index], Stop)]
            else if e.BlockDelta? && e.index < |before| && e.delta.Object? then
              after == before[e.index := Act(parse, before[e.index], Delta(e.delta))]
            else after == before
  {
    var before, e := Init(events), Last(events);
    assert events == before + [e];
    if Opens(e) {
      PushOpening(parse, before, e);
    } else if (e.BlockStop? || (e.BlockDelta? && e.delta.Object?)) && e.index < Blocks(before) {
      PushPiece(parse, before, e, e.index);
    } else {
      PushNothing(parse, before, e);
    }
  }

  lemma ActKeepsIdentity(parse: Parser, b: Block, p: Piece)
    ensures var c := Act(parse, b, p); c.kind == b.kind && c.id == b.id && c.name == b.name
    ensures p.Delta? || !Parses(parse, b) ==> Act(parse, b, p).input == b.input
  {
  }

  lemma UpdateKeepsIds(content: seq<Block>, p: nat, b: Block)
    requires p < |content| && b.kind == content[p].kind && b.id == content[p].id && b.name == content[p].name
    ensures SameIds(Uses(content), Uses(content[p := b]))
  {
    UsesUpdate(content, p, b);
    if b.kind.ToolUse? {
      UsesAt(content, p);
    }
  }

  lemma IdsStep(parse: Parser, events: seq<Event>)
    requires events != [] && SameIds(SideList(parse, Init(events)), Uses(ContentOf(parse, Init(events))))
    ensures SameIds(SideList(parse, events), Uses(ContentOf(parse, events)))
  {
    hide ContentOf, Uses, Act, SetFirst;
    var before, e := ContentOf(parse, Init(events)), Last(events);
    assert |before| == Blocks(Init(events)) by {
      BlockCount(parse, Init(events));
    }
    ContentStep(parse, events);
    if Opens(e) {
      UsesPush(before, e.block.value);
    } else if e.BlockStop? && e.index < |before| {
      var b := before[e.index];
      ActKeepsIdentity(parse, b, Stop);
      UpdateKeepsIds(before, e.index, Act(parse, b, Stop));
      if Parses(parse, b) {
        SetFirstKeepsIds(SideList(parse, Init(events)), b.id, parse(b.text).value);
      }
    } else if e.BlockDelta? && e.index < |before| && e.delta.Object? {
      ActKeepsIdentity(parse, before[e.index], Delta(e.delta));
      UpdateKeepsIds(before, e.index, Act(parse, before[e.index], Delta(e.delta)));
    }
  }

  lemma BlockCount(parse: Parser, events: seq<Event>)
    ensures |ContentOf(parse, events)| == Blocks(events)
  {
  }

  lemma AppendKeepsDistinct(a: seq<Use>, b: seq<Use>)
    requires DistinctIds(a + b)
    ensures DistinctIds(a)
  {
    forall i, j | 0 <= i < j < |a| ensures a[i].id != a[j].id {
      assert (a + b)[i].id != (a + b)[j].id;
    }
  }

  /** As long as the tool ids are distinct, the side list is after every event what extraction would find
      in the message, whatever the interleaving of the blocks. */
  lemma {:induction false} SideListIsExtraction(parse: Parser, events: seq<Event>)
    requires DistinctIds(Uses(ContentOf(parse, events)))
    ensures SideList(parse, events) == Uses(ContentOf(parse, events))
  {
    if events == [] {
      assert ContentOf(parse, events) == [];
    } else {
      hide ContentOf, Uses, SideList, DistinctIds;
      DistinctBefore(parse, events);
      SideListIsExtraction(parse, Init(events));
      ExtractionStep(parse, events);
    }
  }

  lemma DistinctBefore(parse: Parser, events: seq<Event>)
    requires events != [] && DistinctIds(Uses(ContentOf(parse, events)))
    ensures DistinctIds(Uses(ContentOf(parse, Init(events))))
  {
    hide ContentOf, Uses, Act, DistinctIds;
    var before, e := ContentOf(parse, Init(events)), Last(events);
    ContentStep(parse, events);
    if Opens(e) {
      UsesPush(before, e.block.value);
      AppendKeepsDistinct(Uses(before), if e.block.value.kind.ToolUse? then [AsUse(e.block.value)] else []);
    } else if e.BlockStop? && e.index < |before| {
      ActKeepsIdentity(parse, before[e.index], Stop);
      StepKeepsExtraction(before, e.index, Act(parse, before[e.index], Stop));
    } else if e.BlockDelta? && e.index < |before| && e.delta.Object? {
      ActKeepsIdentity(parse, before[e.index], Delta(e.delta));
      StepKeepsExtraction(before, e.index, Act(parse, before[e.index], Delta(e.delta)));
    }
  }

  lemma ExtractionStep(parse: Parser, events: seq<Event>)
    requires events != [] && DistinctIds(Uses(ContentOf(parse, Init(events))))
    requires SideList(parse, Init(events)) == Uses(ContentOf(parse, Init(events)))
    ensures SideList(parse, events) == Uses(ContentOf(parse, events))
  {
    hide ContentOf, Uses, Act, SetFirst, DistinctIds;
    var before, e := ContentOf(parse, Init(events)), Last(events);
    if e.BlockStop? && e.index < |before| && Parses(parse, before[e.index]) {
      BlockCount(parse, Init(events));
      ContentStep(parse, events);
      StopKeepsExtraction(parse, before, e.index);
    } else {
      QuietStep(parse, events);
    }
  }

  /** An event other than a stop that parses keeps list and message in step. */
  lemma QuietStep(parse: Parser, events: seq<Event>)
    requires events != [] && SideList(parse, Init(events)) == Uses(ContentOf(parse, Init(events)))
    requires var before, e := ContentOf(parse, Init(events)), Last(events);
             !(e.BlockStop? && e.index < |before| && Parses(parse, before[e.index]))
    ensures SideList(parse, events) == Uses(ContentOf(parse, events))
  {
    hide ContentOf, Uses, Act, SetFirst;
    var before, e := ContentOf(parse, Init(events)), Last(events);
    BlockCount(parse, Init(events));
    ContentStep(parse, events);
    if Opens(e) {
      UsesPush(before, e.block.value);
      assert Uses(before) + [] == Uses(before);
    } else if e.BlockStop? && e.index < |before| {
      ActKeepsIdentity(parse, before[e.index], Stop);
      StepKeepsExtraction(before, e.index, Act(parse, before[e.index], Stop));
    } else if e.BlockDelta? && e.index < |before| && e.delta.Object? {
      ActKeepsIdentity(parse, before[e.index], Delta(e.delta));
      StepKeepsExtraction(before, e.index, Act(parse, before[e.index], Delta(e.delta)));
    }
  }

  lemma StepKeepsExtraction(content: seq<Block>, p: nat, b: Block)
    requires p < |content| && b.kind == content[p].kind && b.id == content[p].id && b.name == content[p].name
    ensures DistinctIds(Uses(content[p := b])) <==> DistinctIds(Uses(content))
    ensures b.input == content[p].input ==> Uses(content[p := b]) == Uses(content)
  {
    UsesUpdate(content, p, b);
    if b.kind.ToolUse? {
      UsesAt(content, p);
      var u, v := Uses(content), Uses(content[p := b]);
      assert forall k :: 0 <= k < |u| ==> u[k].id == v[k].id;
    }
  }

  /** A stop keeps the side list equal to the extraction exactly when the entry it finds by id is its own,
      or happens to leave no difference. */
  lemma StopKeepsExtractionExactly(parse: Parser, content: seq<Block>, p: nat, first: nat)
    requires p < |content| && Parses(parse, content[p])
    requires first < |Uses(content)| && Uses(content)[first].id == content[p].id
    requires forall k :: 0 <= k < first ==> Uses(content)[k].id != content[p].id
    ensures var input := parse(content[p].text).value;
            SetFirst(Uses(content), content[p].id, input) == Uses(content[p := Act(parse, content[p], Stop)])
            <==> first == Rank(content, p) || (Uses(content)[first].input == input && content[p].input == input)
  {
    var b, r, u := Act(parse, content[p], Stop), Rank(content, p), Uses(content);
    UsesUpdate(content, p, b);
    UsesAt(content, p);
    SetFirstAt(u, content[p].id, b.input, first);
    var v, w := u[first := u[first].(input := b.input)], u[r := AsUse(b)];
    if first != r {
      assert v[first].input == b.input && w[first] == u[first];
      assert v[r] == u[r] && w[r].input == b.input;
      if u[first].input == b.input && u[r].input == b.input {
        assert v == u && w == u;
      }
    }
  }

  function FirstWith(uses: seq<Use>, id: string): nat {
    if uses == [] || uses[0].id == id then 0 else 1 + FirstWith(uses[1..], id)
  }

  lemma {:induction false} FirstWithAt(uses: seq<Use>, id: string, at: nat)
    requires at < |uses| && uses[at].id == id
    ensures FirstWith(uses, id) <= at && uses[FirstWith(uses, id)].id == id
    ensures forall k :: 0 <= k < FirstWith(uses, id) ==> uses[k].id != id
  {
    if uses[0].id != id {
      FirstWithAt(uses[1..], id, at - 1);
    }
  }

  /** A stop does no harm: it does not parse, or the first entry with the id of its block is its own, or
      both inputs are already what it parses. */
  predicate Harmless(parse: Parser, content: seq<Block>, e: Event) {
    e.BlockStop? && e.index < |content| && Parses(parse, content[e.index]) ==>
      var b, uses := content[e.index], Uses(content);
      var first := FirstWith(uses, b.id);
      first == Rank(content, e.index)
      || (first < |uses| && uses[first].input == parse(b.text).value && b.input == parse(b.text).value)
  }

  /** List and message are in step. */
  predicate InStep(parse: Parser, events: seq<Event>) {
    SideList(parse, events) == Uses(ContentOf(parse, events))
  }

  /** From a state in step, one event keeps it so if and only if it does no harm. */
  lemma EventKeepsStepExactly(parse: Parser, events: seq<Event>)
    requires events != [] && InStep(parse, Init(events))
    ensures InStep(parse, events) <==> Harmless(parse, ContentOf(parse, Init(events)), Last(events))
  {
    hide ContentOf, Act, SetFirst, FirstWith, Rank;
    var before, e := ContentOf(parse, Init(events)), Last(events);
    if e.BlockStop? && e.index < |before| && Parses(parse, before[e.index]) {
      var b := before[e.index];
      BlockCount(parse, Init(events));
      ContentStep(parse, events);
      UsesAt(before, e.index);
      FirstWithAt(Uses(before), b.id, Rank(before, e.index));
      StopKeepsExtractionExactly(parse, before, e.index, FirstWith(Uses(before), b.id));
    } else {
      QuietStep(parse, events);
    }
  }

  /** Over a whole stream: list and message are in step after every event if and only if no stop does harm. */
  lemma {:induction false} StreamInStepExactly(parse: Parser, events: seq<Event>)
    ensures (forall n :: 0 <= n <= |events| ==> InStep(parse, events[..n]))
       <==> (forall n :: 0 <= n < |events| ==> Harmless(parse, ContentOf(parse, events[..n]), events[n]))
  {
    hide InStep, Harmless, ContentOf;
    if events == [] {
      assert events[..0] == [];
      NothingInStep(parse);
    } else {
      var n := |events| - 1;
      var before := events[..n];
      StreamInStepExactly(parse, before);
      assert events[..|events|] == events && Init(events) == before;
      assert forall k :: 0 <= k <= n ==> before[..k] == events[..k];
      assert forall k :: 0 <= k < n ==> before[k] == events[k];
      assert (forall k :: 0 <= k <= n ==> InStep(parse, events[..k]))
        <==> (forall k :: 0 <= k < n ==> Harmless(parse, ContentOf(parse, events[..k]), events[k]));
      assert before[..n] == before;
      if InStep(parse, before) {
        EventKeepsStepExactly(parse, events);
      }
    }
  }

  lemma NothingInStep(parse: Parser)
    ensures InStep(parse, [])
  {
    assert ContentOf(parse, []) == [];
  }

  lemma StopKeepsExtraction(parse: Parser, content: seq<Block>, p: nat)
    requires p < |content| && Parses(parse, content[p]) && DistinctIds(Uses(content))
    ensures SetFirst(Uses(content), content[p].id, parse(content[p].text).value)
            == Uses(content[p := Act(parse, content[p], Stop)])
  {
    UsesAt(content, p);
    StopKeepsExtractionExactly(parse, content, p, Rank(content, p));
  }

  lemma TwoOpenings(parse: Parser, a: Block, b: Block)
    requires a.kind.ToolUse? && b.kind.ToolUse?
    ensures var events := [BlockStart(Some(a)), BlockStart(Some(b))];
            ContentOf(parse, events) == [a, b] && SideList(parse, events) == [AsUse(a), AsUse(b)]
  {
    hide ContentOf;
    var one, two := [BlockStart(Some(a))], [BlockStart(Some(a)), BlockStart(Some(b))];
    assert [] + one == one && one + [BlockStart(Some(b))] == two;
    assert ContentOf(parse, []) == [] by {
      BlockCount(parse, []);
    }
    PushOpening(parse, [], BlockStart(Some(a)));
    PushOpening(parse, one, BlockStart(Some(b)));
    Push([], BlockStart(Some(a)));
    Push(one, BlockStart(Some(b)));
    assert SideList(parse, one) == [AsUse(a)];
    assert SideList(parse, two) == [AsUse(a)] + [AsUse(b)];
  }

  lemma StopEvent(parse: Parser, events: seq<Event>, index: nat)
    requires index < |ContentOf(parse, events)| && Parses(parse, ContentOf(parse, events)[index])
    ensures var b := ContentOf(parse, events)[index];
            && ContentOf(parse, events + [BlockStop(index)]) == ContentOf(parse, events)[index := Act(parse, b, Stop)]
            && SideList(parse, events + [BlockStop(index)]) == SetFirst(SideList(parse, events), b.id, parse(b.text).value)
  {
    Push(events, BlockStop(index));
    PushPiece(parse, events, BlockStop(index), index);
  }

  lemma TwoUses(a: Block, b: Block)
    requires a.kind.ToolUse? && b.kind.ToolUse?
    ensures Uses([a, b]) == [AsUse(a), AsUse(b)]
  {
    assert Uses([]) == [];
    hide Uses;
    UsesPush([], a);
    UsesPush([a], b);
    assert [] + [a] == [a] && [a] + [b] == [a, b];
    assert [] + [AsUse(a)] == [AsUse(a)];
  }

  /** With two tool uses of one id, the second input reaches the first entry, and its own stays unset. */
  lemma DuplicateIdMisdirects(parse: Parser, input: Input) returns (events: seq<Event>)
    requires parse("{}") == Some(input) && input != NilInput
    ensures SideList(parse, events) == [Use("t", "a", input), Use("t", "b", NilInput)]
    ensures Uses(ContentOf(parse, events)) == [Use("t", "a", NilInput), Use("t", "b", input)]
    ensures SideList(parse, events) != Uses(ContentOf(parse, events))
  {
    hide ContentOf, SideList, Uses;
    var a := EmptyBlock.(kind := ToolUse, id := "t", name := "a");
    var b := a.(name := "b", text := "{}");
    events := [BlockStart(Some(a)), BlockStart(Some(b))];
    TwoOpenings(parse, a, b);
    StopEvent(parse, events, 1);
    events := events + [BlockStop(1)];
    var done := Act(parse, b, Stop);
    assert [a, b][1 := done] == [a, done];
    TwoUses(a, done);
    SetFirstAt([AsUse(a), AsUse(b)], "t", input, 0);
    assert [AsUse(a), AsUse(b)][0 := AsUse(a).(input := input)] == [AsUse(a).(input := input), AsUse(b)];
  }

  // ---------------------------------------------------------------------------
  // What the provider's own words come to
  // ---------------------------------------------------------------------------

  /** What one delta adds to its block, by the words the provider uses. All other blocks stay. */
  lemma DeltaExactly(parse: Parser, events: seq<Event>, i: nat, delta: Input,
                     kind: string, text: string, json: string, thought: string)
    requires i < |ContentOf(parse, events)| && delta.Object?
    requires StringUnder(delta, "type", kind) && StringUnder(delta, "text", text)
    requires StringUnder(delta, "partial_json", json) && StringUnder(delta, "thinking", thought)
    ensures var b := ContentOf(parse, events)[i];
            ContentOf(parse, events + [BlockDelta(i, delta)]) == ContentOf(parse, events)[i :=
              if kind == "text_delta" then b.(text := b.text + text)
              else if kind == "input_json_delta" then b.(text := b.text + json)
              else if kind == "thinking_delta" then b.(thinking := b.thinking + thought)
              else b]
  {
    PushPiece(parse, events, BlockDelta(i, delta), i);
    var b := ContentOf(parse, events)[i];
    hide ContentOf;
    assert b.text + "" == b.text && b.thinking + "" == b.thinking;
  }

  /** What a stream says to block i: a piece of text, of input or of thinking, or something that is not for it. */
  datatype Saying = Says(text: string) | SaysInput(json: string) | Thinks(thought: string) | Elsewhere(event: Event)

  function EventFor(i: nat, s: Saying): Event {
    match s
    case Says(text) => BlockDelta(i, Object(map["type" := Str("text_delta"), "text" := Str(text)]))
    case SaysInput(json) => BlockDelta(i, Object(map["type" := Str("input_json_delta"), "partial_json" := Str(json)]))
    case Thinks(thought) => BlockDelta(i, Object(map["type" := Str("thinking_delta"), "thinking" := Str(thought)]))
    case Elsewhere(event) => event
  }

  function EventsFor(i: nat, said: seq<Saying>): seq<Event> {
    seq(|said|, k requires 0 <= k < |said| => EventFor(i, said[k]))
  }

  predicate NotFor(i: nat, s: Saying) {
    s.Elsewhere? ==> !((s.event.BlockDelta? || s.event.BlockStop?) && s.event.index == i)
  }

  /** All the text and input said, in order. */
  function SaidText(said: seq<Saying>): string {
    if said == [] then ""
    else
      var last := said[|said| - 1];
      SaidText(said[..|said| - 1]) + if last.Says? then last.text else if last.SaysInput? then last.json else ""
  }

  /** All the thinking said, in order. */
  function SaidThought(said: seq<Saying>): string {
    if said == [] then ""
    else
      var last := said[|said| - 1];
      SaidThought(said[..|said| - 1]) + if last.Thinks? then last.thought else ""
  }

  lemma SayingStep(parse: Parser, events: seq<Event>, i: nat, s: Saying)
    requires i < |ContentOf(parse, events)| && NotFor(i, s)
    ensures i < |ContentOf(parse, events + [EventFor(i, s)])|
    ensures var b := ContentOf(parse, events)[i];
            ContentOf(parse, events + [EventFor(i, s)])[i]
              == b.(text := b.text + SaidText([s]), thinking := b.thinking + SaidThought([s]))
  {
    var e, b := EventFor(i, s), ContentOf(parse, events)[i];
    assert b.text + "" == b.text && b.thinking + "" == b.thinking;
    BlockCount(parse, events);
    hide ContentOf;
    assert [s][..0] == [];
    match s {
      case Says(text) => DeltaExactly(parse, events, i, e.delta, "text_delta", text, "", "");
        assert "" + text == text;
      case SaysInput(json) => DeltaExactly(parse, events, i, e.delta, "input_json_delta", "", json, "");
        assert "" + json == json;
      case Thinks(thought) => DeltaExactly(parse, events, i, e.delta, "thinking_delta", "", "", thought);
        assert "" + thought == thought;
      case Elsewhere(event) =>
        PushKeeps(parse, events, event, i);
        BlockCount(parse, events + [event]);
    }
  }

  lemma TextOneMore(said: seq<Saying>)
    requires said != []
    ensures SaidText(said) == SaidText(said[..|said| - 1]) + SaidText([said[|said| - 1]])
  {
    var s := said[|said| - 1];
    assert [s][..0] == [];
    var t := if s.Says? then s.text else if s.SaysInput? then s.json else "";
    assert SaidText([s]) == SaidText([]) + t;
    assert "" + t == t;
  }

  lemma ThoughtOneMore(said: seq<Saying>)
    requires said != []
    ensures SaidThought(said) == SaidThought(said[..|said| - 1]) + SaidThought([said[|said| - 1]])
  {
    var s := said[|said| - 1];
    assert [s][..0] == [];
    var t := if s.Thinks? then s.thought else "";
    assert SaidThought([s]) == SaidThought([]) + t;
    assert "" + t == t;
  }

  lemma EventsOneMore(said: seq<Saying>, i: nat)
    requires said != []
    ensures EventsFor(i, said) == EventsFor(i, said[..|said| - 1]) + [EventFor(i, said[|said| - 1])]
  {
    hide EventFor;
  }

  /** However the events of other blocks come in between: a block that is sent text, pieces of input and
      thinking ends up with its own text followed by all text and input sent, in order, and its own thinking
      followed by all thinking sent. Nothing else of it changes. */
  lemma {:induction false} StreamedBlock(parse: Parser, events: seq<Event>, i: nat, said: seq<Saying>)
    requires i < |ContentOf(parse, events)| && forall k :: 0 <= k < |said| ==> NotFor(i, said[k])
    ensures i < |ContentOf(parse, events + EventsFor(i, said))|
    ensures var b := ContentOf(parse, events)[i];
            ContentOf(parse, events + EventsFor(i, said))[i]
              == b.(text := b.text + SaidText(said), thinking := b.thinking + SaidThought(said))
  {
    var b := ContentOf(parse, events)[i];
    hide ContentOf, NotFor;
    if said == [] {
      assert events + EventsFor(i, said) == events;
      assert b.text + "" == b.text && b.thinking + "" == b.thinking;
    } else {
      var n := |said| - 1;
      StreamedBlock(parse, events, i, said[..n]);
      hide SaidText, SaidThought, EventFor, EventsFor;
      TextOneMore(said);
      ThoughtOneMore(said);
      EventsOneMore(said, i);
      var before := events + EventsFor(i, said[..n]);
      assert events + EventsFor(i, said) == before + [EventFor(i, said[n])];
      SayingStep(parse, before, i, said[n]);
      Text.Associate(b.text, SaidText(said[..n]), SaidText([said[n]]));
      Text.Associate(b.thinking, SaidThought(said[..n]), SaidThought([said[n]]));
    }
  }

  function Joined(texts: seq<string>): string {
    if texts == [] then "" else Joined(texts[..|texts| - 1]) + texts[|texts| - 1]
  }

  /** A block streamed in deltas of one kind holds their texts joined, in the field of that kind alone. */
  lemma StreamedTexts(parse: Parser, b: Block, texts: seq<string>)
    ensures ContentOf(parse, [BlockStart(Some(b))] + EventsFor(0, seq(|texts|, k requires 0 <= k < |texts| => Says(texts[k]))))
         == [b.(text := b.text + Joined(texts))]
    ensures ContentOf(parse, [BlockStart(Some(b))] + EventsFor(0, seq(|texts|, k requires 0 <= k < |texts| => SaysInput(texts[k]))))
         == [b.(text := b.text + Joined(texts))]
    ensures ContentOf(parse, [BlockStart(Some(b))] + EventsFor(0, seq(|texts|, k requires 0 <= k < |texts| => Thinks(texts[k]))))
         == [b.(thinking := b.thinking + Joined(texts))]
  {
    hide ContentOf, SaidText, SaidThought, Joined, EventFor, EventsFor;
    assert b.text + "" == b.text && b.thinking + "" == b.thinking;
    var text := seq(|texts|, k requires 0 <= k < |texts| => Says(texts[k]));
    var json := seq(|texts|, k requires 0 <= k < |texts| => SaysInput(texts[k]));
    var thought := seq(|texts|, k requires 0 <= k < |texts| => Thinks(texts[k]));
    OneKind(parse, b, text);
    OneKind(parse, b, json);
    OneKind(parse, b, thought);
    JoinedSaid(texts, text);
    JoinedSaid(texts, json);
    JoinedThought(texts, thought);
  }

  lemma StartedAlone(parse: Parser, b: Block)
    ensures ContentOf(parse, [BlockStart(Some(b))]) == [b]
  {
    assert [] + [BlockStart(Some(b))] == [BlockStart(Some(b))];
    assert ContentOf(parse, []) == [];
    PushOpening(parse, [], BlockStart(Some(b)));
  }

  lemma OneKind(parse: Parser, b: Block, said: seq<Saying>)
    requires forall k :: 0 <= k < |said| ==> !said[k].Elsewhere?
    ensures ContentOf(parse, [BlockStart(Some(b))] + EventsFor(0, said))
         == [b.(text := b.text + SaidText(said), thinking := b.thinking + SaidThought(said))]
  {
    hide ContentOf;
    StartedAlone(parse, b);
    StreamedBlock(parse, [BlockStart(Some(b))], 0, said);
    NoMoreBlocks([BlockStart(Some(b))], EventsFor(0, said));
    BlockCount(parse, [BlockStart(Some(b))]);
    BlockCount(parse, [BlockStart(Some(b))] + EventsFor(0, said));
  }

  lemma {:induction false} NoMoreBlocks(events: seq<Event>, more: seq<Event>)
    requires forall k :: 0 <= k < |more| ==> !Opens(more[k])
    ensures Blocks(events + more) == Blocks(events)
  {
    if more == [] {
      assert events + more == events;
    } else {
      var n := |more| - 1;
      NoMoreBlocks(events, more[..n]);
      assert Init(events + more) == events + more[..n];
    }
  }

  lemma {:induction false} JoinedSaid(texts: seq<string>, said: seq<Saying>)
    requires |said| == |texts|
    requires forall k :: 0 <= k < |texts| ==> said[k] == Says(texts[k]) || said[k] == SaysInput(texts[k])
    ensures SaidText(said) == Joined(texts) && SaidThought(said) == ""
  {
    if texts != [] {
      var n := |texts| - 1;
      JoinedSaid(texts[..n], said[..n]);
    }
  }

  lemma {:induction false} JoinedThought(texts: seq<string>, said: seq<Saying>)
    requires |said| == |texts| && forall k :: 0 <= k < |texts| ==> said[k] == Thinks(texts[k])
    ensures SaidThought(said) == Joined(texts) && SaidText(said) == ""
  {
    if texts != [] {
      var n := |texts| - 1;
      JoinedThought(texts[..n], said[..n]);
    }
  }

  // ---------------------------------------------------------------------------
  // Model, usage and stop reason
  // ---------------------------------------------------------------------------

  /** Output tokens reported after the start of the message. */
  function LaterOutput(events: seq<Event>): int {
    if events == [] then 0
    else LaterOutput(Init(events))
         + if Last(events).MessageDelta? && Last(events).usage.Some? then Last(events).usage.value.output else 0
  }

  /** After the last message start, model and usage are its own, with all output reported later added and
      nothing else: input and cache tokens count once. */
  lemma {:induction false} UsageExactly(before: seq<Event>, model: string, usage: Usage, later: seq<Event>)
    requires forall k :: 0 <= k < |later| ==> !later[k].MessageStart?
    ensures var events := before + [MessageStart(Some(Started(model, Some(usage))))] + later;
            ModelOf(events) == model && UsageOf(events) == Some(usage.(output := usage.output + LaterOutput(later)))
  {
    var start := before + [MessageStart(Some(Started(model, Some(usage))))];
    if later == [] {
      assert start + later == start;
      Push(before, MessageStart(Some(Started(model, Some(usage)))));
    } else {
      var n := |later| - 1;
      UsageExactly(before, model, usage, later[..n]);
      assert Init(start + later) == start + later[..n];
    }
  }

  predicate NamesReason(e: Event) {
    e.MessageDelta? && e.delta.Object? && "stop_reason" in e.delta.fields && e.delta.fields["stop_reason"].Str?
  }

  /** The stop reason is the one named last. */
  lemma {:induction false} StopReasonExactly(before: seq<Event>, delta: Input, usage: Option<Usage>, reason: string, later: seq<Event>)
    requires delta.Object? && "stop_reason" in delta.fields && delta.fields["stop_reason"] == Str(reason)
    requires forall k :: 0 <= k < |later| ==> !NamesReason(later[k])
    ensures StopReasonOf(before + [MessageDelta(delta, usage)] + later) == reason
  {
    var start := before + [MessageDelta(delta, usage)];
    if later == [] {
      assert start + later == start;
      Push(before, MessageDelta(delta, usage));
    } else {
      var n := |later| - 1;
      StopReasonExactly(before, delta, usage, reason, later[..n]);
      assert Init(start + later) == start + later[..n];
      assert Last(start + later) == later[n];
    }
  }

  // ---------------------------------------------------------------------------
  // What stops make of it
  // ---------------------------------------------------------------------------

  function TextOfAll(pieces: seq<Piece>): string {
    if pieces == [] then ""
    else
      var last := pieces[|pieces| - 1];
      TextOfAll(pieces[..|pieces| - 1]) + if last.Delta? then TextOf(last.delta) else ""
  }

  function ThoughtOfAll(pieces: seq<Piece>): string {
    if pieces == [] then ""
    else
      var last := pieces[|pieces| - 1];
      ThoughtOfAll(pieces[..|pieces| - 1]) + if last.Delta? then ThoughtOf(last.delta) else ""
  }

  /** No stop so far has parsed what was pending. */
  ghost predicate Unparsed(parse: Parser, b: Block, pieces: seq<Piece>) {
    forall k :: 0 <= k < |pieces| && pieces[k].Stop? ==> !Parses(parse, Fold(parse, b, pieces[..k]))
  }

  lemma UnparsedBefore(parse: Parser, b: Block, pieces: seq<Piece>, n: nat)
    requires Unparsed(parse, b, pieces) && n <= |pieces|
    ensures Unparsed(parse, b, pieces[..n])
  {
    forall k | 0 <= k < n && pieces[..n][k].Stop? ensures !Parses(parse, Fold(parse, b, pieces[..n][..k])) {
      assert pieces[..n][..k] == pieces[..k] && pieces[k].Stop?;
    }
  }

  function AddedText(p: Piece): string {
    if p.Delta? then TextOf(p.delta) else ""
  }

  function AddedThought(p: Piece): string {
    if p.Delta? then ThoughtOf(p.delta) else ""
  }

  lemma OnePiece(parse: Parser, b: Block, p: Piece)
    requires p.Stop? ==> !Parses(parse, b)
    ensures Act(parse, b, p) == b.(text := b.text + AddedText(p), thinking := b.thinking + AddedThought(p))
  {
    assert b.text + "" == b.text && b.thinking + "" == b.thinking;
  }

  lemma OneMorePiece(parse: Parser, b: Block, pieces: seq<Piece>)
    requires pieces != []
    ensures var n := |pieces| - 1;
            && Fold(parse, b, pieces) == Act(parse, Fold(parse, b, pieces[..n]), pieces[n])
            && TextOfAll(pieces) == TextOfAll(pieces[..n]) + AddedText(pieces[n])
            && ThoughtOfAll(pieces) == ThoughtOfAll(pieces[..n]) + AddedThought(pieces[n])
  {
  }

  lemma LastUnparsed(parse: Parser, b: Block, pieces: seq<Piece>)
    requires Unparsed(parse, b, pieces) && pieces != []
    ensures pieces[|pieces| - 1].Stop? ==> !Parses(parse, Fold(parse, b, pieces[..|pieces| - 1]))
  {
  }

  /** Until a stop parses it, a block's text is its start text and then its own deltas in order, however
      many stops have tried. */
  lemma {:induction false} PendingText(parse: Parser, b: Block, pieces: seq<Piece>)
    requires Unparsed(parse, b, pieces)
    ensures Fold(parse, b, pieces) == b.(text := b.text + TextOfAll(pieces), thinking := b.thinking + ThoughtOfAll(pieces))
  {
    hide Act, Parses, Unparsed;
    if pieces != [] {
      var n := |pieces| - 1;
      UnparsedBefore(parse, b, pieces, n);
      PendingText(parse, b, pieces[..n]);
      LastUnparsed(parse, b, pieces);
      hide Fold, TextOfAll, ThoughtOfAll;
      OneMorePiece(parse, b, pieces);
      OnePiece(parse, Fold(parse, b, pieces[..n]), pieces[n]);
      Text.Associate(b.text, TextOfAll(pieces[..n]), AddedText(pieces[n]));
      Text.Associate(b.thinking, ThoughtOfAll(pieces[..n]), AddedThought(pieces[n]));
    } else {
      Text.Associate(b.text, "", "");
      Text.Associate(b.thinking, "", "");
    }
  }

  /** Stops never lose thinking, and a stop that does not parse loses nothing at all. */
  lemma {:induction false} NothingLost(parse: Parser, b: Block, pieces: seq<Piece>)
    ensures Fold(parse, b, pieces).thinking == b.thinking + ThoughtOfAll(pieces)
    ensures !b.kind.ToolUse? || (forall t :: parse(t).None?) ==> Fold(parse, b, pieces).text == b.text + TextOfAll(pieces)
    ensures Fold(parse, b, pieces).kind == b.kind && Fold(parse, b, pieces).id == b.id && Fold(parse, b, pieces).name == b.name
  {
    if pieces != [] {
      NothingLost(parse, b, pieces[..|pieces| - 1]);
    }
  }

  lemma {:induction false} FoldSplit(parse: Parser, b: Block, first: seq<Piece>, rest: seq<Piece>)
    ensures Fold(parse, b, first + rest) == Fold(parse, Fold(parse, b, first), rest)
  {
    hide Act;
    if rest == [] {
      assert first + rest == first;
    } else {
      var n := |rest| - 1;
      FoldSplit(parse, b, first, rest[..n]);
      assert (first + rest)[..|first| + n] == first + rest[..n];
    }
  }

  /** The text a block still has pending before its next piece: its start text, or nothing after a stop
      that parsed. */
  ghost predicate Pending(parse: Parser, b: Block, before: seq<Piece>, text: string) {
    if before == [] then text == b.text
    else
      var n := |before| - 1;
      before[n].Stop? && Parses(parse, Fold(parse, b, before[..n])) && text == ""
  }

  /** A tool use that gets any number of stops. Take its last stop that parses, and the pieces since the one
      before it: the block and the side list hold the input parsed from the text of those pieces, after the
      start text if there was no parse before, and what is pending are the deltas since. Other blocks may
      interleave freely. */
  lemma AssembledInput(parse: Parser, events: seq<Event>, i: nat,
                       before: seq<Piece>, text: string, middle: seq<Piece>, later: seq<Piece>)
    requires i < Blocks(events) && Opening(events, i).kind.ToolUse?
    requires Own(events, i) == before + middle + [Stop] + later
    requires Pending(parse, Opening(events, i), before, text)
    requires Unparsed(parse, Fold(parse, Opening(events, i), before), middle)
    requires text + TextOfAll(middle) != "" && parse(text + TextOfAll(middle)).Some?
    requires Unparsed(parse, Fold(parse, Opening(events, i), before + middle + [Stop]), later)
    ensures var b := ContentOf(parse, events)[i];
            && b.input == parse(text + TextOfAll(middle)).value
            && b.text == TextOfAll(later) && b.id == Opening(events, i).id
    ensures DistinctIds(Uses(ContentOf(parse, events))) ==>
              var r := Rank(ContentOf(parse, events), i);
              && r < |SideList(parse, events)|
              && SideList(parse, events)[r]
                 == Use(Opening(events, i).id, Opening(events, i).name, parse(text + TextOfAll(middle)).value)
  {
    ParsedBlock(parse, Opening(events, i), before, text, middle, later);
    var content := ContentOf(parse, events);
    assert content[i] == Fold(parse, Opening(events, i), Own(events, i));
    UsesAt(content, i);
    if DistinctIds(Uses(content)) {
      SideListIsExtraction(parse, events);
    }
  }

  lemma ParsedBlock(parse: Parser, b: Block, before: seq<Piece>, text: string, middle: seq<Piece>, later: seq<Piece>)
    requires b.kind.ToolUse? && Pending(parse, b, before, text)
    requires Unparsed(parse, Fold(parse, b, before), middle)
    requires text + TextOfAll(middle) != "" && parse(text + TextOfAll(middle)).Some?
    requires Unparsed(parse, Fold(parse, b, before + middle + [Stop]), later)
    ensures var c := Fold(parse, b, before + middle + [Stop] + later);
            && c.input == parse(text + TextOfAll(middle)).value && c.text == TextOfAll(later)
            && c.kind == b.kind && c.id == b.id && c.name == b.name
  {
    var base := Fold(parse, b, before);
    assert base.text == text;
    NothingLost(parse, b, before);
    PendingText(parse, base, middle);
    FoldSplit(parse, b, before, middle);
    var pending := Fold(parse, b, before + middle);
    assert pending.text == text + TextOfAll(middle) && pending.kind.ToolUse?;
    assert (before + middle + [Stop])[..|before + middle|] == before + middle;
    var stopped := Fold(parse, b, before + middle + [Stop]);
    assert stopped == Act(parse, pending, Stop);
    FoldSplit(parse, b, before + middle + [Stop], later);
    PendingText(parse, stopped, later);
  }
}
