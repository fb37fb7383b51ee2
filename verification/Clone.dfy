/** Deep copies and the isolation they give (agent/session.go cloneMessages, cloneBlocks, cloneCollection;
    agent/run.go emit, Wait). Maps, slices and pointers are objects of the heap. */
module Clone {

  // ---------------------------------------------------------------------------
  // JSON-shaped values on the heap
  // ---------------------------------------------------------------------------

  /** Scalars stand for everything that is copied by assignment, the nil interface included. */
  datatype Value = Scalar(tag: int) | NilMap | NilSlice | MapRef(m: MapObject) | SliceRef(items: array<Value>)

  class MapObject {
    var entries: map<string, Value>

    constructor ()
      ensures entries == map[]
    {
      entries := map[];
    }
  }

  /** What a value looks like, whatever objects it is made of. */
  datatype Tree = Leaf(tag: int) | NoMap | NoSlice | MapTree(entries: map<string, Tree>) | SliceTree(items: seq<Tree>)

  /** All of v lies in fp and is at most k levels deep, so it is finite. Parts may be shared. */
  ghost predicate Shaped(v: Value, fp: set<object>, k: nat)
    reads fp
    decreases k
  {
    match v
    case MapRef(m) => k > 0 && m in fp && forall key :: key in m.entries ==> Shaped(m.entries[key], fp, k - 1)
    case SliceRef(a) => k > 0 && a in fp && forall i :: 0 <= i < a.Length ==> Shaped(a[i], fp, k - 1)
    case _ => true
  }

  ghost function Abs(v: Value, fp: set<object>, k: nat): Tree
    requires Shaped(v, fp, k)
    reads fp
    decreases k
  {
    match v
    case Scalar(tag) => Leaf(tag)
    case NilMap => NoMap
    case NilSlice => NoSlice
    case MapRef(m) => MapTree(map key | key in m.entries :: Abs(m.entries[key], fp, k - 1))
    case SliceRef(a) =>
      SliceTree(seq(a.Length, i requires 0 <= i < a.Length && Shaped(a[i], fp, k - 1) reads fp => Abs(a[i], fp, k - 1)))
  }

  /** A larger footprint or depth changes nothing. */
  lemma {:induction false} Widen(v: Value, fp: set<object>, k: nat, fp': set<object>, k': nat)
    requires Shaped(v, fp, k) && fp <= fp' && k <= k'
    ensures Shaped(v, fp', k') && Abs(v, fp', k') == Abs(v, fp, k)
    decreases k
  {
    match v {
      case MapRef(m) =>
        forall key | key in m.entries
          ensures Shaped(m.entries[key], fp', k' - 1) && Abs(m.entries[key], fp', k' - 1) == Abs(m.entries[key], fp, k - 1)
        {
          Widen(m.entries[key], fp, k - 1, fp', k' - 1);
        }
      case SliceRef(a) =>
        forall i | 0 <= i < a.Length
          ensures Shaped(a[i], fp', k' - 1) && Abs(a[i], fp', k' - 1) == Abs(a[i], fp, k - 1)
        {
          Widen(a[i], fp, k - 1, fp', k' - 1);
        }
      case _ =>
    }
  }

  // ---------------------------------------------------------------------------
  // cloneCollection
  // ---------------------------------------------------------------------------

  /** c, within own, looks like v within fp. */
  ghost predicate SameShape(c: Value, own: set<object>, v: Value, fp: set<object>, k: nat)
    reads own, fp
  {
    Shaped(v, fp, k) && Shaped(c, own, k) && Abs(c, own, k) == Abs(v, fp, k)
  }

  ghost predicate MapCopied(copies: map<string, Value>, own: set<object>, source: map<string, Value>, fp: set<object>, k: nat)
    reads own, fp
  {
    forall key :: key in copies ==> key in source && SameShape(copies[key], own, source[key], fp, k)
  }

  ghost predicate ItemsCopied(copies: seq<Value>, own: set<object>, source: seq<Value>, fp: set<object>, k: nat)
    reads own, fp
  {
    |copies| <= |source| && forall j :: 0 <= j < |copies| ==> SameShape(copies[j], own, source[j], fp, k)
  }

  lemma WidenSame(c: Value, own: set<object>, own': set<object>, v: Value, fp: set<object>, k: nat)
    requires SameShape(c, own, v, fp, k) && own <= own'
    ensures SameShape(c, own', v, fp, k)
  {
    Widen(c, own, k, own', k);
  }

  lemma WidenMap(copies: map<string, Value>, own: set<object>, own': set<object>,
                 source: map<string, Value>, fp: set<object>, k: nat)
    requires MapCopied(copies, own, source, fp, k) && own <= own'
    ensures MapCopied(copies, own', source, fp, k)
  {
    forall key | key in copies ensures SameShape(copies[key], own', source[key], fp, k) {
      WidenSame(copies[key], own, own', source[key], fp, k);
    }
  }

  lemma WidenItems(copies: seq<Value>, own: set<object>, own': set<object>, source: seq<Value>, fp: set<object>, k: nat)
    requires ItemsCopied(copies, own, source, fp, k) && own <= own'
    ensures ItemsCopied(copies, own', source, fp, k)
  {
    forall j | 0 <= j < |copies| ensures SameShape(copies[j], own', source[j], fp, k) {
      WidenSame(copies[j], own, own', source[j], fp, k);
    }
  }

  lemma MapDone(copy: MapObject, own: set<object>, m: MapObject, fp: set<object>, k: nat)
    requires k > 0 && copy in own && Shaped(MapRef(m), fp, k)
    requires copy.entries.Keys == m.entries.Keys && MapCopied(copy.entries, own, m.entries, fp, k - 1)
    ensures SameShape(MapRef(copy), own, MapRef(m), fp, k)
  {
    forall key | key in m.entries ensures SameShape(copy.entries[key], own, m.entries[key], fp, k - 1) {
    }
  }

  lemma ItemsDone(copy: array<Value>, own: set<object>, a: array<Value>, fp: set<object>, k: nat)
    requires k > 0 && copy in own && Shaped(SliceRef(a), fp, k)
    requires copy.Length == a.Length && ItemsCopied(copy[..], own, a[..], fp, k - 1)
    ensures SameShape(SliceRef(copy), own, SliceRef(a), fp, k)
  {
    forall j | 0 <= j < a.Length ensures SameShape(copy[j], own, a[j], fp, k - 1) {
      assert copy[..][j] == copy[j] && a[..][j] == a[j];
    }
  }

  /** The copy is equal, entirely new, and shares nothing with anything that was there before. */
  method CloneCollection(v: Value, ghost fp: set<object>, ghost k: nat) returns (out: Value, ghost own: set<object>)
    requires Shaped(v, fp, k)
    ensures fresh(own) && SameShape(out, own, v, fp, k)
    decreases k, 2
  {
    match v {
      case MapRef(m) => out, own := CloneMap(m, fp, k);
      case SliceRef(a) => out, own := CloneSlice(a, fp, k);
      case _ => out, own := v, {};
    }
  }

  method CloneMap(m: MapObject, ghost fp: set<object>, ghost k: nat) returns (out: Value, ghost own: set<object>)
    requires Shaped(MapRef(m), fp, k)
    ensures fresh(own) && SameShape(out, own, MapRef(m), fp, k)
    decreases k, 1
  {
    hide SameShape, Abs, Shaped, MapCopied;
    Part(m, fp, k);
    var copy := new MapObject();
    own := {};
    assert MapCopied(copy.entries, own, m.entries, fp, k - 1) by {
      NothingCopied(own, m.entries, fp, k - 1);
    }
    var rest := m.entries.Keys;
    while rest != {}
      invariant k > 0 && m in fp && Shaped(MapRef(m), fp, k)
      invariant rest <= m.entries.Keys && copy.entries.Keys == m.entries.Keys - rest
      invariant fresh(own) && fresh(copy) && copy !in own
      invariant MapCopied(copy.entries, own, m.entries, fp, k - 1)
      decreases |rest|
    {
      var key :| key in rest;
      own := CloneEntry(m, key, copy, own, fp, k);
      rest := rest - {key};
    }
    out := MapRef(copy);
    own := FinishMap(copy, own, m, fp, k);
  }

  method CloneEntry(m: MapObject, key: string, copy: MapObject, ghost inner: set<object>, ghost fp: set<object>, ghost k: nat)
    returns (ghost own: set<object>)
    requires k > 0 && Shaped(MapRef(m), fp, k) && key in m.entries && copy !in inner && copy !in fp
    requires m in fp && MapCopied(copy.entries, inner, m.entries, fp, k - 1)
    modifies copy
    ensures inner <= own && fresh(own - inner) && copy !in own
    ensures key in copy.entries && copy.entries == old(copy.entries)[key := copy.entries[key]]
    ensures MapCopied(copy.entries, own, m.entries, fp, k - 1)
    decreases k, 0
  {
    hide SameShape, Abs, Shaped, MapCopied;
    Part(m, fp, k);
    var c, added := CloneCollection(m.entries[key], fp, k - 1);
    own := inner + added;
    WidenMap(copy.entries, inner, own, m.entries, fp, k - 1);
    WidenSame(c, added, own, m.entries[key], fp, k - 1);
    SetEntry(copy, key, c, own, m.entries, fp, k - 1);
  }

  lemma FinishMap(copy: MapObject, inner: set<object>, m: MapObject, fp: set<object>, k: nat) returns (own: set<object>)
    requires k > 0 && Shaped(MapRef(m), fp, k)
    requires copy.entries.Keys == m.entries.Keys && MapCopied(copy.entries, inner, m.entries, fp, k - 1)
    ensures own == inner + {copy} && SameShape(MapRef(copy), own, MapRef(m), fp, k)
  {
    own := inner + {copy};
    WidenMap(copy.entries, inner, own, m.entries, fp, k - 1);
    MapDone(copy, own, m, fp, k);
  }

  lemma Part(m: MapObject, fp: set<object>, k: nat)
    requires Shaped(MapRef(m), fp, k)
    ensures k > 0 && m in fp && forall key :: key in m.entries ==> Shaped(m.entries[key], fp, k - 1)
  {
  }

  lemma NothingCopied(own: set<object>, source: map<string, Value>, fp: set<object>, k: nat)
    ensures MapCopied(map[], own, source, fp, k)
  {
  }

  method SetEntry(copy: MapObject, key: string, c: Value, ghost own: set<object>,
                  ghost source: map<string, Value>, ghost fp: set<object>, ghost k: nat)
    requires copy !in own && copy !in fp && key in source
    requires MapCopied(copy.entries, own, source, fp, k) && SameShape(c, own, source[key], fp, k)
    modifies copy
    ensures copy.entries == old(copy.entries)[key := c] && MapCopied(copy.entries, own, source, fp, k)
  {
    hide SameShape;
    copy.entries := copy.entries[key := c];
  }

  method CloneSlice(a: array<Value>, ghost fp: set<object>, ghost k: nat) returns (out: Value, ghost own: set<object>)
    requires Shaped(SliceRef(a), fp, k)
    ensures fresh(own) && SameShape(out, own, SliceRef(a), fp, k)
    decreases k, 1
  {
    hide SameShape, Abs, Shaped, ItemsCopied;
    SliceParts(a, fp, k);
    var copy := new Value[a.Length](_ => Scalar(0));
    own := {};
    assert ItemsCopied(copy[..0], own, a[..], fp, k - 1) by {
      NoItemsCopied(copy[..0], own, a[..], fp, k - 1);
    }
    for i := 0 to a.Length
      invariant k > 0 && a in fp && Shaped(SliceRef(a), fp, k)
      invariant fresh(own) && fresh(copy) && copy !in own
      invariant ItemsCopied(copy[..i], own, a[..], fp, k - 1)
    {
      SliceParts(a, fp, k);
      var c, added := CloneCollection(a[i], fp, k - 1);
      WidenItems(copy[..i], own, own + added, a[..], fp, k - 1);
      WidenSame(c, added, own + added, a[i], fp, k - 1);
      own := own + added;
      SetItem(copy, i, c, own, a[..], fp, k - 1);
    }
    assert copy[..a.Length] == copy[..];
    WidenItems(copy[..], own, own + {copy}, a[..], fp, k - 1);
    own := own + {copy};
    out := SliceRef(copy);
    ItemsDone(copy, own, a, fp, k);
  }

  lemma SliceParts(a: array<Value>, fp: set<object>, k: nat)
    requires Shaped(SliceRef(a), fp, k)
    ensures k > 0 && a in fp && forall i :: 0 <= i < a.Length ==> Shaped(a[i], fp, k - 1)
  {
  }

  lemma NoItemsCopied(copies: seq<Value>, own: set<object>, source: seq<Value>, fp: set<object>, k: nat)
    requires copies == []
    ensures ItemsCopied(copies, own, source, fp, k)
  {
  }

  method SetItem(copy: array<Value>, i: nat, c: Value, ghost own: set<object>,
                 ghost source: seq<Value>, ghost fp: set<object>, ghost k: nat)
    requires i < copy.Length && i < |source| && copy !in own && copy !in fp
    requires ItemsCopied(copy[..i], own, source, fp, k) && SameShape(c, own, source[i], fp, k)
    modifies copy
    ensures copy[..] == old(copy[..])[i := c] && ItemsCopied(copy[..i + 1], own, source, fp, k)
  {
    hide SameShape;
    ghost var before := copy[..i];
    copy[i] := c;
    assert copy[..i + 1] == before + [c];
  }

  // ---------------------------------------------------------------------------
  // cloneBlocks
  // ---------------------------------------------------------------------------

  /** What a pointer in a block or message points at: an image source, a usage. */
  class Cell {
    var value: int

    constructor (value: int)
      ensures this.value == value
    {
      this.value := value;
    }
  }

  datatype Pointer = NilPointer | To(cell: Cell)
  datatype Blocks = NilBlocks | BlocksRef(items: array<Block>)

  /** fields stands for the members that are copied by assignment. */
  datatype Block = Block(fields: int, input: Value, content: Blocks, source: Pointer)

  datatype Pointee = Nothing | Pointee(value: int)
  datatype BlockTree = BlockTree(fields: int, input: Tree, content: BlocksTree, source: Pointee)
  datatype BlocksTree = NoBlocks | BlocksTree(items: seq<BlockTree>)

  const NoBlock := Block(0, NilMap, NilBlocks, NilPointer)

  predicate PointerIn(p: Pointer, fp: set<object>) {
    p.To? ==> p.cell in fp
  }

  ghost function PointerAbs(p: Pointer, fp: set<object>): Pointee
    requires PointerIn(p, fp)
    reads fp
  {
    match p
    case NilPointer => Nothing
    case To(cell) => Pointee(cell.value)
  }

  ghost predicate BlockShaped(b: Block, fp: set<object>, k: nat)
    reads fp
    decreases k, 1
  {
    Shaped(b.input, fp, k) && PointerIn(b.source, fp) && BlocksShaped(b.content, fp, k)
  }

  ghost predicate BlocksShaped(bs: Blocks, fp: set<object>, k: nat)
    reads fp
    decreases k, 0
  {
    match bs
    case NilBlocks => true
    case BlocksRef(a) => k > 0 && a in fp && forall i :: 0 <= i < a.Length ==> BlockShaped(a[i], fp, k - 1)
  }

  ghost function BlockAbs(b: Block, fp: set<object>, k: nat): BlockTree
    requires BlockShaped(b, fp, k)
    reads fp
    decreases k, 1
  {
    BlockTree(b.fields, Abs(b.input, fp, k), BlocksAbs(b.content, fp, k), PointerAbs(b.source, fp))
  }

  ghost function BlocksAbs(bs: Blocks, fp: set<object>, k: nat): BlocksTree
    requires BlocksShaped(bs, fp, k)
    reads fp
    decreases k, 0
  {
    match bs
    case NilBlocks => NoBlocks
    case BlocksRef(a) =>
      BlocksTree(seq(a.Length, i requires 0 <= i < a.Length && BlockShaped(a[i], fp, k - 1) reads fp => BlockAbs(a[i], fp, k - 1)))
  }

  lemma {:induction false} WidenBlock(b: Block, fp: set<object>, k: nat, fp': set<object>, k': nat)
    requires BlockShaped(b, fp, k) && fp <= fp' && k <= k'
    ensures BlockShaped(b, fp', k') && BlockAbs(b, fp', k') == BlockAbs(b, fp, k)
    decreases k, 1
  {
    Widen(b.input, fp, k, fp', k');
    WidenBlocks(b.content, fp, k, fp', k');
  }

  lemma {:induction false} WidenBlocks(bs: Blocks, fp: set<object>, k: nat, fp': set<object>, k': nat)
    requires BlocksShaped(bs, fp, k) && fp <= fp' && k <= k'
    ensures BlocksShaped(bs, fp', k') && BlocksAbs(bs, fp', k') == BlocksAbs(bs, fp, k)
    decreases k, 0
  {
    if bs.BlocksRef? {
      var a := bs.items;
      forall i | 0 <= i < a.Length
        ensures BlockShaped(a[i], fp', k' - 1) && BlockAbs(a[i], fp', k' - 1) == BlockAbs(a[i], fp, k - 1)
      {
        WidenBlock(a[i], fp, k - 1, fp', k' - 1);
      }
    }
  }

  ghost predicate SameBlock(c: Block, own: set<object>, b: Block, fp: set<object>, k: nat)
    reads own, fp
  {
    BlockShaped(b, fp, k) && BlockShaped(c, own, k) && BlockAbs(c, own, k) == BlockAbs(b, fp, k)
  }

  ghost predicate SameBlocks(cs: Blocks, own: set<object>, bs: Blocks, fp: set<object>, k: nat)
    reads own, fp
  {
    BlocksShaped(bs, fp, k) && BlocksShaped(cs, own, k) && BlocksAbs(cs, own, k) == BlocksAbs(bs, fp, k)
  }

  ghost predicate BlocksCopied(copies: seq<Block>, own: set<object>, source: seq<Block>, fp: set<object>, k: nat)
    reads own, fp
  {
    |copies| <= |source| && forall j :: 0 <= j < |copies| ==> SameBlock(copies[j], own, source[j], fp, k)
  }

  lemma WidenSameBlock(c: Block, own: set<object>, own': set<object>, b: Block, fp: set<object>, k: nat)
    requires SameBlock(c, own, b, fp, k) && own <= own'
    ensures SameBlock(c, own', b, fp, k)
  {
    WidenBlock(c, own, k, own', k);
  }

  lemma WidenBlocksCopied(copies: seq<Block>, own: set<object>, own': set<object>, source: seq<Block>, fp: set<object>, k: nat)
    requires BlocksCopied(copies, own, source, fp, k) && own <= own'
    ensures BlocksCopied(copies, own', source, fp, k)
  {
    forall j | 0 <= j < |copies| ensures SameBlock(copies[j], own', source[j], fp, k) {
      WidenSameBlock(copies[j], own, own', source[j], fp, k);
    }
  }

  lemma BlocksDone(copy: array<Block>, own: set<object>, a: array<Block>, fp: set<object>, k: nat)
    requires k > 0 && copy in own && BlocksShaped(BlocksRef(a), fp, k)
    requires copy.Length == a.Length && BlocksCopied(copy[..], own, a[..], fp, k - 1)
    ensures SameBlocks(BlocksRef(copy), own, BlocksRef(a), fp, k)
  {
    forall j | 0 <= j < a.Length ensures SameBlock(copy[j], own, a[j], fp, k - 1) {
      assert copy[..][j] == copy[j] && a[..][j] == a[j];
    }
  }

  lemma BlockDone(c: Block, b: Block, ownInput: set<object>, ownContent: set<object>, own: set<object>, fp: set<object>, k: nat)
    requires SameShape(c.input, ownInput, b.input, fp, k) && SameBlocks(c.content, ownContent, b.content, fp, k)
    requires ownInput <= own && ownContent <= own
    requires c.fields == b.fields && PointerIn(c.source, own) && PointerIn(b.source, fp)
    requires PointerAbs(c.source, own) == PointerAbs(b.source, fp)
    ensures SameBlock(c, own, b, fp, k)
  {
    Widen(c.input, ownInput, k, own, k);
    WidenBlocks(c.content, ownContent, k, own, k);
  }

  method ClonePointer(p: Pointer, ghost fp: set<object>) returns (out: Pointer, ghost own: set<object>)
    requires PointerIn(p, fp)
    ensures fresh(own) && PointerIn(out, own) && PointerAbs(out, own) == PointerAbs(p, fp)
  {
    match p {
      case NilPointer => out, own := NilPointer, {};
      case To(cell) =>
        var copy := new Cell(cell.value);
        out, own := To(copy), {copy};
    }
  }

  method CloneBlock(b: Block, ghost fp: set<object>, ghost k: nat) returns (out: Block, ghost own: set<object>)
    requires BlockShaped(b, fp, k)
    ensures fresh(own) && SameBlock(out, own, b, fp, k)
    decreases k, 1
  {
    hide SameShape, SameBlock, SameBlocks, Shaped, BlocksShaped, Abs, BlocksAbs;
    var input, ownInput := CloneCollection(b.input, fp, k);
    var content, ownContent := CloneBlocks(b.content, fp, k);
    var source, ownSource := ClonePointer(b.source, fp);
    out := b.(input := input, content := content, source := source);
    own := ownInput + ownContent + ownSource;
    BlockDone(out, b, ownInput, ownContent, own, fp, k);
  }

  method CloneBlocks(bs: Blocks, ghost fp: set<object>, ghost k: nat) returns (out: Blocks, ghost own: set<object>)
    requires BlocksShaped(bs, fp, k)
    ensures fresh(own) && SameBlocks(out, own, bs, fp, k)
    decreases k, 0
  {
    hide SameBlock, BlockAbs;
    if bs.NilBlocks? {
      return NilBlocks, {};
    }
    var a := bs.items;
    var copy := new Block[a.Length](_ => NoBlock);
    own := {};
    for i := 0 to a.Length
      invariant fresh(own) && fresh(copy) && copy !in own
      invariant BlocksCopied(copy[..i], own, a[..], fp, k - 1)
    {
      var c, added := CloneBlock(a[i], fp, k - 1);
      WidenBlocksCopied(copy[..i], own, own + added, a[..], fp, k - 1);
      WidenSameBlock(c, added, own + added, a[i], fp, k - 1);
      own := own + added;
      SetBlock(copy, i, c, own, a[..], fp, k - 1);
    }
    assert copy[..a.Length] == copy[..];
    WidenBlocksCopied(copy[..], own, own + {copy}, a[..], fp, k - 1);
    own := own + {copy};
    out := BlocksRef(copy);
    BlocksDone(copy, own, a, fp, k);
  }

  method SetBlock(copy: array<Block>, i: nat, c: Block, ghost own: set<object>,
                  ghost source: seq<Block>, ghost fp: set<object>, ghost k: nat)
    requires i < copy.Length && i < |source| && copy !in own && copy !in fp
    requires BlocksCopied(copy[..i], own, source, fp, k) && SameBlock(c, own, source[i], fp, k)
    modifies copy
    ensures copy[..] == old(copy[..])[i := c] && BlocksCopied(copy[..i + 1], own, source, fp, k)
  {
    hide SameBlock;
    ghost var before := copy[..i];
    copy[i] := c;
    assert copy[..i + 1] == before + [c];
  }

  // ---------------------------------------------------------------------------
  // cloneMessages
  // ---------------------------------------------------------------------------

  datatype Message = Message(fields: int, content: Blocks, usage: Pointer)
  datatype MessageTree = MessageTree(fields: int, content: BlocksTree, usage: Pointee)

  const NoMessage := Message(0, NilBlocks, NilPointer)

  ghost predicate MessageShaped(m: Message, fp: set<object>, k: nat)
    reads fp
  {
    BlocksShaped(m.content, fp, k) && PointerIn(m.usage, fp)
  }

  ghost function MessageAbs(m: Message, fp: set<object>, k: nat): MessageTree
    requires MessageShaped(m, fp, k)
    reads fp
  {
    MessageTree(m.fields, BlocksAbs(m.content, fp, k), PointerAbs(m.usage, fp))
  }

  ghost predicate AllShaped(ms: seq<Message>, fp: set<object>, k: nat)
    reads fp
  {
    forall j :: 0 <= j < |ms| ==> MessageShaped(ms[j], fp, k)
  }

  ghost function AllAbs(ms: seq<Message>, fp: set<object>, k: nat): (r: seq<MessageTree>)
    requires AllShaped(ms, fp, k)
    reads fp
    ensures |r| == |ms| && forall j :: 0 <= j < |ms| ==> r[j] == MessageAbs(ms[j], fp, k)
  {
    seq(|ms|, j requires 0 <= j < |ms| && MessageShaped(ms[j], fp, k) reads fp => MessageAbs(ms[j], fp, k))
  }

  lemma WidenMessage(m: Message, fp: set<object>, k: nat, fp': set<object>, k': nat)
    requires MessageShaped(m, fp, k) && fp <= fp' && k <= k'
    ensures MessageShaped(m, fp', k') && MessageAbs(m, fp', k') == MessageAbs(m, fp, k)
  {
    WidenBlocks(m.content, fp, k, fp', k');
  }

  lemma WidenAll(ms: seq<Message>, fp: set<object>, k: nat, fp': set<object>, k': nat)
    requires AllShaped(ms, fp, k) && fp <= fp' && k <= k'
    ensures AllShaped(ms, fp', k') && AllAbs(ms, fp', k') == AllAbs(ms, fp, k)
  {
    forall j | 0 <= j < |ms| ensures MessageShaped(ms[j], fp', k') && MessageAbs(ms[j], fp', k') == MessageAbs(ms[j], fp, k) {
      WidenMessage(ms[j], fp, k, fp', k');
    }
  }

  method CloneMessage(m: Message, ghost fp: set<object>, ghost k: nat) returns (out: Message, ghost own: set<object>)
    requires MessageShaped(m, fp, k)
    ensures fresh(own) && MessageShaped(out, own, k) && MessageAbs(out, own, k) == MessageAbs(m, fp, k)
  {
    var content, ownContent := CloneBlocks(m.content, fp, k);
    var usage, ownUsage := ClonePointer(m.usage, fp);
    own := ownContent + ownUsage;
    WidenBlocks(content, ownContent, k, own, k);
    out := m.(content := content, usage := usage);
  }

  /** The copy is a new slice of new messages, and every one of them looks like its original. */
  method CloneMessages(ms: seq<Message>, ghost fp: set<object>, ghost k: nat) returns (out: array<Message>, ghost own: set<object>)
    requires AllShaped(ms, fp, k)
    ensures fresh(own) && fresh(out) && out !in own
    ensures AllShaped(out[..], own, k) && AllAbs(out[..], own, k) == AllAbs(ms, fp, k)
  {
    hide MessageShaped, MessageAbs;
    out := new Message[|ms|](_ => NoMessage);
    own := {};
    for i := 0 to |ms|
      invariant fresh(own) && fresh(out) && out !in own && AllShaped(ms, fp, k)
      invariant AllShaped(out[..i], own, k) && AllAbs(out[..i], own, k) == AllAbs(ms[..i], fp, k)
    {
      var c, added := CloneMessage(ms[i], fp, k);
      WidenAll(out[..i], own, k, own + added, k);
      WidenMessage(c, added, k, own + added, k);
      own := own + added;
      ghost var before := out[..i];
      out[i] := c;
      assert out[..i + 1] == before + [c];
    }
    assert out[..|ms|] == out[..] && ms[..|ms|] == ms;
  }

  // ---------------------------------------------------------------------------
  // The session owns its history
  // ---------------------------------------------------------------------------

  class Session {
    var messages: seq<Message>
    var active: bool
    var closed: bool
    ghost var Repr: set<object>
    ghost var depth: nat

    ghost predicate Valid()
      reads this, Repr
    {
      this !in Repr && AllShaped(messages, Repr, depth)
    }

    ghost function History(): seq<MessageTree>
      requires Valid()
      reads this, Repr
    {
      AllAbs(messages, Repr, depth)
    }

    /** newSession: the history given by the caller is copied. */
    constructor (history: seq<Message>, ghost fp: set<object>, ghost k: nat)
      requires AllShaped(history, fp, k)
      ensures Valid() && fresh(Repr) && !active && !closed
      ensures History() == old(AllAbs(history, fp, k))
    {
      var copy, own := CloneMessages(history, fp, k);
      messages := copy[..];
      active, closed := false, false;
      Repr := own;
      depth := k;
    }

    method GetMessages() returns (out: array<Message>, ghost own: set<object>)
      requires Valid()
      ensures fresh(own) && fresh(out) && out !in own
      ensures AllShaped(out[..], own, depth) && AllAbs(out[..], own, depth) == History()
    {
      out, own := CloneMessages(messages, Repr, depth);
    }

    method AppendMessage(m: Message, ghost fp: set<object>, ghost k: nat)
      requires Valid() && MessageShaped(m, fp, k)
      modifies this`messages, this`Repr, this`depth
      ensures Valid() && old(Repr) <= Repr && fresh(Repr - old(Repr))
      ensures History() == old(History()) + [old(MessageAbs(m, fp, k))]
    {
      hide MessageShaped, MessageAbs;
      var c, own := CloneMessage(m, fp, k);
      ghost var deep := if depth < k then k else depth;
      WidenAll(messages, Repr, depth, Repr + own, deep);
      WidenMessage(c, own, k, Repr + own, deep);
      messages := messages + [c];
      Repr := Repr + own;
      depth := deep;
    }

    /** Clear does nothing while a run is reserved or active. */
    method Clear()
      requires Valid()
      modifies this`messages
      ensures Valid() && History() == if active then old(History()) else []
    {
      if active {
        return;
      }
      messages := [];
    }

    /** A fork starts with an equal history and shares no object with this session. A closed session is
        not forked, and a fork takes no history from the caller. refused says that NewSession found the
        agent closed or the ID taken. */
    method Fork(historyGiven: bool, refused: bool) returns (branch: Session?)
      requires Valid()
      ensures branch == null <==> historyGiven || closed || refused
      ensures branch != null ==>
                branch.Valid() && fresh(branch) && fresh(branch.Repr) && branch.History() == History()
    {
      if historyGiven || closed {
        return null;
      }
      var copy, own := GetMessages();
      if refused {
        return null;
      }
      branch := new Session(copy[..], own, depth);
    }
  }

  // ---------------------------------------------------------------------------
  // Isolation
  // ---------------------------------------------------------------------------

  /** A caller takes the messages and then overwrites everything it was given, in any way. The history is
      what it was, and so is the next caller's copy. */
  method SnapshotUnharmed(s: Session) returns (first: array<Message>, second: array<Message>, ghost own: set<object>)
    requires s.Valid()
    ensures s.Valid() && s.History() == old(s.History())
    ensures AllShaped(second[..], own, s.depth) && AllAbs(second[..], own, s.depth) == old(s.History())
  {
    ghost var handed;
    first, handed := s.GetMessages();
    modify handed, first;
    second, own := s.GetMessages();
  }

  /** What the loop does with an assistant message: one copy for the history, one for the consumer of the
      events, and the original, whose inputs the tools are about to get. No two of the three share anything. */
  method RecordAndEmit(s: Session, m: Message, ghost fp: set<object>, ghost k: nat)
    returns (event: Message, ghost own: set<object>)
    requires s.Valid() && MessageShaped(m, fp, k) && s !in fp
    modifies s
    ensures s.Valid() && s.History() == old(s.History()) + [old(MessageAbs(m, fp, k))]
    ensures fresh(s.Repr - old(s.Repr)) && fresh(own) && own !! s.Repr && own !! fp
    ensures MessageShaped(event, own, k) && MessageAbs(event, own, k) == old(MessageAbs(m, fp, k))
    ensures MessageShaped(m, fp, k) && MessageAbs(m, fp, k) == old(MessageAbs(m, fp, k))
  {
    s.AppendMessage(m, fp, k);
    event, own := CloneMessage(m, fp, k);
  }

  /** The consumer of the event overwrites all of it. The history, the original message, whose inputs the
      tools are about to get, and the next caller's copy of the history are what they were. */
  method EventUnharmed(s: Session, m: Message, ghost fp: set<object>, ghost k: nat)
    returns (event: Message, messages: array<Message>, ghost own: set<object>)
    requires s.Valid() && MessageShaped(m, fp, k) && s !in fp
    modifies s
    ensures s.Valid() && s.History() == old(s.History()) + [old(MessageAbs(m, fp, k))]
    ensures MessageShaped(m, fp, k) && MessageAbs(m, fp, k) == old(MessageAbs(m, fp, k))
    ensures AllShaped(messages[..], own, s.depth) && AllAbs(messages[..], own, s.depth) == s.History()
  {
    ghost var handed;
    event, handed := RecordAndEmit(s, m, fp, k);
    modify handed;
    messages, own := s.GetMessages();
  }

  /** A tool overwrites the inputs it was given, or anything else of the original message. The history and
      the event do not change. */
  method ToolInputOwned(s: Session, m: Message, ghost fp: set<object>, ghost k: nat)
    returns (event: Message, ghost own: set<object>)
    requires s.Valid() && MessageShaped(m, fp, k) && s !in fp && fp !! s.Repr
    modifies s, fp
    ensures s.Valid() && s.History() == old(s.History()) + [old(MessageAbs(m, fp, k))]
    ensures MessageShaped(event, own, k) && MessageAbs(event, own, k) == old(MessageAbs(m, fp, k))
  {
    event, own := RecordAndEmit(s, m, fp, k);
    modify fp;
  }

  /** The messages of a finished run, as every caller of Wait gets them. */
  class RunResult {
    const messages: array<Message>
    ghost const own: set<object>
    ghost const depth: nat

    ghost predicate Valid()
      reads this, messages, own
    {
      messages !in own && AllShaped(messages[..], own, depth)
    }

    constructor (s: Session)
      requires s.Valid()
      ensures Valid() && fresh(messages) && fresh(own)
      ensures AllAbs(messages[..], own, depth) == s.History()
    {
      var copy, parts := s.GetMessages();
      messages, own, depth := copy, parts, s.depth;
    }

    method Wait() returns (out: array<Message>, ghost parts: set<object>)
      requires Valid()
      ensures fresh(out) && fresh(parts) && out !in parts
      ensures AllShaped(out[..], parts, depth) && AllAbs(out[..], parts, depth) == AllAbs(messages[..], own, depth)
    {
      out, parts := CloneMessages(messages[..], own, depth);
    }
  }

  /** The first caller of Wait overwrites everything it was given. The second still gets the messages of
      the finished run. */
  method NextWaiterUnharmed(r: RunResult) returns (first: array<Message>, second: array<Message>, ghost parts: set<object>)
    requires r.Valid()
    ensures r.Valid()
    ensures AllShaped(second[..], parts, r.depth)
    ensures AllAbs(second[..], parts, r.depth) == old(AllAbs(r.messages[..], r.own, r.depth))
  {
    hide AllShaped, AllAbs;
    ghost var handed;
    first, handed := r.Wait();
    modify handed, first;
    second, parts := r.Wait();
  }

  /** The same from the session on: its result is taken, handed out, overwritten and handed out again. */
  method ResultUnharmed(s: Session) returns (r: RunResult, second: array<Message>, ghost parts: set<object>)
    requires s.Valid()
    ensures r.Valid() && s.Valid() && s.History() == old(s.History())
    ensures AllShaped(second[..], parts, r.depth) && AllAbs(second[..], parts, r.depth) == old(s.History())
  {
    hide AllShaped, AllAbs;
    r := new RunResult(s);
    var first;
    first, second, parts := NextWaiterUnharmed(r);
  }
}
