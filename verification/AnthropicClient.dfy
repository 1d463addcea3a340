/**
  The reader the Anthropic stream is meant for: it reassembles content blocks by
  index and reads off the visible text, the thinking and the tool calls.
  It is the yardstick for what codec/anthropic_encode_stream.go emits.
 */
module AnthropicClient {
  import opened AnthropicEncoder

  datatype Block = Block(header: Header, text: string, thinking: string, signature: string, arguments: string)

  datatype ToolCall = ToolCall(id: string, name: string, arguments: string)

  function Extend(b: Block, d: Delta): Block {
    match d
    case TextPiece(text) => b.(text := b.text + text)
    case ThinkingPiece(thinking) => b.(thinking := b.thinking + thinking)
    case SignaturePiece(signature) => b.(signature := b.signature + signature)
    case InputJsonPiece(partial) => b.(arguments := b.arguments + partial)
  }

  /** A start opens the next block; a delta goes to the block its index names, if there is one. */
  function Receive(blocks: seq<Block>, x: Sse): seq<Block> {
    match x
    case BlockStart(_, header) => blocks + [Block(header, "", "", "", "")]
    case BlockDelta(index, delta) =>
      if index < |blocks| then blocks[index := Extend(blocks[index], delta)] else blocks
    case _ => blocks
  }

  function Blocks(trace: seq<Sse>): seq<Block> {
    if trace == [] then [] else Receive(Blocks(trace[..|trace| - 1]), trace[|trace| - 1])
  }

  lemma BlocksPut(trace: seq<Sse>, x: Sse)
    ensures Blocks(trace + [x]) == Receive(Blocks(trace), x)
  {
  }

  // ----- the same client with its blocks keyed by index -----

  function ReceiveKeyed(blocks: map<nat, Block>, x: Sse): map<nat, Block> {
    match x
    case BlockStart(index, header) => blocks[index := Block(header, "", "", "", "")]
    case BlockDelta(index, delta) => if index in blocks then blocks[index := Extend(blocks[index], delta)] else blocks
    case _ => blocks
  }

  function Keyed(trace: seq<Sse>): map<nat, Block> {
    if trace == [] then map[] else ReceiveKeyed(Keyed(trace[..|trace| - 1]), trace[|trace| - 1])
  }

  /** Every block start carries the number of blocks before it. */
  ghost predicate Numbered(trace: seq<Sse>) {
    forall k :: 0 <= k < |trace| && trace[k].BlockStart? ==> trace[k].index == |Blocks(trace[..k])|
  }

  ghost predicate SameBlocks(keyed: map<nat, Block>, blocks: seq<Block>) {
    forall i: nat {:trigger i in keyed} ::
      (i in keyed <==> i < |blocks|) && (i < |blocks| ==> keyed[i] == blocks[i])
  }

  lemma NumberedPrefix(trace: seq<Sse>, n: nat)
    requires Numbered(trace) && n <= |trace|
    ensures Numbered(trace[..n])
  {
    forall k | 0 <= k < n && trace[k].BlockStart? ensures trace[k].index == |Blocks(trace[..n][..k])| {
      assert trace[..n][..k] == trace[..k];
    }
  }

  /** In a numbered stream it makes no difference whether a client counts the starts or reads their index. */
  lemma {:induction false} KeyedIsCounted(trace: seq<Sse>)
    requires Numbered(trace)
    ensures SameBlocks(Keyed(trace), Blocks(trace))
  {
    if trace != [] {
      var n := |trace| - 1;
      NumberedPrefix(trace, n);
      KeyedIsCounted(trace[..n]);
    }
  }

  function TextOf(blocks: seq<Block>): string {
    if blocks == [] then ""
    else
      var b := blocks[|blocks| - 1];
      TextOf(blocks[..|blocks| - 1]) + if b.header.TextHeader? then b.text else ""
  }

  function ThinkingOf(blocks: seq<Block>): string {
    if blocks == [] then ""
    else
      var b := blocks[|blocks| - 1];
      ThinkingOf(blocks[..|blocks| - 1]) + if b.header.ThinkingHeader? then b.thinking else ""
  }

  function ToolsOf(blocks: seq<Block>): seq<ToolCall> {
    if blocks == [] then []
    else
      var b := blocks[|blocks| - 1];
      ToolsOf(blocks[..|blocks| - 1]) +
      if b.header.ToolUseHeader? then [ToolCall(b.header.id, b.header.name, b.arguments)] else []
  }

  /** How many tool calls start before block `i`. */
  function Rank(blocks: seq<Block>, i: nat): nat
    requires i <= |blocks|
  {
    |ToolsOf(blocks[..i])|
  }

  // ----- how the three readings react to a start and to a delta -----

  lemma ReadStart(blocks: seq<Block>, header: Header)
    ensures var more := blocks + [Block(header, "", "", "", "")];
            && TextOf(more) == TextOf(blocks)
            && ThinkingOf(more) == ThinkingOf(blocks)
            && ToolsOf(more) == ToolsOf(blocks) +
                 (if header.ToolUseHeader? then [ToolCall(header.id, header.name, "")] else [])
  {
  }

  /** Text and thinking pieces for the last block, when it has the right header. */
  lemma ReadPiece(blocks: seq<Block>, d: Delta)
    requires blocks != []
    requires d.TextPiece? ==> blocks[|blocks| - 1].header.TextHeader?
    requires d.ThinkingPiece? ==> blocks[|blocks| - 1].header.ThinkingHeader?
    requires !d.InputJsonPiece?
    ensures var more := blocks[|blocks| - 1 := Extend(blocks[|blocks| - 1], d)];
            && TextOf(more) == TextOf(blocks) + (if d.TextPiece? then d.text else "")
            && ThinkingOf(more) == ThinkingOf(blocks) + (if d.ThinkingPiece? then d.thinking else "")
            && ToolsOf(more) == ToolsOf(blocks)
  {
    var more := blocks[|blocks| - 1 := Extend(blocks[|blocks| - 1], d)];
    assert more[..|blocks| - 1] == blocks[..|blocks| - 1];
  }

  /** A tool argument piece changes one tool call, and only if its block is a tool call. */
  lemma {:induction false} ReadArguments(blocks: seq<Block>, i: nat, partial: string)
    requires i < |blocks|
    ensures var more := blocks[i := Extend(blocks[i], InputJsonPiece(partial))];
            && TextOf(more) == TextOf(blocks)
            && ThinkingOf(more) == ThinkingOf(blocks)
            && (!blocks[i].header.ToolUseHeader? ==> ToolsOf(more) == ToolsOf(blocks))
            && (blocks[i].header.ToolUseHeader? ==>
                  var r := Rank(blocks, i);
                  && r < |ToolsOf(blocks)|
                  && ToolsOf(blocks)[r].arguments == blocks[i].arguments
                  && ToolsOf(more) ==
                      ToolsOf(blocks)[r := ToolsOf(blocks)[r].(arguments := ToolsOf(blocks)[r].arguments + partial)])
  {
    var n := |blocks| - 1;
    var more := blocks[i := Extend(blocks[i], InputJsonPiece(partial))];
    if i == n {
      assert more[..n] == blocks[..n];
    } else {
      ReadArguments(blocks[..n], i, partial);
      assert more[..n] == blocks[..n][i := Extend(blocks[i], InputJsonPiece(partial))];
      assert blocks[..n][..i] == blocks[..i];
    }
  }

  /** Ranks depend on headers alone and only on those before. */
  lemma {:induction false} RankSame(a: seq<Block>, b: seq<Block>, i: nat)
    requires i <= |a| && i <= |b|
    requires forall k :: 0 <= k < i ==> a[k].header == b[k].header
    ensures Rank(a, i) == Rank(b, i)
  {
    if i > 0 {
      RankSame(a, b, i - 1);
      assert a[..i][..i - 1] == a[..i - 1];
      assert b[..i][..i - 1] == b[..i - 1];
    }
  }
}
