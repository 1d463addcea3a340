/**
  What the two inserted search blocks change for the reader of an Anthropic
  stream: nothing but their own presence.
 */
module Insertion {
  import opened Wrappers
  import opened Types
  import opened AnthropicEncoder
  import opened AnthropicClient
  import opened Grammar
  import opened AnthropicRelay
  import Bookkeeping

  // ----- the grammar -----

  function Later(p: Phase): Phase {
    match p
    case Between(n) => Between(n + 2)
    case Inside(i, h) => Inside(i + 2, h)
    case _ => p
  }

  /** The automaton has begun and is at or after block `p`. */
  predicate Past(ph: Phase, p: nat) {
    match ph
    case Begin => false
    case Between(n) => p <= n
    case Inside(i, _) => p <= i
    case _ => true
  }

  lemma ReadShift(ph: Phase, x: Sse, p: nat)
    requires Past(ph, p)
    ensures Past(Read(ph, x), p) && Read(Later(ph), Shift(x, p)) == Later(Read(ph, x))
  {
  }

  lemma {:induction false} ReadShifted(ph: Phase, trace: seq<Sse>, p: nat)
    requires Past(ph, p)
    ensures Past(ReadAll(ph, trace), p)
    ensures ReadAll(Later(ph), ShiftAll(trace, p)) == Later(ReadAll(ph, trace))
  {
    if trace != [] {
      var n := |trace| - 1;
      ReadShifted(ph, trace[..n], p);
      assert ShiftAll(trace, p)[..n] == ShiftAll(trace[..n], p);
      ReadShift(ReadAll(ph, trace[..n]), trace[n], p);
      hide Past, Later, Read, Shift;
    }
  }

  lemma ReadSearchBlocks(p: nat, id: string, results: seq<WebSearchResult>)
    ensures ReadAll(Between(p), SearchBlocks(p, id, results)) == Between(p + 2)
  {
    var b := SearchBlocks(p, id, results);
    ReadPut(Between(p), [], b[0]);
    ReadPut(Between(p), [b[0]], b[1]);
    ReadPut(Between(p), [b[0], b[1]], b[2]);
    ReadPut(Between(p), [b[0], b[1], b[2]], b[3]);
    assert [] + [b[0]] == [b[0]] && [b[0]] + [b[1]] == [b[0], b[1]] && [b[0], b[1]] + [b[2]] == [b[0], b[1], b[2]];
    assert b == [b[0], b[1], b[2]] + [b[3]];
  }

  /** Put where block `p` is expected, the blocks move every later phase by two. */
  lemma ExpectedInsertion(pre: seq<Sse>, ins: seq<Sse>, post: seq<Sse>, p: nat)
    requires PhaseOf(pre) == Between(p) && ReadAll(Between(p), ins) == Between(p + 2)
    ensures PhaseOf(pre + ins + ShiftAll(post, p)) == Later(PhaseOf(pre + post))
  {
    ReadShifted(Between(p), post, p);
    hide ReadAll, ShiftAll;
    var shifted := ShiftAll(post, p);
    ReadAppend(Begin, pre, post);
    ReadAppend(Begin, pre, ins);
    ReadAppend(Begin, pre + ins, shifted);
  }

  /** Reading `pre`, then a block start that `pre` does not expect, is beyond repair. */
  lemma Unexpected(pre: seq<Sse>, post: seq<Sse>)
    requires post != [] && post[0].BlockStart? && PhaseOf(pre) != Between(post[0].index)
    ensures PhaseOf(pre + post) == Bad
  {
    var head, tail := [post[0]], post[1..];
    assert head + tail == post;
    ReadPut(Begin, pre, post[0]);
    Associate(pre, head, tail);
    ReadAppend(Begin, pre + head, tail);
    BadForever(tail);
  }

  lemma InsertionPhase(trace: seq<Sse>, id: string, results: seq<WebSearchResult>)
    ensures PhaseOf(WithSearch(trace, id, results)) == Ended <==> PhaseOf(trace) == Ended
  {
    var j := FirstText(trace);
    if j < |trace| {
      var pre, post, p := trace[..j], trace[j..], trace[j].index;
      var ins := SearchBlocks(p, id, results);
      assert trace == pre + post;
      hide FirstText, ShiftAll, ReadAll;
      if PhaseOf(pre) == Between(p) {
        ReadSearchBlocks(p, id, results);
        ExpectedInsertion(pre, ins, post, p);
      } else {
        Unexpected(pre, post);
        Associate(pre, ins, ShiftAll(post, p));
        Unexpected(pre, ins + ShiftAll(post, p));
      }
    }
  }

  /** The stream with the search blocks is a message of the grammar if and only if the plain one is. */
  lemma InsertionKeepsGrammar(trace: seq<Sse>, id: string, results: seq<WebSearchResult>)
    ensures Grammatical(WithSearch(trace, id, results)) <==> Grammatical(trace)
  {
    AutomatonMeetsGrammar(trace);
    AutomatonMeetsGrammar(WithSearch(trace, id, results));
    InsertionPhase(trace, id, results);
    hide Grammatical, WithSearch, PhaseOf;
  }

  // ----- the reading -----

  lemma {:induction false} ReadingAppend(a: seq<Block>, b: seq<Block>)
    ensures TextOf(a + b) == TextOf(a) + TextOf(b)
    ensures ThinkingOf(a + b) == ThinkingOf(a) + ThinkingOf(b)
    ensures ToolsOf(a + b) == ToolsOf(a) + ToolsOf(b)
  {
    if b == [] {
      Unit(a);
    } else {
      var n := |b| - 1;
      ReadingAppend(a, b[..n]);
      LastOf(b);
      Associate(a, b[..n], [b[n]]);
      ReadLast(a + b[..n], b[n]);
      ReadLast(b[..n], b[n]);
      hide TextOf, ThinkingOf, ToolsOf;
      var text, thinking, tools := TextOf([b[n]]), ThinkingOf([b[n]]), ToolsOf([b[n]]);
      Associate(TextOf(a), TextOf(b[..n]), text);
      Associate(ThinkingOf(a), ThinkingOf(b[..n]), thinking);
      Associate(ToolsOf(a), ToolsOf(b[..n]), tools);
    }
  }

  lemma ReadLast(blocks: seq<Block>, b: Block)
    ensures TextOf(blocks + [b]) == TextOf(blocks) + TextOf([b])
    ensures ThinkingOf(blocks + [b]) == ThinkingOf(blocks) + ThinkingOf([b])
    ensures ToolsOf(blocks + [b]) == ToolsOf(blocks) + ToolsOf([b])
  {
    assert (blocks + [b])[..|blocks|] == blocks;
    ReadOne(b);
  }

  lemma ReadOne(b: Block)
    ensures TextOf([b]) == if b.header.TextHeader? then b.text else ""
    ensures ThinkingOf([b]) == if b.header.ThinkingHeader? then b.thinking else ""
    ensures ToolsOf([b]) == if b.header.ToolUseHeader? then [ToolCall(b.header.id, b.header.name, b.arguments)] else []
  {
    assert [b][..0] == [];
  }

  /** `search` is `plain` with the blocks `mid` put before block `p`. */
  ghost predicate Spliced(plain: seq<Block>, search: seq<Block>, mid: seq<Block>, p: nat) {
    p <= |plain| && |mid| == 2 && search == plain[..p] + mid + plain[p..]
  }

  lemma ReceiveSpliced(plain: seq<Block>, search: seq<Block>, mid: seq<Block>, p: nat, x: Sse)
    requires Spliced(plain, search, mid, p)
    ensures Spliced(Receive(plain, x), Receive(search, Shift(x, p)), mid, p)
  {
  }

  lemma {:induction false} BlocksSpliced(pre: seq<Sse>, ins: seq<Sse>, post: seq<Sse>, mid: seq<Block>, p: nat)
    requires |Blocks(pre)| == p && |mid| == 2 && Blocks(pre + ins) == Blocks(pre) + mid
    ensures Spliced(Blocks(pre + post), Blocks(pre + ins + ShiftAll(post, p)), mid, p)
  {
    if post == [] {
      NothingSpliced(Blocks(pre), mid);
      assert ShiftAll(post, p) == [];
      hide Spliced, Blocks, ShiftAll;
      Unit(pre);
      Unit(pre + ins);
    } else {
      var n := |post| - 1;
      var init, x := post[..n], post[n];
      BlocksSpliced(pre, ins, init, mid, p);
      LastOf(post);
      ShiftPut(init, x, p);
      hide ShiftAll, Blocks, Receive, Shift, Spliced;
      Associate(pre, init, [x]);
      BlocksPut(pre + init, x);
      Associate(pre + ins, ShiftAll(init, p), [Shift(x, p)]);
      BlocksPut(pre + ins + ShiftAll(init, p), Shift(x, p));
      ReceiveSpliced(Blocks(pre + init), Blocks(pre + ins + ShiftAll(init, p)), mid, p, x);
    }
  }

  lemma NothingSpliced(plain: seq<Block>, mid: seq<Block>)
    requires |mid| == 2
    ensures Spliced(plain, plain + mid, mid, |plain|)
  {
  }

  lemma ShiftPut(trace: seq<Sse>, x: Sse, p: nat)
    ensures ShiftAll(trace + [x], p) == ShiftAll(trace, p) + [Shift(x, p)]
  {
  }

  lemma SearchBlocksReceived(pre: seq<Sse>, p: nat, id: string, results: seq<WebSearchResult>)
    ensures Blocks(pre + SearchBlocks(p, id, results)) ==
            Blocks(pre) +
                [Block(ServerToolUseHeader(id), "", "", "", ""), Block(SearchResultHeader(id, results), "", "", "", "")]
  {
    var b := SearchBlocks(p, id, results);
    BlocksPut(pre, b[0]);
    BlocksPut(pre + [b[0]], b[1]);
    BlocksPut(pre + [b[0]] + [b[1]], b[2]);
    BlocksPut(pre + [b[0]] + [b[1]] + [b[2]], b[3]);
    assert pre + b == pre + [b[0]] + [b[1]] + [b[2]] + [b[3]];
  }

  lemma SplicedReadsSame(plain: seq<Block>, search: seq<Block>, p: nat, id: string, results: seq<WebSearchResult>)
    requires Spliced(plain, search, [Block(ServerToolUseHeader(id), "", "", "", ""),
             Block(SearchResultHeader(id, results), "", "", "", "")], p)
    ensures TextOf(search) == TextOf(plain) && ThinkingOf(search) == ThinkingOf(plain) &&
            ToolsOf(search) == ToolsOf(plain)
  {
    var s, r := Block(ServerToolUseHeader(id), "", "", "", ""), Block(SearchResultHeader(id, results), "", "", "", "");
    var head, tail := plain[..p], plain[p..];
    assert head + tail == plain;
    ReadingAppend(head, tail);
    ReadingAppend(head + [s, r], tail);
    ReadingAppend(head, [s, r]);
    ReadStart([], s.header);
    ReadStart([s], r.header);
    assert [] + [s] == [s] && [s] + [r] == [s, r];
    Unit(TextOf(head));
    Unit(ThinkingOf(head));
    Unit(ToolsOf(head));
  }

  // ----- the numbering -----

  /** In a stream whose boundaries alternate, every block start carries the number of blocks before it. */
  lemma {:induction false} AlternatingIsNumbered(trace: seq<Sse>, n: nat)
    requires Bookkeeping.Boundaries(trace) == Bookkeeping.Alternating(n)
    ensures |Blocks(trace)| == (n + 1) / 2 && Numbered(trace)
  {
    if trace != [] {
      var k := |trace| - 1;
      var x := trace[k];
      if x.BlockStart? || x.BlockStop? {
        LastBoundary(trace, n);
        AlternatingIsNumbered(trace[..k], n - 1);
      } else {
        AlternatingIsNumbered(trace[..k], n);
      }
      NumberedStep(trace);
    }
  }

  lemma AlternatingPrefix(n: nat)
    requires n > 0
    ensures Bookkeeping.Alternating(n) == Bookkeeping.Alternating(n - 1) +
              [if (n - 1) % 2 == 0 then Bookkeeping.Starts((n - 1) / 2) else Bookkeeping.Stops((n - 1) / 2)]
    ensures |Bookkeeping.Alternating(n)| == n
  {
  }

  lemma SameSplit<T>(a: seq<T>, x: T, b: seq<T>, y: T)
    requires a + [x] == b + [y]
    ensures a == b && x == y
  {
    assert |a| == |b| && (a + [x])[|a|] == x && (b + [y])[|b|] == y;
    assert (a + [x])[..|a|] == a && (b + [y])[..|b|] == b;
  }

  lemma LastBoundary(trace: seq<Sse>, n: nat)
    requires Bookkeeping.Boundaries(trace) == Bookkeeping.Alternating(n)
    requires trace != [] && (trace[|trace| - 1].BlockStart? || trace[|trace| - 1].BlockStop?)
    ensures n > 0 && Bookkeeping.Boundaries(trace[..|trace| - 1]) == Bookkeeping.Alternating(n - 1)
    ensures var x := trace[|trace| - 1];
            if (n - 1) % 2 == 0 then x.BlockStart? && x.index == (n - 1) / 2 else x.BlockStop?
  {
    var x, before := trace[|trace| - 1], Bookkeeping.Boundaries(trace[..|trace| - 1]);
    var last := if x.BlockStart? then Bookkeeping.Starts(x.index) else Bookkeeping.Stops(x.index);
    assert Bookkeeping.Boundaries(trace) == before + [last];
    assert |Bookkeeping.Alternating(n)| == n;
    AlternatingPrefix(n);
    var next := if (n - 1) % 2 == 0 then Bookkeeping.Starts((n - 1) / 2) else Bookkeeping.Stops((n - 1) / 2);
    hide Bookkeeping.Boundaries, Bookkeeping.Alternating;
    SameSplit(before, last, Bookkeeping.Alternating(n - 1), next);
  }

  lemma NumberedStep(trace: seq<Sse>)
    requires trace != [] && Numbered(trace[..|trace| - 1])
    ensures var n := |trace| - 1;
            Numbered(trace) <==> trace[n].BlockStart? ==> trace[n].index == |Blocks(trace[..n])|
  {
    var n := |trace| - 1;
    forall k | 0 <= k < n && trace[k].BlockStart? ensures trace[k].index == |Blocks(trace[..k])| {
      assert trace[..n][..k] == trace[..k];
    }
  }

  lemma NumberedPut(trace: seq<Sse>, x: Sse)
    requires Numbered(trace)
    ensures Numbered(trace + [x]) <==> x.BlockStart? ==> x.index == |Blocks(trace)|
  {
    assert (trace + [x])[..|trace|] == trace;
    NumberedStep(trace + [x]);
  }

  lemma SearchBlocksNumbered(pre: seq<Sse>, p: nat, id: string, results: seq<WebSearchResult>)
    requires Numbered(pre) && |Blocks(pre)| == p
    ensures Numbered(pre + SearchBlocks(p, id, results))
  {
    var b := SearchBlocks(p, id, results);
    BlocksPut(pre, b[0]);
    BlocksPut(pre + [b[0]], b[1]);
    NumberedPut(pre, b[0]);
    NumberedPut(pre + [b[0]], b[1]);
    NumberedPut(pre + [b[0]] + [b[1]], b[2]);
    NumberedPut(pre + [b[0]] + [b[1]] + [b[2]], b[3]);
    assert pre + b == pre + [b[0]] + [b[1]] + [b[2]] + [b[3]];
  }

  lemma {:induction false} ShiftedNumbered(pre: seq<Sse>, ins: seq<Sse>, post: seq<Sse>, mid: seq<Block>, p: nat)
    requires |Blocks(pre)| == p && |mid| == 2 && Blocks(pre + ins) == Blocks(pre) + mid
    requires Numbered(pre + ins) && Numbered(pre + post)
    ensures Numbered(pre + ins + ShiftAll(post, p))
  {
    if post == [] {
      assert ShiftAll(post, p) == [];
      Unit(pre + ins);
    } else {
      var n := |post| - 1;
      var init, x := post[..n], post[n];
      LastOf(post);
      Associate(pre, init, [x]);
      assert (pre + post)[..|pre| + n] == pre + init;
      NumberedPrefix(pre + post, |pre| + n);
      ShiftedNumbered(pre, ins, init, mid, p);
      BlocksSpliced(pre, ins, init, mid, p);
      ShiftPut(init, x, p);
      NumberedPut(pre + init, x);
      hide ShiftAll, Blocks, Numbered;
      Associate(pre + ins, ShiftAll(init, p), [Shift(x, p)]);
      NumberedPut(pre + ins + ShiftAll(init, p), Shift(x, p));
    }
  }

  /**
    Of a numbered stream, the search stream is numbered too, and its client reads the
    same text, thinking and tool calls.
   */
  lemma InsertionReadsSame(trace: seq<Sse>, id: string, results: seq<WebSearchResult>)
    requires Numbered(trace)
    ensures Numbered(WithSearch(trace, id, results))
    ensures var plain, search := Blocks(trace), Blocks(WithSearch(trace, id, results));
            TextOf(search) == TextOf(plain) && ThinkingOf(search) == ThinkingOf(plain) &&
                ToolsOf(search) == ToolsOf(plain)
  {
    var j := FirstText(trace);
    if j < |trace| {
      var pre, post, p := trace[..j], trace[j..], trace[j].index;
      var ins := SearchBlocks(p, id, results);
      var mid :=
        [Block(ServerToolUseHeader(id), "", "", "", ""), Block(SearchResultHeader(id, results), "", "", "", "")];
      assert pre + post == trace;
      NumberedPrefix(trace, j);
      hide Numbered;
      SearchBlocksReceived(pre, p, id, results);
      SearchBlocksNumbered(pre, p, id, results);
      BlocksSpliced(pre, ins, post, mid, p);
      ShiftedNumbered(pre, ins, post, mid, p);
      SplicedReadsSame(Blocks(trace), Blocks(WithSearch(trace, id, results)), p, id, results);
    }
  }

  // ----- the closing delta -----

  lemma {:induction false} DeltasAppend(a: seq<Sse>, b: seq<Sse>)
    ensures Bookkeeping.MessageDeltas(a + b) == Bookkeeping.MessageDeltas(a) + Bookkeeping.MessageDeltas(b)
  {
    if b == [] {
      Unit(a);
      Unit(Bookkeeping.MessageDeltas(a));
    } else {
      var n := |b| - 1;
      DeltasAppend(a, b[..n]);
      assert (a + b)[..|a| + n] == a + b[..n];
      Associate(Bookkeeping.MessageDeltas(a), Bookkeeping.MessageDeltas(b[..n]),
          if b[n].MessageDelta? then [b[n]] else []);
    }
  }

  lemma {:induction false} ShiftedDeltas(trace: seq<Sse>, p: nat)
    ensures Bookkeeping.MessageDeltas(ShiftAll(trace, p)) == Bookkeeping.MessageDeltas(trace)
  {
    if trace != [] {
      var n := |trace| - 1;
      ShiftedDeltas(trace[..n], p);
      assert ShiftAll(trace, p)[..n] == ShiftAll(trace[..n], p);
    }
  }

  lemma NoDeltas(p: nat, id: string, results: seq<WebSearchResult>)
    ensures Bookkeeping.MessageDeltas(SearchBlocks(p, id, results)) == []
  {
    var b := SearchBlocks(p, id, results);
    DeltasAppend([b[0]], [b[1]]);
    DeltasAppend([b[0], b[1]], [b[2]]);
    DeltasAppend([b[0], b[1], b[2]], [b[3]]);
    assert [b[0]] + [b[1]] == [b[0], b[1]] && [b[0], b[1]] + [b[2]] == [b[0], b[1], b[2]] &&
           [b[0], b[1], b[2]] + [b[3]] == b;
    forall i | 0 <= i < 4 ensures Bookkeeping.MessageDeltas([b[i]]) == [] {
      assert [b[i]][..0] == [];
    }
  }

  /** The search blocks leave the closing delta as it is. */
  lemma InsertionKeepsDeltas(trace: seq<Sse>, id: string, results: seq<WebSearchResult>)
    ensures Bookkeeping.MessageDeltas(WithSearch(trace, id, results)) == Bookkeeping.MessageDeltas(trace)
  {
    var j := FirstText(trace);
    if j < |trace| {
      var pre, post, p := trace[..j], trace[j..], trace[j].index;
      var ins := SearchBlocks(p, id, results);
      assert pre + post == trace;
      NoDeltas(p, id, results);
      ShiftedDeltas(post, p);
      DeltasAppend(pre, post);
      DeltasAppend(pre, ins);
      DeltasAppend(pre + ins, ShiftAll(post, p));
      Unit(Bookkeeping.MessageDeltas(pre));
    }
  }
}
