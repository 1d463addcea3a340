/**
  Tool calls and their results through the encoder: results keep their order, no call
  is lost except in messages that send none of their own, and every tool message stays
  reachable from the assistant message that made the call exactly when the results of
  the request come in turn.
 */
module ToolPairing {
  import opened Wrappers
  import opened Distinct
  import opened Parameters
  import opened Request

  // ----- what the request holds -----

  function ResultIds(blocks: seq<ContentBlock>): seq<string> {
    if blocks == [] then []
    else
      var b := blocks[|blocks| - 1];
      ResultIds(blocks[..|blocks| - 1]) +
          if b.ToolResultBlock? && b.result.Some? then [b.result.value.toolCallID] else []
  }

  function CallIds(blocks: seq<ContentBlock>): seq<string> {
    if blocks == [] then []
    else
      var b := blocks[|blocks| - 1];
      CallIds(blocks[..|blocks| - 1]) + if b.ToolCallBlock? && b.call.Some? then [b.call.value.id] else []
  }

  function AllResultIds(messages: seq<Message>): seq<string> {
    if messages == [] then []
    else AllResultIds(messages[..|messages| - 1]) + ResultIds(messages[|messages| - 1].content)
  }

  function AllCallIds(messages: seq<Message>): seq<string> {
    if messages == [] then [] else AllCallIds(messages[..|messages| - 1]) + CallIds(messages[|messages| - 1].content)
  }

  // ----- what the wire holds -----

  function WireCallIds(calls: seq<WireCall>): seq<string> {
    if calls == [] then [] else WireCallIds(calls[..|calls| - 1]) + [calls[|calls| - 1].id]
  }

  /** The ids of the tool messages, in order. */
  function WireResults(ws: seq<WireMsg>): seq<string> {
    if ws == [] then []
    else WireResults(ws[..|ws| - 1]) + if ws[|ws| - 1].role == "tool" then [ws[|ws| - 1].toolCallID] else []
  }

  /** The ids of the tool calls, in order. */
  function WireCalls(ws: seq<WireMsg>): seq<string> {
    if ws == [] then [] else WireCalls(ws[..|ws| - 1]) + WireCallIds(ws[|ws| - 1].toolCalls)
  }

  lemma WireSnoc(ws: seq<WireMsg>, w: WireMsg)
    ensures WireResults(ws + [w]) == WireResults(ws) + if w.role == "tool" then [w.toolCallID] else []
    ensures WireCalls(ws + [w]) == WireCalls(ws) + WireCallIds(w.toolCalls)
    ensures Available(ws + [w]) ==
            (if w.role == "tool" then Available(ws) else if w.role == "assistant" then IdsOf(w.toolCalls) else {})
    ensures Paired(ws + [w]) == (Paired(ws) && (w.role == "tool" ==> w.toolCallID in Available(ws)))
  {
  }

  lemma {:induction false} WireAppend(a: seq<WireMsg>, b: seq<WireMsg>)
    ensures WireResults(a + b) == WireResults(a) + WireResults(b)
    ensures WireCalls(a + b) == WireCalls(a) + WireCalls(b)
  {
    hide Available, Paired;
    if b == [] {
      Unit(a);
      Unit(WireResults(a));
      Unit(WireCalls(a));
    } else {
      var n := |b| - 1;
      var w := b[n];
      WireAppend(a, b[..n]);
      WireSnoc(a + b[..n], w);
      WireSnoc(b[..n], w);
      LastOf(b);
      Associate(a, b[..n], [w]);
      Associate(WireResults(a), WireResults(b[..n]), if w.role == "tool" then [w.toolCallID] else []);
      Associate(WireCalls(a), WireCalls(b[..n]), WireCallIds(w.toolCalls));
      hide *;
    }
  }

  lemma One(w: WireMsg)
    ensures WireResults([w]) == if w.role == "tool" then [w.toolCallID] else []
    ensures WireCalls([w]) == WireCallIds(w.toolCalls)
  {
  }

  // ----- conservation -----

  lemma {:induction false} ResultsConserved(blocks: seq<ContentBlock>)
    ensures WireResults(ResultsOf(blocks)) == ResultIds(blocks) && WireCalls(ResultsOf(blocks)) == []
    ensures forall w :: w in ResultsOf(blocks) ==> w.role == "tool" && w.toolCalls == []
  {
    if blocks != [] {
      var n := |blocks| - 1;
      var b := blocks[n];
      ResultsConserved(blocks[..n]);
      if b.ToolResultBlock? && b.result.Some? {
        WireSnoc(ResultsOf(blocks[..n]), Plain("tool", ResultContent(b.result.value), [], b.result.value.toolCallID));
      } else {
        Unit(ResultsOf(blocks[..n]));
      }
    }
  }

  lemma {:induction false} CallsConserved(blocks: seq<ContentBlock>)
    ensures WireCallIds(CallsOf(blocks)) == CallIds(blocks)
  {
    if blocks != [] {
      var n := |blocks| - 1;
      var b := blocks[n];
      CallsConserved(blocks[..n]);
      if b.ToolCallBlock? && b.call.Some? {
        var c := WireCall(b.call.value.id, b.call.value.name, Printed(b.call.value.arguments));
        assert (CallsOf(blocks[..n]) + [c])[..|CallsOf(blocks[..n])|] == CallsOf(blocks[..n]);
      } else {
        Unit(CallsOf(blocks[..n]));
      }
    }
  }

  /** A message whose tool calls the encoder drops: it sends results, but no message of its own. */
  predicate HidesCalls(m: Message) {
    && CallIds(m.content) != []
    && (m.role == "tool" || (m.role == "user" && ResultsOf(m.content) != [] && PartsOf(m.content) == []))
  }

  lemma MessageConserves(m: Message)
    ensures WireResults(EncodeMessage(m)) == ResultIds(m.content)
    ensures WireCalls(EncodeMessage(m)) == if HidesCalls(m) then [] else CallIds(m.content)
  {
    var parts, calls, results := PartsOf(m.content), CallsOf(m.content), ResultsOf(m.content);
    var msg := Plain(m.role, Shape(parts), calls, "");
    ResultsConserved(m.content);
    CallsConserved(m.content);
    assert WireCallIds([]) == [] && WireResults([]) == [] && WireCalls([]) == [];
    hide ResultsOf, CallsOf, PartsOf, ResultIds, CallIds, WireCallIds, Shape;
    if m.role != "tool" {
      hide WireResults, WireCalls;
      One(msg);
      Unit(WireResults(results));
      Unit(WireCallIds(calls));
      if parts == [] && calls == [] && results == [] {
        assert EncodeMessage(m) == [];
      } else if results != [] && m.role == "user" {
        Unit(results);
        WireAppend(results, [msg]);
        assert EncodeMessage(m) == if parts == [] then results else results + [msg];
      } else {
        WireAppend([msg], results);
        assert EncodeMessage(m) == [msg] + results;
      }
    }
  }

  predicate NoneHidden(messages: seq<Message>) {
    forall m :: m in messages ==> !HidesCalls(m)
  }

  lemma {:induction false} DialogueConserves(messages: seq<Message>)
    ensures WireResults(EncodeMessages(messages)) == AllResultIds(messages)
    ensures |WireCalls(EncodeMessages(messages))| <= |AllCallIds(messages)|
    ensures WireCalls(EncodeMessages(messages)) == AllCallIds(messages) <==> NoneHidden(messages)
  {
    hide EncodeMessage, HidesCalls, ResultIds, CallIds;
    if messages != [] {
      var n := |messages| - 1;
      var m := messages[n];
      DialogueConserves(messages[..n]);
      MessageConserves(m);
      WireAppend(EncodeMessages(messages[..n]), EncodeMessage(m));
      LastOf(messages);
      assert NoneHidden(messages) <==> NoneHidden(messages[..n]) && !HidesCalls(m);
      HiddenNonEmpty(m);
      SameTail(WireCalls(EncodeMessages(messages[..n])), AllCallIds(messages[..n]),
               if HidesCalls(m) then [] else CallIds(m.content), CallIds(m.content));
      hide NoneHidden, EncodeMessages, WireCalls, WireResults;
    }
  }

  lemma HiddenNonEmpty(m: Message)
    ensures HidesCalls(m) ==> CallIds(m.content) != []
  {
  }

  lemma SameTail(a: seq<string>, b: seq<string>, x: seq<string>, y: seq<string>)
    requires |a| <= |b| && (x == y || x == [])
    ensures |a + x| <= |b + y|
    ensures a + x == b + y <==> a == b && x == y
  {
    if a + x == b + y {
      assert |a| == |b| && |x| == |y|;
      assert (a + x)[..|a|] == a && (b + y)[..|a|] == b;
    }
  }

  // ----- pairing -----

  function IdsOf(calls: seq<WireCall>): set<string> {
    set c | c in calls :: c.id
  }

  /** The call ids a tool message may answer after these messages. */
  function Available(ws: seq<WireMsg>): set<string> {
    if ws == [] then {}
    else
      var w := ws[|ws| - 1];
      if w.role == "tool" then Available(ws[..|ws| - 1])
      else if w.role == "assistant" then IdsOf(w.toolCalls)
      else {}
  }

  predicate Paired(ws: seq<WireMsg>) {
    ws != [] ==>
      && Paired(ws[..|ws| - 1])
      && (ws[|ws| - 1].role == "tool" ==> ws[|ws| - 1].toolCallID in Available(ws[..|ws| - 1]))
  }

  /** Message `j` is an assistant message with this call, and only tool messages separate it from `i`. */
  ghost predicate Reaches(ws: seq<WireMsg>, j: int, i: int, id: string) {
    && 0 <= j < i <= |ws|
    && ws[j].role == "assistant"
    && (exists c :: c in ws[j].toolCalls && c.id == id)
    && forall k :: j < k < i ==> ws[k].role == "tool"
  }

  ghost predicate Answered(ws: seq<WireMsg>) {
    forall i :: 0 <= i < |ws| && ws[i].role == "tool" ==> exists j :: Reaches(ws, j, i, ws[i].toolCallID)
  }

  lemma {:induction false} AvailableReaches(ws: seq<WireMsg>, id: string) returns (j: int)
    requires id in Available(ws)
    ensures Reaches(ws, j, |ws|, id)
  {
    var n := |ws| - 1;
    if ws[n].role == "tool" {
      j := AvailableReaches(ws[..n], id);
      assert ws[..n][j] == ws[j];
      assert forall k :: j < k < n ==> ws[k] == ws[..n][k];
    } else {
      j := n;
    }
  }

  lemma ReachesInPrefix(ws: seq<WireMsg>, n: int, j: int, i: int, id: string)
    requires 0 <= i <= n <= |ws|
    ensures Reaches(ws[..n], j, i, id) <==> Reaches(ws, j, i, id)
  {
    if 0 <= j < i {
      assert ws[..n][j] == ws[j];
      assert forall k :: j < k < i ==> ws[..n][k] == ws[k];
    }
  }

  lemma {:induction false} ReachesAvailable(ws: seq<WireMsg>, j: int, id: string)
    requires Reaches(ws, j, |ws|, id)
    ensures id in Available(ws)
  {
    var n := |ws| - 1;
    if j < n {
      assert Reaches(ws[..n], j, n, id) by { assert ws[..n][j] == ws[j]; }
      ReachesAvailable(ws[..n], j, id);
    }
  }

  /** The recursive reading of the pairing is the one by position. */
  lemma {:induction false} PairedIsAnswered(ws: seq<WireMsg>)
    ensures Paired(ws) <==> Answered(ws)
  {
    if ws != [] {
      var n := |ws| - 1;
      var id := ws[n].toolCallID;
      PairedIsAnswered(ws[..n]);
      AnsweredPrefix(ws);
      if ws[n].role == "tool" && id in Available(ws[..n]) {
        var j := AvailableReaches(ws[..n], id);
        ReachesInPrefix(ws, n, j, n, id);
      }
      if j :| Reaches(ws, j, n, id) {
        ReachesInPrefix(ws, n, j, n, id);
        ReachesAvailable(ws[..n], j, id);
      }
      hide Available, Answered, Reaches;
    }
  }

  lemma AnsweredPrefix(ws: seq<WireMsg>)
    requires ws != []
    ensures var n := |ws| - 1;
            Answered(ws) <==>
            Answered(ws[..n]) && (ws[n].role == "tool" ==> exists j :: Reaches(ws, j, n, ws[n].toolCallID))
  {
    var n := |ws| - 1;
    forall i, j | 0 <= i < n
      ensures Reaches(ws, j, i, ws[i].toolCallID) <==> Reaches(ws[..n], j, i, ws[..n][i].toolCallID)
    {
      ReachesInPrefix(ws, n, j, i, ws[i].toolCallID);
    }
    hide Reaches;
    if Answered(ws) {
      forall i | 0 <= i < n && ws[..n][i].role == "tool"
        ensures exists j :: Reaches(ws[..n], j, i, ws[..n][i].toolCallID)
      {
        var j :| Reaches(ws, j, i, ws[i].toolCallID);
        assert Reaches(ws[..n], j, i, ws[..n][i].toolCallID);
      }
    }
    if Answered(ws[..n]) && (ws[n].role == "tool" ==> exists j :: Reaches(ws, j, n, ws[n].toolCallID)) {
      forall i | 0 <= i < |ws| && ws[i].role == "tool"
        ensures exists j :: Reaches(ws, j, i, ws[i].toolCallID)
      {
        if i < n {
          assert ws[..n][i] == ws[i];
          var j :| Reaches(ws[..n], j, i, ws[..n][i].toolCallID);
          assert Reaches(ws, j, i, ws[i].toolCallID);
        }
      }
    }
  }

  // ----- the discipline on requests -----

  /** A message that sends tool messages at most, none of its own. */
  predicate Silent(m: Message) {
    || m.role == "tool"
    || (&& PartsOf(m.content) == []
        && if m.role == "user" then ResultIds(m.content) != [] || CallIds(m.content) == []
           else ResultIds(m.content) == [] && CallIds(m.content) == [])
  }

  /** The calls that results may answer after this message, if these were open before it. */
  function OpenAfter(open: seq<string>, m: Message): seq<string> {
    if Silent(m) then open else if m.role == "assistant" then CallIds(m.content) else []
  }

  function Open(messages: seq<Message>): seq<string> {
    if messages == [] then [] else OpenAfter(Open(messages[..|messages| - 1]), messages[|messages| - 1])
  }

  /** Results of users and tools answer open calls, those of an assistant its own calls; no other role holds any. */
  predicate InTurn(m: Message, open: seq<string>) {
    forall id :: id in ResultIds(m.content) ==>
      if m.role == "user" || m.role == "tool" then id in open
      else m.role == "assistant" && id in CallIds(m.content)
  }

  predicate AnswersInTurn(messages: seq<Message>) {
    messages != [] ==>
      && AnswersInTurn(messages[..|messages| - 1])
      && InTurn(messages[|messages| - 1], Open(messages[..|messages| - 1]))
  }

  lemma {:induction false} IdsConserved(calls: seq<WireCall>)
    ensures forall id :: id in WireCallIds(calls) <==> id in IdsOf(calls)
  {
    if calls != [] {
      var n := |calls| - 1;
      IdsConserved(calls[..n]);
      LastOf(calls);
      assert forall c :: c in calls <==> c in calls[..n] || c == calls[n];
      assert IdsOf(calls) == IdsOf(calls[..n]) + {calls[n].id};
    }
  }

  ghost predicate SameIds(available: set<string>, open: seq<string>) {
    forall id :: id in open <==> id in available
  }

  /** Appended tool messages are paired exactly when they answer available calls. */
  lemma {:induction false} AppendResults(ws: seq<WireMsg>, results: seq<WireMsg>)
    requires forall w :: w in results ==> w.role == "tool"
    ensures Paired(ws + results) <==> Paired(ws) && forall id :: id in WireResults(results) ==> id in Available(ws)
    ensures Available(ws + results) == Available(ws)
  {
    hide Paired, Available;
    if results == [] {
      Unit(ws);
    } else {
      var n := |results| - 1;
      var w := results[n];
      LastOf(results);
      WireSnoc(results[..n], w);
      assert w in results;
      AppendResults(ws, results[..n]);
      Associate(ws, results[..n], [w]);
      WireSnoc(ws + results[..n], w);
      hide WireResults;
    }
  }

  lemma MessagePaired(ws: seq<WireMsg>, m: Message, open: seq<string>)
    requires SameIds(Available(ws), open)
    ensures Paired(ws + EncodeMessage(m)) <==> Paired(ws) && InTurn(m, open)
    ensures SameIds(Available(ws + EncodeMessage(m)), OpenAfter(open, m))
  {
    var calls, results := CallsOf(m.content), ResultsOf(m.content);
    var msg := Plain(m.role, Shape(PartsOf(m.content)), calls, "");
    ResultsConserved(m.content);
    EncodedShape(m);
    hide ResultsOf, CallsOf, PartsOf, ResultIds, CallIds, WireResults, Shape, Paired, Available, IdsOf, EncodeMessage;
    if Silent(m) {
      AppendResults(ws, results);
    } else if m.role == "user" {
      hide Silent;
      AppendResults(ws, results);
      Associate(ws, results, [msg]);
      WireSnoc(ws + results, msg);
    } else {
      AnsweredByOwn(ws, msg, results);
      CallIdsConserved(m.content);
      hide Silent, AllTools;
    }
  }

  ghost predicate AllTools(ws: seq<WireMsg>) {
    forall w :: w in ws ==> w.role == "tool"
  }

  /** What is sent for a message, in terms of its ids. */
  lemma EncodedShape(m: Message)
    ensures var results, msg := ResultsOf(m.content), Plain(m.role, Shape(PartsOf(m.content)), CallsOf(m.content), "");
            EncodeMessage(m) == if Silent(m) then results else if m.role == "user" then results + [msg]
                                else [msg] + results
  {
    var parts, calls, results := PartsOf(m.content), CallsOf(m.content), ResultsOf(m.content);
    var msg := Plain(m.role, Shape(parts), calls, "");
    ResultsConserved(m.content);
    CallsConserved(m.content);
    NoIdsNoResults(results);
    NoIdsNoCalls(calls);
    Unit(results);
    Unit([msg]);
    hide ResultsOf, CallsOf, PartsOf, ResultIds, CallIds, WireCallIds, WireResults, Shape;
  }

  lemma CallIdsConserved(blocks: seq<ContentBlock>)
    ensures forall id :: id in CallIds(blocks) <==> id in IdsOf(CallsOf(blocks))
  {
    CallsConserved(blocks);
    IdsConserved(CallsOf(blocks));
  }

  /** A message of its own, followed by its results. */
  lemma AnsweredByOwn(ws: seq<WireMsg>, msg: WireMsg, results: seq<WireMsg>)
    requires AllTools(results) && msg.role != "tool"
    ensures var own := if msg.role == "assistant" then IdsOf(msg.toolCalls) else {};
            && (Paired(ws + ([msg] + results)) <==> Paired(ws) && forall id :: id in WireResults(results) ==> id in own)
            && Available(ws + ([msg] + results)) == own
  {
    WireSnoc(ws, msg);
    Associate(ws, [msg], results);
    AppendResults(ws + [msg], results);
    hide Paired, Available, WireResults, IdsOf;
  }

  lemma NoIdsNoResults(results: seq<WireMsg>)
    requires forall w :: w in results ==> w.role == "tool"
    ensures WireResults(results) == [] <==> results == []
  {
  }

  lemma NoIdsNoCalls(calls: seq<WireCall>)
    ensures WireCallIds(calls) == [] <==> calls == []
  {
  }

  lemma {:induction false} DialoguePaired(system: seq<WireMsg>, messages: seq<Message>)
    requires Paired(system) && Available(system) == {}
    ensures Paired(system + EncodeMessages(messages)) <==> AnswersInTurn(messages)
    ensures SameIds(Available(system + EncodeMessages(messages)), Open(messages))
  {
    hide EncodeMessage, Paired, Available, ResultIds, CallIds, InTurn, OpenAfter;
    if messages == [] {
      Unit(system);
    } else {
      var n := |messages| - 1;
      DialoguePaired(system, messages[..n]);
      Associate(system, EncodeMessages(messages[..n]), EncodeMessage(messages[n]));
      MessagePaired(system + EncodeMessages(messages[..n]), messages[n], Open(messages[..n]));
      hide SameIds;
    }
  }

  lemma {:induction false} SystemPaired(system: seq<ContentBlock>)
    ensures Paired(EncodeSystem(system)) && Available(EncodeSystem(system)) == {}
    ensures WireResults(EncodeSystem(system)) == [] && WireCalls(EncodeSystem(system)) == []
  {
    if system != [] {
      var n := |system| - 1;
      var b := system[n];
      SystemPaired(system[..n]);
      assert WireCallIds([]) == [];
      if b.TextBlock? && b.text.Some? {
        WireSnoc(EncodeSystem(system[..n]), Plain("system", Str(b.text.value), [], ""));
      } else {
        Unit(EncodeSystem(system[..n]));
      }
    }
  }

  /** Re-roling the last message changes no id and no pairing: that message has no calls. */
  lemma ReRolePaired(ws: seq<WireMsg>)
    ensures Paired(ReRole(ws)) == Paired(ws)
    ensures WireResults(ReRole(ws)) == WireResults(ws) && WireCalls(ReRole(ws)) == WireCalls(ws)
  {
  }

  /**
    The ids of the tool results are conserved in order in every encoded request; the
    ids of the tool calls are exactly when no message hides calls behind results.
   */
  lemma IdsAreConserved(req: ChatRequest)
    ensures WireResults(WireMessages(req)) == AllResultIds(req.messages)
    ensures WireCalls(WireMessages(req)) == AllCallIds(req.messages) <==> NoneHidden(req.messages)
  {
    var system, dialogue := EncodeSystem(req.system), EncodeMessages(req.messages);
    SystemPaired(req.system);
    DialogueConserves(req.messages);
    WireAppend(system, dialogue);
    ReRolePaired(system + dialogue);
    Unit(WireResults(dialogue));
    Unit(WireCalls(dialogue));
    hide EncodeSystem, EncodeMessages, ReRole, WireResults, WireCalls, NoneHidden;
  }

  /**
    In an encoded request every tool message is reached from an assistant message
    carrying its id through tool messages only, if and only if the results of the
    request come in turn.
   */
  lemma PairingSurvives(req: ChatRequest)
    ensures Answered(WireMessages(req)) <==> AnswersInTurn(req.messages)
  {
    var system, dialogue := EncodeSystem(req.system), EncodeMessages(req.messages);
    SystemPaired(req.system);
    DialoguePaired(system, req.messages);
    ReRolePaired(system + dialogue);
    PairedIsAnswered(WireMessages(req));
    hide Answered, Paired, ReRole, EncodeSystem, EncodeMessages, AnswersInTurn, Available, Open;
  }

  /** The calls of the latest message that is not a tool's, if it is an assistant's. */
  function LatestCalls(messages: seq<Message>): seq<string> {
    if messages == [] then []
    else
      var m := messages[|messages| - 1];
      if m.role == "tool" then LatestCalls(messages[..|messages| - 1])
      else if m.role == "assistant" then CallIds(m.content)
      else []
  }

  /**
    Results stand in user messages right after the assistant message that made the
    calls, or in tool messages following it; assistants hold none.
   */
  predicate Conversational(messages: seq<Message>) {
    messages != [] ==>
      var rest, m := messages[..|messages| - 1], messages[|messages| - 1];
      && Conversational(rest)
      && (m.role == "user" || m.role == "tool" || (m.role == "assistant" && ResultIds(m.content) == []))
      && forall id :: id in ResultIds(m.content) ==> id in LatestCalls(rest)
  }

  lemma {:induction false} ConversationsTakeTurns(messages: seq<Message>)
    requires Conversational(messages)
    ensures AnswersInTurn(messages)
    ensures forall id :: id in LatestCalls(messages) ==> id in Open(messages)
  {
    hide ResultIds, CallIds, PartsOf;
    if messages != [] {
      ConversationsTakeTurns(messages[..|messages| - 1]);
    }
  }

  /** In particular the usual conversation keeps its pairing. */
  lemma ConversationsStayPaired(req: ChatRequest)
    requires Conversational(req.messages)
    ensures Answered(WireMessages(req))
  {
    ConversationsTakeTurns(req.messages);
    PairingSurvives(req);
    hide Answered, AnswersInTurn, Conversational, WireMessages;
  }

  // ----- inferred tools -----

  /** Whether some history message calls the function `name`. */
  ghost predicate Calls(messages: seq<WireMsg>, name: string) {
    exists w, c :: w in messages && c in w.toolCalls && c.name == name
  }

  lemma {:induction false} NamesAreCalled(calls: seq<WireCall>)
    ensures forall name :: name in NamesIn(calls) <==> name != "" && exists c :: c in calls && c.name == name
  {
    if calls != [] {
      var n := |calls| - 1;
      NamesAreCalled(calls[..n]);
      LastOf(calls);
      assert forall c :: c in calls <==> c in calls[..n] || c == calls[n];
    }
  }

  lemma {:induction false} HistoryIsCalled(messages: seq<WireMsg>)
    ensures forall name :: name in HistoryNames(messages) <==> name != "" && Calls(messages, name)
  {
    if messages != [] {
      var n := |messages| - 1;
      var w := messages[n];
      HistoryIsCalled(messages[..n]);
      NamesAreCalled(w.toolCalls);
      LastOf(messages);
      assert forall x :: x in messages <==> x in messages[..n] || x == w;
      forall name
        ensures Calls(messages, name) <==>
                Calls(messages[..n], name) || exists c :: c in w.toolCalls && c.name == name {
        if c :| c in w.toolCalls && c.name == name {
          assert w in messages && c in w.toolCalls;
        }
      }
    }
  }

  /** The inferred tools name exactly the called functions, each once, in first-seen order. */
  ghost predicate NamesTheCalled(tools: seq<WireTool>, messages: seq<WireMsg>) {
    var history := HistoryNames(messages);
    && |tools| == |FirstSeen(history)|
    && (forall i :: 0 <= i < |tools| ==> tools[i] == InferredTool(FirstSeen(history)[i]))
    && InOrder(FirstSeen(history), history)
    && (forall i :: 0 <= i < |tools| ==> tools[i].name != "" && Calls(messages, tools[i].name))
    && forall name :: name != "" && Calls(messages, name) ==> exists i :: 0 <= i < |tools| && tools[i].name == name
  }

  lemma InferToolsExact(messages: seq<WireMsg>)
    ensures NamesTheCalled(InferTools(messages), messages)
  {
    var history := HistoryNames(messages);
    var tools := InferTools(messages);
    HistoryIsCalled(messages);
    FirstSeenIsDedup(history);
    hide HistoryNames, FirstSeen, Calls, InOrder;
    forall i | 0 <= i < |tools| ensures tools[i].name != "" && Calls(messages, tools[i].name) {
      assert FirstSeen(history)[i] in FirstSeen(history);
      assert tools[i].name in history;
    }
    forall name | name != "" && Calls(messages, name)
      ensures exists i :: 0 <= i < |tools| && tools[i].name == name
    {
      assert name in history && name in FirstSeen(history);
      var i :| 0 <= i < |FirstSeen(history)| && FirstSeen(history)[i] == name;
      assert tools[i].name == name;
    }
  }

  /**
    A request without function tools and without web search is given exactly the
    distinct function names its history calls, in first-seen order; otherwise nothing
    is inferred.
   */
  lemma InferredTools(req: ChatRequest, to: Upstream)
    ensures var w, explicit := Encode(req, to), FunctionTools(req.tools);
            if explicit == [] && !WantsSearch(req.tools)
            then NamesTheCalled(w.tools, w.messages) else w.tools == explicit
  {
    InferToolsExact(WireMessages(req));
  }
}
