/**
  The closing `message_delta` of the stream against the stop reason and the usage of the
  aggregated answer: the encoder tells what it knows when the pair is first complete,
  the aggregator merges everything that arrives.
 */
module ClosingDelta {
  import opened Wrappers
  import opened Types
  import opened AnthropicEncoder
  import opened OpenAIStream
  import opened Aggregate
  import opened Bookkeeping

  /** The stream closes with one delta, which says what the answer says. */
  ghost predicate Closes(trace: seq<Sse>, answer: Response) {
    var ds := MessageDeltas(trace);
    && |ds| == 1 && ds[0].MessageDelta?
    && ds[0].stopReason == answer.stopReason
    && answer.usage.Some? && Tells(ds[0].usage, answer.usage.value)
  }

  // ----- every event sequence -----

  /** The stop reason told, `end_turn` for want of one. */
  function ToldStop(events: seq<StreamEvent>): string {
    var told := LatestStop(Telling(events));
    if told == "" then "end_turn" else told
  }

  /** The stop reason told is the latest. */
  predicate StopTold(events: seq<StreamEvent>) {
    LatestStop(events) == ToldStop(events)
  }

  /** What encoding these events tells is what the aggregate of `own` holds. */
  predicate TellsOf(events: seq<StreamEvent>, own: seq<StreamEvent>) {
    SawUsage(own) && LatestStop(own) == ToldStop(events) && CountsTold(ToldUsage(events), Reports(own))
  }

  function OrZero(count: Option<int>): int {
    if count.Some? then count.value else 0
  }

  /** The counts told are, field by field, the last reported. */
  predicate CountsTold(told: Usage, reports: seq<Usage>) {
    var input, output := LastSome(Field(reports, (u: Usage) => u.input)),
      LastSome(Field(reports, (u: Usage) => u.output));
    && (input.Some? ==> OrZero(told.input) == input.value)
    && (output.Some? ==> OrZero(told.output) == output.value)
    && told.cacheRead == LastSome(Field(reports, (u: Usage) => u.cacheRead))
    && told.cacheWrite == LastSome(Field(reports, (u: Usage) => u.cacheWrite))
  }

  function ToldUsage(events: seq<StreamEvent>): Usage {
    var u := LatestUsage(Telling(events));
    if u.Some? then u.value else Usage(None, None, None, None, None, None)
  }

  lemma {:induction false} AggregatedStop(events: seq<StreamEvent>)
    ensures ApplyAll(Empty, events).stopReason == LatestStop(events)
  {
    if events != [] {
      var rest, ev := events[..|events| - 1], events[|events| - 1];
      AggregatedStop(rest);
      ApplyAllSnoc(Empty, rest, ev);
      LastOf(events);
      hide ApplyAll;
      StopAfter(ApplyAll(Empty, rest), ev);
    }
  }

  lemma StopAfter(a: Agg, ev: StreamEvent)
    ensures Apply(a, ev).stopReason == if ev.body.MessageStop? then ev.body.stopReason else a.stopReason
  {
  }

  lemma {:induction false} ReportsSeen(events: seq<StreamEvent>)
    ensures Reports(events) == [] <==> !SawUsage(events)
  {
    if events != [] {
      ReportsSeen(events[..|events| - 1]);
    }
  }

  lemma ToldCounts(events: seq<StreamEvent>)
    ensures Told(Telling(events)).usage ==
            var u := ToldUsage(events); UsagePayload(OrZero(u.input), OrZero(u.output), u.cacheWrite, u.cacheRead)
  {
  }

  /**
    For any two event sequences, one encoded and closed, the other aggregated: the stream
    closes with what the answer says if and only if a delta is due and tells it.
   */
  lemma ClosedAgainstAnswer(events: seq<StreamEvent>, own: seq<StreamEvent>, parse: Parser)
    ensures Closes(Finish(Run(Init, events)).out, Final(ApplyAll(Empty, own), parse)) <==>
            (Completed(events) || SawUsage(events) || LatestStop(events) != "") && TellsOf(events, own)
  {
    MessageDeltaOnce(events);
    AggregatedStop(own);
    UsageIsFieldwiseLast(own);
    ReportsSeen(own);
    ToldCounts(events);
    hide Run, Finish, ApplyAll, MessageDeltas, Telling, LatestStop, LatestUsage, Reports, SawUsage, Completed,
      Field, LastSome, FinalContent, ToldUsage;
  }

  /** A stream that breaks off must have completed the pair. */
  lemma OpenAgainstAnswer(events: seq<StreamEvent>, own: seq<StreamEvent>, parse: Parser)
    ensures Closes(Run(Init, events).out, Final(ApplyAll(Empty, own), parse)) <==>
            Completed(events) && TellsOf(events, own)
  {
    RunTells(events);
    MessageDeltaOnce(events);
    ClosedAgainstAnswer(events, own, parse);
    hide Run, Finish, ApplyAll, Telling, LatestStop, LatestUsage, Reports, SawUsage, Completed, FinalContent,
      ToldUsage, Told, TellsOf;
  }

  /**
    For every event sequence, the closing delta is there and says what the aggregated
    answer says if and only if usage was reported, the stop reason told is the latest,
    and the counts told are, field by field, the last reported.
   */
  lemma ClosingDeltaAgrees(events: seq<StreamEvent>, parse: Parser)
    ensures Closes(Finish(Run(Init, events)).out, Final(ApplyAll(Empty, events), parse)) <==>
            SawUsage(events) && StopTold(events) && CountsTold(ToldUsage(events), Reports(events))
  {
    ClosedAgainstAnswer(events, events, parse);
    hide Run, Finish, ApplyAll, Closes, ToldStop, CountsTold, SawUsage, LatestStop, Reports;
  }

  /** A stream that breaks off must besides have completed the pair. */
  lemma OpenDeltaAgrees(events: seq<StreamEvent>, parse: Parser)
    ensures Closes(Run(Init, events).out, Final(ApplyAll(Empty, events), parse)) <==>
            Completed(events) && SawUsage(events) && StopTold(events) && CountsTold(ToldUsage(events), Reports(events))
  {
    OpenAgainstAnswer(events, events, parse);
    hide Run, ApplyAll, Closes, ToldStop, CountsTold, SawUsage, LatestStop, Reports, Completed;
  }

  // ----- what the decoder produces -----

  /** The decoder's events: stops have a reason and reports are complete, among other things. */
  predicate Decodable(events: seq<StreamEvent>) {
    forall ev :: ev in events ==> Faithful(ev.body) || ev.body.ThinkingSignature?
  }

  lemma DecodablePrefix(events: seq<StreamEvent>)
    requires Decodable(events) && events != []
    ensures Decodable(events[..|events| - 1])
    ensures var body := events[|events| - 1].body; Faithful(body) || body.ThinkingSignature?
  {
    assert events[|events| - 1] in events;
  }

  lemma {:induction false} LinesDecodable(lines: seq<Line>)
    ensures Decodable(AllEvents(lines)) && Decodable(Delivered(lines))
    decreases |lines|
  {
    if lines != [] && !lines[0].DoneMark? {
      LinesDecodable(lines[1..]);
      if lines[0].Data? && lines[0].chunk.Some? {
        DecodedEvents(lines[0].chunk.value);
      }
      hide DecodeChunk, Faithful, IsSources;
    }
  }

  /** A decoded sequence completes the pair exactly by a stop and a report, and tells both. */
  lemma {:induction false} DecodedCompletes(events: seq<StreamEvent>)
    requires Decodable(events)
    ensures Completed(events) <==> SawUsage(events) && LatestStop(events) != ""
    ensures Completed(events) ==> SawUsage(Telling(events)) && LatestStop(Telling(events)) != ""
  {
    if events != [] {
      DecodablePrefix(events);
      DecodedCompletes(events[..|events| - 1]);
    }
  }

  /** So for decoded events `message_delta` is due exactly when usage or a stop was decoded. */
  lemma DecodedDeltaOnce(events: seq<StreamEvent>)
    requires Decodable(events)
    ensures MessageDeltas(Finish(Run(Init, events)).out) ==
            if SawUsage(events) || LatestStop(events) != "" then [Told(Telling(events))] else []
  {
    MessageDeltaOnce(events);
    DecodedCompletes(events);
    hide Run, Finish, MessageDeltas, Telling;
  }

  /** Decoded reports are complete, so the last one has the last input, output and total. */
  lemma {:induction false} LatestReport(events: seq<StreamEvent>)
    requires Decodable(events) && SawUsage(events)
    ensures LatestUsage(events).Some? && Complete(LatestUsage(events).value)
    ensures var u, reports := LatestUsage(events).value, Reports(events);
            && LastSome(Field(reports, (u: Usage) => u.input)) == u.input
            && LastSome(Field(reports, (u: Usage) => u.output)) == u.output
            && LastSome(Field(reports, (u: Usage) => u.total)) == u.total
  {
    var rest, ev := events[..|events| - 1], events[|events| - 1];
    DecodablePrefix(events);
    if ReportsUsage(ev) {
      FieldSnoc(Reports(rest), ev.body.usage.value, (u: Usage) => u.input);
      FieldSnoc(Reports(rest), ev.body.usage.value, (u: Usage) => u.output);
      FieldSnoc(Reports(rest), ev.body.usage.value, (u: Usage) => u.total);
    } else {
      LatestReport(rest);
      Unit(Reports(rest));
    }
  }

  lemma {:induction false} TellingIsPrefix(events: seq<StreamEvent>)
    ensures Telling(events) <= events
  {
    if events != [] {
      TellingIsPrefix(events[..|events| - 1]);
    }
  }

  /**
    For decoded events they agree if and only if a stop and a report arrived, no later
    stop has another reason, the last report repeats the input and output told, and the
    cache counts told are the last reported.
   */
  lemma DecodedClosingDelta(events: seq<StreamEvent>, parse: Parser)
    requires Decodable(events)
    ensures Closes(Finish(Run(Init, events)).out, Final(ApplyAll(Empty, events), parse)) <==>
            && SawUsage(events) && LatestStop(events) != ""
            && LatestStop(Telling(events)) == LatestStop(events)
            && var told, last, reports := LatestUsage(Telling(events)), LatestUsage(events), Reports(events);
               && told.Some? && last.Some?
               && told.value.input == last.value.input && told.value.output == last.value.output
               && told.value.cacheRead == LastSome(Field(reports, (u: Usage) => u.cacheRead))
               && told.value.cacheWrite == LastSome(Field(reports, (u: Usage) => u.cacheWrite))
  {
    ClosingDeltaAgrees(events, parse);
    DecodedCompletes(events);
    TellingIsPrefix(events);
    NothingTold(events);
    if SawUsage(events) && LatestStop(events) != "" {
      assert Decodable(Telling(events));
      LatestReport(events);
      LatestReport(Telling(events));
    }
    hide Run, Finish, ApplyAll, Closes, Telling, LatestStop, LatestUsage, Reports, SawUsage, Completed, Field, LastSome;
  }

  /** Without a stop the delta says `end_turn`, which no aggregate of such events does. */
  lemma NothingTold(events: seq<StreamEvent>)
    requires Decodable(events)
    ensures LatestStop(events) == "" ==> !StopTold(events)
  {
    DecodedCompletes(events);
  }

  // ----- unanimous reports -----

  /** In particular when stop and usage are each reported once, or repeatedly but unanimously, in whichever order. */
  lemma UnanimousClosingDelta(events: seq<StreamEvent>, reason: string, usage: Usage, parse: Parser)
    requires reason != "" && Unanimous(events, reason, usage)
    requires SawUsage(events) && LatestStop(events) != ""
    ensures Closes(Finish(Run(Init, events)).out, Final(ApplyAll(Empty, events), parse))
  {
    UnanimousTelling(events, reason, usage);
    UnanimousReports(events, reason, usage);
    ReportsSeen(events);
    ClosingDeltaAgrees(events, parse);
    hide Run, Finish, ApplyAll, Closes, Telling, LatestStop, LatestUsage, Reports, SawUsage, Completed, Field, LastSome;
  }

  lemma {:induction false} UnanimousReports(events: seq<StreamEvent>, reason: string, usage: Usage)
    requires Unanimous(events, reason, usage)
    ensures Reports(events) != [] ==> IsMergeOf(Some(usage), Reports(events))
  {
    if events != [] {
      var rest, ev := events[..|events| - 1], events[|events| - 1];
      assert ev in events;
      UnanimousReports(rest, reason, usage);
      if ReportsUsage(ev) {
        MergeSnoc(if Reports(rest) == [] then None else Some(usage), Reports(rest), usage);
        assert MergeUsage(None, usage) == usage == MergeUsage(Some(usage), usage);
      } else {
        Unit(Reports(rest));
      }
    }
  }
}
