/**
  Retry and fallback (server/public_anthropic.go): up to three attempts per
  candidate provider, the next candidate only after server errors, each attempt with
  parameters derived from the client's request alone.
 */
module Fallback {
  import opened Wrappers
  import opened Overrides
  import opened Parameters

  const MaxRetries := 3

  /** What one upstream call comes to; `status` is that of the result, if there is one. */
  datatype Attempt = Succeeded | Failed(clientGone: bool, status: Option<int>)

  /** `encodes` is false when the request cannot be marshalled; `written` is the status the handler writes. */
  datatype Candidate = Candidate(override: OverrideParams, encodes: bool, written: int)

  datatype Action =
    | Try(candidate: nat, attempt: nat, params: ParamsValue)
    | Respond(status: int)
    | Record(success: bool, status: int)

  /** The outcomes of all possible attempts, by candidate and attempt number. */
  type Script = (nat, nat) -> Attempt

  function StatusOf(a: Attempt): int
    requires a.Failed?
  {
    if a.status.Some? && a.status.value != 0 then a.status.value else 502
  }

  /** A failure that is tried again: the client is still there and the server is at fault. */
  predicate Retriable(a: Attempt) {
    a.Failed? && !a.clientGone && StatusOf(a) >= 500
  }

  datatype Retry = Delivered | Refused(status: int)

  function Verdict(a: Attempt): Retry {
    if a.Succeeded? then Delivered else if a.clientGone then Refused(499) else Refused(StatusOf(a))
  }

  /** How many attempts are made on a candidate, counting from attempt `k`. */
  function LastAttempt(script: Script, c: nat, k: nat): (last: nat)
    requires 1 <= k <= MaxRetries
    ensures k <= last <= MaxRetries
    decreases MaxRetries - k
  {
    if k == MaxRetries || !Retriable(script(c, k)) then k else LastAttempt(script, c, k + 1)
  }

  function Tries(c: nat, count: nat, params: ParamsValue): seq<Action> {
    seq(count, k requires 0 <= k < count => Try(c, k + 1, params))
  }

  /** The log of the handler from candidate `c` on. */
  function Handle(script: Script, candidates: seq<Candidate>, client: ParamsValue, c: nat, lastStatus: int): seq<Action>
    requires c <= |candidates|
    decreases |candidates| - c
  {
    if c == |candidates| then [Respond(lastStatus), Record(false, lastStatus)]
    else if !candidates[c].encodes then [Respond(500), Record(false, 500)]
    else
      var last := LastAttempt(script, c, 1);
      Tries(c, last, ApplyTo(client, candidates[c].override)) +
      match Verdict(script(c, last))
      case Delivered =>
        var w := candidates[c].written;
        [Respond(w), Record(0 < w < 400, w)]
      case Refused(status) =>
        if status == 499 then []
        else if status >= 500 && c < |candidates| - 1 then Handle(script, candidates, client, c + 1, status)
        else [Respond(status), Record(false, status)]
  }

  // ----- the loops -----

  method ExecuteWithRetry(script: Script, c: nat, params: ParamsValue, before: seq<Action>)
    returns (r: Retry, log: seq<Action>)
    ensures var last := LastAttempt(script, c, 1);
            r == Verdict(script(c, last)) && log == before + Tries(c, last, params)
  {
    log := before;
    for attempt := 1 to MaxRetries + 1
      invariant log == before + Tries(c, attempt - 1, params)
      invariant attempt <= MaxRetries
      invariant LastAttempt(script, c, 1) == LastAttempt(script, c, attempt)
    {
      assert Tries(c, attempt, params) == Tries(c, attempt - 1, params) + [Try(c, attempt, params)];
      log := log + [Try(c, attempt, params)];
      var result := script(c, attempt);
      if result.Succeeded? {
        return Delivered, log;
      }
      if result.clientGone {
        return Refused(499), log;
      }
      var statusCode := 502;
      if result.status.Some? && result.status.value != 0 {
        statusCode := result.status.value;
      }
      if statusCode < 500 || attempt == MaxRetries {
        return Refused(statusCode), log;
      }
    }
    assert false;
  }

  /**
    The provider loop. Only `req` itself is written: the client's reasoning object is
    outside the frame, however many providers are tried.
   */
  method ProxyHandler(script: Script, candidates: seq<Candidate>, req: RequestState)
    returns (log: seq<Action>, fellThrough: bool)
    modifies req
    ensures log == Handle(script, candidates, old(Value(req.params)), 0, 0)
    ensures fellThrough <==> candidates == []
  {
    hide ApplyTo, LastAttempt, Verdict, Tries;
    var originalParams := Clone(req.params);
    ghost var client := Value(originalParams);
    var lastStatusCode := 0;
    log := [];
    for c := 0 to |candidates|
      invariant Handle(script, candidates, client, 0, 0) == log + Handle(script, candidates, client, c, lastStatusCode)
      invariant Value(originalParams) == client
      invariant originalParams.reasoning != null ==> fresh(originalParams.reasoning)
      invariant originalParams.format != null ==> fresh(originalParams.format)
      invariant c > 0 ==> c < |candidates|
    {
      var candidate := candidates[c];
      var clone := Clone(originalParams);
      req.params := clone;
      req.ApplyOverride(candidate.override);
      assert Value(req.params) == ApplyTo(client, candidate.override);
      if !candidate.encodes {
        return log + [Respond(500), Record(false, 500)], false;
      }
      ghost var before, tries := log, Tries(c, LastAttempt(script, c, 1), Value(req.params));
      var rr;
      rr, log := ExecuteWithRetry(script, c, Value(req.params), log);
      if rr.Refused? {
        if rr.status == 499 {
          Unit(tries);
          return log, false;
        }
        lastStatusCode := rr.status;
        if rr.status >= 500 && c < |candidates| - 1 {
          Associate(before, tries, Handle(script, candidates, client, c + 1, rr.status));
          continue;
        }
        Associate(before, tries, [Respond(rr.status), Record(false, rr.status)]);
        return log + [Respond(rr.status), Record(false, rr.status)], false;
      }
      var status := candidate.written;
      var success := status > 0 && status < 400;
      Associate(before, tries, [Respond(status), Record(success, status)]);
      return log + [Respond(status), Record(success, status)], false;
    }
    return log + [Respond(lastStatusCode), Record(false, lastStatusCode)], true;
  }

  // ----- safety over whole runs -----

  /** Attempt (c, k) comes before attempt (d, l). */
  predicate Before(c: nat, k: nat, d: nat, l: nat) {
    c < d || (c == d && k < l)
  }

  /** Every attempt before (d, l), from candidate `from` on, was made and failed retriably. */
  ghost predicate Reached(script: Script, candidates: seq<Candidate>, from: nat, d: nat, l: nat)
    requires d < |candidates|
  {
    && from <= d && 1 <= l <= MaxRetries
    && (forall c :: from <= c <= d ==> candidates[c].encodes)
    && forall c, k {:trigger script(c, k)} :: from <= c && 1 <= k <= MaxRetries && Before(c, k, d, l) ==>
        Retriable(script(c, k))
  }

  ghost predicate AllBefore(script: Script, c: nat, k: nat) {
    forall j {:trigger script(c, j)} :: 1 <= j < k ==> Retriable(script(c, j))
  }

  lemma {:induction false} LastIsFirstFinal(script: Script, c: nat, k: nat)
    requires 1 <= k <= MaxRetries && AllBefore(script, c, k)
    ensures var last := LastAttempt(script, c, k);
            AllBefore(script, c, last) && (last == MaxRetries || !Retriable(script(c, last)))
    decreases MaxRetries - k
  {
  }

  /** Attempts of one candidate in a log segment: those up to the first that is final. */
  lemma OwnTries(script: Script, candidates: seq<Candidate>, c: nat, params: ParamsValue, l: nat, p: ParamsValue)
    requires c < |candidates| && candidates[c].encodes
    ensures Try(c, l, p) in Tries(c, LastAttempt(script, c, 1), params) <==>
            Reached(script, candidates, c, c, l) && p == params
  {
    LastIsFirstFinal(script, c, 1);
    var last := LastAttempt(script, c, 1);
    var tries := Tries(c, last, params);
    if 1 <= l <= last {
      assert tries[l - 1] == Try(c, l, params);
    }
  }

  /** Going on to the next candidate means all attempts on this one failed retriably. */
  lemma Exhausted(script: Script, c: nat)
    ensures var last := LastAttempt(script, c, 1);
            Verdict(script(c, last)).Refused? && Verdict(script(c, last)).status >= 500 <==>
            forall k {:trigger script(c, k)} :: 1 <= k <= MaxRetries ==> Retriable(script(c, k))
  {
  }

  /**
    An attempt is made exactly when every earlier attempt, on this candidate and on
    all before it, failed with a server error while the client was still there; its
    parameters are the client's with this candidate's override and nothing else.
   */
  lemma {:induction false} AttemptsMade(script: Script, candidates: seq<Candidate>, client: ParamsValue, c: nat,
                                       lastStatus: int, d: nat, l: nat, p: ParamsValue)
    requires c <= |candidates|
    ensures Try(d, l, p) in Handle(script, candidates, client, c, lastStatus) <==>
            d < |candidates| && Reached(script, candidates, c, d, l) && p == ApplyTo(client, candidates[d].override)
    decreases |candidates| - c
  {
    if c < |candidates| && candidates[c].encodes {
      var last := LastAttempt(script, c, 1);
      var params := ApplyTo(client, candidates[c].override);
      var status := if Verdict(script(c, last)).Refused? then Verdict(script(c, last)).status else 0;
      Exhausted(script, c);
      hide LastAttempt, Verdict, Retriable, ApplyTo;
      if d == c {
        OwnTries(script, candidates, c, params, l, p);
        AttemptsMade(script, candidates, client, c + 1, status, d, l, p);
        hide Reached;
      } else {
        assert Try(d, l, p) !in Tries(c, last, params);
        hide Reached, Tries;
        AttemptsMade(script, candidates, client, c + 1, status, d, l, p);
        LaterReached(script, candidates, c, d, l);
        NextOnlyIfExhausted(script, candidates, c, d, l);
      }
    }
  }

  lemma LaterReached(script: Script, candidates: seq<Candidate>, c: nat, d: nat, l: nat)
    requires c < |candidates|
    ensures d < |candidates| && c < d && Reached(script, candidates, c, d, l) ==>
              Reached(script, candidates, c + 1, d, l)
  {
  }

  lemma NextOnlyIfExhausted(script: Script, candidates: seq<Candidate>, c: nat, d: nat, l: nat)
    requires c < |candidates| && candidates[c].encodes
    ensures d < |candidates| && c < d ==>
              (Reached(script, candidates, c, d, l) <==>
                 && Reached(script, candidates, c + 1, d, l)
                 && forall k {:trigger script(c, k)} :: 1 <= k <= MaxRetries ==> Retriable(script(c, k)))
  {
  }

  /** Attempts appear in order and never twice. */
  ghost predicate InOrder(log: seq<Action>) {
    forall i, j :: 0 <= i < j < |log| && log[i].Try? && log[j].Try? ==>
      Before(log[i].candidate, log[i].attempt, log[j].candidate, log[j].attempt)
  }

  function Records(log: seq<Action>): nat {
    if log == [] then 0 else Records(log[..|log| - 1]) + if log[|log| - 1].Record? then 1 else 0
  }

  lemma {:induction false} RecordsAppend(a: seq<Action>, b: seq<Action>)
    ensures Records(a + b) == Records(a) + Records(b)
  {
    if b == [] {
      assert a + b == a;
    } else {
      RecordsAppend(a, b[..|b| - 1]);
      assert (a + b)[..|a| + |b| - 1] == a + b[..|b| - 1];
    }
  }

  lemma Ending(status: int, success: bool)
    ensures Records([Respond(status), Record(success, status)]) == 1
  {
    var end := [Respond(status), Record(success, status)];
    assert end[..1] == [Respond(status)] && [Respond(status)][..0] == [];
    assert Records([]) == 0;
    assert Records([Respond(status)]) == 0;
  }

  /** How many attempts the log begins with. */
  function LeadingTries(log: seq<Action>): (k: nat)
    ensures k <= |log|
    ensures forall i :: 0 <= i < k ==> log[i].Try?
    ensures k < |log| ==> !log[k].Try?
  {
    if log == [] || !log[0].Try? then 0 else 1 + LeadingTries(log[1..])
  }

  /** What closes a run whose last attempt was on candidate `d` with verdict `v`. */
  function Answer(v: Retry, d: nat, candidates: seq<Candidate>): seq<Action>
    requires d < |candidates|
  {
    match v
    case Delivered => [Respond(candidates[d].written), Record(0 < candidates[d].written < 400, candidates[d].written)]
    case Refused(status) =>
      if status == 499 then []
      else if status >= 500 && d + 1 < |candidates| then [Respond(500), Record(false, 500)]
      else [Respond(status), Record(false, status)]
  }

  /**
    A run is attempts and then its close. The close is decided by the last attempt's
    verdict; after a server error with providers left, by the next request that could
    not be encoded. Without any attempt there was no provider, or none to encode for.
   */
  ghost predicate EndsProperly(log: seq<Action>, script: Script, candidates: seq<Candidate>, c: nat, lastStatus: int) {
    var k := LeadingTries(log);
    if k == 0 then
      if c < |candidates| then !candidates[c].encodes && log == [Respond(500), Record(false, 500)]
      else log == [Respond(lastStatus), Record(false, lastStatus)]
    else
      var d, v := log[k - 1].candidate, Verdict(script(log[k - 1].candidate, log[k - 1].attempt));
      && d < |candidates|
      && log[k..] == Answer(v, d, candidates)
      && (v.Refused? && v.status >= 500 && d + 1 < |candidates| ==> !candidates[d + 1].encodes)
  }

  lemma {:induction false} LeadingTriesOf(c: nat, count: nat, params: ParamsValue, rest: seq<Action>)
    ensures LeadingTries(Tries(c, count, params) + rest) == count + LeadingTries(rest)
  {
    var log := Tries(c, count, params) + rest;
    var k, r := LeadingTries(log), LeadingTries(rest);
    assert forall i :: 0 <= i < count ==> log[i].Try?;
    assert forall i :: count <= i < |log| ==> log[i] == rest[i - count];
    assert forall i :: 0 <= i < count + r ==> log[i].Try?;
    assert r < |rest| ==> !log[count + r].Try?;
  }

  lemma EndTries(script: Script, candidates: seq<Candidate>, c: nat, count: nat, params: ParamsValue, lastStatus: int)
    requires c < |candidates| && count > 0
    requires var v := Verdict(script(c, count)); v.Refused? && v.status >= 500 ==> c + 1 == |candidates|
    ensures var v := Verdict(script(c, count));
            EndsProperly(Tries(c, count, params) + Answer(v, c, candidates), script, candidates, c, lastStatus)
  {
    var end := Answer(Verdict(script(c, count)), c, candidates);
    LeadingTriesOf(c, count, params, end);
    assert LeadingTries(end) == 0;
    assert (Tries(c, count, params) + end)[count..] == end;
  }

  lemma PrependTries(script: Script, candidates: seq<Candidate>, c: nat, count: nat, params: ParamsValue,
      rest: seq<Action>, before: int, status: int)
    requires c + 1 < |candidates| && count > 0 && EndsProperly(rest, script, candidates, c + 1, status)
    requires Verdict(script(c, count)).Refused? && Verdict(script(c, count)).status >= 500
    ensures EndsProperly(Tries(c, count, params) + rest, script, candidates, c, before)
  {
    var log, k := Tries(c, count, params) + rest, LeadingTries(rest);
    LeadingTriesOf(c, count, params, rest);
    assert log[count + k..] == rest[k..];
    if k > 0 {
      assert log[count + k - 1] == rest[k - 1];
    }
  }

  lemma {:induction false} RunEnds(script: Script, candidates: seq<Candidate>, client: ParamsValue, c: nat,
      lastStatus: int)
    requires c <= |candidates|
    ensures EndsProperly(Handle(script, candidates, client, c, lastStatus), script, candidates, c, lastStatus)
    decreases |candidates| - c
  {
    if c < |candidates| && candidates[c].encodes {
      var last := LastAttempt(script, c, 1);
      var params := ApplyTo(client, candidates[c].override);
      var v := Verdict(script(c, last));
      hide LastAttempt, EndsProperly, Tries, ApplyTo, Verdict;
      if v.Refused? && v.status >= 500 && c < |candidates| - 1 {
        RunEnds(script, candidates, client, c + 1, v.status);
        PrependTries(script, candidates, c, last, params, Handle(script, candidates, client, c + 1, v.status),
            lastStatus, v.status);
      } else {
        EndTries(script, candidates, c, last, params, lastStatus);
      }
    }
  }

  lemma {:induction false} NoRecordsInTries(log: seq<Action>)
    requires forall i :: 0 <= i < |log| ==> log[i].Try?
    ensures Records(log) == 0
  {
    if log != [] {
      NoRecordsInTries(log[..|log| - 1]);
    }
  }

  /** The verdict of the run's last attempt was that the client has gone. */
  ghost predicate ClientGone(log: seq<Action>, script: Script) {
    var k := LeadingTries(log);
    k > 0 && Verdict(script(log[k - 1].candidate, log[k - 1].attempt)) == Refused(499)
  }

  /** One usage record, or none if and only if the last verdict was 499. */
  lemma RecordedOnce(log: seq<Action>, script: Script, candidates: seq<Candidate>, lastStatus: int)
    requires EndsProperly(log, script, candidates, 0, lastStatus)
    ensures Records(log) == if ClientGone(log, script) then 0 else 1
  {
    var k := LeadingTries(log);
    assert log[..k] + log[k..] == log;
    RecordsAppend(log[..k], log[k..]);
    NoRecordsInTries(log[..k]);
    assert Records([]) == 0;
    if log[k..] != [] {
      assert log[k..] == [Respond(log[k].status), Record(log[k + 1].success, log[k + 1].status)];
      Ending(log[k].status, log[k + 1].success);
    }
  }

  /** All attempts of the log are on candidates from `c` on. */
  ghost predicate From(log: seq<Action>, c: nat) {
    forall i :: 0 <= i < |log| && log[i].Try? ==> log[i].candidate >= c
  }

  lemma TriesInOrder(c: nat, count: nat, params: ParamsValue, rest: seq<Action>)
    requires InOrder(rest) && From(rest, c + 1)
    ensures InOrder(Tries(c, count, params) + rest) && From(Tries(c, count, params) + rest, c)
  {
  }

  lemma {:induction false} RunInOrder(script: Script, candidates: seq<Candidate>, client: ParamsValue, c: nat,
      lastStatus: int)
    requires c <= |candidates|
    ensures InOrder(Handle(script, candidates, client, c, lastStatus)) &&
            From(Handle(script, candidates, client, c, lastStatus), c)
    decreases |candidates| - c
  {
    if c < |candidates| && candidates[c].encodes {
      var last := LastAttempt(script, c, 1);
      var params := ApplyTo(client, candidates[c].override);
      var w := candidates[c].written;
      var v := Verdict(script(c, last));
      var status := if v.Refused? then v.status else 0;
      RunInOrder(script, candidates, client, c + 1, status);
      hide LastAttempt, Verdict, ApplyTo, Tries;
      TriesInOrder(c, last, params, Handle(script, candidates, client, c + 1, status));
      TriesInOrder(c, last, params, []);
      TriesInOrder(c, last, params, [Respond(w), Record(0 < w < 400, w)]);
      TriesInOrder(c, last, params, [Respond(status), Record(false, status)]);
    }
  }

  /**
    Every run of the handler: attempts in order, none repeated; an attempt happens if
    and only if all earlier ones failed retriably, with parameters that depend on the
    client's request and that candidate's override alone; the last attempt decides the
    response and its record; and there is exactly one record, or none if and only if
    the last verdict was 499.
   */
  lemma RunIsSafe(script: Script, candidates: seq<Candidate>, client: ParamsValue)
    ensures var log := Handle(script, candidates, client, 0, 0);
            && InOrder(log)
            && EndsProperly(log, script, candidates, 0, 0)
            && Records(log) == (if ClientGone(log, script) then 0 else 1)
            && forall d: nat, l: nat, p :: Try(d, l, p) in log <==>
                 d < |candidates| && Reached(script, candidates, 0, d, l) &&
                     p == ApplyTo(client, candidates[d].override)
  {
    RunInOrder(script, candidates, client, 0, 0);
    RunEnds(script, candidates, client, 0, 0);
    RecordedOnce(Handle(script, candidates, client, 0, 0), script, candidates, 0);
    forall d: nat, l: nat, p
      ensures Try(d, l, p) in Handle(script, candidates, client, 0, 0) <==>
              d < |candidates| && Reached(script, candidates, 0, d, l) && p == ApplyTo(client, candidates[d].override)
    {
      AttemptsMade(script, candidates, client, 0, 0, d, l, p);
    }
  }

  /** Attempt (c, k) is in the log and failed with a server error while the client was there. */
  ghost predicate TriedInVain(log: seq<Action>, script: Script, candidates: seq<Candidate>, client: ParamsValue,
      c: nat, k: nat) {
    c < |candidates| && Try(c, k, ApplyTo(client, candidates[c].override)) in log && Retriable(script(c, k))
  }

  /**
    Whatever appears in the log: an attempt is one of at most three, and an attempt on
    a later provider means that all three on every earlier one were made in vain.
   */
  lemma FallbackOnlyAfterThreeFailures(script: Script, candidates: seq<Candidate>, client: ParamsValue,
                                       d: nat, l: nat, p: ParamsValue)
    requires Try(d, l, p) in Handle(script, candidates, client, 0, 0)
    ensures d < |candidates| && 1 <= l <= MaxRetries
    ensures forall c: nat, k: nat :: c < d && 1 <= k <= MaxRetries ==>
              TriedInVain(Handle(script, candidates, client, 0, 0), script, candidates, client, c, k)
  {
    AttemptsMade(script, candidates, client, 0, 0, d, l, p);
    forall c: nat, k: nat | c < d && 1 <= k <= MaxRetries
      ensures TriedInVain(Handle(script, candidates, client, 0, 0), script, candidates, client, c, k)
    {
      EarlierTried(script, candidates, client, c, k, d, l);
    }
  }

  lemma EarlierTried(script: Script, candidates: seq<Candidate>, client: ParamsValue, c: nat, k: nat, d: nat, l: nat)
    requires d < |candidates| && Reached(script, candidates, 0, d, l) && c < d && 1 <= k <= MaxRetries
    ensures TriedInVain(Handle(script, candidates, client, 0, 0), script, candidates, client, c, k)
  {
    EarlierReached(script, candidates, c, k, d, l);
    AttemptsMade(script, candidates, client, 0, 0, c, k, ApplyTo(client, candidates[c].override));
    assert Before(c, k, d, l);
    hide Handle, ApplyTo, Retriable;
  }

  lemma EarlierReached(script: Script, candidates: seq<Candidate>, c: nat, k: nat, d: nat, l: nat)
    requires d < |candidates| && Reached(script, candidates, 0, d, l) && c < d && 1 <= k <= MaxRetries
    ensures Reached(script, candidates, 0, c, k)
  {
  }

  /**
    A reached attempt that is not a server error, or whose client has gone, is the last
    one of the run, whatever attempts and providers remain, and its verdict closes it.
   */
  lemma FinalAttemptEndsRun(script: Script, candidates: seq<Candidate>, client: ParamsValue, d: nat, l: nat)
    requires d < |candidates| && Reached(script, candidates, 0, d, l) && !Retriable(script(d, l))
    ensures var log := Handle(script, candidates, client, 0, 0);
            var k := LeadingTries(log);
            && k > 0 && log[k - 1] == Try(d, l, ApplyTo(client, candidates[d].override))
            && log[k..] == Answer(Verdict(script(d, l)), d, candidates)
  {
    var log, p := Handle(script, candidates, client, 0, 0), ApplyTo(client, candidates[d].override);
    var k := LeadingTries(log);
    RunIsSafe(script, candidates, client);
    AttemptsMade(script, candidates, client, 0, 0, d, l, p);
    hide Handle, ApplyTo, LeadingTries;
    var i :| 0 <= i < |log| && log[i] == Try(d, l, p);
    TriesLead(script, candidates, client, i);
    var final := log[k - 1];
    assert final in log;
    AttemptsMade(script, candidates, client, 0, 0, final.candidate, final.attempt, final.params);
  }

  /** No attempt follows the close. */
  lemma TriesLead(script: Script, candidates: seq<Candidate>, client: ParamsValue, i: nat)
    requires i < |Handle(script, candidates, client, 0, 0)| && Handle(script, candidates, client, 0, 0)[i].Try?
    ensures i < LeadingTries(Handle(script, candidates, client, 0, 0))
  {
    var log := Handle(script, candidates, client, 0, 0);
    RunEnds(script, candidates, client, 0, 0);
    hide Handle;
    var k := LeadingTries(log);
    forall j | k <= j < |log| ensures !log[j].Try? {
      assert log[j] == log[k..][j - k];
    }
  }

  /**
    So a failure below 500 is final on any attempt and any provider. An aggregated stream
    that breaks off under a successful status is answered, as an error, with that status;
    and an upstream answering 499 is taken for a client that left: no response and no
    record.
   */
  lemma ClientErrorsAreFinal(script: Script, candidates: seq<Candidate>, client: ParamsValue, d: nat,
      l: nat, status: int)
    requires d < |candidates| && Reached(script, candidates, 0, d, l)
    requires script(d, l) == Failed(false, Some(status)) && status != 0 && status < 500
    ensures var log := Handle(script, candidates, client, 0, 0);
            var k := LeadingTries(log);
            && k > 0 && log[k - 1] == Try(d, l, ApplyTo(client, candidates[d].override))
            && log[k..] == if status == 499 then [] else [Respond(status), Record(false, status)]
  {
    FinalAttemptEndsRun(script, candidates, client, d, l);
  }
}
