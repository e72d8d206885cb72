/** What the loop promises, round by round and over a whole run. */
module PollingProperties {
  import opened Wrappers
  import opened Json
  import opened Exceptions
  import opened Homework
  import opened Polling

  /** Success path: a 200 answer that passes the checks moves the timestamp to
      `current_date`, and exactly one message, the status of the first homework, is
      sent when the list is non-empty, none when it is empty. */
  lemma StepSuccessPath(s: PollState, r: Round, response: JValue, homeworks: seq<JValue>)
    requires GetApiAnswer(r.reply) == Success(response)
    requires CheckResponse(response) == Success(homeworks)
    requires response.JObj? && "current_date" in response.fields
    requires |homeworks| > 0 ==> ParseStatus(homeworks[0]).Success? && r.notify.Delivered?
    ensures StepSpec(s, r).1 == Continue
    ensures StepSpec(s, r).0.timestamp == response.fields["current_date"]
    ensures |homeworks| == 0 ==> StepSpec(s, r).0.sent == s.sent
    ensures |homeworks| > 0 ==> StepSpec(s, r).0.sent == s.sent + [ParseStatus(homeworks[0]).value]
  {
  }

  /** Failure path: when the `try` block raises, the timestamp stays, and the failure
      report is the one message added after whatever the block delivered before it
      raised; if Telegram refuses the report, NotSendMessage escapes the loop. */
  lemma StepFailurePath(s: PollState, r: Round)
    requires Iteration(r).outcome.Failure?
    ensures StepSpec(s, r).0.timestamp == s.timestamp
    ensures r.report.Delivered? ==>
              StepSpec(s, r) ==
              (PollState(s.timestamp, s.sent + Iteration(r).delivered + [FailureReport(Iteration(r).outcome.error)]), Continue)
    ensures r.report.Refused? ==>
              StepSpec(s, r) == (PollState(s.timestamp, s.sent + Iteration(r).delivered), Crash(SendError(r.report.cause)))
  {
  }

  /** A non-200 reply (or a failed request) changes nothing but the chat: the
      timestamp stays and the report names NotWrongHttpStatus's message. */
  lemma StepOnBadStatus(s: PollState, r: Round)
    requires r.reply.TransportFailure? || r.reply.status != HTTP_OK
    ensures Iteration(r).delivered == []
    ensures Iteration(r).outcome.Failure? && Iteration(r).outcome.error.NotWrongHttpStatus?
    ensures StepSpec(s, r).0.timestamp == s.timestamp
  {
  }

  /** A message the bot itself composes: a status change or a failure report. */
  predicate IsNotification(m: string) {
    STATUS_PREFIX <= m || FAILURE_PREFIX <= m
  }

  /** The state a run that got past the credential check ends in. */
  function Final(x: Exit): PollState
    requires !x.Stopped?
  {
    x.state
  }

  /** Over a run the chat history only grows: earlier messages are kept as they were,
      every new one is a status message or a failure report, at most two per round. */
  lemma {:induction false} LoopAppendsNotifications(s: PollState, rounds: seq<Round>)
    ensures s.sent <= Final(Loop(s, rounds)).sent
    ensures |Final(Loop(s, rounds)).sent| <= |s.sent| + 2 * |rounds|
    ensures forall k :: |s.sent| <= k < |Final(Loop(s, rounds)).sent| ==>
              IsNotification(Final(Loop(s, rounds)).sent[k])
    decreases |rounds|
  {
    if rounds != [] {
      var (next, outcome) := StepSpec(s, rounds[0]);
      assert s.sent <= next.sent;
      assert forall k :: |s.sent| <= k < |next.sent| ==> IsNotification(next.sent[k]);
      if !outcome.Crash? {
        LoopAppendsNotifications(next, rounds[1..]);
      }
    }
  }

  /** The only exception that escapes the loop is NotSendMessage from the failure
      report; it escapes exactly on a round whose `try` block failed and whose report
      Telegram refused. */
  lemma {:induction false} LoopCrashesOnlyOnRefusedReport(s: PollState, rounds: seq<Round>)
    ensures Loop(s, rounds).Crashed? ==> Loop(s, rounds).error.NotSendMessage?
    ensures Loop(s, rounds).Crashed? ==> exists k: nat :: k < |rounds| && CrashesAt(s, rounds, k)
    ensures forall k: nat :: k < |rounds| && CrashesAt(s, rounds, k) ==> Loop(s, rounds).Crashed?
    decreases |rounds|
  {
    if rounds != [] {
      var (next, outcome) := StepSpec(s, rounds[0]);
      if outcome.Crash? {
        assert Loop(s, rounds) == Crashed(outcome.error, next);
        assert CrashesAt(s, rounds, 0);
        assert exists k: nat :: k < |rounds| && CrashesAt(s, rounds, k);
        assert Loop(s, rounds).error.NotSendMessage?;
      } else {
        LoopCrashesOnlyOnRefusedReport(next, rounds[1..]);
        assert Loop(s, rounds) == Loop(next, rounds[1..]);
        assert CrashesAt(s, rounds, 0) == false;
        forall k | 1 <= k < |rounds|
          ensures CrashesAt(s, rounds, k) == CrashesAt(next, rounds[1..], k - 1)
        {
          assert rounds[1..][k - 1] == rounds[k];
        }
        if Loop(s, rounds).Crashed? {
          var j: nat :| j < |rounds[1..]| && CrashesAt(next, rounds[1..], j);
          var k: nat := j + 1;
          assert k < |rounds| && CrashesAt(s, rounds, k);
          assert exists k: nat :: k < |rounds| && CrashesAt(s, rounds, k);
        }
        if k: nat :| k < |rounds| && CrashesAt(s, rounds, k) {
          var j: nat := k - 1;
          assert j < |rounds[1..]| && CrashesAt(next, rounds[1..], j);
        }
      }
    }
  }

  /** Round `k` is reached (no earlier round crashed), its `try` block fails and its
      report is refused. */
  predicate CrashesAt(s: PollState, rounds: seq<Round>, k: nat)
    decreases |rounds|
  {
    k < |rounds| &&
    var (next, outcome) := StepSpec(s, rounds[0]);
    if k == 0 then Iteration(rounds[0]).outcome.Failure? && rounds[0].report.Refused?
    else !outcome.Crash? && CrashesAt(next, rounds[1..], k - 1)
  }

  /** Whatever the rounds, `main` stops at start-up exactly when a credential is
      missing; with all three present the loop starts from the start time with an
      empty chat. */
  lemma StartUp(tokens: Tokens, now: int, rounds: seq<Round>)
    ensures CheckTokens(tokens).Some? <==> RunSpec(tokens, now, rounds).Stopped?
    ensures CheckTokens(tokens).None? ==> RunSpec(tokens, now, rounds) == Loop(PollState(JInt(now), []), rounds)
  {
  }

  /** A 200 answer with an empty `homeworks` list moves the timestamp and sends nothing. */
  lemma EmptyHomeworksExample(s: PollState, date: JValue, notify: Delivery, report: Delivery)
    ensures var body := JObj(map["homeworks" := JList([]), "current_date" := date]);
            StepSpec(s, Round(Reply(200, Json(body)), notify, report)) == (PollState(date, s.sent), Continue)
  {
    var body := JObj(map["homeworks" := JList([]), "current_date" := date]);
    assert CheckResponse(body) == Success([]);
    StepSuccessPath(s, Round(Reply(200, Json(body)), notify, report), body, []);
  }

  /** A 200 answer whose first homework has an unknown status sends no status message:
      the failure report for UnknownStatusHomework is the one message, and the timestamp
      stays. */
  lemma StepOnUnknownStatus(s: PollState, date: JValue, notify: Delivery)
    ensures var body := JObj(map["homeworks" := JList([Record("hw1", "unknown_code")]), "current_date" := date]);
            StepSpec(s, Round(Reply(200, Json(body)), notify, Delivered)) ==
            (PollState(s.timestamp, s.sent + [FailureReport(UnknownStatusHomework(UNKNOWN_STATUS))]), Continue)
  {
    var body := JObj(map["homeworks" := JList([Record("hw1", "unknown_code")]), "current_date" := date]);
    var r := Round(Reply(200, Json(body)), notify, Delivered);
    assert CheckResponse(body) == Success([Record("hw1", "unknown_code")]);
    assert ParseStatus(Record("hw1", "unknown_code")) == Failure(UnknownStatusHomework(UNKNOWN_STATUS));
    assert Iteration(r) == Try([], Failure(UnknownStatusHomework(UNKNOWN_STATUS)));
    StepFailurePath(s, r);
    assert s.sent + [] == s.sent;
  }

  /** An answer without `current_date` fails after the status message went out: the
      chat gets the status message and then the report of KeyError('current_date'),
      and the timestamp stays. */
  lemma StepOnMissingCurrentDate(s: PollState, name: string)
    requires name != ""
    ensures var body := JObj(map["homeworks" := JList([Record(name, "approved")])]);
            StepSpec(s, Round(Reply(200, Json(body)), Delivered, Delivered)) ==
            (PollState(s.timestamp, s.sent + [ParseStatus(Record(name, "approved")).value, FailureReport(KeyErr("current_date"))]),
             Continue)
  {
    var body := JObj(map["homeworks" := JList([Record(name, "approved")])]);
    var r := Round(Reply(200, Json(body)), Delivered, Delivered);
    assert CheckResponse(body) == Success([Record(name, "approved")]);
    ParseStatusAcceptsExactlyVerdicts(name, "approved");
    var m := ParseStatus(Record(name, "approved")).value;
    var f := FailureReport(KeyErr("current_date"));
    assert CurrentDate(body.fields) == Failure(KeyErr("current_date"));
    assert Iteration(r) == Try([m], Failure(KeyErr("current_date")));
    StepFailurePath(s, r);
    assert s.sent + [m] + [f] == s.sent + [m, f];
  }

  /** A 500 reply leaves the timestamp where it was and reports NotWrongHttpStatus with
      the endpoint and the code. */
  lemma ServerErrorExample(s: PollState, body: Body, notify: Delivery)
    ensures StepSpec(s, Round(Reply(500, body), notify, Delivered)) ==
            (PollState(s.timestamp, s.sent + [FailureReport(NotWrongHttpStatus(ENDPOINT + " - недоступен. Код ответа API: " + "500"))]),
             Continue)
  {
    assert Decimal(500) == "500" by {
      assert Digits(50) == "50" by { assert Digits(5) == "5"; }
    }
    var r := Round(Reply(500, body), notify, Delivered);
    assert Iteration(r) == Try([], Failure(NotWrongHttpStatus(ENDPOINT + " - недоступен. Код ответа API: " + Decimal(500))));
    StepFailurePath(s, r);
    var e := NotWrongHttpStatus(ENDPOINT + " - недоступен. Код ответа API: " + Decimal(500));
    assert StepSpec(s, r) == (PollState(s.timestamp, s.sent + [] + [FailureReport(e)]), Continue);
    assert s.sent + [] == s.sent;
    assert e == NotWrongHttpStatus(ENDPOINT + " - недоступен. Код ответа API: " + "500");
  }
}
