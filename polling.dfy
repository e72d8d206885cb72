/** The body of `main`: start-up, then the polling loop, one iteration at a time.
    An iteration fetches the statuses, checks the answer, notifies about the first
    homework if there is one and moves the timestamp to the server's `current_date`;
    any exception on the way is reported to the chat instead and the timestamp stays.
    HTTP, Telegram, sleeping and logging are replaced by the inputs in `Round`. */
module Polling {
  import opened Wrappers
  import opened Json
  import opened Exceptions
  import opened Homework

  /** The outcome of one `bot.send_message` call; `Refused` carries the text of the
      TelegramError raised. */
  datatype Delivery = Delivered | Refused(cause: string)

  /** Everything the outside world decides in one iteration: the HTTP result, the
      outcome of sending the status message (used only when one is sent) and the outcome
      of sending the failure report (used only when the iteration fails). */
  datatype Round = Round(reply: HttpResult, notify: Delivery, report: Delivery)

  /** The loop's state: `current_timestamp` (whatever JSON value the server put in
      `current_date`) and the messages delivered to the chat so far. */
  datatype PollState = PollState(timestamp: JValue, sent: seq<string>)

  datatype StepOutcome = Continue | Crash(error: Error)

  /** How `main` ends: `sys.exit(0)` after the credential check, an exception escaping
      the loop, or still polling after the rounds given. */
  datatype Exit = Stopped | Crashed(error: Error, state: PollState) | Running(state: PollState)

  const SEND_FAILED_PREFIX := "Ошибка при отправке сообщения: "
  const FAILURE_PREFIX := "Сбой в работе программы: "

  /** The exception send_message raises when Telegram refuses a message. */
  function SendError(cause: string): (e: Error)
    ensures e.NotSendMessage? && SEND_FAILED_PREFIX <= e.message
  {
    NotSendMessage(SEND_FAILED_PREFIX + cause)
  }

  /** The message the loop sends when an iteration raised `e`. */
  function FailureReport(e: Error): (m: string)
    ensures FAILURE_PREFIX <= m && m[|FAILURE_PREFIX|..] == Str(e)
  {
    FAILURE_PREFIX + Str(e)
  }

  /** `response['current_date']` on a dict. */
  function CurrentDate(fields: map<string, JValue>): (r: Result<JValue, Error>)
    ensures r.Success? <==> "current_date" in fields
    ensures r.Success? ==> r.value == fields["current_date"]
    ensures r.Failure? ==> r.error == KeyErr("current_date")
  {
    if "current_date" in fields then Success(fields["current_date"]) else Failure(KeyErr("current_date"))
  }

  /** The `try` block of one iteration: the messages it delivered, and either the new
      timestamp or the exception it raised. A status message can be delivered and the
      block still fail afterwards, when the answer has no `current_date`. */
  datatype Try = Try(delivered: seq<string>, outcome: Result<JValue, Error>)

  function Iteration(r: Round): (t: Try)
    ensures |t.delivered| <= 1
    ensures t.delivered != [] ==> r.notify.Delivered? && STATUS_PREFIX <= t.delivered[0]
    ensures GetApiAnswer(r.reply).Failure? ==> t == Try([], Failure(GetApiAnswer(r.reply).error))
    ensures var answer := GetApiAnswer(r.reply);
            answer.Success? && CheckResponse(answer.value).Failure? ==>
              t == Try([], Failure(CheckResponse(answer.value).error))
    ensures var answer := GetApiAnswer(r.reply);
            answer.Success? && CheckResponse(answer.value).Success? && |CheckResponse(answer.value).value| > 0 ==>
              var status := ParseStatus(CheckResponse(answer.value).value[0]);
              && (status.Failure? ==> t == Try([], Failure(status.error)))
              && (status.Success? && r.notify.Refused? ==> t == Try([], Failure(SendError(r.notify.cause))))
              && (status.Success? && r.notify.Delivered? ==> t.delivered == [status.value])
    ensures t.delivered != [] ==>
              var answer := GetApiAnswer(r.reply);
              answer.Success? && CheckResponse(answer.value).Success? && |CheckResponse(answer.value).value| > 0
              && t.delivered == [ParseStatus(CheckResponse(answer.value).value[0]).value]
    ensures var answer := GetApiAnswer(r.reply);
            answer.Success? && CheckResponse(answer.value).Success?
            && (|CheckResponse(answer.value).value| == 0
                || (ParseStatus(CheckResponse(answer.value).value[0]).Success? && r.notify.Delivered?)) ==>
              t.outcome == CurrentDate(answer.value.fields)
    ensures t.outcome.Success? ==>
              GetApiAnswer(r.reply).Success? && GetApiAnswer(r.reply).value.JObj?
              && "current_date" in GetApiAnswer(r.reply).value.fields
              && t.outcome.value == GetApiAnswer(r.reply).value.fields["current_date"]
  {
    match GetApiAnswer(r.reply)
    case Failure(e) => Try([], Failure(e))
    case Success(response) =>
      match CheckResponse(response)
      case Failure(e) => Try([], Failure(e))
      case Success(homeworks) =>
        if |homeworks| == 0 then Try([], CurrentDate(response.fields))
        else
          match ParseStatus(homeworks[0])
          case Failure(e) => Try([], Failure(e))
          case Success(message) =>
            match r.notify
            case Refused(cause) => Try([], Failure(SendError(cause)))
            case Delivered => Try([message], CurrentDate(response.fields))
  }

  /** One iteration of the `while True` loop, `try` and `except` together. */
  function StepSpec(s: PollState, r: Round): (p: (PollState, StepOutcome))
    ensures s.sent <= p.0.sent && |p.0.sent| <= |s.sent| + 2
    ensures p.1.Crash? ==> p.1.error.NotSendMessage?
  {
    Settle(s, Iteration(r), r.report)
  }

  /** The state after the `try` block `t` and, when it raised, the `except` block whose
      report has the delivery outcome `report`. */
  function Settle(s: PollState, t: Try, report: Delivery): (p: (PollState, StepOutcome))
    ensures s.sent + t.delivered <= p.0.sent
    ensures |p.0.sent| == |s.sent| + |t.delivered| + (if t.outcome.Failure? && report.Delivered? then 1 else 0)
    ensures t.outcome.Failure? && report.Delivered? ==> p.0.sent == s.sent + t.delivered + [FailureReport(t.outcome.error)]
    ensures t.outcome.Success? ==> p.0.timestamp == t.outcome.value
    ensures t.outcome.Failure? ==> p.0.timestamp == s.timestamp
    ensures p.1.Crash? <==> t.outcome.Failure? && report.Refused?
    ensures p.1.Crash? ==> p.1.error == SendError(report.cause)
  {
    match t.outcome
    case Success(date) => (PollState(date, s.sent + t.delivered), Continue)
    case Failure(e) =>
      match report
      case Delivered => (PollState(s.timestamp, s.sent + t.delivered + [FailureReport(e)]), Continue)
      case Refused(cause) => (PollState(s.timestamp, s.sent + t.delivered), Crash(SendError(cause)))
  }

  /** The loop run over a finite list of rounds, stopping at the first crash. */
  function Loop(s: PollState, rounds: seq<Round>): (x: Exit)
    ensures !x.Stopped?
    decreases |rounds|
  {
    if rounds == [] then Running(s)
    else
      var (next, outcome) := StepSpec(s, rounds[0]);
      if outcome.Crash? then Crashed(outcome.error, next) else Loop(next, rounds[1..])
  }

  /** `main`: the credential check, then the loop from `int(time.time())`. */
  function RunSpec(tokens: Tokens, now: int, rounds: seq<Round>): (x: Exit)
    ensures CheckTokens(tokens).Some? ==> x == Stopped
    ensures CheckTokens(tokens).None? ==> !x.Stopped?
  {
    if CheckTokens(tokens).Some? then Stopped
    else Loop(PollState(JInt(now), []), rounds)
  }

  /** The part of `main` that changes state: the timestamp and the chat. */
  class Poller {
    var timestamp: JValue
    var sent: seq<string>

    constructor (now: int)
      ensures timestamp == JInt(now) && sent == []
    {
      timestamp := JInt(now);
      sent := [];
    }

    function State(): PollState
      reads this
    {
      PollState(timestamp, sent)
    }

    /** send_message: the text reaches the chat, or NotSendMessage is returned. */
    method Send(text: string, delivery: Delivery) returns (failure: Option<Error>)
      modifies this`sent
      ensures delivery.Delivered? ==> sent == old(sent) + [text]
      ensures delivery.Refused? ==> sent == old(sent)
      ensures failure == if delivery.Delivered? then None else Some(SendError(delivery.cause))
    {
      match delivery
      case Delivered =>
        sent := sent + [text];
        failure := None;
      case Refused(cause) =>
        failure := Some(SendError(cause));
    }

    /** The `try` block: fetch, check, notify about the first homework, read
        `current_date`. The timestamp is not touched here. */
    method Attempt(r: Round) returns (date: Result<JValue, Error>)
      modifies this`sent
      ensures sent == old(sent) + Iteration(r).delivered
      ensures date == Iteration(r).outcome
    {
      var response :- GetApiAnswer(r.reply);
      var homeworks :- CheckResponse(response);
      if |homeworks| > 0 {
        var message :- ParseStatus(homeworks[0]);
        var failure := Send(message, r.notify);
        if failure.Some? {
          return Failure(failure.value);
        }
      }
      date := CurrentDate(response.fields);
    }

    /** One iteration: on success the timestamp becomes `current_date`; on an exception
        the failure report is sent and a refusal of that report escapes the loop. */
    method Step(r: Round) returns (outcome: StepOutcome)
      modifies this
      ensures (State(), outcome) == StepSpec(old(State()), r)
    {
      ghost var before := State();
      var date := Attempt(r);
      ghost var t := Iteration(r);
      match date {
        case Success(value) =>
          timestamp := value;
          outcome := Continue;
        case Failure(e) =>
          var failure := Send(FailureReport(e), r.report);
          outcome := if failure.Some? then Crash(failure.value) else Continue;
      }
      assert (State(), outcome) == Settle(before, t, r.report);
    }
  }

  /** `main` over a finite list of rounds. */
  method Run(tokens: Tokens, now: int, rounds: seq<Round>) returns (exit: Exit)
    ensures exit == RunSpec(tokens, now, rounds)
  {
    if CheckTokens(tokens).Some? {
      return Stopped;
    }
    var poller := new Poller(now);
    var i := 0;
    while i < |rounds|
      invariant 0 <= i <= |rounds|
      invariant Loop(poller.State(), rounds[i..]) == RunSpec(tokens, now, rounds)
    {
      assert rounds[i..][0] == rounds[i] && rounds[i..][1..] == rounds[i + 1..];
      var outcome := poller.Step(rounds[i]);
      if outcome.Crash? {
        return Crashed(outcome.error, poller.State());
      }
      i := i + 1;
    }
    return Running(poller.State());
  }
}
