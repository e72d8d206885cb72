/** The pure checks of the bot: the credential check, the status-code decision of
    the API call, the shape check of the API answer and the status parser. */
module Homework {
  import opened Wrappers
  import opened Json
  import opened Exceptions

  const ENDPOINT := "https://practicum.yandex.ru/api/user_api/homework_statuses/"

  const APPROVED := "Работа проверена: ревьюеру всё понравилось. Ура!"
  const REVIEWING := "Работа взята на проверку ревьюером."
  const REJECTED := "Работа проверена: у ревьюера есть замечания."

  /** HOMEWORK_VERDICTS: status code to the sentence sent to the student. */
  const VERDICTS: map<string, string> :=
    map["approved" := APPROVED, "reviewing" := REVIEWING, "rejected" := REJECTED]

  // ---------------------------------------------------------------- check_tokens

  datatype Credential = PracticumToken | TelegramToken | TelegramChatId

  /** The three secrets read from the environment; `None` when the variable is unset. */
  datatype Tokens = Tokens(practicum: Option<string>, telegram: Option<string>, chatId: Option<string>)

  /** check_tokens: `None` when it returns True; `Some(c)` when it returns False after
      logging `c` as missing. The credentials are tested in a fixed order and the first
      unset one ends the check; an empty value counts as present (`is None`). */
  function CheckTokens(t: Tokens): (missing: Option<Credential>)
    ensures missing == None <==> t.practicum.Some? && t.telegram.Some? && t.chatId.Some?
    ensures missing == Some(PracticumToken) <==> t.practicum.None?
    ensures missing == Some(TelegramToken) <==> t.practicum.Some? && t.telegram.None?
    ensures missing == Some(TelegramChatId) <==> t.practicum.Some? && t.telegram.Some? && t.chatId.None?
  {
    if t.practicum.None? then Some(PracticumToken)
    else if t.telegram.None? then Some(TelegramToken)
    else if t.chatId.None? then Some(TelegramChatId)
    else None
  }

  // ------------------------------------------------------------- get_api_answer

  /** What the HTTP request produced: `requests` raised (a network failure), or a reply
      with its status code and its body as `.json()` sees it. */
  datatype HttpResult = TransportFailure(cause: string) | Reply(status: int, body: Body)
  datatype Body = Json(value: JValue) | Malformed(cause: string)

  const HTTP_OK := 200

  predicate EndsWith(s: string, suffix: string) {
    |suffix| <= |s| && s[|s| - |suffix|..] == suffix
  }

  /** get_api_answer once the request has been made: any transport failure and any
      status other than 200 become `NotWrongHttpStatus`; a 200 reply yields its body. */
  function GetApiAnswer(reply: HttpResult): (r: Result<JValue, Error>)
    ensures r.Success? <==> reply.Reply? && reply.status == HTTP_OK && reply.body.Json?
    ensures r.Success? ==> r.value == reply.body.value
    ensures reply.TransportFailure? ==> r.Failure? && r.error.NotWrongHttpStatus?
    ensures reply.Reply? && reply.status != HTTP_OK ==>
              r.Failure? && r.error.NotWrongHttpStatus?
              && ENDPOINT <= r.error.message && EndsWith(r.error.message, Decimal(reply.status))
    ensures reply.Reply? && reply.status == HTTP_OK && reply.body.Malformed? ==>
              r == Failure(JsonDecodeErr(reply.body.cause))
  {
    match reply
    case TransportFailure(cause) =>
      Failure(NotWrongHttpStatus("Ошибка при запросе к API Yandex-Practicum: " + cause))
    case Reply(status, body) =>
      if status != HTTP_OK then
        Failure(NotWrongHttpStatus(ENDPOINT + " - недоступен. Код ответа API: " + Decimal(status)))
      else
        match body
        case Malformed(cause) => Failure(JsonDecodeErr(cause))
        case Json(value) => Success(value)
  }

  // ------------------------------------------------------------- check_response

  const NOT_A_DICT := "Ответ от сервера API не является словарем."
  const NO_HOMEWORKS_KEY := "В ответе API отсутствует ключ <homework_name>."
  const NOT_A_LIST := "Ответ API не является списком"

  /** check_response: the answer must be a dict, must hold `homeworks`, and that value
      must be a list; the three tests run in this order and each failure has its own
      exception. On success the list comes back as it is, possibly empty. */
  function CheckResponse(response: JValue): (r: Result<seq<JValue>, Error>)
    ensures !response.JObj? ==> r == Failure(TypeErr(NOT_A_DICT))
    ensures response.JObj? && "homeworks" !in response.fields ==> r == Failure(KeyErr(NO_HOMEWORKS_KEY))
    ensures response.JObj? && "homeworks" in response.fields && !response.fields["homeworks"].JList? ==>
              r == Failure(TypeErr(NOT_A_LIST))
    ensures r.Success? <==>
              response.JObj? && "homeworks" in response.fields && response.fields["homeworks"].JList?
    ensures r.Success? ==> r.value == response.fields["homeworks"].items
  {
    if !response.JObj? then Failure(TypeErr(NOT_A_DICT))
    else if "homeworks" !in response.fields then Failure(KeyErr(NO_HOMEWORKS_KEY))
    else
      var homeworks := response.fields["homeworks"];
      if !homeworks.JList? then Failure(TypeErr(NOT_A_LIST))
      else Success(homeworks.items)
  }

  // --------------------------------------------------------------- parse_status

  const NO_NAME_KEY := "Отсутствуют ключ <homework_name>."
  const NO_STATUS_KEY := "Отсутствуют ключ <homework_status>."
  const UNKNOWN_STATUS := "Неизвестный статус домашки."
  const STATUS_PREFIX := "Изменился статус проверки работы \""
  const STATUS_SEPARATOR := "\". "

  /** The notification for a homework whose rendered name is `name` and whose status is
      the verdict code `status`. */
  function StatusMessage(name: string, status: string): (m: string)
    requires status in VERDICTS
    ensures STATUS_PREFIX <= m && EndsWith(m, VERDICTS[status])
    ensures |m| == |STATUS_PREFIX| + |name| + |STATUS_SEPARATOR| + |VERDICTS[status]|
    ensures m[|STATUS_PREFIX|..|STATUS_PREFIX| + |name|] == name
    ensures m[|STATUS_PREFIX| + |name|..|STATUS_PREFIX| + |name| + |STATUS_SEPARATOR|] == STATUS_SEPARATOR
  {
    STATUS_PREFIX + name + STATUS_SEPARATOR + VERDICTS[status]
  }

  /** parse_status on one record. `homework_name` is tested before `status`, each with
      Python truthiness (absent, `None` and `''` are rejected). A truthy status is looked
      up in VERDICTS: a string that is not a key is an unknown status, a number or a
      boolean is never a key, and a list or a dict cannot be hashed at all. A record that
      is not a dict has no `.get`. */
  function ParseStatus(record: JValue): (r: Result<string, Error>)
    ensures !record.JObj? ==> r.Failure? && r.error.AttributeErr?
    ensures record.JObj? && !Truthy(Get(record.fields, "homework_name")) ==>
              r == Failure(KeyErr(NO_NAME_KEY))
    ensures record.JObj? && Truthy(Get(record.fields, "homework_name"))
              && !Truthy(Get(record.fields, "status")) ==>
              r == Failure(KeyErr(NO_STATUS_KEY))
    ensures r.Success? <==>
              record.JObj? && Truthy(Get(record.fields, "homework_name"))
              && Get(record.fields, "status").JStr? && Get(record.fields, "status").s in VERDICTS
    ensures r.Success? ==>
              r.value == StatusMessage(Render(record.fields["homework_name"]), record.fields["status"].s)
    ensures record.JObj? && Truthy(Get(record.fields, "homework_name")) && Truthy(Get(record.fields, "status"))
              && (Get(record.fields, "status").JList? || Get(record.fields, "status").JObj?) ==>
              r.Failure? && r.error.TypeErr?
    ensures record.JObj? && Truthy(Get(record.fields, "homework_name")) && Truthy(Get(record.fields, "status"))
              && !Get(record.fields, "status").JList? && !Get(record.fields, "status").JObj?
              && !(Get(record.fields, "status").JStr? && Get(record.fields, "status").s in VERDICTS) ==>
              r == Failure(UnknownStatusHomework(UNKNOWN_STATUS))
  {
    match record
    case JObj(fields) =>
      var name := Get(fields, "homework_name");
      var status := Get(fields, "status");
      if !Truthy(name) then Failure(KeyErr(NO_NAME_KEY))
      else if !Truthy(status) then Failure(KeyErr(NO_STATUS_KEY))
      else if status.JList? || status.JObj? then
        Failure(TypeErr("unhashable type: '" + TypeName(status) + "'"))
      else if !(status.JStr? && status.s in VERDICTS) then
        Failure(UnknownStatusHomework(UNKNOWN_STATUS))
      else
        Success(StatusMessage(Render(name), status.s))
    case _ =>
      Failure(AttributeErr("'" + TypeName(record) + "' object has no attribute 'get'"))
  }

  /** A record with a string name and a string status, as the API sends it. */
  function Record(name: string, status: string): JValue {
    JObj(map["homework_name" := JStr(name), "status" := JStr(status)])
  }

  /** Exactly the three codes `approved`, `reviewing` and `rejected` are accepted, each
      with its own fixed sentence. */
  lemma ParseStatusAcceptsExactlyVerdicts(name: string, status: string)
    requires name != ""
    ensures ParseStatus(Record(name, status)).Success? <==> status in {"approved", "reviewing", "rejected"}
    ensures status == "approved" ==>
              ParseStatus(Record(name, status)) == Success(STATUS_PREFIX + name + STATUS_SEPARATOR + APPROVED)
    ensures status == "reviewing" ==>
              ParseStatus(Record(name, status)) == Success(STATUS_PREFIX + name + STATUS_SEPARATOR + REVIEWING)
    ensures status == "rejected" ==>
              ParseStatus(Record(name, status)) == Success(STATUS_PREFIX + name + STATUS_SEPARATOR + REJECTED)
    ensures status != "" && status !in VERDICTS ==>
              ParseStatus(Record(name, status)) == Failure(UnknownStatusHomework(UNKNOWN_STATUS))
  {
  }

  /** The notification determines the homework: two records that produce the same
      message have the same rendered name and the same status. The three verdict
      sentences end differently (`!`, `м.` and `я.`), so the tail of a message fixes the
      verdict, and then its length fixes where the name ends. */
  lemma {:induction false} StatusMessageInjective(name1: string, status1: string, name2: string, status2: string)
    requires status1 in VERDICTS && status2 in VERDICTS
    requires StatusMessage(name1, status1) == StatusMessage(name2, status2)
    ensures name1 == name2 && status1 == status2
  {
    var m := StatusMessage(name1, status1);
    var v1, v2 := VERDICTS[status1], VERDICTS[status2];
    assert m[|m| - |v1|..] == v1 && m[|m| - |v2|..] == v2;
    assert m[|m| - 1] == v1[|v1| - 1] == v2[|v2| - 1];
    assert m[|m| - 2] == v1[|v1| - 2] == v2[|v2| - 2];
    VerdictTailDecides(status1, status2);
    assert |name1| == |name2|;
  }

  /** The last two characters of a verdict sentence tell which status it belongs to. */
  lemma VerdictTailDecides(status1: string, status2: string)
    requires status1 in VERDICTS && status2 in VERDICTS
    requires |VERDICTS[status1]| >= 2 && |VERDICTS[status2]| >= 2
    requires VERDICTS[status1][|VERDICTS[status1]| - 1] == VERDICTS[status2][|VERDICTS[status2]| - 1]
    requires VERDICTS[status1][|VERDICTS[status1]| - 2] == VERDICTS[status2][|VERDICTS[status2]| - 2]
    ensures status1 == status2
  {
    assert APPROVED[|APPROVED| - 1] == '!';
    assert REVIEWING[|REVIEWING| - 1] == '.' && REVIEWING[|REVIEWING| - 2] == 'м';
    assert REJECTED[|REJECTED| - 1] == '.' && REJECTED[|REJECTED| - 2] == 'я';
  }
}
