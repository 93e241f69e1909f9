/**
  The validation and formatting logic of the homework-status bot:
  the secrets check at start-up, the shape check of an API answer and
  the mapping of one homework record to a notification text.
  Python exceptions are modelled as `Err` values whose `Error` names the
  exception class the code raises.
 */
module Homework {
  import opened Wrappers
  import opened Json
  import opened PyStr

  datatype Error =
    | TypeError(msg: string)
    | KeyError(msg: string)
    /** A bare `Exception`, as `send_message` and `get_api_answer` raise. */
    | Exception(msg: string)

  // ---------------------------------------------------------------------
  // The verdict table and the notification template
  // ---------------------------------------------------------------------

  const ApprovedVerdict := "Работа проверена: ревьюеру всё понравилось. Ура!"
  const ReviewingVerdict := "Работа взята на проверку ревьюером."
  const RejectedVerdict := "Работа проверена: у ревьюера есть замечания."

  /** The three review statuses and the sentence shown for each. */
  const HomeworkVerdicts: map<string, string> := map[
    "approved" := ApprovedVerdict,
    "reviewing" := ReviewingVerdict,
    "rejected" := RejectedVerdict
  ]

  const NoticePrefix := "Изменился статус проверки работы "

  /** The text before the homework name, up to its opening quote. */
  const NoticeHead := NoticePrefix + "\""

  /** The text after the homework name: its closing quote and the verdict. */
  function Tail(verdict: string): string
  {
    "\". " + verdict
  }

  /** The notification for homework `name` whose status has verdict `verdict`. */
  function Notice(name: string, verdict: string): string
  {
    NoticeHead + name + Tail(verdict)
  }

  // ---------------------------------------------------------------------
  // check_tokens
  // ---------------------------------------------------------------------

  /** Python truthiness of an environment variable: set and not empty. */
  predicate Truthy(token: Option<string>)
  {
    token.Some? && token.value != ""
  }

  /** Python's `all()` over environment variables. */
  function All(tokens: seq<Option<string>>): (r: bool)
    ensures r <==> forall k :: 0 <= k < |tokens| ==> Truthy(tokens[k])
  {
    if tokens == [] then true else Truthy(tokens[0]) && All(tokens[1..])
  }

  /** Whether the three secrets the bot needs are all configured. */
  function CheckTokens(practicumToken: Option<string>, telegramToken: Option<string>,
                       telegramChatId: Option<string>): (ok: bool)
    ensures ok <==> && practicumToken.Some? && |practicumToken.value| > 0
                    && telegramToken.Some? && |telegramToken.value| > 0
                    && telegramChatId.Some? && |telegramChatId.value| > 0
  {
    var tokens := [practicumToken, telegramToken, telegramChatId];
    assert tokens[0] == practicumToken && tokens[1] == telegramToken && tokens[2] == telegramChatId;
    All(tokens)
  }

  // ---------------------------------------------------------------------
  // check_response
  // ---------------------------------------------------------------------

  const BadResponseType := "Неверный тип ответа API"
  const MissingKeys := "Отсутствие ожидаемых ключей"
  const BadHomeworksType := "Неверный тип 'homeworks'"

  /**
    Checks that an API answer is a dictionary holding a `homeworks` list and
    a `current_date`, and returns both exactly as they appear in the answer.
   */
  function CheckResponse(response: Value): (r: Result<(seq<Value>, Value), Error>)
    // a value that is not a dictionary is refused before any key is looked at
    ensures !response.Object? ==> r == Err(TypeError(BadResponseType))
    // the checks run in a fixed order: a missing key outranks a wrong type
    ensures r.Err? && r.error.KeyError? <==>
              response.Object? &&
              ("homeworks" !in response.fields || "current_date" !in response.fields)
    ensures r.Err? && r.error.KeyError? ==> r.error == KeyError(MissingKeys)
    ensures r.Err? && r.error.TypeError? <==>
              !response.Object? ||
              ("homeworks" in response.fields && "current_date" in response.fields &&
               !response.fields["homeworks"].List?)
    ensures (response.Object? && "homeworks" in response.fields && "current_date" in response.fields &&
             !response.fields["homeworks"].List?) ==> r == Err(TypeError(BadHomeworksType))
    ensures r.Err? ==> !r.error.Exception?
    // on success the two fields are returned unmodified
    ensures r.Ok? ==> response.Object? &&
                      "homeworks" in response.fields && "current_date" in response.fields &&
                      response.fields["homeworks"] == List(r.value.0) &&
                      response.fields["current_date"] == r.value.1
  {
    if !response.Object? then Err(TypeError(BadResponseType))
    else if "homeworks" !in response.fields then Err(KeyError(MissingKeys))
    else if "current_date" !in response.fields then Err(KeyError(MissingKeys))
    else if !response.fields["homeworks"].List? then Err(TypeError(BadHomeworksType))
    else Ok((response.fields["homeworks"].items, response.fields["current_date"]))
  }

  // ---------------------------------------------------------------------
  // parse_status
  // ---------------------------------------------------------------------

  const NotSubscriptable := "object is not subscriptable"
  const MissingKey := "Нет ожидаемого ключа"
  const Unhashable := "unhashable type"
  const UnknownStatus := "Нет нужного статуса"

  /** The statuses the verdict table knows, as they appear in an API answer. */
  const KnownStatuses: set<Value> := set status | status in HomeworkVerdicts :: Str(status)

  /**
    The notification for one homework record of an API answer. A record that
    is not a dictionary cannot be subscripted (TypeError); a missing
    `homework_name` or `status` is a KeyError; a status that is a list or a
    dictionary cannot be looked up in the table (TypeError); any other status
    outside the table is a KeyError. There is no fallback message.
   */
  function ParseStatus(homework: Value): (r: Result<string, Error>)
    ensures !homework.Object? ==> r == Err(TypeError(NotSubscriptable))
    ensures (homework.Object? &&
             ("homework_name" !in homework.fields || "status" !in homework.fields))
              ==> r == Err(KeyError(MissingKey))
    // only the three table statuses produce a message
    ensures r.Ok? <==> homework.Object? &&
                       "homework_name" in homework.fields && "status" in homework.fields &&
                       homework.fields["status"] in KnownStatuses
    ensures r.Ok? ==> var status := homework.fields["status"].s;
                      r.value == NoticePrefix + "\"" + Show(homework.fields["homework_name"]) +
                                 "\". " + HomeworkVerdicts[status]
    ensures (homework.Object? &&
             "homework_name" in homework.fields && "status" in homework.fields &&
             homework.fields["status"] !in KnownStatuses)
              ==> r == Err(if homework.fields["status"].List? || homework.fields["status"].Object?
                           then TypeError(Unhashable) else KeyError(UnknownStatus))
  {
    if !homework.Object? then Err(TypeError(NotSubscriptable))
    else if "homework_name" !in homework.fields || "status" !in homework.fields then
      Err(KeyError(MissingKey))
    else
      var name, status := homework.fields["homework_name"], homework.fields["status"];
      if status.List? || status.Object? then Err(TypeError(Unhashable))
      else if status.Str? && status.s in HomeworkVerdicts then
        Ok(Notice(Show(name), HomeworkVerdicts[status.s]))
      else Err(KeyError(UnknownStatus))
  }

  // ---------------------------------------------------------------------
  // Reading a notification back
  // ---------------------------------------------------------------------

  predicate EndsWith(s: string, suffix: string)
  {
    |suffix| <= |s| && s[|s| - |suffix|..] == suffix
  }

  /**
    Recovers the homework name and the status from a notification; the
    partner of `Notice`.
   */
  function DecodeNotice(message: string): (r: Option<(string, string)>)
    ensures r.Some? ==> r.value.1 in HomeworkVerdicts &&
                        message == Notice(r.value.0, HomeworkVerdicts[r.value.1])
  {
    if |message| < |NoticeHead| || message[..|NoticeHead|] != NoticeHead then None
    else
      var rest := message[|NoticeHead|..];
      if EndsWith(rest, Tail(ApprovedVerdict)) then
        var name := StripSuffix(rest, Tail(ApprovedVerdict));
        SplitNotice(message, name, ApprovedVerdict);
        Some((name, "approved"))
      else if EndsWith(rest, Tail(ReviewingVerdict)) then
        var name := StripSuffix(rest, Tail(ReviewingVerdict));
        SplitNotice(message, name, ReviewingVerdict);
        Some((name, "reviewing"))
      else if EndsWith(rest, Tail(RejectedVerdict)) then
        var name := StripSuffix(rest, Tail(RejectedVerdict));
        SplitNotice(message, name, RejectedVerdict);
        Some((name, "rejected"))
      else None
  }

  function StripSuffix(s: string, suffix: string): string
    requires EndsWith(s, suffix)
  {
    s[..|s| - |suffix|]
  }

  /** A message that starts with the head and ends with a verdict is the notice for the name between. */
  lemma SplitNotice(message: string, name: string, verdict: string)
    requires |NoticeHead| <= |message| && message[..|NoticeHead|] == NoticeHead
    requires EndsWith(message[|NoticeHead|..], Tail(verdict))
    requires name == StripSuffix(message[|NoticeHead|..], Tail(verdict))
    ensures message == Notice(name, verdict)
  {
  }

  /** A string whose i-th character from the end differs from the suffix's does not end with it. */
  lemma MismatchFromEnd(s: string, suffix: string, i: nat)
    requires 0 < i <= |suffix| && i <= |s| && s[|s| - i] != suffix[|suffix| - i]
    ensures !EndsWith(s, suffix)
  {
    if |suffix| <= |s| {
      assert s[|s| - |suffix|..][|suffix| - i] == s[|s| - i];
    }
  }

  /** How a notification splits into the head, the name and the tail after it. */
  lemma NoticeSplits(name: string, verdict: string)
    ensures var message, rest := Notice(name, verdict), name + Tail(verdict);
            && |NoticeHead| <= |message|
            && message[..|NoticeHead|] == NoticeHead
            && message[|NoticeHead|..] == rest
            && EndsWith(rest, Tail(verdict))
            && StripSuffix(rest, Tail(verdict)) == name
            && (|verdict| >= 2 ==> rest[|rest| - 1] == verdict[|verdict| - 1] &&
                                   rest[|rest| - 2] == verdict[|verdict| - 2])
  {
    var message, rest := Notice(name, verdict), name + Tail(verdict);
    assert message == NoticeHead + rest;
    assert rest[|rest| - |Tail(verdict)|..] == Tail(verdict);
  }

  /** Every notification names its homework and status unambiguously. */
  lemma {:induction false} NoticeRoundTrip(name: string, status: string)
    requires status in HomeworkVerdicts
    ensures DecodeNotice(Notice(name, HomeworkVerdicts[status])) == Some((name, status))
  {
    var verdict := HomeworkVerdicts[status];
    var rest := name + Tail(verdict);
    NoticeSplits(name, verdict);
    if status == "reviewing" || status == "rejected" {
      // a verdict ending in '.' is not one ending in '!'
      assert verdict[|verdict| - 1] == '.';
      assert Tail(ApprovedVerdict)[|Tail(ApprovedVerdict)| - 1] == '!';
      MismatchFromEnd(rest, Tail(ApprovedVerdict), 1);
    }
    if status == "rejected" {
      // "... замечания." and "... ревьюером." differ before the final '.'
      assert verdict[|verdict| - 2] == 'я';
      assert Tail(ReviewingVerdict)[|Tail(ReviewingVerdict)| - 2] == 'м';
      MismatchFromEnd(rest, Tail(ReviewingVerdict), 2);
    }
  }

  /** Two updates with different names or statuses never produce the same text. */
  lemma NoticeInjective(name1: string, status1: string, name2: string, status2: string)
    requires status1 in HomeworkVerdicts && status2 in HomeworkVerdicts
    requires Notice(name1, HomeworkVerdicts[status1]) == Notice(name2, HomeworkVerdicts[status2])
    ensures name1 == name2 && status1 == status2
  {
    NoticeRoundTrip(name1, status1);
    NoticeRoundTrip(name2, status2);
  }
}
