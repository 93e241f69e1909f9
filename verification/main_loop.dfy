/**
  One pass of the bot's polling loop: validate the fetched API answer, send
  one notification per homework in list order, and advance the `from_date`
  cursor to the answer's `current_date` only when every step succeeded.
  Fetching and sending are outside the model: the fetch result is an input,
  and `delivers(k)` says whether the k-th `send_message` call of the pass
  reaches Telegram; when it does not, the library raised a `TelegramError`,
  which `send_message` turns into an `Exception` with the `SendFailed` text.
 */
module MainLoop {
  import opened Wrappers
  import opened Json
  import opened Homework

  const SendFailed := "Не удалось отправить сообщение в Телеграмм"

  /** What one pass did: the notifications sent, the cursor after it, and the exception it ended with. */
  datatype Outcome = Outcome(sent: seq<string>, cursor: Value, failure: Option<Error>)

  /**
    The `for homework in homeworks` loop from the record at index `k` on:
    format a record with `format` (in `main`, `parse_status`), send it, go
    on; the first record that cannot be formatted or sent ends the loop with
    its exception.
   */
  function Relay(homeworks: seq<Value>, k: nat, format: Value -> Result<string, Error>,
                 delivers: nat -> bool): (r: (seq<string>, Option<Error>))
    requires k <= |homeworks|
    decreases |homeworks| - k
    // one message per record, in list order, each actually delivered
    ensures DeliveredFrom(homeworks, k, format, delivers, r.0)
    ensures r.1.None? <==> |r.0| == |homeworks| - k
    // the loop stops at the first record that fails, with that record's exception
    ensures r.1.Some? ==>
              var stop := k + |r.0|;
              stop < |homeworks| &&
              (format(homeworks[stop]).Err? ==> r.1 == Some(format(homeworks[stop]).error)) &&
              (format(homeworks[stop]).Ok? ==> !delivers(stop) && r.1 == Some(Exception(SendFailed)))
  {
    if k == |homeworks| then ([], None)
    else
      match format(homeworks[k])
      case Err(e) => ([], Some(e))
      case Ok(message) =>
        if !delivers(k) then ([], Some(Exception(SendFailed)))
        else
          var rest := Relay(homeworks, k + 1, format, delivers);
          var sent := [message] + rest.0;
          DeliveredPrefix(homeworks, k, format, delivers, message, rest.0);
          assert k + |sent| == (k + 1) + |rest.0|;
          (sent, rest.1)
  }

  /**
    `sent` holds, in order, the formatted texts of the records from index `k`
    on, each of them delivered.
   */
  predicate DeliveredFrom(homeworks: seq<Value>, k: nat, format: Value -> Result<string, Error>,
                          delivers: nat -> bool, sent: seq<string>)
  {
    k + |sent| <= |homeworks| &&
    forall j :: 0 <= j < |sent| ==> format(homeworks[k + j]) == Ok(sent[j]) && delivers(k + j)
  }

  /** Putting a delivered record's message in front of the messages delivered after it. */
  lemma DeliveredPrefix(homeworks: seq<Value>, k: nat, format: Value -> Result<string, Error>,
                        delivers: nat -> bool, message: string, rest: seq<string>)
    requires k < |homeworks| && format(homeworks[k]) == Ok(message) && delivers(k)
    requires DeliveredFrom(homeworks, k + 1, format, delivers, rest)
    ensures DeliveredFrom(homeworks, k, format, delivers, [message] + rest)
  {
    var sent := [message] + rest;
    forall j | 0 <= j < |sent|
      ensures format(homeworks[k + j]) == Ok(sent[j]) && delivers(k + j)
    {
      if j > 0 {
        var i := j - 1;
        assert format(homeworks[k + 1 + i]) == Ok(rest[i]) && delivers(k + 1 + i);
        assert k + j == k + 1 + i;
        assert sent[j] == rest[i];
      }
    }
    assert k + |sent| == k + 1 + |rest|;
  }

  /** The loop runs to the end exactly when every remaining record is formatted and delivered. */
  lemma RelayCompletes(homeworks: seq<Value>, k: nat, format: Value -> Result<string, Error>,
                       delivers: nat -> bool)
    requires k <= |homeworks|
    ensures Relay(homeworks, k, format, delivers).1.None? <==>
              forall j :: k <= j < |homeworks| ==> format(homeworks[j]).Ok? && delivers(j)
  {
    var r := Relay(homeworks, k, format, delivers);
    if r.1.Some? {
      var stop := k + |r.0|;
      assert !(format(homeworks[stop]).Ok? && delivers(stop));
    } else {
      forall j | k <= j < |homeworks|
        ensures format(homeworks[j]).Ok? && delivers(j)
      {
        var i := j - k;
        assert format(homeworks[k + i]) == Ok(r.0[i]) && delivers(k + i);
      }
    }
  }

  /** What `Relay` promises for a pass from the first record, with record indices written out. */
  lemma RelayFromStart(homeworks: seq<Value>, format: Value -> Result<string, Error>, delivers: nat -> bool)
    ensures var r := Relay(homeworks, 0, format, delivers);
            && |r.0| <= |homeworks|
            && (forall j :: 0 <= j < |r.0| ==> format(homeworks[j]) == Ok(r.0[j]) && delivers(j))
            && (r.1.None? <==> forall j :: 0 <= j < |homeworks| ==> format(homeworks[j]).Ok? && delivers(j))
            && (r.1.None? ==> |r.0| == |homeworks|)
            && (r.1.Some? ==>
                  |r.0| < |homeworks| &&
                  (format(homeworks[|r.0|]).Err? ==> r.1 == Some(format(homeworks[|r.0|]).error)) &&
                  (format(homeworks[|r.0|]).Ok? ==> !delivers(|r.0|) && r.1 == Some(Exception(SendFailed))))
  {
    var r := Relay(homeworks, 0, format, delivers);
    RelayCompletes(homeworks, 0, format, delivers);
    assert DeliveredFrom(homeworks, 0, format, delivers, r.0);
    forall j | 0 <= j < |r.0|
      ensures format(homeworks[j]) == Ok(r.0[j]) && delivers(j)
    {
      assert 0 + j == j;
    }
  }

  /**
    One pass of the loop in `main`, from the cursor it starts with and the
    result of the fetch (an answer, or the exception the fetch raised).
   */
  function Cycle(cursor: Value, fetched: Result<Value, Error>, delivers: nat -> bool): (o: Outcome)
    // a failed fetch or a malformed answer sends nothing
    ensures fetched.Err? ==> o == Outcome([], cursor, Some(fetched.error))
    ensures fetched.Ok? && CheckResponse(fetched.value).Err? ==>
              o == Outcome([], cursor, Some(CheckResponse(fetched.value).error))
    ensures fetched.Ok? && CheckResponse(fetched.value).Ok? ==>
              var homeworks := CheckResponse(fetched.value).value.0;
              // the messages sent are those of a prefix of the list, in order
              && |o.sent| <= |homeworks|
              && (forall j :: 0 <= j < |o.sent| ==> ParseStatus(homeworks[j]) == Ok(o.sent[j]) && delivers(j))
              // the pass succeeds exactly when every record is formatted and delivered
              && (o.failure.None? <==>
                    forall j :: 0 <= j < |homeworks| ==> ParseStatus(homeworks[j]).Ok? && delivers(j))
              && (o.failure.None? ==> |o.sent| == |homeworks|)
              // otherwise it stops at the first record that cannot be formatted or sent,
              // with that record's exception
              && (o.failure.Some? ==>
                    var stop := |o.sent|;
                    stop < |homeworks| &&
                    (ParseStatus(homeworks[stop]).Err? ==> o.failure == Some(ParseStatus(homeworks[stop]).error)) &&
                    (ParseStatus(homeworks[stop]).Ok? ==> !delivers(stop) && o.failure == Some(Exception(SendFailed))))
    // the cursor moves to current_date on success and stays put on any failure
    ensures o.failure.None? ==> fetched.Ok? && CheckResponse(fetched.value).Ok? &&
                                o.cursor == CheckResponse(fetched.value).value.1
    ensures o.failure.Some? ==> o.cursor == cursor
  {
    match fetched
    case Err(e) => Outcome([], cursor, Some(e))
    case Ok(response) =>
      match CheckResponse(response)
      case Err(e) => Outcome([], cursor, Some(e))
      case Ok((homeworks, currentDate)) =>
        RelayFromStart(homeworks, ParseStatus, delivers);
        var (sent, failure) := Relay(homeworks, 0, ParseStatus, delivers);
        Outcome(sent, if failure.None? then currentDate else cursor, failure)
  }

  /**
    The `if homeworks: for homework in homeworks: ...` part of a pass:
    format and send each record in list order, stopping at the first
    exception.
   */
  method SendAll(homeworks: seq<Value>, delivers: nat -> bool)
    returns (sent: seq<string>, failure: Option<Error>)
    ensures (sent, failure) == Relay(homeworks, 0, ParseStatus, delivers)
  {
    sent, failure := [], None;
    ghost var whole := Relay(homeworks, 0, ParseStatus, delivers);
    if |homeworks| > 0 {
      assert sent + whole.0 == whole.0;
      for k := 0 to |homeworks|
        invariant whole == (sent + Relay(homeworks, k, ParseStatus, delivers).0, Relay(homeworks, k, ParseStatus, delivers).1)
      {
        var message := ParseStatus(homeworks[k]);
        if message.Err? {
          failure := Some(message.error);
          assert Relay(homeworks, k, ParseStatus, delivers) == ([], failure);
          assert sent + [] == sent;
          return;
        }
        if !delivers(k) {
          failure := Some(Exception(SendFailed));
          assert Relay(homeworks, k, ParseStatus, delivers) == ([], failure);
          assert sent + [] == sent;
          return;
        }
        ghost var rest := Relay(homeworks, k + 1, ParseStatus, delivers);
        assert Relay(homeworks, k, ParseStatus, delivers) == ([message.value] + rest.0, rest.1);
        assert sent + Relay(homeworks, k, ParseStatus, delivers).0 == (sent + [message.value]) + rest.0;
        sent := sent + [message.value];
      }
      assert Relay(homeworks, |homeworks|, ParseStatus, delivers) == ([], None);
      assert sent + [] == sent;
    }
  }

  /**
    The body of the `while True` loop in `main`: `timestamp` is the cursor
    the pass starts with, `next` the value `timestamp` holds after it.
   */
  method RunCycle(timestamp: Value, fetched: Result<Value, Error>, delivers: nat -> bool)
    returns (sent: seq<string>, next: Value, failure: Option<Error>)
    ensures Outcome(sent, next, failure) == Cycle(timestamp, fetched, delivers)
  {
    sent, next, failure := [], timestamp, None;
    if fetched.Err? {
      failure := Some(fetched.error);
      return;
    }
    var checked := CheckResponse(fetched.value);
    if checked.Err? {
      failure := Some(checked.error);
      return;
    }
    var homeworks, currentTime := checked.value.0, checked.value.1;
    sent, failure := SendAll(homeworks, delivers);
    if failure.None? {
      next := currentTime;
    }
  }

  // ---------------------------------------------------------------------
  // Worked passes
  // ---------------------------------------------------------------------

  const AllDelivered: nat -> bool := k => true

  /** An answer with one approved homework: one notification, cursor advances. */
  lemma OneApprovedHomework()
    ensures
      var homework := Object(map["homework_name" := Str("hw1"), "status" := Str("approved")]);
      var answer := Object(map["homeworks" := List([homework]), "current_date" := Int(1700000600)]);
      Cycle(Int(1700000000), Ok(answer), AllDelivered) ==
        Outcome([Notice("hw1", ApprovedVerdict)], Int(1700000600), None)
  {
  }

  /** An answer with no homeworks: nothing is sent, cursor still advances. */
  lemma NoHomeworks()
    ensures
      var answer := Object(map["homeworks" := List([]), "current_date" := Int(1700000600)]);
      Cycle(Int(1700000000), Ok(answer), AllDelivered) == Outcome([], Int(1700000600), None)
  {
  }
}
