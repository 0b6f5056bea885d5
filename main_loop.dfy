/** The bot's main loop: start-up and the ticks that follow.

    One tick fetches the statuses changed since the watermark, validates the
    payload, builds one message from the first record (or the fixed
    "list is empty" text), sends it and moves the watermark to the payload's
    `current_date`. Any failure on the way ends the tick with nothing sent and
    the watermark where it was. The message is sent on every successful tick:
    the loop keeps no record of what it reported before.

    The tick is a function of the watermark, the clock reading and the API
    (a function from the `from_date` sent to the reply received); `Run` is the
    loop itself over a finite list of such inputs, with the chat as a list of
    the messages sent to it.
 */
module MainLoop {
  import opened Exceptions
  import opened JsonValues
  import opened Homework

  /** The inner `try` of a tick: validate, then report the first record, or
      the fixed text when the list is empty. */
  function Notification(response: Json): (r: Result<string>)
    ensures r.Ok? <==> WellShaped(response)
                        && (response.fields["homeworks"].items == []
                            || Reportable(response.fields["homeworks"].items[0]))
    ensures !WellShaped(response) ==> r == CheckResponse(response).PropagateFailure()
    ensures WellShaped(response) && response.fields["homeworks"].items == [] ==> r == Ok(EmptyListMessage)
    ensures (WellShaped(response) && response.fields["homeworks"].items != [])
              ==> r == ParseStatus(response.fields["homeworks"].items[0])
  {
    var homeworks :- CheckResponse(response);
    if |homeworks| == 0 then Ok(EmptyListMessage) else ParseStatus(homeworks[0])
  }

  /** What one tick did: the message sent (if any), the watermark for the next
      tick and the failure that ended it (if any). */
  datatype TickResult = TickResult(sent: Option<string>, watermark: Json, failure: Option<Error>)

  /** The reply of the API to a request with the given `from_date`. */
  type Server = Json -> Reply

  /** The fetched payload of a tick, or the failure of the request. */
  function Fetch(watermark: Json, now: int, server: Server): Result<Json> {
    GetApiAnswer(server(FromDate(watermark, now)))
  }

  /** One iteration of the main loop. */
  function Step(watermark: Json, now: int, server: Server): (r: TickResult)
    ensures r.sent.Some? <==> r.failure.None?
    ensures r.sent.None? ==> r.watermark == watermark
    ensures r.sent.Some? <==> Fetch(watermark, now, server).Ok?
                              && Notification(Fetch(watermark, now, server).value).Ok?
    ensures r.sent.Some? ==>
              r.sent.value == Notification(Fetch(watermark, now, server).value).value
              && r.watermark == Get(Fetch(watermark, now, server).value.fields, "current_date", watermark)
    ensures Fetch(watermark, now, server).Err? ==> r.failure == Some(Fetch(watermark, now, server).error)
    ensures (Fetch(watermark, now, server).Ok? && Notification(Fetch(watermark, now, server).value).Err?)
              ==> r.failure == Some(Notification(Fetch(watermark, now, server).value).error)
  {
    match Fetch(watermark, now, server)
    case Err(e) => TickResult(None, watermark, Some(e))
    case Ok(response) =>
      match Notification(response)
      case Err(e) => TickResult(None, watermark, Some(e))
      case Ok(message) => TickResult(Some(message), Get(response.fields, "current_date", watermark), None)
  }

  /** A tick sends the empty-list text when the list is empty, and otherwise
      a notification that decodes to the name and status of the first record. */
  lemma StepSendsKnownText(watermark: Json, now: int, server: Server)
    requires Step(watermark, now, server).sent.Some?
    ensures var m := Step(watermark, now, server).sent.value;
            var items := Fetch(watermark, now, server).value.fields["homeworks"].items;
            && (items == [] ==> m == EmptyListMessage)
            && (items != [] ==> DecodeNotice(m) == Some((Format(items[0].fields["homework_name"]),
                                                         items[0].fields["status"].s)))
  {
    var items := Fetch(watermark, now, server).value.fields["homeworks"].items;
    if items != [] {
      ParseStatusDecodes(items[0]);
    }
  }

  /** Only index 0 of the list is inspected: two payloads that agree on the
      first record and on `current_date` make the same tick. */
  lemma OnlyFirstRecordMatters(watermark: Json, now: int, server1: Server, server2: Server)
    requires Fetch(watermark, now, server1).Ok? && Fetch(watermark, now, server2).Ok?
    requires WellShaped(Fetch(watermark, now, server1).value) && WellShaped(Fetch(watermark, now, server2).value)
    requires var p1, p2 := Fetch(watermark, now, server1).value, Fetch(watermark, now, server2).value;
             && p1.fields["homeworks"].items != [] && p2.fields["homeworks"].items != []
             && p1.fields["homeworks"].items[0] == p2.fields["homeworks"].items[0]
             && ("current_date" in p1.fields <==> "current_date" in p2.fields)
             && ("current_date" in p1.fields ==> p1.fields["current_date"] == p2.fields["current_date"])
    ensures Step(watermark, now, server1) == Step(watermark, now, server2)
  {
  }

  /** No de-duplication: when the API gives the same successful answer on two
      ticks in a row, the second tick sends the same text again. */
  lemma NoDeduplication(watermark: Json, now1: int, now2: int, reply: Reply)
    requires Step(watermark, now1, _ => reply).sent.Some?
    ensures var first := Step(watermark, now1, _ => reply);
            Step(first.watermark, now2, _ => reply).sent == first.sent
  {
  }

  /** A payload whose `current_date` is falsy (0, null, "") makes the next
      request ask from the clock reading of that next tick. */
  lemma FalsyCurrentDateMeansNow(watermark: Json, now: int, server: Server, later: int)
    requires Step(watermark, now, server).sent.Some?
    requires "current_date" in Fetch(watermark, now, server).value.fields
    requires !Truthy(Fetch(watermark, now, server).value.fields["current_date"])
    ensures FromDate(Step(watermark, now, server).watermark, later) == Int(later)
  {
  }

  /** A worked tick: one approved record and a `current_date` of 1000 send
      the approved notification and move the watermark to 1000. */
  lemma ApprovedRecordTick(watermark: Json, now: int)
    ensures
      var record := Object(map["homework_name" := Str("hw1"), "status" := Str("approved")]);
      var payload := Object(map["homeworks" := Array([record]), "current_date" := Int(1000)]);
      Step(watermark, now, _ => Response(200, Decoded(payload)))
        == TickResult(Some("Изменился статус проверки работы \"" + "hw1" + "\". "
                           + "Работа проверена: ревьюеру всё понравилось. Ура!"),
                      Int(1000), None)
  {
    var record := Object(map["homework_name" := Str("hw1"), "status" := Str("approved")]);
    var payload := Object(map["homeworks" := Array([record]), "current_date" := Int(1000)]);
    assert WellShaped(payload) && payload.fields["homeworks"].items[0] == record;
    assert Reportable(record);
    var server: Server := _ => Response(200, Decoded(payload));
    assert Fetch(watermark, now, server) == Ok(payload);
    assert Notification(payload) == ParseStatus(record);
    assert Format(Str("hw1")) == "hw1";
    assert ParseStatus(record) == Ok(Notice("hw1", Verdicts["approved"]));
    assert Get(payload.fields, "current_date", watermark) == Int(1000);
    assert Step(watermark, now, server) == TickResult(Some(Notice("hw1", Verdicts["approved"])), Int(1000), None);
    assert Notice("hw1", Verdicts["approved"]) == "Изменился статус проверки работы \"" + "hw1" + "\". "
                           + "Работа проверена: ревьюеру всё понравилось. Ура!";
  }

  /** The clock reading and the API of one tick. */
  datatype TickInput = TickInput(now: int, server: Server)

  /** The messages sent and the watermark reached after the given ticks. */
  datatype History = History(outbox: seq<string>, watermark: Json)

  function Replay(start: Json, ticks: seq<TickInput>): (h: History)
    decreases |ticks|
  {
    if ticks == [] then History([], start)
    else
      var before := Replay(start, ticks[..|ticks| - 1]);
      var last := ticks[|ticks| - 1];
      var t := Step(before.watermark, last.now, last.server);
      History(before.outbox + (if t.sent.Some? then [t.sent.value] else []), t.watermark)
  }

  /** At most one message per tick. */
  lemma {:induction false} ReplayOutboxBound(start: Json, ticks: seq<TickInput>)
    ensures |Replay(start, ticks).outbox| <= |ticks|
    decreases |ticks|
  {
    if ticks != [] {
      ReplayOutboxBound(start, ticks[..|ticks| - 1]);
    }
  }

  /** Every message the loop sends is the empty-list text or a notification
      naming a documented status. */
  lemma {:induction false} ReplaySendsKnownText(start: Json, ticks: seq<TickInput>)
    ensures forall k :: 0 <= k < |Replay(start, ticks).outbox| ==>
              var m := Replay(start, ticks).outbox[k];
              m == EmptyListMessage || DecodeNotice(m).Some?
    decreases |ticks|
  {
    if ticks != [] {
      var before := Replay(start, ticks[..|ticks| - 1]);
      var last := ticks[|ticks| - 1];
      ReplaySendsKnownText(start, ticks[..|ticks| - 1]);
      if Step(before.watermark, last.now, last.server).sent.Some? {
        StepSendsKnownText(before.watermark, last.now, last.server);
      }
    }
  }

  /** While the API cannot be reached, nothing is sent and the watermark
      stays where it was. */
  lemma {:induction false} ReplayWhileUnreachable(start: Json, ticks: seq<TickInput>)
    requires forall k, x :: 0 <= k < |ticks| ==> ticks[k].server(x) == ConnectionFailed
    ensures Replay(start, ticks) == History([], start)
    decreases |ticks|
  {
    if ticks != [] {
      ReplayWhileUnreachable(start, ticks[..|ticks| - 1]);
      var last := ticks[|ticks| - 1];
      assert last.server(FromDate(start, last.now)) == ConnectionFailed;
    }
  }

  /** main(): check the credentials (stop if one is missing), greet, then run
      the ticks, each moving the watermark and possibly sending a message.
      `startTime` is the clock reading taken before the credentials are
      checked; `outbox` is what reached the chat. */
  method Run(practicum: Option<string>, telegram: Option<string>, chatId: Option<string>,
             startTime: int, ticks: seq<TickInput>)
    returns (started: bool, outbox: seq<string>, watermark: Json)
    ensures started <==> TokensPresent(practicum, telegram, chatId)
    ensures !started ==> outbox == [] && watermark == Int(startTime)
    ensures started ==> outbox == [StartMessage] + Replay(Int(startTime), ticks).outbox
    ensures started ==> watermark == Replay(Int(startTime), ticks).watermark
  {
    watermark := Int(startTime);
    outbox := [];
    started := CheckTokens(practicum, telegram, chatId);
    if !started {
      return;
    }
    outbox := outbox + [StartMessage];
    var i := 0;
    while i < |ticks|
      invariant 0 <= i <= |ticks|
      invariant outbox == [StartMessage] + Replay(Int(startTime), ticks[..i]).outbox
      invariant watermark == Replay(Int(startTime), ticks[..i]).watermark
    {
      var t := Step(watermark, ticks[i].now, ticks[i].server);
      if t.sent.Some? {
        outbox := outbox + [t.sent.value];
      }
      watermark := t.watermark;
      assert ticks[..i + 1][..i] == ticks[..i];
      i := i + 1;
    }
    assert ticks[..|ticks|] == ticks;
  }
}
