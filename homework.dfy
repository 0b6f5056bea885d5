/** The decision logic of the homework-status bot: choosing the `from_date`
    of a request and classifying the HTTP answer, validating the decoded
    payload, turning one homework record into the notification text, and
    checking that the three credentials are present.
 */
module Homework {
  import opened Exceptions
  import opened JsonValues

  /** The verdict sentence for each documented review status. */
  const Verdicts: map<string, string> := map[
    "approved" := "Работа проверена: ревьюеру всё понравилось. Ура!",
    "reviewing" := "Работа взята на проверку ревьюером.",
    "rejected" := "Работа проверена: у ревьюера есть замечания."
  ]

  const StartMessage: string := "Привет! Я готов тебе помочь!"
  const EmptyListMessage: string := "Список пуст"
  const NoticePrefix: string := "Изменился статус проверки работы \""
  const HttpOk: int := 200

  // ---------------------------------------------------------------------------
  // The request: which from_date is sent and how the answer is classified.

  /** `current_timestamp or int(time.time())`: a falsy watermark means "now". */
  function FromDate(watermark: Json, now: int): (r: Json)
    ensures Truthy(watermark) ==> r == watermark
    ensures !Truthy(watermark) ==> r == Int(now)
  {
    if Truthy(watermark) then watermark else Int(now)
  }

  /** What json.loads made of the body of the answer. */
  datatype Body = Decoded(json: Json) | Malformed

  /** What the transport returned for one GET of the endpoint. */
  datatype Reply = ConnectionFailed | Response(statusCode: int, body: Body)

  /** The checks get_api_answer makes on the answer: a transport failure, a
      status code other than 200 and an undecodable body are failures; a
      decoded body is returned as it is. */
  function GetApiAnswer(reply: Reply): (r: Result<Json>)
    ensures r.Ok? <==> reply.Response? && reply.statusCode == HttpOk && reply.body.Decoded?
    ensures r.Ok? ==> r.value == reply.body.json
    ensures reply.ConnectionFailed? ==> r == Err(RequestExceptionError)
    ensures reply.Response? && reply.statusCode != HttpOk ==> r == Err(StatusCodeError(reply.statusCode))
  {
    match reply
    case ConnectionFailed => Err(RequestExceptionError)
    case Response(code, body) =>
      if code != HttpOk then Err(StatusCodeError(code))
      else match body
        case Malformed => Err(UndecodableBody)
        case Decoded(json) => Ok(json)
  }

  // ---------------------------------------------------------------------------
  // check_response

  /** The payload has the documented shape: a dict whose `homeworks` is a list. */
  predicate WellShaped(response: Json) {
    response.Object? && "homeworks" in response.fields && response.fields["homeworks"].Array?
  }

  /** Validates the decoded payload and returns its `homeworks` list verbatim.
      The checks run in order: not a dict, then no `homeworks` key, then a
      `homeworks` that is not a list. An empty list is accepted. */
  function CheckResponse(response: Json): (r: Result<seq<Json>>)
    ensures !response.Object? ==> r == Err(TypeError(NotADict))
    ensures response.Object? && "homeworks" !in response.fields ==> r == Err(KeyError)
    ensures (response.Object? && "homeworks" in response.fields && !response.fields["homeworks"].Array?)
              ==> r == Err(APIResponseException)
    ensures r.Ok? <==> WellShaped(response)
    ensures r.Ok? ==> r.value == response.fields["homeworks"].items
  {
    if !response.Object? then Err(TypeError(NotADict))
    else if "homeworks" !in response.fields then Err(KeyError)
    else match response.fields["homeworks"]
      case Array(items) => Ok(items)
      case _ => Err(APIResponseException)
  }

  // ---------------------------------------------------------------------------
  // parse_status

  /** The text of a status notification. */
  function Notice(name: string, verdict: string): string {
    NoticePrefix + name + Closing(verdict)
  }

  function Closing(verdict: string): string {
    "\". " + verdict
  }

  predicate HasNameAndStatus(homework: Json) {
    homework.Object? && "homework_name" in homework.fields && "status" in homework.fields
  }

  /** The record yields a notification: both keys, a name that is not null
      and a documented status. */
  predicate Reportable(homework: Json) {
    && HasNameAndStatus(homework)
    && !homework.fields["homework_name"].Null?
    && homework.fields["status"].Str?
    && homework.fields["status"].s in Verdicts
  }

  /** Builds the notification for one homework record. The checks run in
      order: both keys present (`in` on the record, then `[]`), a name that
      is not None, a status that is a key of the verdict table. An empty name
      is accepted. */
  function ParseStatus(homework: Json): (r: Result<string>)
    ensures r.Ok? <==> Reportable(homework)
    ensures r.Ok? ==> r.value == Notice(Format(homework.fields["homework_name"]),
                                        Verdicts[homework.fields["status"].s])
    ensures homework.Object? && !HasNameAndStatus(homework) ==> r == Err(KeyError)
    ensures !homework.Object? ==> r == Err(KeyError) || r.error.TypeError?
    ensures (HasNameAndStatus(homework) && homework.fields["homework_name"].Null?)
              ==> r == Err(StatusError(NameIsNone))
    ensures (HasNameAndStatus(homework) && !homework.fields["homework_name"].Null?
             && Hashable(homework.fields["status"]) && !Reportable(homework))
              ==> r == Err(StatusError(Undocumented))
    ensures (HasNameAndStatus(homework) && !homework.fields["homework_name"].Null?
             && !Hashable(homework.fields["status"]))
              ==> r == Err(TypeError(Unhashable))
  {
    match Contains(homework, "homework_name")
    case Err(e) => Err(e)
    case Ok(hasName) =>
      if !hasName then Err(KeyError) else
      match Contains(homework, "status")
      case Err(e) => Err(e)
      case Ok(hasStatus) =>
        if !hasStatus then Err(KeyError) else
        match Subscript(homework, "homework_name")
        case Err(e) => Err(e)
        case Ok(name) =>
          match Subscript(homework, "status")
          case Err(e) => Err(e)
          case Ok(status) =>
            if name.Null? then Err(StatusError(NameIsNone))
            else if !Hashable(status) then Err(TypeError(Unhashable))
            else if !(status.Str? && status.s in Verdicts) then Err(StatusError(Undocumented))
            else Ok(Notice(Format(name), Verdicts[status.s]))
  }

  /** The message ends with the closing quote and the verdict of `status`. */
  predicate NoticeFor(m: string, status: string)
    requires status in Verdicts
  {
    var tail := Closing(Verdicts[status]);
    && |NoticePrefix| + |tail| <= |m|
    && m[..|NoticePrefix|] == NoticePrefix
    && m[|m| - |tail|..] == tail
  }

  function NameOf(m: string, status: string): string
    requires status in Verdicts && NoticeFor(m, status)
  {
    m[|NoticePrefix|..|m| - |Closing(Verdicts[status])|]
  }

  /** Reads the homework name and the status back out of a notification. */
  function DecodeNotice(m: string): (r: Option<(string, string)>)
    ensures r.Some? ==> r.value.1 in Verdicts && Notice(r.value.0, Verdicts[r.value.1]) == m
  {
    if NoticeFor(m, "approved") then Some((NameOf(m, "approved"), "approved"))
    else if NoticeFor(m, "reviewing") then Some((NameOf(m, "reviewing"), "reviewing"))
    else if NoticeFor(m, "rejected") then Some((NameOf(m, "rejected"), "rejected"))
    else None
  }

  /** A string that ends with `tail` ends with its last two characters. */
  lemma EndsWithLastTwo(m: string, tail: string)
    requires 2 <= |tail| <= |m| && m[|m| - |tail|..] == tail
    ensures m[|m| - 1] == tail[|tail| - 1] && m[|m| - 2] == tail[|tail| - 2]
  {
  }

  /** A string whose last two characters differ from those of `tail` does
      not end with `tail`. */
  lemma NotEndsWith(m: string, tail: string)
    requires 2 <= |tail| <= |m|
    requires m[|m| - 1] != tail[|tail| - 1] || m[|m| - 2] != tail[|tail| - 2]
    ensures m[|m| - |tail|..] != tail
  {
  }

  /** No message ends with the verdicts of two different statuses: the
      three verdicts differ in their last two characters. */
  lemma VerdictsAreSuffixFree(m: string, s: string, t: string)
    requires s in Verdicts && t in Verdicts && s != t
    requires NoticeFor(m, s)
    ensures !NoticeFor(m, t)
  {
    var a, b := Closing(Verdicts[s]), Closing(Verdicts[t]);
    EndsWithLastTwo(m, a);
    if |NoticePrefix| + |b| <= |m| {
      NotEndsWith(m, b);
    }
  }

  /** A notification names its homework and its status unambiguously: both
      are recovered from the text. */
  lemma DecodeNoticeRoundTrip(name: string, status: string)
    requires status in Verdicts
    ensures DecodeNotice(Notice(name, Verdicts[status])) == Some((name, status))
  {
    var m := Notice(name, Verdicts[status]);
    var tail := Closing(Verdicts[status]);
    assert m == NoticePrefix + name + tail;
    assert m[..|NoticePrefix|] == NoticePrefix;
    assert m[|m| - |tail|..] == tail;
    assert NoticeFor(m, status);
    assert NameOf(m, status) == name;
    if status != "approved" {
      VerdictsAreSuffixFree(m, status, "approved");
    }
    if status == "rejected" {
      VerdictsAreSuffixFree(m, status, "reviewing");
    }
  }

  /** The list-empty text is not a status notification. */
  lemma EmptyListMessageIsNoNotice()
    ensures DecodeNotice(EmptyListMessage) == None
  {
  }

  /** Every message parse_status produces names a documented status and the
      record's own name and status. */
  lemma ParseStatusDecodes(homework: Json)
    requires ParseStatus(homework).Ok?
    ensures DecodeNotice(ParseStatus(homework).value)
              == Some((Format(homework.fields["homework_name"]), homework.fields["status"].s))
  {
    DecodeNoticeRoundTrip(Format(homework.fields["homework_name"]), homework.fields["status"].s);
  }

  // ---------------------------------------------------------------------------
  // check_tokens

  predicate TokensPresent(practicum: Option<string>, telegram: Option<string>, chatId: Option<string>) {
    practicum.Some? && telegram.Some? && chatId.Some?
  }

  /** True exactly when none of the three credentials is missing; an empty
      string counts as present. The scan stops at the first missing one. */
  method CheckTokens(practicum: Option<string>, telegram: Option<string>, chatId: Option<string>)
    returns (tokenStatus: bool)
    ensures tokenStatus <==> TokensPresent(practicum, telegram, chatId)
  {
    tokenStatus := true;
    var checkParams := [practicum, telegram, chatId];
    var i := 0;
    while i < |checkParams|
      invariant 0 <= i <= |checkParams|
      invariant forall j :: 0 <= j < i ==> checkParams[j].Some?
    {
      if checkParams[i].None? {
        tokenStatus := false;
        return;
      }
      i := i + 1;
    }
    assert checkParams[0] == practicum && checkParams[1] == telegram && checkParams[2] == chatId;
  }
}
