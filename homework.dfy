/** The pure part of the homework-status bot: the verdict table and the
    status-change template, the decision taken on an API answer once the
    request has returned, the validation of that answer and the formatting of
    the notification. */
module Homework {
  import opened PyValues

  /** Every exception an iteration of the bot's loop can raise. */
  datatype Error =
    | TransportError                                  // `requests.get` raised
    | JsonDecodeError                                 // `response.json()` found no JSON body
    | ServerError(detail: Json, code: int, fromDate: int)  // HTTPError built from SERVER_ERROR
    | RequestError(code: int, fromDate: int)          // HTTPError built from REQUEST_ERROR
    | BadStatus(status: Json)                         // ValueError built from BAD_STATUS
    | KeyError(key: Json)                             // subscript of a dict with a missing key
    | IndexError                                      // `[0]` of an empty list or str
    | TypeError                                       // subscript or hash of a value that does not support it
    | AttributeError                                  // `.keys()` of an answer that is not a dict
    | SendError                                       // raised by the messaging library in `send_message`

  // ---------------------------------------------------------------------------
  // Python subscripts as homework.py uses them

  /** `v[key]` for a string key. */
  function GetKey(v: Json, key: string): Result<Json, Error> {
    match v
    case Obj(fields) => if key in fields then Ok(fields[key]) else Err(KeyError(Str(key)))
    case _ => Err(TypeError)
  }

  /** `v[0]`: the first element of a list, the first character of a str; a dict
      decoded from JSON has only string keys, so the integer key is missing. */
  function GetFirst(v: Json): Result<Json, Error> {
    match v
    case Arr(items) => if |items| > 0 then Ok(items[0]) else Err(IndexError)
    case Str(s) => if |s| > 0 then Ok(Str([s[0]])) else Err(IndexError)
    case Obj(_) => Err(KeyError(Num(0)))
    case _ => Err(TypeError)
  }

  // ---------------------------------------------------------------------------
  // VERDICTS

  /** The three keys of the verdict table. */
  datatype Status = Approved | Reviewing | Rejected

  function Key(s: Status): string {
    match s
    case Approved => "approved"
    case Reviewing => "reviewing"
    case Rejected => "rejected"
  }

  /** The verdict text the table maps each key to. */
  function Verdict(s: Status): string {
    match s
    case Approved => "Работа проверена: ревьюеру всё понравилось. Ура!"
    case Reviewing => "Работа взята на проверку ревьюером."
    case Rejected => "Работа проверена, в ней нашлись ошибки."
  }

  /** The status whose key is `key`, if `key` is one of the table's keys. */
  function StatusOf(key: string): (r: Option<Status>)
    ensures forall s: Status :: r == Some(s) <==> Key(s) == key
  {
    if key == "approved" then Some(Approved)
    else if key == "reviewing" then Some(Reviewing)
    else if key == "rejected" then Some(Rejected)
    else None
  }

  /** `status in VERDICTS`. */
  function InVerdicts(status: Json): (r: Result<bool, Error>)
    ensures r.Err? <==> !Hashable(status)
    ensures r == Ok(true) <==> exists s: Status :: status == Str(Key(s))
  {
    if !Hashable(status) then Err(TypeError)
    else Ok(status.Str? && StatusOf(status.s).Some?)
  }

  /** `VERDICTS[status]`. */
  function LookupVerdict(status: Json): (r: Result<string, Error>)
    ensures r.Ok? <==> exists s: Status :: status == Str(Key(s))
    ensures forall s: Status :: status == Str(Key(s)) ==> r == Ok(Verdict(s))
    ensures Hashable(status) && !r.Ok? ==> r == Err(KeyError(status))
  {
    if !Hashable(status) then Err(TypeError)
    else if status.Str? && StatusOf(status.s).Some? then Ok(Verdict(StatusOf(status.s).value))
    else Err(KeyError(status))
  }

  // ---------------------------------------------------------------------------
  // NEW_STATUS

  const NewStatusHead: string := "Изменился статус проверки работы \""
  const NewStatusMid: string := "\". "

  /** `NEW_STATUS.format(homework_name=name, verdict=verdict)`. */
  function NewStatus(name: string, verdict: string): string {
    NewStatusHead + name + NewStatusMid + verdict
  }

  predicate EndsWith(m: string, suffix: string) {
    |suffix| <= |m| && m[|m| - |suffix|..] == suffix
  }

  /** The status a notification text ends with, tried in table order. */
  function EndingStatus(m: string): Option<Status> {
    if EndsWith(m, Tail(Approved)) then Some(Approved)
    else if EndsWith(m, Tail(Reviewing)) then Some(Reviewing)
    else if EndsWith(m, Tail(Rejected)) then Some(Rejected)
    else None
  }

  /** What the template puts after the homework name. */
  function Tail(s: Status): string {
    NewStatusMid + Verdict(s)
  }

  /** Reads the homework name and the status back out of a status-change
      notification; the inverse of `NewStatus` on the verdict texts. */
  function ReadNewStatus(m: string): Option<(string, Status)> {
    match EndingStatus(m)
    case None => None
    case Some(s) =>
      var tail := Tail(s);
      if |NewStatusHead| + |tail| <= |m| && m[..|NewStatusHead|] == NewStatusHead
      then Some((m[|NewStatusHead|..|m| - |tail|], s))
      else None
  }

  lemma EndsWithLastTwo(m: string, suffix: string)
    requires EndsWith(m, suffix) && |suffix| >= 2
    ensures m[|m| - 1] == suffix[|suffix| - 1] && m[|m| - 2] == suffix[|suffix| - 2]
  {
    assert m[|m| - 1] == m[|m| - |suffix|..][|suffix| - 1];
    assert m[|m| - 2] == m[|m| - |suffix|..][|suffix| - 2];
  }

  /** No notification text ends with the verdicts of two different statuses. */
  lemma EndingStatusOf(m: string, s: Status)
    requires EndsWith(m, Tail(s))
    ensures EndingStatus(m) == Some(s)
  {
    var ta, tv, tr := Tail(Approved), Tail(Reviewing), Tail(Rejected);
    assert ta[|ta| - 1] == '!' && tv[|tv| - 1] == '.' && tr[|tr| - 1] == '.';
    assert tv[|tv| - 2] == 'м' && tr[|tr| - 2] == 'и';
    EndsWithLastTwo(m, Tail(s));
    if s != Approved && EndsWith(m, ta) {
      EndsWithLastTwo(m, ta);
    }
    if s == Rejected && EndsWith(m, tv) {
      EndsWithLastTwo(m, tv);
    }
  }

  lemma NewStatusSplits(name: string, s: Status)
    ensures NewStatus(name, Verdict(s)) == NewStatusHead + name + Tail(s)
  {
    Regroup(NewStatusHead, name, NewStatusMid, Verdict(s));
  }

  lemma Regroup(a: string, b: string, c: string, d: string)
    ensures a + b + c + d == (a + b) + (c + d)
  {
  }

  /** Reading a formatted notification gives back the name and the status. */
  lemma {:induction false} ReadNewStatusRoundTrip(name: string, s: Status)
    ensures ReadNewStatus(NewStatus(name, Verdict(s))) == Some((name, s))
  {
    var m := NewStatus(name, Verdict(s));
    var tail := Tail(s);
    NewStatusSplits(name, s);
    assert m[|m| - |tail|..] == tail;
    EndingStatusOf(m, s);
    assert m[..|NewStatusHead|] == NewStatusHead;
    assert m[|NewStatusHead|..|m| - |tail|] == name;
  }

  /** Whatever `ReadNewStatus` accepts is a formatted notification. */
  lemma {:induction false} ReadNewStatusSound(m: string, name: string, s: Status)
    requires ReadNewStatus(m) == Some((name, s))
    ensures m == NewStatus(name, Verdict(s))
  {
    assert EndingStatus(m) == Some(s);
    EndingStatusEnds(m);
    SplitAround(m, NewStatusHead, Tail(s));
    NewStatusSplits(name, s);
  }

  lemma SplitAround(m: string, head: string, tail: string)
    requires |head| + |tail| <= |m| && m[..|head|] == head && EndsWith(m, tail)
    ensures m == head + m[|head|..|m| - |tail|] + tail
  {
    assert m == m[..|head|] + m[|head|..|m| - |tail|] + m[|m| - |tail|..];
  }

  lemma EndingStatusEnds(m: string)
    requires EndingStatus(m).Some?
    ensures EndsWith(m, Tail(EndingStatus(m).value))
  {
  }

  /** Different homework names or different statuses never produce the same
      notification text, so the status can be recovered from the verdict. */
  lemma NewStatusInjective(n1: string, s1: Status, n2: string, s2: Status)
    requires NewStatus(n1, Verdict(s1)) == NewStatus(n2, Verdict(s2))
    ensures n1 == n2 && s1 == s2
  {
    ReadNewStatusRoundTrip(n1, s1);
    ReadNewStatusRoundTrip(n2, s2);
  }

  // ---------------------------------------------------------------------------
  // get_api_answer, after the request has returned

  /** What the request produced: the transport raised, or an HTTP status code
      with the body decoded as JSON (`None` when it is not JSON). */
  datatype Fetched = Unreachable | Received(code: int, body: Option<Json>)

  /** The three ways an answer is classified. */
  datatype Class = ServerSide | BadCode | Accepted

  /** The test at homework.py:84 reads `'code' and 'error' in answer.keys()`;
      the literal `'code'` is truthy, so only the presence of `error` counts. */
  function Classify(hasErrorKey: bool, code: int): (c: Class)
    ensures c == ServerSide <==> hasErrorKey
    ensures c == BadCode <==> !hasErrorKey && code != 200
    ensures c == Accepted <==> !hasErrorKey && code == 200
  {
    if hasErrorKey then ServerSide
    else if code != 200 then BadCode
    else Accepted
  }

  /** `get_api_answer(ENDPOINT, fromDate)` given what the request produced. */
  function GetApiAnswer(fetched: Fetched, fromDate: int): (r: Result<Json, Error>)
    // success returns the decoded answer unchanged, and only for a 200 without `error`
    ensures r.Ok? <==> fetched.Received? && fetched.code == 200 && fetched.body.Some?
                       && fetched.body.value.Obj? && "error" !in fetched.body.value.fields
    ensures r.Ok? ==> fetched.body == Some(r.value)
    // the body is decoded before anything looks at the status code
    ensures fetched.Received? && fetched.body.None? ==> r == Err(JsonDecodeError)
    ensures fetched.Received? && fetched.body.Some? && !fetched.body.value.Obj? ==> r == Err(AttributeError)
    // an `error` key wins over any status code, whether or not `code` is present
    ensures fetched.Received? && fetched.body.Some? && fetched.body.value.Obj?
            && "error" in fetched.body.value.fields ==>
              r == match GetKey(fetched.body.value.fields["error"], "error")
                   case Ok(detail) => Err(ServerError(detail, fetched.code, fromDate))
                   case Err(e) => Err(e)
    ensures fetched.Received? && fetched.body.Some? && fetched.body.value.Obj?
            && "error" !in fetched.body.value.fields && fetched.code != 200 ==>
              r == Err(RequestError(fetched.code, fromDate))
    ensures fetched.Unreachable? ==> r == Err(TransportError)
  {
    match fetched
    case Unreachable => Err(TransportError)
    case Received(code, body) =>
      if body.None? then Err(JsonDecodeError)
      else
        var answer := body.value;
        if !answer.Obj? then Err(AttributeError)
        else
          match Classify("error" in answer.fields, code)
          case ServerSide =>
            var detail :- GetKey(answer.fields["error"], "error");
            Err(ServerError(detail, code, fromDate))
          case BadCode => Err(RequestError(code, fromDate))
          case Accepted => Ok(answer)
  }

  /** A `code` key in the answer changes nothing: the classification reads
      only whether `error` is present. */
  lemma CodeKeyIgnored(code: int, fields: map<string, Json>, codeValue: Json, fromDate: int)
    requires "code" !in fields
    ensures var with := fields["code" := codeValue];
            GetApiAnswer(Received(code, Some(Obj(with))), fromDate).Err?
            == GetApiAnswer(Received(code, Some(Obj(fields))), fromDate).Err?
    ensures "error" in fields ==>
              GetApiAnswer(Received(code, Some(Obj(fields["code" := codeValue]))), fromDate)
              == GetApiAnswer(Received(code, Some(Obj(fields))), fromDate)
  {
  }

  // ---------------------------------------------------------------------------
  // check_response

  /** `response['homeworks'][0]` when the response holds a non-empty list there. */
  function FirstHomework(response: Json): Option<Json> {
    if response.Obj? && "homeworks" in response.fields && response.fields["homeworks"].Arr?
       && |response.fields["homeworks"].items| > 0
    then Some(response.fields["homeworks"].items[0])
    else None
  }

  /** The status of a homework, when its `status` is one of the table's keys. */
  function KnownStatus(homework: Json): Option<Status> {
    if homework.Obj? && "status" in homework.fields && homework.fields["status"].Str?
    then StatusOf(homework.fields["status"].s)
    else None
  }

  /** A status value that can be looked up but is not one of the table's keys. */
  predicate UnknownStatus(status: Json) {
    Hashable(status) && !(status.Str? && StatusOf(status.s).Some?)
  }

  /** `check_response(response)`. */
  function CheckResponse(response: Json): (r: Result<Json, Error>)
    // accepted exactly when the first homework carries a known status, and then it is returned
    ensures r.Ok? <==> FirstHomework(response).Some? && KnownStatus(FirstHomework(response).value).Some?
    ensures r.Ok? ==> r.value == FirstHomework(response).value
    // the three structural failures
    ensures response.Obj? && "homeworks" !in response.fields ==> r == Err(KeyError(Str("homeworks")))
    ensures response.Obj? && "homeworks" in response.fields && response.fields["homeworks"] == Arr([]) ==>
              r == Err(IndexError)
    ensures FirstHomework(response).Some? && FirstHomework(response).value.Obj?
            && "status" !in FirstHomework(response).value.fields
            ==> r == Err(KeyError(Str("status")))
    // a status outside the table is reported by value
    ensures (r.Err? && r.error.BadStatus?) <==>
              FirstHomework(response).Some? && FirstHomework(response).value.Obj?
              && "status" in FirstHomework(response).value.fields
              && UnknownStatus(FirstHomework(response).value.fields["status"])
    ensures r.Err? && r.error.BadStatus? ==> r.error.status == FirstHomework(response).value.fields["status"]
  {
    var homeworks :- GetKey(response, "homeworks");
    var homework :- GetFirst(homeworks);
    var status :- GetKey(homework, "status");
    var known :- InVerdicts(status);
    if !known then Err(BadStatus(status)) else Ok(homework)
  }

  /** Only the first element of `homeworks` decides the result: two responses
      that agree on it are treated alike, whatever else they hold. */
  lemma CheckResponseReadsFirstOnly(r1: Json, r2: Json)
    requires FirstHomework(r1).Some? && FirstHomework(r1) == FirstHomework(r2)
    ensures CheckResponse(r1) == CheckResponse(r2)
  {
  }

  // ---------------------------------------------------------------------------
  // parse_status

  /** `parse_status(homework)`. */
  function ParseStatus(homework: Json): (r: Result<string, Error>)
    ensures r.Ok? <==> homework.Obj? && "homework_name" in homework.fields && KnownStatus(homework).Some?
    ensures r.Ok? ==> r.value == NewStatus(Show(homework.fields["homework_name"]),
                                           Verdict(KnownStatus(homework).value))
    // the name is looked up before the status
    ensures homework.Obj? && "homework_name" !in homework.fields ==> r == Err(KeyError(Str("homework_name")))
    ensures homework.Obj? && "homework_name" in homework.fields && "status" in homework.fields
            && UnknownStatus(homework.fields["status"])
            ==> r == Err(KeyError(homework.fields["status"]))
  {
    var name :- GetKey(homework, "homework_name");
    var status :- GetKey(homework, "status");
    var verdict :- LookupVerdict(status);
    Ok(NewStatus(Show(name), verdict))
  }

  /** A homework that `check_response` accepted and that has a name always
      formats, and its notification reads back as its name and status. */
  lemma {:induction false} AcceptedHomeworkFormats(response: Json, homework: Json)
    requires CheckResponse(response) == Ok(homework)
    requires "homework_name" in homework.fields
    ensures ParseStatus(homework).Ok?
    ensures ReadNewStatus(ParseStatus(homework).value)
            == Some((Show(homework.fields["homework_name"]), KnownStatus(homework).value))
  {
    ReadNewStatusRoundTrip(Show(homework.fields["homework_name"]), KnownStatus(homework).value);
  }

  // ---------------------------------------------------------------------------
  // The body of the loop's `try`: fetch, validate, format

  /** The notification text one iteration computes, or the exception it raises
      before sending. */
  function StatusText(fetched: Fetched, fromDate: int): (r: Result<string, Error>)
    ensures r.Ok? <==>
              fetched.Received? && fetched.code == 200 && fetched.body.Some?
              && fetched.body.value.Obj? && "error" !in fetched.body.value.fields
              && FirstHomework(fetched.body.value).Some?
              && KnownStatus(FirstHomework(fetched.body.value).value).Some?
              && "homework_name" in FirstHomework(fetched.body.value).value.fields
    ensures r.Ok? ==>
              r.value == NewStatus(Show(FirstHomework(fetched.body.value).value.fields["homework_name"]),
                                   Verdict(KnownStatus(FirstHomework(fetched.body.value).value).value))
  {
    var answer :- GetApiAnswer(fetched, fromDate);
    var homework :- CheckResponse(answer);
    ParseStatus(homework)
  }
}
