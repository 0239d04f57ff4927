/** The bot's main loop: the cursor it queries from, one pass of
    fetch-validate-format-notify with its exception handler, and a bounded
    number of passes. */
module PollLoop {
  import opened PyValues
  import opened Homework

  /** RETRY_TIME, in seconds. */
  const RetryTime: int := 60 * 10

  /** What `send_message` hands to the messaging library. */
  datatype Message =
    | StatusNotice(text: string)   // a formatted status change
    | ErrorNotice(error: Error)    // ERROR_MESSAGE with the exception substituted

  /** One pass of the loop as the outside world decides it: what the request
      produced, and whether each of the two possible sends raises. */
  datatype Round = Round(fetched: Fetched, statusSendFails: bool, errorSendFails: bool)

  /** The message one pass sends when the messaging library does not fail. */
  function Notice(fetched: Fetched, cursor: int): Message {
    match StatusText(fetched, cursor)
    case Ok(text) => StatusNotice(text)
    case Err(e) => ErrorNotice(e)
  }

  /** The messages one pass tries to send, in order: the status text, or the
      error notice, or the status text followed by the notice of its failed
      delivery. */
  function RoundAttempts(round: Round, cursor: int): (r: seq<Message>)
    ensures 1 <= |r| <= 2
    ensures r[0] == Notice(round.fetched, cursor)
    ensures |r| == 2 <==> StatusText(round.fetched, cursor).Ok? && round.statusSendFails
    ensures |r| == 2 ==> r[1] == ErrorNotice(SendError)
  {
    match StatusText(round.fetched, cursor)
    case Ok(text) =>
      if round.statusSendFails then [StatusNotice(text), ErrorNotice(SendError)]
      else [StatusNotice(text)]
    case Err(e) => [ErrorNotice(e)]
  }

  /** A send inside the exception handler is not guarded: if it raises, the
      exception leaves `main`. */
  predicate RoundCrashes(round: Round, cursor: int) {
    (StatusText(round.fetched, cursor).Err? || round.statusSendFails) && round.errorSendFails
  }

  predicate Halted(rounds: seq<Round>, cursor: int) {
    exists i :: 0 <= i < |rounds| && RoundCrashes(rounds[i], cursor)
  }

  lemma HaltedSnoc(rounds: seq<Round>, round: Round, cursor: int)
    ensures Halted(rounds + [round], cursor) <==> Halted(rounds, cursor) || RoundCrashes(round, cursor)
  {
    var longer := rounds + [round];
    assert longer[|rounds|] == round;
    assert forall i :: 0 <= i < |rounds| ==> longer[i] == rounds[i];
  }

  /** Every send attempt of a run of passes, up to and including the pass
      whose exception escaped. */
  function Transcript(rounds: seq<Round>, cursor: int): seq<Message>
    decreases |rounds|
  {
    if rounds == [] then []
    else
      var earlier := rounds[..|rounds| - 1];
      if Halted(earlier, cursor) then Transcript(earlier, cursor)
      else Transcript(earlier, cursor) + RoundAttempts(rounds[|rounds| - 1], cursor)
  }

  /** Once a pass has crashed, later passes add nothing. */
  lemma {:induction false} TranscriptStopsAtCrash(rounds: seq<Round>, k: nat, cursor: int)
    requires k <= |rounds| && Halted(rounds[..k], cursor)
    ensures Transcript(rounds, cursor) == Transcript(rounds[..k], cursor)
    decreases |rounds|
  {
    if k < |rounds| {
      var earlier := rounds[..|rounds| - 1];
      assert earlier[..k] == rounds[..k];
      var i :| 0 <= i < k && RoundCrashes(rounds[..k][i], cursor);
      assert earlier[i] == rounds[..k][i];
      TranscriptStopsAtCrash(earlier, k, cursor);
    } else {
      assert rounds[..k] == rounds;
    }
  }

  /** When the messaging library never fails, every pass sends exactly one
      message: its status text on success, the error notice otherwise. */
  lemma {:induction false} TranscriptOnePerRound(rounds: seq<Round>, cursor: int)
    requires forall i :: 0 <= i < |rounds| ==> !rounds[i].statusSendFails && !rounds[i].errorSendFails
    ensures |Transcript(rounds, cursor)| == |rounds|
    ensures forall i :: 0 <= i < |rounds| ==> Transcript(rounds, cursor)[i] == Notice(rounds[i].fetched, cursor)
    decreases |rounds|
  {
    if rounds != [] {
      var earlier := rounds[..|rounds| - 1];
      TranscriptOnePerRound(earlier, cursor);
      assert !Halted(earlier, cursor);
    }
  }

  /** Each pass sends at least one and at most two messages. */
  lemma {:induction false} TranscriptLength(rounds: seq<Round>, cursor: int)
    ensures |Transcript(rounds, cursor)| <= 2 * |rounds|
    ensures !Halted(rounds, cursor) ==> |rounds| <= |Transcript(rounds, cursor)|
    decreases |rounds|
  {
    if rounds != [] {
      var earlier := rounds[..|rounds| - 1];
      TranscriptLength(earlier, cursor);
      assert rounds == earlier + [rounds[|rounds| - 1]];
      HaltedSnoc(earlier, rounds[|rounds| - 1], cursor);
    }
  }

  /** An error that reports the request parameters reports `cursor` as its
      `from_date`. */
  predicate ReportsCursor(m: Message, cursor: int) {
    m.ErrorNotice? && (m.error.ServerError? || m.error.RequestError?) ==> m.error.fromDate == cursor
  }

  /** The cursor never moves: every error notice of a run that carries the
      query parameters carries the same `from_date`. */
  lemma {:induction false} TranscriptReportsCursor(rounds: seq<Round>, cursor: int)
    ensures forall j :: 0 <= j < |Transcript(rounds, cursor)| ==> ReportsCursor(Transcript(rounds, cursor)[j], cursor)
    decreases |rounds|
  {
    if rounds != [] {
      var earlier := rounds[..|rounds| - 1];
      TranscriptReportsCursor(earlier, cursor);
      var last := rounds[|rounds| - 1];
      var text := StatusText(last.fetched, cursor);
      if text.Err? {
        GetApiAnswerReportsCursor(last.fetched, cursor);
      }
    }
  }

  /** `get_api_answer` puts the `from_date` it was given into the errors it
      builds, and `check_response` and `parse_status` build none of that kind. */
  lemma GetApiAnswerReportsCursor(fetched: Fetched, cursor: int)
    requires StatusText(fetched, cursor).Err?
    ensures ReportsCursor(ErrorNotice(StatusText(fetched, cursor).error), cursor)
  {
    var answer := GetApiAnswer(fetched, cursor);
    if answer.Ok? {
      var homework := CheckResponse(answer.value);
      if homework.Ok? {
        assert StatusText(fetched, cursor) == ParseStatus(homework.value);
      } else {
        assert !homework.error.ServerError? && !homework.error.RequestError?;
      }
    }
  }

  /** A 200 answer whose newest homework is approved yields one status notice
      with the name and the approved verdict; a `current_date` in the answer is
      not read. */
  lemma ApprovedAnswerNotice(cursor: int)
    ensures var homework := Obj(map["homework_name" := Str("hw1"), "status" := Str("approved")]);
            var answer := Obj(map["homeworks" := Arr([homework]), "current_date" := Num(cursor + 10)]);
            Notice(Received(200, Some(answer)), cursor) == StatusNotice(NewStatus("hw1", Verdict(Approved)))
  {
  }

  /** A 400 answer whose `error` is a plain string fails while the server
      error is being built: the string cannot be subscripted by `'error'`. */
  lemma PlainErrorPayloadNotice(cursor: int)
    ensures Notice(Received(400, Some(Obj(map["error" := Str("bad_request")]))), cursor) == ErrorNotice(TypeError)
  {
  }

  /** The messaging bot: records every `bot.send_message` call. Whether a call
      raises is decided outside and passed in. */
  class Bot {
    var attempts: seq<Message>

    constructor ()
      ensures attempts == []
    {
      attempts := [];
    }

    /** `send_message(bot, message)`. */
    method SendMessage(message: Message, fails: bool) returns (raised: Option<Error>)
      modifies this
      ensures attempts == old(attempts) + [message]
      ensures raised == if fails then Some(SendError) else None
    {
      attempts := attempts + [message];
      raised := if fails then Some(SendError) else None;
    }
  }

  /** One pass of the `while True` body (without the sleep). Returns whether
      an exception escaped the handler. */
  method Iterate(bot: Bot, cursor: int, round: Round) returns (crashed: bool)
    modifies bot
    ensures bot.attempts == old(bot.attempts) + RoundAttempts(round, cursor)
    ensures crashed == RoundCrashes(round, cursor)
  {
    var failure: Option<Error>;
    var text := StatusText(round.fetched, cursor);
    if text.Ok? {
      failure := bot.SendMessage(StatusNotice(text.value), round.statusSendFails);
    } else {
      failure := Some(text.error);
    }
    crashed := false;
    if failure.Some? {
      var raised := bot.SendMessage(ErrorNotice(failure.value), round.errorSendFails);
      crashed := raised.Some?;
    }
  }

  /** `main` after its configuration checks, for the passes in `rounds`:
      the cursor is set once to `now - RETRY_TIME`, every pass queries with it,
      and the run ends early when an exception escapes the handler. */
  method Run(bot: Bot, now: int, rounds: seq<Round>) returns (cursor: int, passes: nat)
    modifies bot
    ensures cursor == now - RetryTime
    ensures passes <= |rounds|
    ensures passes == |rounds| || Halted(rounds[..passes], cursor)
    ensures 0 < passes ==> !Halted(rounds[..passes - 1], cursor)
    ensures bot.attempts == old(bot.attempts) + Transcript(rounds, cursor)
  {
    cursor := now - RetryTime;
    passes := 0;
    var crashed := false;
    while passes < |rounds| && !crashed
      invariant passes <= |rounds|
      invariant crashed == Halted(rounds[..passes], cursor)
      invariant 0 < passes ==> !Halted(rounds[..passes - 1], cursor)
      invariant bot.attempts == old(bot.attempts) + Transcript(rounds[..passes], cursor)
    {
      crashed := Iterate(bot, cursor, rounds[passes]);
      ghost var done := rounds[..passes + 1];
      assert done == rounds[..passes] + [rounds[passes]];
      assert done[..passes] == rounds[..passes];
      HaltedSnoc(rounds[..passes], rounds[passes], cursor);
      passes := passes + 1;
    }
    if crashed {
      TranscriptStopsAtCrash(rounds, passes, cursor);
    } else {
      assert rounds[..passes] == rounds;
    }
  }
}
