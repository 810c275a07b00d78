/**
 * The GET /predict handler of the API server: it validates the two query numbers, spawns the
 * scorer process, and settles the request exactly once whichever of timeout, spawn error and
 * process close comes first, retrying once under the name `python` when `python3` cannot start.
 */
module PredictServer {
  import opened Wrappers
  import opened JsonData
  import JsText
  import Decimal

  /** What Number(...) makes of a query parameter. */
  datatype Num = NaN | Infinity(negative: bool) | Finite(value: real)

  const DayError := "day_of_week must be an integer 1-7"
  const AirportError := "airport_id must be a number"
  const TimeoutError := "Prediction timed out"
  const StartError := "Prediction process could not start"
  const ProcessError := "Prediction process failed"
  const ParseError := "Failed to parse prediction output"

  /** The interpreter tried when PYTHON is unset, and the only one that has a fallback. */
  const PreferredCommand := "python3"
  const FallbackCommand := "python"

  predicate DayInRange(day: Num) {
    day.Finite? && 1.0 <= day.value <= 7.0
  }

  /**
   * The two guards in front of the spawn. The day is checked first, so it decides when both
   * parameters are bad. Integrality is not checked: a day of 2.5 is let through.
   */
  function ValidationError(day: Num, airport: Num): (r: Option<string>)
    ensures r == Some(DayError) <==> !DayInRange(day)
    ensures r == Some(AirportError) <==> DayInRange(day) && !airport.Finite?
    ensures r == None <==> DayInRange(day) && airport.Finite?
  {
    if !day.Finite? || day.value < 1.0 || day.value > 7.0 then Some(DayError)
    else if !airport.Finite? then Some(AirportError)
    else None
  }

  /** process.env.PYTHON || 'python3': an unset or empty PYTHON selects python3. */
  function PythonCommand(envPython: Option<string>): (cmd: string)
    ensures cmd != ""
    ensures envPython.Some? && envPython.value != "" ==> cmd == envPython.value
    ensures cmd == PreferredCommand
      <==> envPython.None? || envPython.value == "" || envPython.value == PreferredCommand
  {
    match envPython
    case Some(v) => if v != "" then v else PreferredCommand
    case None => PreferredCommand
  }

  /**
   * One spawned scorer process. Its argument vector ['-c', <inline scorer>, String(day),
   * String(airport)] is determined by the two numbers, so they stand for it here.
   */
  datatype Spawn = Spawn(command: string, day: Num, airport: Num)

  /** A JSON body: the parsed scorer output, or an error object with optional details and raw output. */
  datatype Body =
    | Data(value: Json)
    | Problem(error: string, details: Option<string>, raw: Option<string>)

  datatype Response = Response(status: nat, body: Body)

  function BadRequest(message: string): Response {
    Response(400, Problem(message, None, None))
  }

  const TimedOut := Response(504, Problem(TimeoutError, None, None))

  function CouldNotStart(spawnError: string): Response {
    Response(500, Problem(StartError, Some(spawnError), None))
  }

  function ProcessFailed(details: string): Response {
    Response(500, Problem(ProcessError, Some(details), None))
  }

  /**
   * `${code}` for the exit code of a close event: the decimal text of the code, which reads back
   * as the code, or "null" for a process killed by a signal.
   */
  function CodeText(code: Option<int>): (t: string)
    ensures code.Some? ==> Decimal.ParseInt(t) == Some(code.value)
    ensures code.None? ==> t == "null"
  {
    match code
    case Some(c) => Decimal.ParseIntOfIntText(c); Decimal.IntText(c)
    case None => "null"
  }

  const ExitPrefix := "Exited with code "

  /** `Exited with code ${code}`: the fixed prefix, then text that reads back as the exit code. */
  function ExitDetail(code: Option<int>): (d: string)
    ensures |d| > |ExitPrefix| && d[..|ExitPrefix|] == ExitPrefix
    ensures code.Some? ==> Decimal.ParseInt(d[|ExitPrefix|..]) == Some(code.value)
    ensures code.None? ==> d[|ExitPrefix|..] == "null"
  {
    var t := CodeText(code);
    assert (ExitPrefix + t)[|ExitPrefix|..] == t;
    ExitPrefix + t
  }

  /** The detail of a failed exit with empty stderr tells which exit code it was. */
  lemma ExitDetailInjective(c1: Option<int>, c2: Option<int>)
    requires ExitDetail(c1) == ExitDetail(c2)
    ensures c1 == c2
  {
    assert ExitDetail(c1)[|ExitPrefix|..] == ExitDetail(c2)[|ExitPrefix|..];
  }

  /**
   * The try/catch around JSON.parse(out.trim()) after a clean exit: the parsed value is sent as it
   * is, or a 500 carrying the parser's message and the untrimmed output.
   */
  function Interpret(out: string, parse: string -> Result<Json, string>): (r: Response)
    ensures r.status == 200 <==> parse(JsText.Trim(out)).Success?
    ensures r.status == 200 ==> r.body == Data(parse(JsText.Trim(out)).value)
    ensures r.status != 200 ==> (r.status == 500 && r.body.Problem? && r.body.error == ParseError
                                 && r.body.details == Some(parse(JsText.Trim(out)).error)
                                 && r.body.raw == Some(out))
  {
    match parse(JsText.Trim(out))
    case Success(parsed) => Response(200, Data(parsed))
    case Failure(e) => Response(500, Problem(ParseError, Some(e), Some(out)))
  }

  /** Output that differs only in surrounding white space is answered with the same parsed value. */
  lemma InterpretIgnoresPadding(p: string, out: string, q: string, parse: string -> Result<Json, string>)
    requires JsText.AllSpace(p) && JsText.AllSpace(q)
    ensures Interpret(p + out + q, parse).status == Interpret(out, parse).status
    ensures Interpret(out, parse).status == 200 ==> Interpret(p + out + q, parse) == Interpret(out, parse)
  {
    JsText.TrimIgnoresPadding(p, out, q);
  }

  /**
   * The primary close handler once it has won the race: a nonzero (or null) code fails with the
   * captured stderr, or the exit code when stderr is empty; code 0 hands stdout to the parser.
   */
  function CloseResponse(code: Option<int>, out: string, err: string,
                         parse: string -> Result<Json, string>): (r: Response)
    ensures r.status == 200 <==> code == Some(0) && parse(JsText.Trim(out)).Success?
    ensures r.status == 200 ==> r.body == Data(parse(JsText.Trim(out)).value)
    ensures code != Some(0) ==> (r.status == 500 && r.body.Problem? && r.body.error == ProcessError
                                 && r.body.details == Some(if err != "" then err else ExitDetail(code))
                                 && r.body.raw == None)
    ensures code == Some(0) && r.status != 200 ==>
              r == Response(500, Problem(ParseError, Some(parse(JsText.Trim(out)).error), Some(out)))
  {
    if code != Some(0) then ProcessFailed(if err != "" then err else ExitDetail(code))
    else Interpret(out, parse)
  }

  /**
   * The fallback's close handler (it has no guard of its own): code 0 hands the fallback's stdout
   * to the parser; anything else fails with its stderr, or the primary's spawn error when empty.
   */
  function FallbackCloseResponse(code: Option<int>, out: string, err: string, spawnError: string,
                                 parse: string -> Result<Json, string>): (r: Response)
    ensures r.status == 200 <==> code == Some(0) && parse(JsText.Trim(out)).Success?
    ensures r.status == 200 ==> r.body == Data(parse(JsText.Trim(out)).value)
    ensures code != Some(0) ==> (r.status == 500 && r.body.Problem? && r.body.error == ProcessError
                                 && r.body.details == Some(if err != "" then err else spawnError)
                                 && r.body.raw == None)
    ensures code == Some(0) && r.status != 200 ==>
              r == Response(500, Problem(ParseError, Some(parse(JsText.Trim(out)).error), Some(out)))
  {
    if code == Some(0) then Interpret(out, parse)
    else ProcessFailed(if err != "" then err else spawnError)
  }

  /**
   * The closure state of one /predict request. Node delivers its callbacks one at a time, so each
   * event is a method; `finished` is the single-assignment flag that lets the first of timeout,
   * spawn error and close settle the request, and `responses` is what was sent on `res`.
   */
  class PredictHandler {
    const command: string
    const day: Num
    const airport: Num
    const parse: string -> Result<Json, string>

    var finished: bool
    var timerActive: bool
    var killed: bool
    var stdout: string
    var stderr: string
    var fallbackSpawned: bool
    var fallbackClosed: bool
    var fallbackSettled: bool
    var fallbackOut: string
    var fallbackErr: string
    var spawnError: string
    var spawns: seq<Spawn>
    var responses: seq<Response>
    var crashed: bool

    ghost predicate Valid()
      reads this
    {
      |responses| <= 1
      && (timerActive <==> !finished)
      && (!finished ==> responses == [] && !fallbackSpawned && !killed)
      && (ValidationError(day, airport).Some? ==>
            finished && spawns == [] && responses == [BadRequest(ValidationError(day, airport).value)])
      && (ValidationError(day, airport).None? ==> |spawns| >= 1 && spawns[0] == Spawn(command, day, airport))
      && |spawns| <= 2
      && (fallbackSpawned <==> |spawns| == 2)
      && (fallbackSpawned ==> command == PreferredCommand && spawns[1] == Spawn(FallbackCommand, day, airport))
      && (!fallbackSpawned ==> !fallbackClosed && !fallbackSettled && fallbackOut == "" && fallbackErr == "")
      && (fallbackSpawned ==> (responses == [] <==> !fallbackSettled))
      && (fallbackClosed ==> fallbackSettled)
      && (finished && !fallbackSpawned ==> |responses| == 1)
      && (killed ==> responses == [TimedOut])
      && (crashed ==> fallbackSpawned)
    }

    /**
     * The request arrives: a rejected one is answered with 400 at once and spawns nothing;
     * an accepted one spawns the configured interpreter and starts the timer.
     */
    constructor (envPython: Option<string>, day: Num, airport: Num, parse: string -> Result<Json, string>)
      ensures Valid()
      ensures this.day == day && this.airport == airport && this.parse == parse
      ensures command == PythonCommand(envPython)
      ensures stdout == "" && stderr == "" && !killed && !fallbackSpawned && !crashed
      ensures ValidationError(day, airport).Some? ==>
        finished && !timerActive && spawns == [] && responses == [BadRequest(ValidationError(day, airport).value)]
      ensures ValidationError(day, airport).None? ==>
        !finished && timerActive && spawns == [Spawn(command, day, airport)] && responses == []
    {
      this.day := day;
      this.airport := airport;
      this.parse := parse;
      command := PythonCommand(envPython);
      stdout, stderr := "", "";
      killed, fallbackSpawned, fallbackClosed, fallbackSettled, crashed := false, false, false, false, false;
      fallbackOut, fallbackErr, spawnError := "", "", "";
      var rejection := ValidationError(day, airport);
      if rejection.Some? {
        finished, timerActive := true, false;
        spawns := [];
        responses := [BadRequest(rejection.value)];
      } else {
        finished, timerActive := false, true;
        spawns := [Spawn(command, day, airport)];
        responses := [];
      }
    }

    /** child.stdout 'data': the chunk is appended, whatever the state. */
    method OnStdout(chunk: string)
      requires Valid() && !crashed
      modifies this`stdout
      ensures Valid()
      ensures stdout == old(stdout) + chunk
    {
      stdout := stdout + chunk;
    }

    /** child.stderr 'data'. */
    method OnStderr(chunk: string)
      requires Valid() && !crashed
      modifies this`stderr
      ensures Valid()
      ensures stderr == old(stderr) + chunk
    {
      stderr := stderr + chunk;
    }

    /** The timer fires: if nothing has settled yet, the child is killed and 504 is sent. */
    method OnTimeout()
      requires Valid() && !crashed
      modifies this`finished, this`timerActive, this`killed, this`responses
      ensures Valid()
      ensures old(finished) ==> unchanged(this)
      ensures !old(finished) ==> finished && !timerActive && killed && responses == [TimedOut]
    {
      if !finished {
        finished := true;
        timerActive := false;
        killed := true;
        responses := responses + [TimedOut];
      }
    }

    /**
     * child 'error' (the process could not start): if it wins, the timer is cleared; python3 is
     * retried once as `python`, with the same arguments and no timer; any other command fails.
     */
    method OnError(err: string)
      requires Valid() && !crashed
      modifies this`finished, this`timerActive, this`fallbackSpawned, this`spawnError, this`spawns,
        this`responses
      ensures Valid()
      ensures old(finished) ==> unchanged(this)
      ensures !old(finished) ==> finished && !timerActive
      ensures !old(finished) && command == PreferredCommand ==>
        fallbackSpawned && spawnError == err && responses == []
        && spawns == old(spawns) + [Spawn(FallbackCommand, day, airport)]
      ensures !old(finished) && command != PreferredCommand ==>
        !fallbackSpawned && spawnError == old(spawnError) && spawns == old(spawns)
        && responses == [CouldNotStart(err)]
    {
      if finished {
        return;
      }
      finished := true;
      timerActive := false;
      if command == PreferredCommand {
        fallbackSpawned := true;
        spawnError := err;
        spawns := spawns + [Spawn(FallbackCommand, day, airport)];
        return;
      }
      responses := responses + [CouldNotStart(err)];
    }

    /** child 'close': if it wins, the timer is cleared and the exit code and output decide the answer. */
    method OnClose(code: Option<int>)
      requires Valid() && !crashed
      modifies this`finished, this`timerActive, this`responses
      ensures Valid()
      ensures old(finished) ==> unchanged(this)
      ensures !old(finished) ==> finished && !timerActive && responses == [CloseResponse(code, stdout, stderr, parse)]
    {
      if finished {
        return;
      }
      finished := true;
      timerActive := false;
      responses := responses + [CloseResponse(code, stdout, stderr, parse)];
    }

    /** fallback.stdout 'data'; the listener exists only once the fallback is spawned. */
    method OnFallbackStdout(chunk: string)
      requires Valid() && fallbackSpawned && !crashed
      modifies this`fallbackOut
      ensures Valid()
      ensures fallbackOut == old(fallbackOut) + chunk
    {
      fallbackOut := fallbackOut + chunk;
    }

    /** fallback.stderr 'data'. */
    method OnFallbackStderr(chunk: string)
      requires Valid() && fallbackSpawned && !crashed
      modifies this`fallbackErr
      ensures Valid()
      ensures fallbackErr == old(fallbackErr) + chunk
    {
      fallbackErr := fallbackErr + chunk;
    }

    /**
     * fallback 'close', which Node delivers once per process, after an 'error' too. The handler is
     * not guarded: `finished` was already set by the spawn error, and nothing else is checked. The
     * close answers the request the error left open; were the request already answered, the second
     * res.json would throw ERR_HTTP_HEADERS_SENT out of the listener and take the server down.
     */
    method OnFallbackClose(code: Option<int>)
      requires Valid() && fallbackSpawned && !fallbackClosed && !crashed
      modifies this`fallbackClosed, this`fallbackSettled, this`responses, this`crashed
      ensures Valid()
      ensures fallbackClosed && fallbackSettled
      ensures old(fallbackSettled) ==> crashed && responses == old(responses)
      ensures !old(fallbackSettled) ==>
        !crashed && responses == [FallbackCloseResponse(code, fallbackOut, fallbackErr, spawnError, parse)]
    {
      fallbackClosed := true;
      if fallbackSettled {
        crashed := true;
        return;
      }
      fallbackSettled := true;
      responses := responses + [FallbackCloseResponse(code, fallbackOut, fallbackErr, spawnError, parse)];
    }

    /**
     * fallback 'error' (`python` could not start either). The handler registers no listener for it,
     * so the event is thrown, the process exits and the request is never answered: `crashed`
     * disables every later event, and `responses` stays empty for good.
     */
    method OnFallbackError(err: string)
      requires Valid() && fallbackSpawned && !fallbackSettled && !crashed
      modifies this`crashed
      ensures Valid()
      ensures crashed && responses == []
    {
      crashed := true;
    }

    /**
     * The 'error' listener the fallback evidently needs, which only has to keep the emit from
     * throwing: Node's close (code -2) still follows, and the close listener answers the request
     * with "Prediction process failed" and the primary's spawn error, its own default when the
     * fallback wrote no stderr.
     */
    method OnFallbackErrorIgnored(err: string)
      requires Valid() && fallbackSpawned && !fallbackSettled && !crashed
      ensures Valid()
      ensures !crashed && !fallbackClosed && responses == []
    {
    }

    /**
     * An alternative listener that answers the spawn error itself, with 500 like any start
     * failure. The fallback's close still follows, so this one needs the guarded close below.
     */
    method OnFallbackErrorAnswered(err: string)
      requires Valid() && fallbackSpawned && !fallbackSettled && !crashed
      modifies this`fallbackSettled, this`responses
      ensures Valid()
      ensures fallbackSettled && !crashed && fallbackClosed == old(fallbackClosed)
      ensures responses == [CouldNotStart(err)]
    {
      fallbackSettled := true;
      responses := responses + [CouldNotStart(err)];
    }

    /**
     * The fallback 'close' listener guarded as the primary's events are by `finished`: a close that
     * follows an answered error leaves the response alone, so the request is answered exactly once.
     */
    method OnFallbackCloseGuarded(code: Option<int>)
      requires Valid() && fallbackSpawned && !fallbackClosed && !crashed
      modifies this`fallbackClosed, this`fallbackSettled, this`responses
      ensures Valid()
      ensures fallbackClosed && fallbackSettled && !crashed && |responses| == 1
      ensures old(fallbackSettled) ==> responses == old(responses)
      ensures !old(fallbackSettled) ==>
        responses == [FallbackCloseResponse(code, fallbackOut, fallbackErr, spawnError, parse)]
    {
      fallbackClosed := true;
      if fallbackSettled {
        return;
      }
      fallbackSettled := true;
      responses := responses + [FallbackCloseResponse(code, fallbackOut, fallbackErr, spawnError, parse)];
    }
  }
}
