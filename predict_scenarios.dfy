/** Request scenarios walked through the handler and the form, as client code of both classes. */
module PredictScenarios {
  import opened Wrappers
  import opened JsonData
  import opened PredictServer
  import PredictClient
  import JsText

  const Document := "{\"certainty\":0.82,\"delay\":0.18}"
  const Scored := JObject(map["certainty" := JNumber("0.82"), "delay" := JNumber("0.18")])

  /** A JSON.parse that knows the one document the scorer prints here. */
  function ParseDocument(text: string): Result<Json, string> {
    if text == Document then Success(Scored) else Failure("SyntaxError: Unexpected end of JSON input")
  }

  /** day_of_week=9: 400 with the day message, and nothing is spawned. */
  method DayOutOfRange() {
    var h := new PredictHandler(None, Finite(9.0), Finite(12892.0), ParseDocument);
    assert h.responses == [BadRequest(DayError)] && h.spawns == [];
  }

  /** Both parameters bad: the day message wins. */
  method DayCheckedFirst() {
    var h := new PredictHandler(None, NaN, NaN, ParseDocument);
    assert h.responses == [BadRequest(DayError)];
  }

  /** The guard checks the range only: day_of_week=2.5 reaches the spawn. */
  method FractionalDayReachesSpawn() {
    var h := new PredictHandler(None, Finite(2.5), Finite(12892.0), ParseDocument);
    assert h.responses == [] && h.spawns == [Spawn("python3", Finite(2.5), Finite(12892.0))];
  }

  /** The scorer's line, newline included, trims to the document itself. */
  lemma DocumentLineTrims()
    ensures JsText.Trim(Document + "\n") == Document
  {
    assert JsText.AllSpace("\n");
    JsText.TrimIgnoresPadding([], Document, "\n");
    assert [] + Document + "\n" == Document + "\n";
    JsText.TrimUnique(Document, 0, |Document|);
    assert Document[0..|Document|] == Document;
  }

  /** day_of_week=3, airport_id=12892, the scorer prints its JSON line and exits 0: 200 with it. */
  method CleanExit() {
    var h := new PredictHandler(None, Finite(3.0), Finite(12892.0), ParseDocument);
    h.OnStdout(Document + "\n");
    assert h.stdout == Document + "\n";
    DocumentLineTrims();
    h.OnClose(Some(0));
    assert h.responses == [Response(200, Data(Scored))];
  }

  /** The timer wins: 504, the child is killed, and its late close and error change nothing. */
  method TimeoutThenLateEvents() {
    var h := new PredictHandler(None, Finite(3.0), Finite(12892.0), ParseDocument);
    h.OnTimeout();
    h.OnClose(None);
    h.OnError("Error: kill EPERM");
    assert h.responses == [TimedOut] && h.killed;
  }

  /** A nonzero exit with nothing on stderr reports the exit code. */
  method SilentCrash() {
    var h := new PredictHandler(None, Finite(3.0), Finite(12892.0), ParseDocument);
    h.OnClose(Some(1));
    assert h.responses == [ProcessFailed(ExitDetail(Some(1)))];
  }

  /** python3 is missing: `python` is spawned once, and its failure carries its own stderr. */
  method FallbackAfterMissingPython3() {
    var h := new PredictHandler(None, Finite(3.0), Finite(12892.0), ParseDocument);
    h.OnError("Error: spawn python3 ENOENT");
    h.OnClose(Some(-2));
    h.OnFallbackStderr("ModuleNotFoundError: No module named 'sklearn'");
    h.OnFallbackClose(Some(1));
    assert h.spawns == [Spawn("python3", Finite(3.0), Finite(12892.0)), Spawn("python", Finite(3.0), Finite(12892.0))];
    assert h.responses == [ProcessFailed([] + "ModuleNotFoundError: No module named 'sklearn'")];
  }

  /**
   * Neither python3 nor python installed: the fallback's spawn error has no listener, the server
   * goes down and the request is left with no response at all.
   */
  method NoInterpreterNoAnswer() {
    var h := new PredictHandler(None, Finite(3.0), Finite(12892.0), ParseDocument);
    h.OnError("Error: spawn python3 ENOENT");
    h.OnFallbackError("Error: spawn python ENOENT");
    assert h.crashed && h.responses == [];
  }

  /**
   * A listener that answers the fallback's 'error' itself, with the close left unguarded, is not
   * enough: Node's close (code -2) follows, answers a second time, and the server still goes down.
   */
  method AnsweringListenerAloneCrashes() {
    var h := new PredictHandler(None, Finite(3.0), Finite(12892.0), ParseDocument);
    h.OnError("Error: spawn python3 ENOENT");
    h.OnFallbackErrorAnswered("Error: spawn python ENOENT");
    h.OnFallbackClose(Some(-2));
    assert h.crashed;
  }

  /**
   * With an 'error' listener that sends nothing, the close that follows answers the request once,
   * with the primary's spawn error as its details.
   */
  method NoInterpreterAnswered() {
    var h := new PredictHandler(None, Finite(3.0), Finite(12892.0), ParseDocument);
    h.OnError("Error: spawn python3 ENOENT");
    h.OnFallbackErrorIgnored("Error: spawn python ENOENT");
    h.OnFallbackClose(Some(-2));
    assert h.responses == [ProcessFailed("Error: spawn python3 ENOENT")] && !h.crashed;
  }

  /** A listener that answers the error itself needs the guarded close to answer only once. */
  method AnsweringListenerWithGuardedClose() {
    var h := new PredictHandler(None, Finite(3.0), Finite(12892.0), ParseDocument);
    h.OnError("Error: spawn python3 ENOENT");
    h.OnFallbackErrorAnswered("Error: spawn python ENOENT");
    h.OnFallbackCloseGuarded(Some(-2));
    assert h.responses == [Response(500, Problem(StartError, Some("Error: spawn python ENOENT"), None))];
    assert !h.crashed;
  }

  /** A configured interpreter that cannot start gets no fallback. */
  method NoFallbackForConfiguredInterpreter() {
    var h := new PredictHandler(Some("/opt/venv/bin/python"), Finite(3.0), Finite(12892.0), ParseDocument);
    h.OnError("Error: spawn /opt/venv/bin/python ENOENT");
    assert h.responses == [CouldNotStart("Error: spawn /opt/venv/bin/python ENOENT")] && !h.fallbackSpawned;
  }

  /** The form asks once per selection; a second submit is answered from the cache. */
  method FormMemoises() {
    var form := new PredictClient.PredictForm();
    form.OnPredict(PredictClient.Whole(3), PredictClient.Whole(12892), PredictClient.Fetched(true, Scored));
    assert form.result == Some(Scored) && |form.fetches| == 1;
    form.OnPredict(PredictClient.Whole(3), PredictClient.Whole(12892), PredictClient.Rejected("Failed to fetch"));
    assert form.result == Some(Scored) && form.error == "" && |form.fetches| == 1;
    form.OnPredict(PredictClient.Whole(0), PredictClient.Whole(12892), PredictClient.Rejected("Failed to fetch"));
    assert form.error == PredictClient.SelectionMessage && form.result == None && |form.fetches| == 1;
  }

  /** A failed request is reported and leaves the cache as it was. */
  method FormFailureNotCached() {
    var form := new PredictClient.PredictForm();
    var body := JObject(map["error" := JString("Prediction timed out")]);
    form.OnPredict(PredictClient.Whole(3), PredictClient.Whole(12892), PredictClient.Fetched(false, body));
    assert form.error == "Prediction timed out" && form.cache == map[] && !form.predicting;
  }
}
