/** `LogProvider.value()`: the logging function the component registers under
    LOG_ACTION. It is given the request URL and the result; it looks up the
    metadata the decorator stored for the current controller class and method,
    and prints at most one line with the arguments of that stored call. The
    elapsed time it measures from the stored start is given as the text of the
    rounded number of milliseconds. The printed line is the result here, and
    reading the level of missing metadata is the error. */
module LogProvider {
  import opened Basics
  import opened Levels
  import opened JsValues
  import opened LogDecorator
  import LogActionProvider

  /** Reading `metadata.level` when no metadata is stored throws a TypeError. */
  datatype LogError = MetadataMissing

  /** The filter at the top of the function: only two terms, with no check of
      the stored level against OFF. */
  predicate PassesFilter(level: int, configured: int)
  {
    level >= configured && configured != OFF
  }

  /** The `log` text: elapsed time, URL, class and method, the stored arguments
      joined by "," and the rendered result. */
  function Message(elapsedText: string, url: string, className: string, methodName: string,
                   args: seq<Value>, result: Value): string
  {
    var log := elapsedText + "ms: " + url + " : " + className;
    var log := log + " > " + methodName + "(" + JoinArgs(args, ",") + ") => ";
    log + Render(result)
  }

  /** One call of the logging function. It fails exactly when nothing is
      stored for the controller and method; otherwise a line is printed exactly
      when the rule with both OFF checks passes for the stored level and the
      switch has a case for it. */
  function Log(registry: Registry, url: string, controller: string, methodName: string, configured: int,
               elapsedText: string, result: Value): (r: Result<Option<string>, LogError>)
    ensures r.Failure? <==> GetLogOpMetadata(registry, controller, methodName).None?
    ensures r.Success? ==>
              var level := registry[Key(controller, methodName)].level;
              (r.value.Some? <==> ShouldLog(level, configured) && Printed(level))
  {
    match GetLogOpMetadata(registry, controller, methodName)
    case None => Failure(MetadataMissing)
    case Some(metadata) =>
      if PassesFilter(metadata.level, configured) then
        match Head(metadata.level)
        case Some(head) =>
          Success(Some(head + Message(elapsedText, url, controller, methodName, metadata.args, result) + RESET))
        case None => Success(None)
      else Success(None)
  }

  /** A printed line opens with the colour and label of the stored level. */
  lemma LineShowsStoredLevel(registry: Registry, url: string, controller: string, methodName: string,
                             configured: int, elapsedText: string, result: Value)
    ensures match Log(registry, url, controller, methodName, configured, elapsedText, result)
            case Success(Some(line)) => LevelOfLine(line) == Some(registry[Key(controller, methodName)].level)
            case _ => true
  {
    var k := Key(controller, methodName);
    if k in registry && PassesFilter(registry[k].level, configured) && Printed(registry[k].level) {
      var message := Message(elapsedText, url, controller, methodName, registry[k].args, result);
      HeadDetermined(registry[k].level, message + RESET);
      assert Head(registry[k].level).value + message + RESET == Head(registry[k].level).value + (message + RESET);
    }
  }

  /** Entries written by decorated methods never hold DEBUG, so the logging
      function never prints a DEBUG line for them, whatever the configured level. */
  lemma DecoratedEntriesNeverPrintDebug(registry: Registry, url: string, controller: string, methodName: string,
                                        configured: int, elapsedText: string, result: Value)
    requires NoDebugEntries(registry)
    ensures match Log(registry, url, controller, methodName, configured, elapsedText, result)
            case Success(Some(line)) => LevelOfLine(line) != Some(DEBUG)
            case _ => true
  {
    LineShowsStoredLevel(registry, url, controller, methodName, configured, elapsedText, result);
  }

  /** A stored OFF passes the two-term filter whenever the configured level is
      below OFF, yet no case of the switch matches it, so nothing is printed. */
  lemma StoredOffPassesFilterButPrintsNothing(registry: Registry, url: string, controller: string, methodName: string,
                                              configured: int, elapsedText: string, result: Value)
    requires Key(controller, methodName) in registry && registry[Key(controller, methodName)].level == OFF
    requires configured < OFF
    ensures PassesFilter(OFF, configured)
    ensures Log(registry, url, controller, methodName, configured, elapsedText, result) == Success(None)
  {
  }

  /** Configured OFF prints nothing, whatever level is stored. */
  lemma ConfiguredOffSilences(registry: Registry, url: string, controller: string, methodName: string,
                              elapsedText: string, result: Value)
    requires Key(controller, methodName) in registry
    ensures Log(registry, url, controller, methodName, OFF, elapsedText, result) == Success(None)
  {
  }

  /** The exact shape of a printed line: label, `{ms}ms: {url} : {Class} >
      {method}({stored args joined by ","}) => {result}`, reset. */
  lemma LineShape(registry: Registry, url: string, controller: string, methodName: string, configured: int,
                  elapsedText: string, result: Value)
    requires Key(controller, methodName) in registry
    requires ShouldLog(registry[Key(controller, methodName)].level, configured)
    requires Printed(registry[Key(controller, methodName)].level)
    ensures var metadata := registry[Key(controller, methodName)];
              Log(registry, url, controller, methodName, configured, elapsedText, result)
              == Success(Some(Head(metadata.level).value + elapsedText + "ms: " + url + " : " + controller + " > "
                              + methodName + "(" + JoinArgs(metadata.args, ",") + ") => " + Render(result) + RESET))
  {
    var metadata := registry[Key(controller, methodName)];
    var head := Head(metadata.level).value;
    var joined, rendered := JoinArgs(metadata.args, ","), Render(result);
    var message := Message(elapsedText, url, controller, methodName, metadata.args, result);
    assert message == elapsedText + "ms: " + url + " : " + controller + " > " + methodName
                      + "(" + joined + ") => " + rendered;
    assert Log(registry, url, controller, methodName, configured, elapsedText, result)
        == Success(Some(head + message + RESET));
    Reassociate(head, elapsedText, url, controller, methodName, joined, rendered, RESET);
  }

  lemma Reassociate(head: string, elapsedText: string, url: string, className: string, methodName: string,
                    joined: string, rendered: string, tail: string)
    ensures head + (elapsedText + "ms: " + url + " : " + className + " > " + methodName + "(" + joined + ") => "
                    + rendered) + tail
         == head + elapsedText + "ms: " + url + " : " + className + " > " + methodName + "(" + joined + ") => "
            + rendered + tail
  {
  }

  /** The two providers decide alike: with metadata stored, the registered
      provider prints a line exactly when the action provider would print one
      for the stored level. Only the text of the line differs. */
  lemma ProvidersAgreeOnEmission(registry: Registry, url: string, controller: string, methodName: string,
                                 configured: int, elapsedText: string, result: Value,
                                 args: Option<seq<Value>>, start: Option<Time>, timer: TimerFn)
    requires Key(controller, methodName) in registry
    ensures Log(registry, url, controller, methodName, configured, elapsedText, result).Success?
    ensures Log(registry, url, controller, methodName, configured, elapsedText, result).value.Some?
        <==> LogActionProvider.Log(url, controller, methodName, Some(registry[Key(controller, methodName)].level),
                                   configured, args, result, start, timer).Some?
  {
  }

  /** The line prints the arguments of the latest call of the method: after a
      series of calls, logging reads exactly what a registry holding only that
      call's metadata would give. */
  lemma PrintsLatestCall(registry: Registry, writes: seq<Write>, url: string, controller: string, methodName: string,
                         configured: int, elapsedText: string, result: Value)
    requires LastFor(writes, Key(controller, methodName)).Some?
    ensures Log(Replay(registry, writes), url, controller, methodName, configured, elapsedText, result)
         == Log(map[Key(controller, methodName) := LastFor(writes, Key(controller, methodName)).value],
                url, controller, methodName, configured, elapsedText, result)
  {
    LastWriteWins(registry, writes, controller, methodName);
  }

  /** A method decorated with `@log(LogLevel.DEBUG)` is stored at WARN, so after
      a call it is logged with the WARN label, and not at all under ERROR. */
  lemma DeclaredDebugLogsAsWarn(registry: Registry, controller: string, methodName: string, args: seq<Value>,
                                now: HrTime, url: string, configured: int, elapsedText: string, result: Value)
    ensures var stored := registry[Key(controller, methodName) := LogMetadata(StoredLevel(Some(DEBUG)), args, now)];
            match Log(stored, url, controller, methodName, configured, elapsedText, result)
            case Success(Some(line)) => configured <= WARN && LevelOfLine(line) == Some(WARN)
            case Success(None) => configured > WARN
            case Failure(_) => false
  {
    var stored := registry[Key(controller, methodName) := LogMetadata(StoredLevel(Some(DEBUG)), args, now)];
    LineShowsStoredLevel(stored, url, controller, methodName, configured, elapsedText, result);
  }
}
