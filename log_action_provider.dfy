/** `LogActionProvider.value()`: the logging action whose output the unit and
    acceptance tests assert. It is given the request URL, the controller's
    class and method names, the level stored for that method (`undefined` when
    the method is not decorated), the configured minimum, the arguments, the
    result, an optional start time and the timer; it prints at most one line.
    The printed line is the result here (None: nothing printed). */
module LogActionProvider {
  import opened Basics
  import opened Levels
  import opened JsValues

  /** The `log` text built before the label: the arguments (none given reads as
      an empty list) joined by ", ", the result rendered, and the elapsed time
      in front when a start time was passed. */
  function Message(url: string, className: string, methodName: string, args: Option<seq<Value>>,
                   result: Value, start: Option<Time>, timer: TimerFn): string
  {
    var args := if args.Some? then args.value else [];
    var log := url + " :: " + className + ".";
    var log := log + methodName + "(" + JoinArgs(args, ", ") + ") => ";
    var log := log + Render(result);
    if start.Some? then TimeText(timer(start)) + "ms: " + log else log
  }

  /** One call of the logging function: a line is printed exactly when a level
      is stored, the filter passes and the switch has a case for the level. */
  function Log(url: string, className: string, methodName: string, level: Option<int>, configured: int,
               args: Option<seq<Value>>, result: Value, start: Option<Time>, timer: TimerFn): (r: Option<string>)
    ensures r.Some? <==> level.Some? && ShouldLog(level.value, configured) && Printed(level.value)
  {
    if level.Some? && ShouldLog(level.value, configured) then
      match Head(level.value)
      case Some(head) => Some(head + Message(url, className, methodName, args, result, start, timer) + RESET)
      case None => None
    else None
  }

  /** A printed line opens with the colour and label of the declared level and
      of no other. */
  lemma LineShowsDeclaredLevel(url: string, className: string, methodName: string, level: Option<int>, configured: int,
                               args: Option<seq<Value>>, result: Value, start: Option<Time>, timer: TimerFn)
    ensures match Log(url, className, methodName, level, configured, args, result, start, timer)
            case Some(line) => LevelOfLine(line) == level
            case None => true
  {
    if level.Some? && ShouldLog(level.value, configured) && Printed(level.value) {
      var message := Message(url, className, methodName, args, result, start, timer);
      HeadDetermined(level.value, message + RESET);
      assert Head(level.value).value + message + RESET == Head(level.value).value + (message + RESET);
    }
  }

  /** `startTimer()`: the timer called with no start. */
  function StartTimer(timer: TimerFn): Time
  {
    timer(None)
  }

  /** A start time taken with `startTimer()` and passed back to the logging
      function puts `{timer(timer())}ms: ` right after the label of the line
      that would be printed without it, and changes nothing else. */
  lemma StartedLineShowsElapsed(level: Option<int>, configured: int, url: string, className: string, methodName: string,
                                args: Option<seq<Value>>, result: Value, timer: TimerFn)
    ensures Log(url, className, methodName, level, configured, args, result, Some(StartTimer(timer)), timer)
         == match Log(url, className, methodName, level, configured, args, result, None, timer)
            case None => None
            case Some(line) =>
              var h := |Head(level.value).value|;
              Some(line[..h] + TimeText(timer(Some(timer(None)))) + "ms: " + line[h..])
  {
    ElapsedInsideLabel(level, configured, url, className, methodName, args, result, StartTimer(timer), timer);
  }

  /** For the five levels of the enumeration the decision is the rule with both
      OFF checks: configured not OFF, declared not OFF, declared at or above. */
  lemma FilterTruthTable(declared: int, configured: int, url: string, className: string, methodName: string,
                         args: Option<seq<Value>>, result: Value, start: Option<Time>, timer: TimerFn)
    requires DEBUG <= declared <= OFF
    ensures Log(url, className, methodName, Some(declared), configured, args, result, start, timer).Some?
        <==> configured != OFF && declared != OFF && declared >= configured
  {
  }

  /** Configured OFF prints nothing for any stored level, and a method with no
      stored level or a stored OFF prints nothing at any configured level. */
  lemma Silences(level: Option<int>, configured: int, url: string, className: string, methodName: string,
                 args: Option<seq<Value>>, result: Value, start: Option<Time>, timer: TimerFn)
    requires configured == OFF || level.None? || level == Some(OFF)
    ensures Log(url, className, methodName, level, configured, args, result, start, timer).None?
  {
  }

  /** Missing arguments print exactly as an empty argument list does. */
  lemma MissingArgsAsEmpty(level: Option<int>, configured: int, url: string, className: string, methodName: string,
                           result: Value, start: Option<Time>, timer: TimerFn)
    ensures Log(url, className, methodName, level, configured, None, result, start, timer)
         == Log(url, className, methodName, level, configured, Some([]), result, start, timer)
  {
  }

  /** The exact shape of a printed line: label, the elapsed time when a start
      time is passed, then `{url} :: {Class}.{method}({args}) => {result}`. */
  lemma LineShape(level: int, configured: int, url: string, className: string, methodName: string,
                  args: seq<Value>, result: Value, start: Option<Time>, timer: TimerFn)
    requires ShouldLog(level, configured) && Printed(level)
    ensures Log(url, className, methodName, Some(level), configured, Some(args), result, start, timer)
         == Some(Head(level).value + (if start.Some? then TimeText(timer(start)) + "ms: " else "")
                 + url + " :: " + className + "." + methodName
                 + "(" + JoinArgs(args, ", ") + ") => " + Render(result) + RESET)
  {
    var head := Head(level).value;
    var elapsed := if start.Some? then TimeText(timer(start)) + "ms: " else "";
    var joined, rendered := JoinArgs(args, ", "), Render(result);
    var message := Message(url, className, methodName, Some(args), result, start, timer);
    assert message == elapsed + (url + " :: " + className + "." + methodName + "(" + joined + ") => " + rendered);
    assert Log(url, className, methodName, Some(level), configured, Some(args), result, start, timer)
        == Some(head + message + RESET);
    Reassociate(head, elapsed, url, className, methodName, joined, rendered, RESET);
  }

  lemma Reassociate(head: string, elapsed: string, url: string, className: string, methodName: string,
                    joined: string, rendered: string, tail: string)
    ensures head + (elapsed + (url + " :: " + className + "." + methodName + "(" + joined + ") => " + rendered)) + tail
         == head + elapsed + url + " :: " + className + "." + methodName + "(" + joined + ") => " + rendered + tail
  {
  }

  /** Passing a start time inserts `{timer(start)}ms: ` right after the label
      and changes nothing else in the line; whether a line is printed does not
      depend on the start time. */
  lemma ElapsedInsideLabel(level: Option<int>, configured: int, url: string, className: string, methodName: string,
                           args: Option<seq<Value>>, result: Value, start: Time, timer: TimerFn)
    ensures Log(url, className, methodName, level, configured, args, result, Some(start), timer)
         == match Log(url, className, methodName, level, configured, args, result, None, timer)
            case None => None
            case Some(line) =>
              var h := |Head(level.value).value|;
              Some(line[..h] + TimeText(timer(Some(start))) + "ms: " + line[h..])
  {
    if level.Some? && ShouldLog(level.value, configured) && Printed(level.value) {
      var head := Head(level.value).value;
      var untimed := Message(url, className, methodName, args, result, None, timer);
      var prefix := TimeText(timer(Some(start))) + "ms: ";
      assert Message(url, className, methodName, args, result, Some(start), timer) == prefix + untimed;
      InsertAfter(head, TimeText(timer(Some(start))), untimed, RESET);
    }
  }

  lemma InsertAfter(head: string, time: string, body: string, tail: string)
    ensures var line := head + body + tail;
            line[..|head|] + time + "ms: " + line[|head|..] == head + (time + "ms: " + body) + tail
  {
    var line := head + body + tail;
    assert line[..|head|] == head;
    assert line[|head|..] == body + tail;
  }

  /** The timer the tests bind: a reading of [2, 2] without a start, 100.02 ms
      with one. */
  function TestTimer(start: Option<Time>): Time
  {
    if start.None? then Stamp(HrTime(2, 2)) else Ms("100.02")
  }

  /** Declared ERROR, configured WARN, no arguments and no start time: the
      line the unit test expects. */
  lemma UnitTestPlain()
    ensures Log("/test", "TestClass", "test", Some(ERROR), WARN, Some([]), Primitive("test message"), None, TestTimer)
         == Some("\U{1B}[31m ERROR: /test :: TestClass.test() => test message \U{1B}[0m")
  {
    assert "\U{1B}[31m ERROR: " + "" + "/test" + " :: " + "TestClass" + "." + "test" + "(" + "" + ") => " + "test message" + RESET
        == "\U{1B}[31m ERROR: /test :: TestClass.test() => test message \U{1B}[0m" by {
      assert "\U{1B}[31m ERROR: " + "" + "/test" + " :: " + "TestClass" + "." == "\U{1B}[31m ERROR: /test :: TestClass.";
      assert "\U{1B}[31m ERROR: /test :: TestClass." + "test" + "(" + "" + ") => " == "\U{1B}[31m ERROR: /test :: TestClass.test() => ";
    }
    NoArgsJoinEmpty(", ");
    LineShape(ERROR, WARN, "/test", "TestClass", "test", [], Primitive("test message"), None, TestTimer);
  }

  /** Declared ERROR, configured WARN, no arguments and a start time taken
      with `startTimer()`: the line the unit test expects, with `100.02ms: `
      after the label. */
  lemma UnitTestStartTime()
    ensures Log("/test", "TestClass", "test", Some(ERROR), WARN, Some([]), Primitive("test message"), Some(StartTimer(TestTimer)), TestTimer)
         == Some("\U{1B}[31m ERROR: 100.02ms: /test :: TestClass.test() => test message \U{1B}[0m")
  {
    NoArgsJoinEmpty(", ");
    TestTimerElapsed();
    TimedLineSpelled();
    var start := Some(StartTimer(TestTimer));
    LineShape(ERROR, WARN, "/test", "TestClass", "test", [], Primitive("test message"), start, TestTimer);
  }

  lemma TimedLineSpelled()
    ensures "\U{1B}[31m ERROR: " + "100.02ms: " + "/test" + " :: " + "TestClass" + "." + "test" + "(" + "" + ") => " + "test message" + RESET
         == "\U{1B}[31m ERROR: 100.02ms: /test :: TestClass.test() => test message \U{1B}[0m"
  {
    assert "\U{1B}[31m ERROR: " + "100.02ms: " + "/test" + " :: " + "TestClass" + "." == "\U{1B}[31m ERROR: 100.02ms: /test :: TestClass.";
    assert "\U{1B}[31m ERROR: 100.02ms: /test :: TestClass." + "test" + "(" + "" + ") => " == "\U{1B}[31m ERROR: 100.02ms: /test :: TestClass.test() => ";
  }

  /** Declared ERROR, configured WARN and the two arguments `test` and
      `message`: the line the unit test expects. */
  lemma UnitTestArgs()
    ensures Log("/test", "TestClass", "test", Some(ERROR), WARN, Some([Primitive("test"), Primitive("message")]), Primitive("test message"), None, TestTimer)
         == Some("\U{1B}[31m ERROR: /test :: TestClass.test(test, message) => test message \U{1B}[0m")
  {
    assert "\U{1B}[31m ERROR: " + "" + "/test" + " :: " + "TestClass" + "." + "test" + "(" + "test, message" + ") => " + "test message" + RESET
        == "\U{1B}[31m ERROR: /test :: TestClass.test(test, message) => test message \U{1B}[0m" by {
      assert "\U{1B}[31m ERROR: " + "" + "/test" + " :: " + "TestClass" + "." == "\U{1B}[31m ERROR: /test :: TestClass.";
      assert "\U{1B}[31m ERROR: /test :: TestClass." + "test" + "(" + "test, message" + ") => " == "\U{1B}[31m ERROR: /test :: TestClass.test(test, message) => ";
    }
    TestArgsJoined();
    LineShape(ERROR, WARN, "/test", "TestClass", "test", [Primitive("test"), Primitive("message")], Primitive("test message"), None, TestTimer);
  }

  /** At configured DEBUG, `/debug`, declared DEBUG, prints the white DEBUG
      line the acceptance test expects. */
  lemma AcceptanceDebug()
    ensures Log("/debug", "MyController", "debug", Some(DEBUG), DEBUG, Some([]), Primitive("debug called"), None, TestTimer)
         == Some("\U{1B}[37m DEBUG: /debug :: MyController.debug() => debug called \U{1B}[0m")
  {
    assert "\U{1B}[37m DEBUG: " + "" + "/debug" + " :: " + "MyController" + "." + "debug" + "(" + "" + ") => " + "debug called" + RESET
        == "\U{1B}[37m DEBUG: /debug :: MyController.debug() => debug called \U{1B}[0m" by {
      assert "\U{1B}[37m DEBUG: " + "" + "/debug" + " :: " + "MyController" + "." == "\U{1B}[37m DEBUG: /debug :: MyController.";
      assert "\U{1B}[37m DEBUG: /debug :: MyController." + "debug" + "(" + "" + ") => " == "\U{1B}[37m DEBUG: /debug :: MyController.debug() => ";
    }
    NoArgsJoinEmpty(", ");
    LineShape(DEBUG, DEBUG, "/debug", "MyController", "debug", [], Primitive("debug called"), None, TestTimer);
  }

  /** At configured DEBUG, `/info`, declared INFO, prints the green INFO line
      the acceptance test expects. */
  lemma AcceptanceInfo()
    ensures Log("/info", "MyController", "info", Some(INFO), DEBUG, Some([]), Primitive("info called"), None, TestTimer)
         == Some("\U{1B}[32m INFO: /info :: MyController.info() => info called \U{1B}[0m")
  {
    assert "\U{1B}[32m INFO: " + "" + "/info" + " :: " + "MyController" + "." + "info" + "(" + "" + ") => " + "info called" + RESET
        == "\U{1B}[32m INFO: /info :: MyController.info() => info called \U{1B}[0m" by {
      assert "\U{1B}[32m INFO: " + "" + "/info" + " :: " + "MyController" + "." == "\U{1B}[32m INFO: /info :: MyController.";
      assert "\U{1B}[32m INFO: /info :: MyController." + "info" + "(" + "" + ") => " == "\U{1B}[32m INFO: /info :: MyController.info() => ";
    }
    NoArgsJoinEmpty(", ");
    LineShape(INFO, DEBUG, "/info", "MyController", "info", [], Primitive("info called"), None, TestTimer);
  }

  /** At configured DEBUG, `/warn`, declared WARN, prints the yellow WARN line
      the acceptance test expects. */
  lemma AcceptanceWarn()
    ensures Log("/warn", "MyController", "warn", Some(WARN), DEBUG, Some([]), Primitive("warn called"), None, TestTimer)
         == Some("\U{1B}[33m WARN: /warn :: MyController.warn() => warn called \U{1B}[0m")
  {
    assert "\U{1B}[33m WARN: " + "" + "/warn" + " :: " + "MyController" + "." + "warn" + "(" + "" + ") => " + "warn called" + RESET
        == "\U{1B}[33m WARN: /warn :: MyController.warn() => warn called \U{1B}[0m" by {
      assert "\U{1B}[33m WARN: " + "" + "/warn" + " :: " + "MyController" + "." == "\U{1B}[33m WARN: /warn :: MyController.";
      assert "\U{1B}[33m WARN: /warn :: MyController." + "warn" + "(" + "" + ") => " == "\U{1B}[33m WARN: /warn :: MyController.warn() => ";
    }
    NoArgsJoinEmpty(", ");
    LineShape(WARN, DEBUG, "/warn", "MyController", "warn", [], Primitive("warn called"), None, TestTimer);
  }

  /** At configured DEBUG, `/error`, declared ERROR, prints the red ERROR line
      the acceptance test expects. */
  lemma AcceptanceError()
    ensures Log("/error", "MyController", "error", Some(ERROR), DEBUG, Some([]), Primitive("error called"), None, TestTimer)
         == Some("\U{1B}[31m ERROR: /error :: MyController.error() => error called \U{1B}[0m")
  {
    assert "\U{1B}[31m ERROR: " + "" + "/error" + " :: " + "MyController" + "." + "error" + "(" + "" + ") => " + "error called" + RESET
        == "\U{1B}[31m ERROR: /error :: MyController.error() => error called \U{1B}[0m" by {
      assert "\U{1B}[31m ERROR: " + "" + "/error" + " :: " + "MyController" + "." == "\U{1B}[31m ERROR: /error :: MyController.";
      assert "\U{1B}[31m ERROR: /error :: MyController." + "error" + "(" + "" + ") => " == "\U{1B}[31m ERROR: /error :: MyController.error() => ";
    }
    NoArgsJoinEmpty(", ");
    LineShape(ERROR, DEBUG, "/error", "MyController", "error", [], Primitive("error called"), None, TestTimer);
  }

  /** At configured DEBUG, `/?name=test`, declared WARN by `@log()`, prints the
      yellow WARN line with the argument `test` that the acceptance test
      expects. */
  lemma AcceptanceHello()
    ensures Log("/?name=test", "MyController", "hello", Some(WARN), DEBUG, Some([Primitive("test")]), Primitive("hello test"), None, TestTimer)
         == Some("\U{1B}[33m WARN: /?name=test :: MyController.hello(test) => hello test \U{1B}[0m")
  {
    assert "\U{1B}[33m WARN: " + "" + "/?name=test" + " :: " + "MyController" + "." + "hello" + "(" + "test" + ") => " + "hello test" + RESET
        == "\U{1B}[33m WARN: /?name=test :: MyController.hello(test) => hello test \U{1B}[0m" by {
      assert "\U{1B}[33m WARN: " + "" + "/?name=test" + " :: " + "MyController" + "." == "\U{1B}[33m WARN: /?name=test :: MyController.";
      assert "\U{1B}[33m WARN: /?name=test :: MyController." + "hello" + "(" + "test" + ") => " == "\U{1B}[33m WARN: /?name=test :: MyController.hello(test) => ";
    }
    TestArgsJoined();
    LineShape(WARN, DEBUG, "/?name=test", "MyController", "hello", [Primitive("test")], Primitive("hello test"), None, TestTimer);
  }

  /** At the level `LogLevelProvider` binds when the application sets none
      (WARN, the run that sets WARN explicitly): the undecorated, OFF, DEBUG
      and INFO routes print nothing, the WARN and ERROR routes and the `@log()`
      route, stored at WARN, print their lines. */
  lemma AcceptanceAtDefaultLevel()
    ensures Log("/nolog", "MyController", "nolog", None, DEFAULT_LOG_LEVEL, Some([]), Primitive("nolog called"), None, TestTimer).None?
    ensures Log("/off", "MyController", "off", Some(OFF), DEFAULT_LOG_LEVEL, Some([]), Primitive("off called"), None, TestTimer).None?
    ensures Log("/debug", "MyController", "debug", Some(DEBUG), DEFAULT_LOG_LEVEL, Some([]), Primitive("debug called"), None, TestTimer).None?
    ensures Log("/info", "MyController", "info", Some(INFO), DEFAULT_LOG_LEVEL, Some([]), Primitive("info called"), None, TestTimer).None?
    ensures Log("/warn", "MyController", "warn", Some(WARN), DEFAULT_LOG_LEVEL, Some([]), Primitive("warn called"), None, TestTimer)
         == Some("\U{1B}[33m WARN: /warn :: MyController.warn() => warn called \U{1B}[0m")
    ensures Log("/error", "MyController", "error", Some(ERROR), DEFAULT_LOG_LEVEL, Some([]), Primitive("error called"), None, TestTimer)
         == Some("\U{1B}[31m ERROR: /error :: MyController.error() => error called \U{1B}[0m")
    ensures Log("/?name=test", "MyController", "hello", Some(WARN), DEFAULT_LOG_LEVEL, Some([Primitive("test")]), Primitive("hello test"), None, TestTimer)
         == Some("\U{1B}[33m WARN: /?name=test :: MyController.hello(test) => hello test \U{1B}[0m")
  {
    AcceptanceWarn();
    AcceptanceError();
    AcceptanceHello();
  }

  lemma NoArgsJoinEmpty(sep: string)
    ensures JoinArgs([], sep) == ""
  {
  }

  lemma TestArgsJoined()
    ensures JoinArgs([Primitive("test"), Primitive("message")], ", ") == "test, message"
    ensures JoinArgs([Primitive("test")], ", ") == "test"
  {
    var two := [Primitive("test"), Primitive("message")];
    var forms := seq(2, i requires 0 <= i < 2 => JoinForm(two[i]));
    assert forms == ["test", "message"];
    assert Join(forms[1..], ", ") == "message";
    var one := [Primitive("test")];
    assert seq(1, i requires 0 <= i < 1 => JoinForm(one[i])) == ["test"];
  }

  lemma TestTimerElapsed()
    ensures TimeText(TestTimer(Some(StartTimer(TestTimer)))) + "ms: " == "100.02ms: "
    ensures (if Some(StartTimer(TestTimer)).Some? then TimeText(TestTimer(Some(StartTimer(TestTimer)))) + "ms: " else "")
         == "100.02ms: "
  {
  }
}
