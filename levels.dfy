/** The five log levels of `LogLevel` and what the console line of each looks
    like. Levels are plain numbers in the source, so they are `int` here: the
    providers compare them numerically and their `switch` has no default case,
    so a number outside DEBUG..ERROR is handled as the source handles it. */
module Levels {
  import opened Basics

  const DEBUG: int := 0
  const INFO: int := 1
  const WARN: int := 2
  const ERROR: int := 3
  const OFF: int := 4

  /** What `LogLevelProvider.value()` binds as the configured minimum. */
  const DEFAULT_LOG_LEVEL: int := WARN

  /** The text every printed line ends with: a space and the ANSI reset code. */
  const RESET: string := " \U{1B}[0m"

  /** The ANSI colour and label that the providers' `switch` opens a line with;
      None when no case of the switch matches, so nothing is printed. */
  function Head(level: int): Option<string>
  {
    if level == DEBUG then Some("\U{1B}[37m DEBUG: ")
    else if level == INFO then Some("\U{1B}[32m INFO: ")
    else if level == WARN then Some("\U{1B}[33m WARN: ")
    else if level == ERROR then Some("\U{1B}[31m ERROR: ")
    else None
  }

  /** A level is printable when some case of the `switch` matches it. */
  predicate Printed(level: int)
  {
    Head(level).Some?
  }

  /** The filtering rule stated with both OFF checks: the configured minimum is
      not OFF, the declared level is not OFF, and it is at or above the minimum. */
  predicate ShouldLog(declared: int, configured: int)
  {
    configured != OFF && declared >= configured && declared != OFF
  }

  predicate HasHead(line: string, level: int)
  {
    match Head(level)
    case None => false
    case Some(h) => |h| <= |line| && line[..|h|] == h
  }

  /** Reads the level back from the colour and label a console line opens with. */
  function LevelOfLine(line: string): Option<int>
  {
    if HasHead(line, DEBUG) then Some(DEBUG)
    else if HasHead(line, INFO) then Some(INFO)
    else if HasHead(line, WARN) then Some(WARN)
    else if HasHead(line, ERROR) then Some(ERROR)
    else None
  }

  lemma PrintedRange(level: int)
    ensures Printed(level) <==> DEBUG <= level <= ERROR
  {
  }

  /** The four heads differ in their colour code, so the line a level opens
      determines the level: the colour shown is always the declared one's. */
  lemma {:induction false} HeadDetermined(level: int, rest: string)
    requires Printed(level)
    ensures LevelOfLine(Head(level).value + rest) == Some(level)
  {
    var h := Head(level).value;
    var line := h + rest;
    assert line[..|h|] == h;
    assert line[3] == h[3];
    assert HasHead(line, level);
    forall other | DEBUG <= other <= ERROR && other != level
      ensures !HasHead(line, other)
    {
      var g := Head(other).value;
      assert g[3] != h[3];
    }
  }
}
