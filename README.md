# Method-level logging extension: a Dafny model

This project models the logic of a small logging extension for a REST
framework. A controller method is marked with `@log(level?)`. Each call of
the marked method records metadata in a registry: the level, the arguments
and a start time. A logging action then decides whether to print a line for
the request and builds one ANSI-coloured console line.

The repository has two logging providers that disagree on the line format.
Both are modelled, as separate functions:

- `LogProvider` is the one the component registers. It reads the stored
  metadata, prints the stored arguments joined by `,` and always prints the
  elapsed time. It fails when nothing is stored for the method.
- `LogActionProvider` is the one the unit and acceptance tests check. It is
  given the level and the arguments. It prints the arguments joined by `", "`
  and prints the elapsed time only when a start time is passed. It prints
  nothing when no level is stored.

Modules, one per source file:

- `Basics` (`basics.dfy`): Option, Result, `join` and the decimal text of a
  number.
- `Levels` (`levels.dfy`, from `src/keys.ts`): the five levels DEBUG=0 <
  INFO=1 < WARN=2 < ERROR=3 < OFF=4, and the default configured level WARN.
  It also holds the colour and label each level's line opens with, the reset
  suffix, and a reader that recovers the level from a line.
- `JsValues` (`js_values.dfy`): the JavaScript values the logger sees.
  - A result is appended as its JSON text when its `typeof` is `'object'`
    (null included), and as its string form otherwise.
  - `join` writes null and undefined as empty strings.
  - Timer values are either a `process.hrtime()` reading or a number of
    milliseconds.
- `LogDecorator` (`log_decorator.dfy`): the registry, as a map from
  (class, method) to `{level, args, startTime}`, and `getLogOpMetadata`.
  - The class `MetadataStore` holds the registry.
  - The class `LoggedMethod` is what `@log(level)` returns. Each call
    replaces a missing or falsy captured level with WARN, overwrites the
    registry entry, then forwards to the original method.
- `LogActionProvider` (`log_action_provider.dfy`) and `LogProvider`
  (`log_provider.dfy`): the two logging functions. Each is a pure function
  that returns the line it would print, or nothing.

Behaviour of the code that the model keeps:

- The level is written to the registry on every call of a decorated method.
  Declaring the method writes nothing.
- When nothing is stored for the method, `LogProvider` throws a TypeError,
  modelled as `MetadataMissing`. `LogActionProvider` prints nothing for a
  method with no stored level.
- `LogProvider` always prints the elapsed time. `LogActionProvider` prints it
  only when a start time is given.
- `@log(LogLevel.DEBUG)` stores WARN, because the default is chosen by a
  falsiness test and DEBUG is 0 (`DeclaredDebugLogsAsWarn`).
- The entry is written before the original method runs, so it stays in place
  when the original throws. Decorated methods that the original calls write
  their entries after it.

## Model

| member | source | states |
|---|---|---|
| `Levels.PrintedRange` | src/providers/log.provider.ts:40-53 | The switch has a case exactly for DEBUG, INFO, WARN and ERROR. OFF and every other number print nothing. |
| `Levels.HeadDetermined` | src/providers/log-action.provider.ts:53-66 | The four colour/label openings are distinct. A line that opens with a level's colour and label reads back as that level. |
| `LogDecorator.StoredLevel` | src/decorators/log.decorator.ts:33 | The stored level is never DEBUG. A missing level or DEBUG (0) becomes WARN. Any other level is stored as given. |
| `LogDecorator.StoredLevelSettles` | src/decorators/log.decorator.ts:33 | After the first call overwrites the captured level, later calls store the same level. |
| `LogDecorator.GetLogOpMetadata` | src/decorators/log.decorator.ts:60-69 | The lookup returns the entry stored under exactly (controller, method), and returns nothing iff no entry is stored under that key. |
| `LogDecorator.ReplayKeepsNoDebug` | src/decorators/log.decorator.ts:33-46 | Calls of decorated methods, which never store DEBUG, keep a registry free of DEBUG entries. |
| `LogDecorator.LookupAfterWrite` | src/decorators/log.decorator.ts:60-69 | After a write to one (class, method) key, `getLogOpMetadata` returns the written metadata for that key. Every other key reads as before. |
| `LogDecorator.LastWriteWins` | src/decorators/log.decorator.ts:35-46 | After any series of calls, the lookup returns the metadata of the latest call for that key. With no call for that key, it returns what was there before. |
| `LogDecorator.LoggedMethod.constructor` | src/decorators/log.decorator.ts:25-31 | Decorating captures the level, the (target, method) key and the original method. It writes nothing to the registry. |
| `LogDecorator.LoggedMethod.Call` | src/decorators/log.decorator.ts:32-49 | The captured level becomes the stored level. The entry for the key becomes {stored level, the call's args in order, the clock reading}. The writes of decorated methods the original calls are applied after it, and no other entry changes. Unless one of those writes is to the same key, the lookup returns this call's entry. The call returns what the original returns, or throws what it throws, with the entry still written (test/acceptance/log.extension.acceptance.ts:216-226 logs after a throw). The registry never holds DEBUG. |
| `LogDecorator.DecorateAndCall` | src/decorators/log.decorator.ts:25-49 | Decorating a method of a fresh class and calling it once stores {StoredLevel(level), args, clock reading} under its key, whether the original returns or throws, and the call's outcome is the original's. |
| `LogDecorator.DecoratorUnitTests` | test/unit/decorators/log.decorator.unit.ts:10-71 | `@log(ERROR)` stores ERROR with `[]` and with `["John Smith"]`; `@log()` stores WARN with `[]` and with `["John Smith"]`; a DEBUG-declared method that throws still has its entry, at WARN. |
| `LogActionProvider.Log` | src/providers/log-action.provider.ts:34-66 | A line is printed iff a level is stored, configured != OFF, level >= configured, level != OFF, and the switch has a case for the level. |
| `LogActionProvider.LineShowsDeclaredLevel` | src/providers/log-action.provider.ts:53-66 | A printed line opens with the colour and label of the declared level, and of no other level. |
| `LogActionProvider.FilterTruthTable` | src/providers/log-action.provider.ts:36-40 | For the five levels, a line is printed iff configured != OFF, declared != OFF and declared >= configured. |
| `LogActionProvider.Silences` | src/providers/log-action.provider.ts:34-40 | Nothing is printed when configured is OFF, when no level is stored (`/nolog`), or when the stored level is OFF. |
| `LogActionProvider.MissingArgsAsEmpty` | src/providers/log-action.provider.ts:41 | Missing arguments print exactly like an empty list. |
| `LogActionProvider.LineShape` | src/providers/log-action.provider.ts:41-51 | The printed line is the label, then `{timer(start)}ms: ` if a start is given, then `{url} :: {Class}.{method}({args joined by ", "}) => {rendered result}`, then the reset suffix. |
| `LogActionProvider.ElapsedInsideLabel` | src/providers/log-action.provider.ts:48-51 | Passing a start time does not change whether a line is printed. It only inserts `{timer(start)}ms: ` right after the label. |
| `LogActionProvider.StartedLineShowsElapsed` | src/providers/log-action.provider.ts:70-72 | `startTimer()` returns the timer called with no start. Passing that reading back to the logging function inserts `{timer(timer())}ms: ` right after the label and changes nothing else, including whether a line is printed. |
| `LogActionProvider.UnitTestPlain` | test/unit/providers/log.provider.unit.ts:28-34 | Declared ERROR, configured WARN, no arguments: the line is the one the unit test expects. |
| `LogActionProvider.UnitTestStartTime` | test/unit/providers/log.provider.unit.ts:36-43 | `startTimer()` returns the timer called with no argument. Passing that reading back gives the line with `100.02ms: ` inside the ERROR label. |
| `LogActionProvider.UnitTestArgs` | test/unit/providers/log.provider.unit.ts:45-51 | The arguments `test` and `message` print as `TestClass.test(test, message)`. |
| `LogActionProvider.AcceptanceDebug` | test/acceptance/log.extension.acceptance.ts:49-50 | At configured DEBUG, `/debug` prints the expected white DEBUG line. |
| `LogActionProvider.AcceptanceInfo` | test/acceptance/log.extension.acceptance.ts:51-52 | At configured DEBUG, `/info` prints the expected green INFO line. |
| `LogActionProvider.AcceptanceWarn` | test/acceptance/log.extension.acceptance.ts:53-54 | At configured DEBUG, `/warn` prints the expected yellow WARN line. |
| `LogActionProvider.AcceptanceError` | test/acceptance/log.extension.acceptance.ts:55-56 | At configured DEBUG, `/error` prints the expected red ERROR line. |
| `LogActionProvider.AcceptanceHello` | test/acceptance/log.extension.acceptance.ts:57-58 | `/?name=test`, declared WARN by `@log()`, at configured DEBUG prints `MyController.hello(test) => hello test` with the WARN label. |
| `LogActionProvider.AcceptanceAtDefaultLevel` | test/acceptance/log.extension.acceptance.ts:119-143 | At WARN, the level `LogLevelProvider` binds by default (src/providers/log-level.provider.ts:12-14): `/nolog`, `/off`, `/debug` and `/info` print nothing, and `/warn`, `/error` and the `@log()` route `/?name=test` print the expected lines. |
| `LogProvider.Log` | src/providers/log.provider.ts:24-55 | The call fails iff no metadata is stored for (controller, method). Otherwise a line is printed iff configured != OFF, stored level >= configured, stored level != OFF, and the switch has a case for it. |
| `LogProvider.LineShowsStoredLevel` | src/providers/log.provider.ts:40-53 | A printed line opens with the colour and label of the stored level. |
| `LogProvider.DecoratedEntriesNeverPrintDebug` | src/decorators/log.decorator.ts:33 | For a registry written only by decorated methods, the registered provider never prints a DEBUG line, whatever the configured level. |
| `LogProvider.StoredOffPassesFilterButPrintsNothing` | src/providers/log.provider.ts:30-53 | A stored OFF passes the two-term filter whenever configured < OFF. No case of the switch matches it, so nothing is printed. |
| `LogProvider.ConfiguredOffSilences` | src/providers/log.provider.ts:30 | With configured OFF nothing is printed, whatever level is stored. |
| `LogProvider.LineShape` | src/providers/log.provider.ts:35-38 | The printed line is the label, then `{ms}ms: {url} : {Class} > {method}({stored args joined by ","}) => {rendered result}`, then the reset suffix. The elapsed prefix is always there. |
| `LogProvider.ProvidersAgreeOnEmission` | src/providers/log.provider.ts:30-53 | When metadata is stored, the registered provider prints a line iff the tested provider would print one for the stored level. The two providers differ only in the text of the line. |
| `LogProvider.PrintsLatestCall` | src/providers/log.provider.ts:28-36 | After a series of calls, the line depends only on the latest call's metadata, so the printed arguments are that call's arguments. |
| `LogProvider.DeclaredDebugLogsAsWarn` | src/decorators/log.decorator.ts:33 | After a call of a method declared `@log(DEBUG)`, a line is printed exactly when configured <= WARN, and it carries the WARN label. |

## Left out

- The clock: `process.hrtime` readings are parameters. The rounding `Math.round((s*1000 + ns*1e-6)*100)/100` is left out, because it needs the clock and floating point. `LogProvider` takes the elapsed milliseconds as their text.
- `JSON.stringify` and `String(...)` of arbitrary values: an object value carries both texts. The model leaves out a `JSON.stringify` that returns undefined and conversions that throw (symbols, and `JSON.stringify` of a circular value or a BigInt).
- `LogDecorator.LoggedMethod.Call`: the stored arguments are values fixed at the call. The source stores the caller's argument array itself and passes the same objects to the original, so a change the original (or later code) makes to an argument object before the line is logged shows up in what `LogProvider` prints; that aliasing is not modelled, nor are the throwing conversions above.
- `console.log`: the printed line is the function's result.
- Dependency injection: the getters for the controller class and method, the `Provider` classes, the bindings and `Reflector`. The controller, method, configured level and timer are parameters, and the registry is a map.
- `LogDecorator.GetLogOpMetadata` looks up the exact (class, method) key. `Reflector.getMetadata` also searches the prototype chain, so a subclass that inherits a decorated method finds its parent's entry. That inherited lookup is not modelled: here such a subclass reads as having no entry. `LogProvider.Log` then fails with `MetadataMissing`, and `LookupAfterWrite` speaks only of exact keys.
- Classes are identified by name in the registry key. Decorated static methods, whose target is the constructor and not the prototype, are not modelled.
- `getLogMetadata`, which `LogActionProvider` calls, is not part of this model. The level it returns is a parameter. The acceptance lemmas take that level to be the one declared with `@log`, not the level `LoggedMethod.Call` stores: for `@log(LogLevel.DEBUG)` the decorator stores WARN, under which `/debug` would print at configured INFO, where the acceptance test expects silence.
- `src/mixins/log-level.mixin.ts`, `src/log.component.ts`, `src/index.ts`, `src/types.ts` and `app.ts` are wiring and are not part of this model. The configured level is a parameter, and `LogLevelProvider`'s default is the constant `DEFAULT_LOG_LEVEL`.
- Levels are integers. Fractional levels and NaN are not modelled, and neither is NaN's falsiness in the decorator.
- A start time is present exactly when one is passed. A falsy non-array start value is not modelled.
- `async`/`await` and concurrent requests: every call is sequential.
