/** The `@log(level?)` decorator and the metadata registry it writes.

    The registry (reflection metadata under the METADATA key) maps a
    (class, method) pair to the metadata of the latest call of that method:
    its effective level, its arguments and the clock reading at the call.
    Classes are identified by name. */
module LogDecorator {
  import opened Basics
  import opened Levels
  import opened JsValues

  datatype Key = Key(owner: string, methodName: string)

  datatype LogMetadata = LogMetadata(level: int, args: seq<Value>, startTime: HrTime)

  type Registry = map<Key, LogMetadata>

  /** The level a call stores: `if (!level) level = LogLevel.WARN`. A missing
      level and every falsy number, DEBUG = 0 among them, become WARN. */
  function StoredLevel(level: Option<int>): (r: int)
    ensures r != DEBUG
    ensures level.Some? && level.value != DEBUG ==> r == level.value
    ensures level.None? || level == Some(DEBUG) ==> r == WARN
  {
    if level.None? || level.value == 0 then WARN else level.value
  }

  /** The substitution settles after one call: the captured level it leaves
      behind stores the same level again. */
  lemma StoredLevelSettles(level: Option<int>)
    ensures StoredLevel(Some(StoredLevel(level))) == StoredLevel(level)
  {
  }

  /** `getLogOpMetadata(controller, method)`: the entry stored for the pair, or
      nothing (`undefined`) when that method has not been called. */
  function GetLogOpMetadata(registry: Registry, controller: string, methodName: string): (r: Option<LogMetadata>)
    ensures r.None? <==> Key(controller, methodName) !in registry
    ensures r.Some? ==> r.value == registry[Key(controller, methodName)]
  {
    var k := Key(controller, methodName);
    if k in registry then Some(registry[k]) else None
  }

  /** A write to one key is read back from that key and from no other. */
  lemma LookupAfterWrite(registry: Registry, k: Key, meta: LogMetadata, controller: string, methodName: string)
    ensures GetLogOpMetadata(registry[k := meta], controller, methodName)
         == if Key(controller, methodName) == k then Some(meta) else GetLogOpMetadata(registry, controller, methodName)
  {
  }

  /** One registry write made by a call of a decorated method. */
  datatype Write = Write(key: Key, meta: LogMetadata)

  /** The registry after a series of calls, applied in order. */
  function Replay(registry: Registry, writes: seq<Write>): Registry
  {
    if writes == [] then registry
    else
      var last := writes[|writes| - 1];
      Replay(registry, writes[..|writes| - 1])[last.key := last.meta]
  }

  /** The metadata of the latest write to `k` in the series, if any. */
  function LastFor(writes: seq<Write>, k: Key): Option<LogMetadata>
  {
    if writes == [] then None
    else if writes[|writes| - 1].key == k then Some(writes[|writes| - 1].meta)
    else LastFor(writes[..|writes| - 1], k)
  }

  /** Last write wins: after a series of calls the lookup of a key returns what
      the latest call for that key stored, and is untouched by the series when
      no call was for that key. */
  lemma {:induction false} LastWriteWins(registry: Registry, writes: seq<Write>, controller: string, methodName: string)
    ensures GetLogOpMetadata(Replay(registry, writes), controller, methodName)
         == match LastFor(writes, Key(controller, methodName))
            case Some(m) => Some(m)
            case None => GetLogOpMetadata(registry, controller, methodName)
  {
    if writes != [] {
      var last := writes[|writes| - 1];
      LastWriteWins(registry, writes[..|writes| - 1], controller, methodName);
      LookupAfterWrite(Replay(registry, writes[..|writes| - 1]), last.key, last.meta, controller, methodName);
    }
  }

  /** Every entry the decorator writes has a level other than DEBUG. */
  ghost predicate NoDebugEntries(registry: Registry)
  {
    forall k | k in registry :: registry[k].level != DEBUG
  }

  /** Every write in the series has a level other than DEBUG, as every write
      made by a decorated method does. */
  ghost predicate NoDebugWrites(writes: seq<Write>)
  {
    forall i | 0 <= i < |writes| :: writes[i].meta.level != DEBUG
  }

  /** Writes without DEBUG keep a registry without DEBUG entries. */
  lemma {:induction false} ReplayKeepsNoDebug(registry: Registry, writes: seq<Write>)
    requires NoDebugEntries(registry) && NoDebugWrites(writes)
    ensures NoDebugEntries(Replay(registry, writes))
  {
    if writes != [] {
      var init := writes[..|writes| - 1];
      assert NoDebugWrites(init) by {
        forall i | 0 <= i < |init| ensures init[i].meta.level != DEBUG {
          assert init[i] == writes[i];
        }
      }
      ReplayKeepsNoDebug(registry, init);
      assert writes[|writes| - 1].meta.level != DEBUG;
    }
  }

  /** What running the original method did: the registry writes of the
      decorated methods it called, in order, and the value it returned
      (Success) or threw (Failure). */
  datatype Invocation = Invocation(writes: seq<Write>, outcome: Result<Value, Value>)

  /** The process-wide metadata store. */
  class MetadataStore {
    var entries: Registry

    ghost predicate Valid()
      reads this
    {
      NoDebugEntries(entries)
    }

    constructor ()
      ensures Valid() && entries == map[]
    {
      entries := map[];
    }
  }

  /** What `log(level)(target, propertyKey, descriptor)` returns: the wrapped
      method, with the level it captured (which its calls may overwrite), the
      key it writes under, and the original method it forwards to. `This` is
      the type of the receiver the method is called on. */
  class LoggedMethod<This> {
    var level: Option<int>
    const key: Key
    const original: (This, seq<Value>) -> Invocation

    /** Decorating a method writes nothing to the registry. */
    constructor (level: Option<int>, target: string, propertyKey: string, original: (This, seq<Value>) -> Invocation)
      ensures this.level == level && key == Key(target, propertyKey) && this.original == original
    {
      this.level := level;
      this.key := Key(target, propertyKey);
      this.original := original;
    }

    /** A call of the decorated method: settle the captured level, record
        {level, args, startTime} under the key, replacing any earlier entry,
        then run the original method on the same receiver and arguments. The
        writes of the decorated methods the original calls come after this
        call's write, and what the original returns or throws is the call's
        outcome; a throw leaves this call's write in place. `now` is the clock
        reading `process.hrtime()` takes. */
    method Call(store: MetadataStore, self: This, args: seq<Value>, now: HrTime) returns (r: Result<Value, Value>)
      requires store.Valid() && NoDebugWrites(original(self, args).writes)
      modifies this, store
      ensures store.Valid()
      ensures level == Some(StoredLevel(old(level)))
      ensures store.entries
           == Replay(old(store.entries)[key := LogMetadata(StoredLevel(old(level)), args, now)], original(self, args).writes)
      ensures LastFor(original(self, args).writes, key).None? ==>
                GetLogOpMetadata(store.entries, key.owner, key.methodName)
                == Some(LogMetadata(StoredLevel(old(level)), args, now))
      ensures r == original(self, args).outcome
    {
      if level.None? || level.value == 0 {
        level := Some(WARN);
      }
      var metadata := LogMetadata(level.value, args, now);
      store.entries := store.entries[key := metadata];
      var invocation := original(self, args);
      ReplayKeepsNoDebug(store.entries, invocation.writes);
      LastWriteWins(store.entries, invocation.writes, key.owner, key.methodName);
      store.entries := Replay(store.entries, invocation.writes);
      r := invocation.outcome;
    }
  }

  /** Decorating a method of a fresh class with `@log(level)` and calling it
      once stores {StoredLevel(level), args, now} under (class, method); the
      call returns or throws what the original does. */
  method DecorateAndCall(level: Option<int>, args: seq<Value>, outcome: Result<Value, Value>, now: HrTime)
    returns (r: Result<Value, Value>, stored: Option<LogMetadata>)
    ensures r == outcome
    ensures stored == Some(LogMetadata(StoredLevel(level), args, now))
  {
    var store := new MetadataStore();
    var decorated := new LoggedMethod<()>(level, "TestClass", "hello",
                                          (self: (), a: seq<Value>) => Invocation([], outcome));
    assert GetLogOpMetadata(store.entries, "TestClass", "hello") == None;
    r := decorated.Call(store, (), args, now);
    stored := GetLogOpMetadata(store.entries, "TestClass", "hello");
  }

  /** The decorator's four unit tests (`@log(ERROR)` and `@log()`, without and
      with the argument "John Smith"), and a DEBUG-declared method that
      throws: its entry is written all the same, at WARN. */
  method DecoratorUnitTests(now: HrTime)
    returns (errorNoArgs: Option<LogMetadata>, errorWithArgs: Option<LogMetadata>,
             defaultNoArgs: Option<LogMetadata>, defaultWithArgs: Option<LogMetadata>,
             thrown: Result<Value, Value>, afterThrow: Option<LogMetadata>)
    ensures errorNoArgs == Some(LogMetadata(ERROR, [], now))
    ensures errorWithArgs == Some(LogMetadata(ERROR, [Primitive("John Smith")], now))
    ensures defaultNoArgs == Some(LogMetadata(WARN, [], now))
    ensures defaultWithArgs == Some(LogMetadata(WARN, [Primitive("John Smith")], now))
    ensures thrown == Failure(Primitive("boom")) && afterThrow == Some(LogMetadata(WARN, [], now))
  {
    var returned: Result<Value, Value>;
    returned, errorNoArgs := DecorateAndCall(Some(ERROR), [], Success(Undefined), now);
    returned, errorWithArgs := DecorateAndCall(Some(ERROR), [Primitive("John Smith")], Success(Undefined), now);
    returned, defaultNoArgs := DecorateAndCall(None, [], Success(Undefined), now);
    returned, defaultWithArgs := DecorateAndCall(None, [Primitive("John Smith")], Success(Undefined), now);
    thrown, afterThrow := DecorateAndCall(Some(DEBUG), [], Failure(Primitive("boom")), now);
  }
}
