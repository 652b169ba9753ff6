/** The records the logger produces for the inputs of its own test suite,
    worked out from the model. */
module Scenarios {
  import opened Values
  import opened Levels
  import opened Records
  import opened Logging

  /** A string payload at INFO: the base keys in order, then `msg`. */
  lemma StringPayloadRecord(now: Value)
    ensures MakeRecord("info", Str("testService"), now, Str("testFile.js:31"), Str("test")) ==
      [("level", Str("info")), ("serviceName", Str("testService")), ("time", now),
       ("caller", Str("testFile.js:31")), ("msg", Str("test"))]
  {
  }

  /** An object payload: its properties follow the base keys at the top
      level, in payload order. */
  lemma ObjectPayloadRecord(now: Value, yes: Value)
    ensures MakeRecord("info", Str("testService"), now, Str("testFile.js:31"),
                       Obj([("myProperty", yes), ("somethingElse", Str("example"))])) ==
      [("level", Str("info")), ("serviceName", Str("testService")), ("time", now),
       ("caller", Str("testFile.js:31")), ("myProperty", yes), ("somethingElse", Str("example"))]
  {
    var base := Base("info", Str("testService"), now, Str("testFile.js:31"));
    var fs := [("myProperty", yes), ("somethingElse", Str("example"))];
    assert Keys(base) == BaseKeys;
    SpreadFresh(base, fs);
  }

  const Fields12: Fields := [("myProp1", Str("value1")), ("myProp2", Str("value2"))]

  /** The record of a chained call over the two fields. */
  lemma ChainedCallRecord(level: string, now: Value, msg: Value)
    ensures MakeRecord(level, Str("testService"), now, Str("testFile.js:31"), ChainedPayload(Fields12, msg)) ==
      [("level", Str(level)), ("serviceName", Str("testService")), ("time", now),
       ("caller", Str("testFile.js:31")), ("myProp1", Str("value1")), ("myProp2", Str("value2")),
       ("msg", msg)]
  {
    var base := Base(level, Str("testService"), now, Str("testFile.js:31"));
    var p := Fields12 + [("msg", msg)];
    assert Assign(Fields12, "msg", msg) == p by {
      assert Keys(Fields12) == ["myProp1", "myProp2"];
      AssignSpec(Fields12, "msg", msg);
    }
    assert Keys(base) == BaseKeys;
    SpreadFresh(base, p);
  }

  /** Two fields added to a fresh chain, then a `debug` call and an `info`
      call on the same chain: both records carry both fields, the state is
      never cleared, and the object passed to `info` is nested under
      `msg`. */
  method ChainReuse(now: Value) returns (first: Output, second: Output)
    ensures first == Stringified(
      [("level", Str("debug")), ("serviceName", Str("testService")), ("time", now),
       ("caller", Str("testFile.js:31")), ("myProp1", Str("value1")), ("myProp2", Str("value2")),
       ("msg", Str("test1"))])
    ensures second == Stringified(
      [("level", Str("info")), ("serviceName", Str("testService")), ("time", now),
       ("caller", Str("testFile.js:31")), ("myProp1", Str("value1")), ("myProp2", Str("value2")),
       ("msg", Obj([("key", Str("value"))]))])
  {
    var made := CreateLogger(Str("testService"), Str("DEBUG"), Options(None, None, Some(Custom)));
    assert ToUpper("DEBUG") == "DEBUG";
    var log := made.value;
    var chain := log.Build(null);
    assert !IsArrayIndex("myProp1") && !IsArrayIndex("myProp2");
    chain := chain.WithField("myProp1", Str("value1"));
    chain := chain.WithField("myProp2", Str("value2"));
    assert chain.state.entries == Fields12;
    var site := CallSite(now, [], Str("testFile.js:31"));
    assert log.Emits(Severity.Debug) && log.Emits(Severity.Info);
    assert ResolveCaller(log.callerSource, log.callerOffset, site) == Str("testFile.js:31");
    chain.Debug(Str("test1"), site);
    chain.Info(Obj([("key", Str("value"))]), site);
    first, second := log.trace[0], log.trace[1];
    ChainedCallRecord("debug", now, Str("test1"));
    ChainedCallRecord("info", now, Obj([("key", Str("value"))]));
  }
}
