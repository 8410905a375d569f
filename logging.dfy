/** `TestContextLogger`, its provider and the `AddTestContext` extension:
    a logger that drops messages below its minimum level and writes each
    kept message as one formatted line to the test context and then to the
    console, followed by a second line for the exception when there is one.
    The timestamp is a parameter, already rendered as "yyyy-MM-dd HH:mm:ss". */
module Logging {
  import opened Common
  import opened World

  /** `IsEnabled(level)` for the minimum level `minLevel`. */
  predicate IsEnabled(minLevel: LogLevel, level: LogLevel)
  {
    Severity(level) >= Severity(minLevel)
  }

  /** The line written for a kept message. */
  function FormatLine(timestamp: string, level: LogLevel, category: string, message: string): string
  {
    "[" + timestamp + "] [" + LevelName(level) + "] [" + category + "] " + message
  }

  /** The line written for an exception. */
  function ExceptionLine(ex: Exception): string
  {
    "Exception: " + ex.message + "\nStackTrace: " + ex.stackTrace
  }

  /** Each line goes to the test context, then to the console. */
  function BothSinks(line: string): seq<Effect>
  {
    [ContextLine(line), ConsoleLine(line)]
  }

  /** What `Log` writes. */
  function LogEffects(minLevel: LogLevel, timestamp: string, level: LogLevel, category: string,
                      message: string, exception: Option<Exception>): seq<Effect>
  {
    if !IsEnabled(minLevel, level) then []
    else BothSinks(FormatLine(timestamp, level, category, message))
         + (if exception.Some? then BothSinks(ExceptionLine(exception.value)) else [])
  }

  /** The lines of a log, in order, taken from one sink. */
  function ContextLines(log: seq<Effect>): seq<string>
  {
    if log == [] then []
    else (if log[0].ContextLine? then [log[0].line] else []) + ContextLines(log[1..])
  }

  function ConsoleLines(log: seq<Effect>): seq<string>
  {
    if log == [] then []
    else (if log[0].ConsoleLine? then [log[0].line] else []) + ConsoleLines(log[1..])
  }

  class TestContextLogger {
    const world: World
    const category: string
    const minLevel: LogLevel

    constructor(world: World, category: string, minLevel: LogLevel)
      ensures this.world == world && this.category == category && this.minLevel == minLevel
    {
      this.world := world;
      this.category := category;
      this.minLevel := minLevel;
    }

    /** `Log`: `message` is what the formatter makes of the state. */
    method Log(timestamp: string, level: LogLevel, message: string, exception: Option<Exception>)
      modifies world
      ensures world.log == old(world.log) + LogEffects(minLevel, timestamp, level, category, message, exception)
    {
      if !IsEnabled(minLevel, level) {
        return;
      }
      var line := FormatLine(timestamp, level, category, message);
      world.log := world.log + [ContextLine(line)];
      world.log := world.log + [ConsoleLine(line)];
      if exception.Some? {
        var exceptionLine := ExceptionLine(exception.value);
        world.log := world.log + [ContextLine(exceptionLine)];
        world.log := world.log + [ConsoleLine(exceptionLine)];
      }
    }
  }

  class TestContextLoggerProvider {
    const world: World
    const minLevel: LogLevel

    constructor(world: World, minLevel: LogLevel)
      ensures this.world == world && this.minLevel == minLevel
    {
      this.world := world;
      this.minLevel := minLevel;
    }

    /** `CreateLogger`: a new logger writing to the provider's test context
        with the provider's minimum level. */
    method CreateLogger(category: string) returns (logger: TestContextLogger)
      ensures fresh(logger)
      ensures logger.world == world && logger.category == category && logger.minLevel == minLevel
    {
      logger := new TestContextLogger(world, category, minLevel);
    }
  }

  /** The providers registered on a logging builder. */
  class LoggingBuilder {
    var providers: seq<TestContextLoggerProvider>

    constructor()
      ensures providers == []
    {
      providers := [];
    }

    /** `AddTestContext`: registers exactly one new provider. */
    method AddTestContext(world: World, minLevel: LogLevel) returns (provider: TestContextLoggerProvider)
      modifies this
      ensures fresh(provider) && provider.world == world && provider.minLevel == minLevel
      ensures providers == old(providers) + [provider]
    {
      provider := new TestContextLoggerProvider(world, minLevel);
      providers := providers + [provider];
    }
  }

  /** The minimum level is a threshold: a level is kept exactly when it is at
      least as severe as the minimum, so raising the minimum never keeps more. */
  lemma ThresholdIsMonotone(minLevel: LogLevel, raised: LogLevel, level: LogLevel)
    requires Severity(minLevel) <= Severity(raised)
    ensures IsEnabled(raised, level) ==> IsEnabled(minLevel, level)
    ensures IsEnabled(minLevel, minLevel)
    ensures minLevel != Trace ==> !IsEnabled(minLevel, Trace)
  {
  }

  /** A message below the minimum writes nothing; a kept message writes its
      line, and a second line exactly when there is an exception. */
  lemma WhatLogWrites(minLevel: LogLevel, timestamp: string, level: LogLevel, category: string,
                      message: string, exception: Option<Exception>)
    ensures LogEffects(minLevel, timestamp, level, category, message, exception) == [] <==> !IsEnabled(minLevel, level)
    ensures IsEnabled(minLevel, level) ==>
              ContextLines(LogEffects(minLevel, timestamp, level, category, message, exception)) ==
              [FormatLine(timestamp, level, category, message)]
              + (if exception.Some? then [ExceptionLine(exception.value)] else [])
  {
    var e := LogEffects(minLevel, timestamp, level, category, message, exception);
    if IsEnabled(minLevel, level) {
      var first := FormatLine(timestamp, level, category, message);
      assert ContextLines([ConsoleLine(first)]) == [];
      if exception.Some? {
        var second := ExceptionLine(exception.value);
        assert e == [ContextLine(first), ConsoleLine(first), ContextLine(second), ConsoleLine(second)];
        assert e[1..] == [ConsoleLine(first), ContextLine(second), ConsoleLine(second)];
        assert e[1..][1..] == [ContextLine(second), ConsoleLine(second)];
        assert ContextLines(e[1..][1..]) == [second] + ContextLines([ConsoleLine(second)]);
        assert ContextLines([ConsoleLine(second)]) == [] + ContextLines([]);
      } else {
        assert e == [ContextLine(first), ConsoleLine(first)];
        assert e[1..] == [ConsoleLine(first)];
      }
    }
  }

  /** Both sinks receive the same lines in the same order. */
  lemma {:induction false} SinksAgree(minLevel: LogLevel, timestamp: string, level: LogLevel, category: string,
                                      message: string, exception: Option<Exception>)
    ensures var e := LogEffects(minLevel, timestamp, level, category, message, exception);
            ContextLines(e) == ConsoleLines(e)
  {
    var e := LogEffects(minLevel, timestamp, level, category, message, exception);
    if IsEnabled(minLevel, level) {
      var first := FormatLine(timestamp, level, category, message);
      var rest := if exception.Some? then BothSinks(ExceptionLine(exception.value)) else [];
      if exception.Some? {
        PairAgrees(ExceptionLine(exception.value), []);
        assert rest + [] == rest;
      }
      PairAgrees(first, rest);
    }
  }

  /** A context line followed by the same console line adds that line to
      both sinks. */
  lemma PairAgrees(line: string, rest: seq<Effect>)
    ensures ContextLines(BothSinks(line) + rest) == [line] + ContextLines(rest)
    ensures ConsoleLines(BothSinks(line) + rest) == [line] + ConsoleLines(rest)
  {
    var e := BothSinks(line) + rest;
    assert e[1..] == [ConsoleLine(line)] + rest;
    assert e[1..][1..] == rest;
  }
}
