/** `TestReportingService`: passes every reporting call on to each of its
    reporters, in the order they were given to the constructor. A reporter
    that throws is logged as an error naming its type, and the remaining
    reporters are still called; no reporter exception reaches the caller.
    Initialization happens at most once. The reporters are known here only
    by position and type name; what each would throw for a call is a
    parameter, a map from position to exception. */
module ReportingService {
  import opened Common
  import opened World

  /** The calls made on behalf of reporter `i`: the call itself and, when it
      throws, the error logged with its type name. */
  function ReporterEffects(types: seq<string>, call: ReporterCall, failure: string,
                           faults: map<nat, Exception>, i: nat): seq<Effect>
    requires i < |types|
  {
    [ReporterCalled(i, call)]
    + (if i in faults then [LoggedException(LogLevel.Error, failure + types[i], faults[i])] else [])
  }

  /** The calls a broadcast makes for the first `n` reporters. */
  function Fanout(types: seq<string>, call: ReporterCall, failure: string,
                  faults: map<nat, Exception>, n: nat): seq<Effect>
    requires n <= |types|
  {
    if n == 0 then []
    else Fanout(types, call, failure, faults, n - 1) + ReporterEffects(types, call, failure, faults, n - 1)
  }

  /** The positions of the reporters called, in call order. */
  function Calls(log: seq<Effect>): seq<nat>
  {
    if log == [] then []
    else (if log[0].ReporterCalled? then [log[0].index] else []) + Calls(log[1..])
  }

  /** 0, 1, ..., n - 1. */
  function Positions(n: nat): (r: seq<nat>)
    ensures |r| == n && forall i :: 0 <= i < n ==> r[i] == i
  {
    if n == 0 then [] else Positions(n - 1) + [n - 1]
  }

  lemma {:induction false} CallsAppend(a: seq<Effect>, b: seq<Effect>)
    ensures Calls(a + b) == Calls(a) + Calls(b)
    decreases |a|
  {
    if a == [] {
      assert a + b == b;
    } else {
      assert (a + b)[1..] == a[1..] + b;
      CallsAppend(a[1..], b);
    }
  }

  /** Whatever the reporters throw, a broadcast calls every one of them
      exactly once, in constructor order. */
  lemma {:induction false} EveryReporterCalledInOrder(types: seq<string>, call: ReporterCall, failure: string,
                                                     faults: map<nat, Exception>, n: nat)
    requires n <= |types|
    ensures Calls(Fanout(types, call, failure, faults, n)) == Positions(n)
  {
    if n > 0 {
      EveryReporterCalledInOrder(types, call, failure, faults, n - 1);
      var block := ReporterEffects(types, call, failure, faults, n - 1);
      CallsAppend(Fanout(types, call, failure, faults, n - 1), block);
      var tail := block[1..];
      if n - 1 in faults {
        assert tail == [block[1]] && !block[1].ReporterCalled?;
        assert Calls(tail) == [] + Calls(tail[1..]);
        assert tail[1..] == [];
      } else {
        assert tail == [];
      }
      assert Calls(block) == [n - 1] + Calls(tail);
    }
  }

  /** The calls made for the first `m` reporters are the start of those made
      for the first `n`. */
  lemma {:induction false} FanoutPrefix(types: seq<string>, call: ReporterCall, failure: string,
                                        faults: map<nat, Exception>, m: nat, n: nat)
    requires m <= n <= |types|
    ensures Fanout(types, call, failure, faults, m) <= Fanout(types, call, failure, faults, n)
    decreases n - m
  {
    if m < n {
      FanoutPrefix(types, call, failure, faults, m, n - 1);
    }
  }

  /** A reporter's failure is logged right after its own call, before the
      next reporter is called, and names the reporter's type. */
  lemma FailureLoggedAfterItsCall(types: seq<string>, call: ReporterCall, failure: string,
                                  faults: map<nat, Exception>, i: nat)
    requires i < |types| && i in faults
    ensures Fanout(types, call, failure, faults, i)
              + [ReporterCalled(i, call), LoggedException(LogLevel.Error, failure + types[i], faults[i])]
            <= Fanout(types, call, failure, faults, |types|)
  {
    FanoutPrefix(types, call, failure, faults, i + 1, |types|);
  }

  /** Every error a broadcast logs is the exception of a reporter that
      threw, under that reporter's type name, and when no reporter throws
      nothing but the calls is made. */
  lemma {:induction false} OnlyFailuresLogged(types: seq<string>, call: ReporterCall, failure: string,
                                              faults: map<nat, Exception>, n: nat)
    requires n <= |types|
    ensures forall e: Effect :: e in Fanout(types, call, failure, faults, n) && !e.ReporterCalled? ==>
              exists i :: 0 <= i < n && i in faults && e == LoggedException(LogLevel.Error, failure + types[i], faults[i])
    ensures (forall i :: 0 <= i < n ==> i !in faults) ==>
              Fanout(types, call, failure, faults, n) == seq(n, i requires 0 <= i => ReporterCalled(i, call))
  {
    if n > 0 {
      OnlyFailuresLogged(types, call, failure, faults, n - 1);
      var before := Fanout(types, call, failure, faults, n - 1);
      var block := ReporterEffects(types, call, failure, faults, n - 1);
      forall e: Effect | e in before + block && !e.ReporterCalled?
        ensures exists i :: 0 <= i < n && i in faults && e == LoggedException(LogLevel.Error, failure + types[i], faults[i])
      {
        if e in before {
        } else {
          assert e == LoggedException(LogLevel.Error, failure + types[n - 1], faults[n - 1]);
        }
      }
      if forall i :: 0 <= i < n ==> i !in faults {
        assert before + block == seq(n, i requires 0 <= i => ReporterCalled(i, call));
      }
    }
  }

  class ReportingService {
    const world: World
    /** `GetType().Name` of each reporter, in constructor-argument order. */
    const reporters: seq<string>
    var initialized: bool

    constructor(world: World, reporters: seq<string>)
      ensures this.world == world && this.reporters == reporters && !initialized
    {
      this.world := world;
      this.reporters := reporters;
      initialized := false;
    }

    /** Calls every reporter in order; `failure` is the text the error is
        logged with, followed by the reporter's type name. */
    method Broadcast(call: ReporterCall, failure: string, faults: map<nat, Exception>)
      modifies world
      ensures world.log == old(world.log) + Fanout(reporters, call, failure, faults, |reporters|)
    {
      var i := 0;
      while i < |reporters|
        invariant 0 <= i <= |reporters|
        invariant world.log == old(world.log) + Fanout(reporters, call, failure, faults, i)
      {
        world.log := world.log + [ReporterCalled(i, call)];
        if i in faults {
          world.log := world.log + [LoggedException(LogLevel.Error, failure + reporters[i], faults[i])];
        }
        i := i + 1;
      }
    }

    /** `InitializeAsync`: a second call does nothing; the first marks the
        service initialized even when reporters fail. */
    method InitializeAsync(faults: map<nat, Exception>)
      modifies this`initialized, world
      ensures initialized
      ensures old(initialized) ==> world.log == old(world.log)
      ensures !old(initialized) ==>
                world.log == old(world.log) + [Logged(Information, "Initializing test reporters")]
                  + Fanout(reporters, InitializeCall, "Failed to initialize reporter: ", faults, |reporters|)
    {
      if initialized {
        return;
      }
      world.log := world.log + [Logged(Information, "Initializing test reporters")];
      Broadcast(InitializeCall, "Failed to initialize reporter: ", faults);
      initialized := true;
    }

    method StartTest(testName: string, faults: map<nat, Exception>)
      modifies world
      ensures world.log == old(world.log)
                + Fanout(reporters, StartTestCall(testName), "Failed to start test in reporter: ", faults, |reporters|)
    {
      Broadcast(StartTestCall(testName), "Failed to start test in reporter: ", faults);
    }

    method LogInfo(message: string, faults: map<nat, Exception>)
      modifies world
      ensures world.log == old(world.log)
                + Fanout(reporters, LogInfoCall(message), "Failed to log info in reporter: ", faults, |reporters|)
    {
      Broadcast(LogInfoCall(message), "Failed to log info in reporter: ", faults);
    }

    method LogWarning(message: string, faults: map<nat, Exception>)
      modifies world
      ensures world.log == old(world.log)
                + Fanout(reporters, LogWarningCall(message), "Failed to log warning in reporter: ", faults, |reporters|)
    {
      Broadcast(LogWarningCall(message), "Failed to log warning in reporter: ", faults);
    }

    method LogError(message: string, exception: Option<Exception>, faults: map<nat, Exception>)
      modifies world
      ensures world.log == old(world.log)
                + Fanout(reporters, LogErrorCall(message, exception), "Failed to log error in reporter: ", faults, |reporters|)
    {
      Broadcast(LogErrorCall(message, exception), "Failed to log error in reporter: ", faults);
    }

    method AddFileAttachment(filePath: string, description: string, faults: map<nat, Exception>)
      modifies world
      ensures world.log == old(world.log)
                + Fanout(reporters, AttachmentCall(filePath, description),
                         "Failed to add file attachment in reporter: ", faults, |reporters|)
    {
      Broadcast(AttachmentCall(filePath, description), "Failed to add file attachment in reporter: ", faults);
    }

    method EndTest(testName: string, faults: map<nat, Exception>)
      modifies world
      ensures world.log == old(world.log)
                + Fanout(reporters, EndTestCall(testName), "Failed to end test in reporter: ", faults, |reporters|)
    {
      Broadcast(EndTestCall(testName), "Failed to end test in reporter: ", faults);
    }

    method FinalizeAsync(faults: map<nat, Exception>)
      modifies world
      ensures world.log == old(world.log)
                + Fanout(reporters, FinalizeCall, "Failed to finalize reporter: ", faults, |reporters|)
    {
      Broadcast(FinalizeCall, "Failed to finalize reporter: ", faults);
    }

    method Dispose(faults: map<nat, Exception>)
      modifies world
      ensures world.log == old(world.log)
                + Fanout(reporters, DisposeCall, "Failed to dispose reporter: ", faults, |reporters|)
    {
      Broadcast(DisposeCall, "Failed to dispose reporter: ", faults);
    }
  }
}
