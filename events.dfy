/** The callback payloads (src/getInterface.ts:305-401), computed from the host's suite and
    test records at the moment of each event, and the `on(name, callback)` dispatch. */
module Events {
  import opened Common

  /** The counters the host keeps per suite. */
  datatype SuiteRecord = SuiteRecord(
    name: string,
    hasContext: bool,
    numTests: nat,
    numFailedTests: nat,
    numSkippedTests: nat)

  /** The error the host recorded for a failed test. */
  datatype TestError<V> = TestError(actual: Option<V>, expected: Option<V>, message: Option<string>, stack: Option<string>)

  /** A finished (or starting) test: its name, its parent suite's name, its result. */
  datatype TestRecord<V> = TestRecord(name: string, moduleName: string, hasPassed: bool, error: Option<TestError<V>>)

  datatype BeginData = BeginData(totalTests: int)
  datatype DoneData = DoneData(failed: int, passed: int, total: int)
  datatype ModuleStartData = ModuleStartData(name: string)
  datatype ModuleDoneData = ModuleDoneData(name: string, failed: int, passed: int, total: int)
  datatype TestStartData = TestStartData(name: string, moduleName: string)
  datatype TestDoneData = TestDoneData(name: string, moduleName: string, failed: int, passed: int, total: int)
  datatype LogData<V> = LogData(
    result: bool,
    actual: Option<V>,
    expected: Option<V>,
    message: Option<string>,
    source: Option<string>,
    moduleName: string,
    name: string)

  /** Which of a suite's counters a `reduce` adds up. */
  datatype Counter = Tests | Failed | Skipped

  function Field(s: SuiteRecord, c: Counter): nat {
    match c
    case Tests => s.numTests
    case Failed => s.numFailedTests
    case Skipped => s.numSkippedTests
  }

  /** `suites.reduce((n, suite) => n + suite.<counter>, acc)`: a left fold from `acc`. */
  function Reduce(suites: seq<SuiteRecord>, c: Counter, acc: int): int
    decreases |suites|
  {
    if suites == [] then acc else Reduce(suites[1..], c, acc + Field(suites[0], c))
  }

  /** The sum of a counter over the suites, as a plain recursive definition. */
  function Total(suites: seq<SuiteRecord>, c: Counter): nat {
    if suites == [] then 0 else Field(suites[0], c) + Total(suites[1..], c)
  }

  /** The fold from `acc` adds exactly the sum of the counter to `acc`. */
  lemma {:induction false} ReduceIsTotal(suites: seq<SuiteRecord>, c: Counter, acc: int)
    ensures Reduce(suites, c, acc) == acc + Total(suites, c)
    decreases |suites|
  {
    if suites != [] {
      ReduceIsTotal(suites[1..], c, acc + Field(suites[0], c));
    }
  }

  /** The host's own bookkeeping: no suite has more failed and skipped tests than tests. */
  predicate Consistent(s: SuiteRecord) {
    s.numFailedTests + s.numSkippedTests <= s.numTests
  }

  /** `runStart` -> `begin`. `suites` is `executor.suites`, the executor's root suites, whose
      counters already include every nested suite's tests. */
  function Begin(suites: seq<SuiteRecord>): (d: BeginData)
    ensures d.totalTests == Total(suites, Tests)
  {
    ReduceIsTotal(suites, Tests, 0);
    BeginData(Reduce(suites, Tests, 0))
  }

  /** `runEnd` -> `done`, over `executor.suites` as for `begin`. */
  function Done(suites: seq<SuiteRecord>): (d: DoneData)
    ensures d.total == Total(suites, Tests) && d.failed == Total(suites, Failed)
    ensures d.passed + d.failed + Total(suites, Skipped) == d.total
  {
    var failed := Reduce(suites, Failed, 0);
    var total := Reduce(suites, Tests, 0);
    var skipped := Reduce(suites, Skipped, 0);
    ReduceIsTotal(suites, Failed, 0);
    ReduceIsTotal(suites, Tests, 0);
    ReduceIsTotal(suites, Skipped, 0);
    DoneData(failed, total - failed - skipped, total)
  }

  /** `suiteStart` -> `moduleStart`, only for suites made by `module`. */
  function ModuleStart(suite: SuiteRecord): (d: Option<ModuleStartData>)
    ensures d.Some? <==> suite.hasContext
    ensures d.Some? ==> d.value.name == suite.name
  {
    if suite.hasContext then Some(ModuleStartData(suite.name)) else None
  }

  /** `suiteEnd` -> `moduleDone`, only for suites made by `module`. */
  function ModuleDone(suite: SuiteRecord): (d: Option<ModuleDoneData>)
    ensures d.Some? <==> suite.hasContext
    ensures d.Some? ==> d.value.name == suite.name && d.value.total == suite.numTests && d.value.failed == suite.numFailedTests
    ensures d.Some? ==> d.value.passed + d.value.failed + suite.numSkippedTests == d.value.total
    ensures d.Some? && Consistent(suite) ==> d.value.passed >= 0
  {
    if suite.hasContext then
      Some(ModuleDoneData(suite.name, suite.numFailedTests,
        suite.numTests - suite.numFailedTests - suite.numSkippedTests, suite.numTests))
    else None
  }

  /** The `passed` that `moduleDone` reports for one suite, context or not. */
  function SuitePassed(s: SuiteRecord): int {
    s.numTests - s.numFailedTests - s.numSkippedTests
  }

  function SumPassed(suites: seq<SuiteRecord>): int {
    if suites == [] then 0 else SuitePassed(suites[0]) + SumPassed(suites[1..])
  }

  /** The run's `passed` is the sum of the suites' `passed`, and is never negative when the
      host's counters are consistent. */
  lemma {:induction false} DonePassedIsSumOfSuites(suites: seq<SuiteRecord>)
    ensures Done(suites).passed == SumPassed(suites)
    ensures (forall i :: 0 <= i < |suites| ==> Consistent(suites[i])) ==> Done(suites).passed >= 0
  {
    SumPassedSplit(suites);
    if forall i :: 0 <= i < |suites| ==> Consistent(suites[i]) {
      SumPassedNonNegative(suites);
    }
  }

  lemma {:induction false} SumPassedSplit(suites: seq<SuiteRecord>)
    ensures SumPassed(suites) == Total(suites, Tests) - Total(suites, Failed) - Total(suites, Skipped)
  {
    if suites != [] {
      SumPassedSplit(suites[1..]);
    }
  }

  lemma {:induction false} SumPassedNonNegative(suites: seq<SuiteRecord>)
    requires forall i :: 0 <= i < |suites| ==> Consistent(suites[i])
    ensures SumPassed(suites) >= 0
  {
    if suites != [] {
      assert Consistent(suites[0]);
      SumPassedNonNegative(suites[1..]);
    }
  }

  /** `testStart` -> `testStart`. */
  function TestStart<V>(test: TestRecord<V>): (d: TestStartData)
    ensures d.name == test.name && d.moduleName == test.moduleName
  {
    TestStartData(test.name, test.moduleName)
  }

  /** `testEnd` -> `testDone`: one test, counted as failed or as passed. */
  function TestDone<V>(test: TestRecord<V>): (d: TestDoneData)
    ensures d.failed + d.passed == d.total == 1
    ensures d.passed == 1 <==> test.hasPassed
    ensures d.name == test.name && d.moduleName == test.moduleName
  {
    TestDoneData(test.name, test.moduleName, if test.hasPassed then 0 else 1, if test.hasPassed then 1 else 0, 1)
  }

  /** `testEnd` -> `log`: the error's details when the host recorded one, `undefined` otherwise. */
  function Log<V>(test: TestRecord<V>): (d: LogData<V>)
    ensures d.result == test.hasPassed && d.name == test.name && d.moduleName == test.moduleName
    ensures test.error.None? ==> d.actual.None? && d.expected.None? && d.message.None? && d.source.None?
    ensures test.error.Some? ==>
      d.actual == test.error.value.actual && d.expected == test.error.value.expected
      && d.message == test.error.value.message && d.source == test.error.value.stack
  {
    match test.error
    case None => LogData(test.hasPassed, None, None, None, None, test.moduleName, test.name)
    case Some(e) => LogData(test.hasPassed, e.actual, e.expected, e.message, e.stack, test.moduleName, test.name)
  }

  // ---------------------------------------------------------------------------------------
  // on(name, callback)

  /** The callbacks `on` can subscribe, each to one host event. */
  datatype EventKind = BeginEvent | DoneEvent | LogEvent | ModuleDoneEvent | ModuleStartEvent | TestDoneEvent | TestStartEvent

  datatype HostEvent = RunStart | RunEnd | SuiteStart | SuiteEnd | TestStartHost | TestEnd

  function EventName(k: EventKind): string {
    match k
    case BeginEvent => "begin"
    case DoneEvent => "done"
    case LogEvent => "log"
    case ModuleDoneEvent => "moduleDone"
    case ModuleStartEvent => "moduleStart"
    case TestDoneEvent => "testDone"
    case TestStartEvent => "testStart"
  }

  /** The host event each registration function listens to. */
  function Subscribes(k: EventKind): HostEvent {
    match k
    case BeginEvent => RunStart
    case DoneEvent => RunEnd
    case LogEvent => TestEnd
    case ModuleDoneEvent => SuiteEnd
    case ModuleStartEvent => SuiteStart
    case TestDoneEvent => TestEnd
    case TestStartEvent => TestStartHost
  }

  /** A host event as the executor emits it, with the object it passes to its listeners:
      the executor itself (through its root suites) for the run events, a suite for the
      suite events, a test for the test events. */
  datatype Occurrence<V> =
    | OnRunStart(suites: seq<SuiteRecord>)
    | OnRunEnd(suites: seq<SuiteRecord>)
    | OnSuiteStart(suite: SuiteRecord)
    | OnSuiteEnd(suite: SuiteRecord)
    | OnTestStart(test: TestRecord<V>)
    | OnTestEnd(test: TestRecord<V>)

  function Occurred<V>(o: Occurrence<V>): HostEvent {
    match o
    case OnRunStart(_) => RunStart
    case OnRunEnd(_) => RunEnd
    case OnSuiteStart(_) => SuiteStart
    case OnSuiteEnd(_) => SuiteEnd
    case OnTestStart(_) => TestStartHost
    case OnTestEnd(_) => TestEnd
  }

  /** The argument a QUnit callback receives. */
  datatype Payload<V> =
    | ToBegin(begin: BeginData)
    | ToDone(done: DoneData)
    | ToLog(log: LogData<V>)
    | ToModuleDone(moduleDone: ModuleDoneData)
    | ToModuleStart(moduleStart: ModuleStartData)
    | ToTestDone(testDone: TestDoneData)
    | ToTestStart(testStart: TestStartData)

  function PayloadKind<V>(p: Payload<V>): EventKind {
    match p
    case ToBegin(_) => BeginEvent
    case ToDone(_) => DoneEvent
    case ToLog(_) => LogEvent
    case ToModuleDone(_) => ModuleDoneEvent
    case ToModuleStart(_) => ModuleStartEvent
    case ToTestDone(_) => TestDoneEvent
    case ToTestStart(_) => TestStartEvent
  }

  function IsModuleEvent(k: EventKind): bool {
    k == ModuleStartEvent || k == ModuleDoneEvent
  }

  /** What a callback registered as `k` receives when the host emits `o`: nothing unless
      `o` is the host event `k` listens to, and for the module callbacks nothing either
      when the suite was not made by `module`. */
  function Deliver<V>(k: EventKind, o: Occurrence<V>): (p: Option<Payload<V>>)
    ensures p.Some? ==> Subscribes(k) == Occurred(o) && PayloadKind(p.value) == k
    ensures Subscribes(k) == Occurred(o) && !IsModuleEvent(k) ==> p.Some?
    ensures Subscribes(k) == Occurred(o) && IsModuleEvent(k) ==> (p.Some? <==> o.suite.hasContext)
  {
    match (k, o)
    case (BeginEvent, OnRunStart(suites)) => Some(ToBegin(Begin(suites)))
    case (DoneEvent, OnRunEnd(suites)) => Some(ToDone(Done(suites)))
    case (LogEvent, OnTestEnd(test)) => Some(ToLog(Log(test)))
    case (ModuleDoneEvent, OnSuiteEnd(suite)) =>
      var d := ModuleDone(suite);
      if d.Some? then Some(ToModuleDone(d.value)) else None
    case (ModuleStartEvent, OnSuiteStart(suite)) =>
      var d := ModuleStart(suite);
      if d.Some? then Some(ToModuleStart(d.value)) else None
    case (TestDoneEvent, OnTestEnd(test)) => Some(ToTestDone(TestDone(test)))
    case (TestStartEvent, OnTestStart(test)) => Some(ToTestStart(TestStart(test)))
    case _ => None
  }

  /** One `testEnd` reaches exactly two callbacks, `log` and `testDone`; every other host
      event reaches at most one kind of callback. */
  lemma {:induction false} DeliverFanOut<V>(o: Occurrence<V>, k1: EventKind, k2: EventKind)
    requires Deliver(k1, o).Some? && Deliver(k2, o).Some? && k1 != k2
    ensures o.OnTestEnd? && {k1, k2} == {LogEvent, TestDoneEvent}
  {
  }

  /** `on(name, callback)` calls `QUnit[name](callback)`; the names of the `Events` type pick
      one registration function each. */
  function Dispatch(name: string): (k: Option<EventKind>)
    ensures k.Some? ==> EventName(k.value) == name
  {
    if name == "begin" then Some(BeginEvent)
    else if name == "done" then Some(DoneEvent)
    else if name == "log" then Some(LogEvent)
    else if name == "moduleDone" then Some(ModuleDoneEvent)
    else if name == "moduleStart" then Some(ModuleStartEvent)
    else if name == "testDone" then Some(TestDoneEvent)
    else if name == "testStart" then Some(TestStartEvent)
    else None
  }

  /** Every callback kind is reached by its own name, and by no other. */
  lemma DispatchByName(k: EventKind, name: string)
    ensures Dispatch(EventName(k)) == Some(k)
    ensures Dispatch(name) == Some(k) <==> name == EventName(k)
  {
  }

  /** The unit tests of `begin` and `done`: two `module` suites with 2 and 1 passing tests
      sit under the one root suite, which counts all 3; `begin` reports 3 and `done` 0 failed,
      3 passed, 3 in all. */
  lemma SampleRuns()
    ensures Begin([SuiteRecord("parent", false, 3, 0, 0)]).totalTests == 3
    ensures Done([SuiteRecord("parent", false, 3, 0, 0)]) == DoneData(0, 3, 3)
  {
  }

  /** The unit test of `moduleDone`: one `module` suite with one passing test gives 0
      failed, 1 passed, 1 in all; the root suite it sits under raises no `moduleDone`. */
  lemma SampleModuleDone()
    ensures ModuleDone(SuiteRecord("qunit suite 1", true, 1, 0, 0)) == Some(ModuleDoneData("qunit suite 1", 0, 1, 1))
    ensures ModuleDone(SuiteRecord("parent", false, 1, 0, 0)) == None
  {
  }
}
