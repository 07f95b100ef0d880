# A verified model of the qunit-plugin interface adapter

qunit-plugin lets test files written against QUnit's API run on the Intern test runner.
`src/getInterface.ts` builds, per Intern executor, a `QUnit`-shaped object: an `assert`
object that counts assertions, a `config` object whose setters act on the executor,
`module`/`test` registration functions that add suites and tests to Intern's tree, and
event functions (`begin`, `done`, `moduleDone`, ...) that turn Intern's lifecycle events
into QUnit's callback payloads.

This project models the parts of that file whose behaviour can be stated exactly, and
proves what they promise:

- `escaping.dfy`: `escapeRegExp` and the case-insensitive module filter
  `(?:^|[^-]* - )<escaped name> - ` built from it. Escaping is proved to be a bijection
  between strings and the "well-formed" escaped strings: reading the output back with
  `Unescape` gives the input, and each well-formed string is the escape of what it reads
  as. So distinct module names always give distinct filters.
- `extending.dfy`: `extend(target, mixin, skipExisting)` as a loop over the mixin's own
  properties that updates the target object in place and returns it. It is specified by a
  fold, `Extended`, and a lemma says what ends up at every key.
- `assertions.dfy`: the assertion object. It covers `expect` (where `NaN` means "not set"),
  the assertion counter that `pushResult`, `verifySteps` and `throws` increase, the `step`
  log, and `throws` with a matcher function. It also covers the `async(callCount)` countdown
  (a `Countdown` object standing for the `done` closure and its captured counter) and the
  end-of-test `verifyExpects` check.
- `host.dfy`: the Intern records the adapter updates. Suites and tests form a tree under one
  root suite. The executor keeps a list of `beforeRun` listeners, which its handles remove.
  Registration and removal behave as the test double in tests/support/mocks.ts does.
- `registration.dfy`: `module` and `test` with the `currentSuites` cursor.
- `configuration.dfy`: the `autostart` toggle, with its blocking `beforeRun` listener and
  `QUnit.start`, the `module` filter setter, and the `requireExpects` flag that the
  end-of-test check reads.
- `events.dfy`: the payload arithmetic of `begin`, `done`, `moduleStart`, `moduleDone`,
  `testStart`, `testDone` and `log`, which host event feeds which callback, and the
  `on(name, callback)` dispatch. Here suites and tests are the counters and flags the host
  reports when it emits an event (`SuiteRecord`, `TestRecord`), not the mutable tree of
  `host.dfy`: the callbacks only read those values, and `begin` and `done` read them from
  `executor.suites`, the executor's root suites.
- `common.dfy`: `Option` (with `None` standing for `undefined`), a `Number` type with `NaN`,
  and decimal rendering of integers for messages, proved to read back as the integer.

Notes on what the code does, which the model follows:

- `module(name, callback)` moves the callback to `nested` and never calls it. No nested
  suite builder exists in the code.
- Assigning `undefined` to `config.module` does not clear the filter. It installs a filter
  for the text `"undefined"` (`String(undefined)`).
- Only the `async(callCount)` countdown is live. The stop/start countdown (`asyncTest`,
  `QUnit.stop`) is commented out in the code, so it is not modelled.
- `verifySteps` checks membership of the expected steps. It does not check their order.

## Model

| member | source | states |
|---|---|---|
| Escaping.EscapeRegExp | src/getInterface.ts:23-25 | the escaped text is longer than the input by exactly the number of special characters (the characters of `-[]{}()*+?.,\^$#`, the vertical bar, and whitespace) |
| Escaping.UnescapeEscape | src/getInterface.ts:23-25 | reading the escaped text back gives the input, so escaping loses nothing and keeps the order |
| Escaping.EscapeUnescape | src/getInterface.ts:23-25 | every text in which each special character is preceded by a backslash is the escape of what it reads as (the image of escaping is exactly the well-formed texts) |
| Escaping.EscapeInjective | src/getInterface.ts:23-25 | two different inputs never escape to the same text |
| Escaping.GrepPattern | src/getInterface.ts:206-210 | the module filter ignores case, starts with the fixed prefix that allows any parent suite names before the name, and ends with ` - ` |
| Escaping.GrepPatternEscapes | src/getInterface.ts:23-25 | between prefix and suffix the filter holds the escape of `String(value)`, where `String(undefined)` is `"undefined"`, and is as long as that text plus one backslash per special character |
| Escaping.GrepPatternRecoversName | src/getInterface.ts:209 | the module name is recovered from the filter by unescaping the text between prefix and suffix, so distinct names give distinct filters |
| Extending.Extend | src/getInterface.ts:27-40 | the loop updates the target in place and returns the same object; its properties end up as the fold `Extended` of the old properties over the mixin |
| Extending.ExtendedAt | src/getInterface.ts:29-37 | for a mixin key: `undefined` deletes it from the target; a defined value is stored unless `skipExisting` is set and the target already defines the key, in which case the target keeps its value |
| Extending.ExtendedAbsent | src/getInterface.ts:29-38 | a key the mixin lacks is present afterwards exactly when it was before, with the same value |
| Extending.ExtendSequence | tests/unit/getInterface.ts:247-261 | the unit test's three calls give `{a:1, b:{c:1}}`, then `{a:1}` (b deleted), then `{a:1, b:2}` with `skipExisting` |
| Assertions.VerifyExpects | src/getInterface.ts:130-138 | the check passes if and only if the count is set and equal to the assertions run, or it is unset and expectations are not required. "expect() was not called" is reported exactly when the count is unset and required, and a set count that differs gives the mismatch error with both numbers |
| Assertions.ExpectErrorMessageInjective | src/getInterface.ts:130-138 | the two error messages tell the errors apart: the missing-expectation message differs from every mismatch message, and a mismatch message determines both the expected count and the count run |
| Assertions.Assert.Finish | src/getInterface.ts:297 | the end-of-test check applies `VerifyExpects` to the object's own counters, so a pass means the count was unset or equal to the assertions run |
| Assertions.NormalizedCount | src/getInterface.ts:146-151 | the countdown starts at the requested count when it is at least 1, and at 1 when it is absent, `NaN` or below 1 |
| Assertions.Countdown.Done | src/getInterface.ts:153-161 | `done` resolves the deferred on exactly the call that brings the counter to 0 (the `initial`-th call) and throws "resolve called too many times" on every later call; the deferred is resolved at most once |
| Assertions.Assert.Async | src/getInterface.ts:146-166 | the first call on a per-test object acquires one deferred and returns a new countdown from the normalised count; later calls return the same countdown, still consistent with its call count, and acquire nothing; the shared object returns `null` |
| Assertions.AsyncTwoCalls | src/getInterface.ts:146-166 | with `async(2)` the first `done` waits, the second resolves, the third throws, and later `async()` calls, made before and after `done` runs, return the same `done` with one deferred in all |
| Assertions.Assert.Base | src/getInterface.ts:61-68 | the shared object starts with the count unset (`NaN`), no assertions and a `null` step log |
| Assertions.Assert.ForTest | src/getInterface.ts:140-145 | each per-test object starts with the count unset, no assertions and an empty step log |
| Assertions.Assert.Expect | src/getInterface.ts:71-78 | `expect(n)` records `n` and returns nothing; `expect()` returns the recorded count and changes nothing |
| Assertions.ExpectThenRead | tests/unit/getInterface.ts:440-450 | `expect()` on a fresh object answers `NaN`; after `expect(n)` it answers `n` |
| Assertions.Assert.PushResult | src/getInterface.ts:87-92 | counts exactly one assertion whatever the outcome, and fails, with the given actual, expected and message, if and only if `result` is false |
| Assertions.Assert.Step | src/getInterface.ts:93-95 | appends the message to the log; on the shared object, whose log is `null`, it fails and changes nothing |
| Assertions.Assert.VerifySteps | src/getInterface.ts:124-127 | counts one assertion and passes exactly when every expected step is in the log, which it leaves as it was |
| Assertions.ThrowsAsWritten | src/getInterface.ts:99-118 | the code as written: when the block threw, it agrees with the intended verdict |
| Assertions.ThrowsAsWrittenMissesNoThrow | src/getInterface.ts:102-116 | as written, a block that never throws passes when the matcher accepts every error, while the intended verdict fails it |
| Assertions.ThrowsAsWrittenMessage | src/getInterface.ts:102-116 | as written, with a rejecting matcher, the failure message reports the adapter's own AssertionError as the error the block threw |
| Assertions.ThrowsVerdict | src/getInterface.ts:99-118 | the intended verdict: pass if and only if the block threw and the matcher accepts what it threw; "expected [Function] to throw" (after the message prefix) when it did not throw; the matcher-mismatch message with the error's description otherwise |
| Assertions.Assert.Throws | src/getInterface.ts:97-123 | counts exactly one assertion and gives the intended verdict |
| Host.Executor.OnBeforeRun | tests/support/mocks.ts:23-28 | registering a listener appends one new handle, never one already in the list |
| Host.Executor.Destroy | tests/support/mocks.ts:29-40 | destroying a handle removes its listener and keeps every other listener |
| Registration.HookKeys | src/getInterface.ts:265-268 | only a hooks object gets listeners, one per key; a function in its place is taken as the nested callback and gets none |
| Registration.Registrar.Module | src/getInterface.ts:264-284 | appends exactly one new suite with a context to the root's children, attaches one listener per hook key in order, and makes that suite the whole cursor |
| Registration.Registrar.Test | src/getInterface.ts:286-302 | every suite in the cursor gets exactly one new test of that name appended, with that suite as parent; the suites' listeners and filters and the root's children do not change; before any `module` call it fails and changes nothing |
| Registration.LatestModuleGetsTest | tests/unit/getInterface.ts:208-224 | after `module(A)`, `module(B)`, `test(t)` the test is B's only child, A has no test, and the root gained exactly the two suites |
| Configuration.Config.constructor | src/getInterface.ts:176-214 | the config starts with autostart on (no handle), `start` doing nothing, no module name and expectations not required |
| Configuration.Config.SetAutostart | src/getInterface.ts:180-202 | the getter reads back the value set; any held listener is released first; `false` installs exactly one new blocking listener and makes `start` the releaser; `true` leaves none held |
| Configuration.Config.Start | src/getInterface.ts:196-200 | as the releaser, `start()` removes the held listener and becomes a no-op; with nothing held it fails and changes nothing; otherwise it does nothing |
| Configuration.DisableThenEnable | tests/unit/getInterface.ts:538-552 | disabling autostart reads false and leaves one `beforeRun` listener; enabling it again reads true and leaves none |
| Configuration.Config.SetModule | src/getInterface.ts:206-211 | records the module name and installs on the root suite the filter built from its escaped text; the root's children and listeners and the other settings do not change |
| Configuration.RequireExpectsScenario | tests/unit/getInterface.ts:578-596 | with `config.requireExpects` set, the end-of-test check passes a test that called `expect(0)` and fails one that never called `expect()` with the missing-expectation error |
| Events.ReduceIsTotal | src/getInterface.ts:307-309 | the `reduce` left fold from an accumulator adds exactly the sum of the counter over the suites |
| Events.Begin | src/getInterface.ts:305-313 | `totalTests` is the sum of `numTests` over `executor.suites`, the executor's root suites |
| Events.Done | src/getInterface.ts:315-337 | `total` and `failed` are the sums over `executor.suites`, the executor's root suites, and `passed + failed + skipped = total` |
| Events.DonePassedIsSumOfSuites | src/getInterface.ts:317-332 | the run's `passed` is the sum of each suite's `passed`, and is never negative when no suite has more failed and skipped tests than tests |
| Events.ModuleStart | src/getInterface.ts:367-375 | a payload, carrying the suite's name, exists exactly for suites made by `module` |
| Events.ModuleDone | src/getInterface.ts:353-365 | a payload exists exactly for suites made by `module`; `passed + failed + skipped = total` with the suite's own counters, and `passed` is never negative for consistent counters |
| Events.SampleRuns | tests/unit/getInterface.ts:269-312 | with two `module` suites of 2 and 1 passing tests, the one root suite counts 3 tests, so `begin` reports 3 and `done` 0/3/3 |
| Events.SampleModuleDone | tests/unit/getInterface.ts:358-376 | one `module` suite with one passing test gives `moduleDone` 0/1/1; the root suite gives none |
| Events.TestStart | src/getInterface.ts:390-397 | the payload names the test and its suite |
| Events.TestDone | src/getInterface.ts:377-388 | `failed + passed = total = 1`, and `passed` is 1 exactly when the test passed |
| Events.Log | src/getInterface.ts:339-351 | `result` is the test's pass flag; actual, expected, message and source come from the recorded error, and are all `undefined` without one |
| Events.Deliver | src/getInterface.ts:305-397 | each callback gets a payload only from the host event it listens to, and always gets one from it, except that `moduleStart` and `moduleDone` get one exactly for suites made by `module`; the payload is of the callback's own kind |
| Events.DeliverFanOut | src/getInterface.ts:339-388 | two different callbacks both get a payload from one host event only when it is `testEnd` and they are `log` and `testDone` |
| Events.Dispatch | src/getInterface.ts:399-401 | a name is sent to a registration function only when it is that function's name |
| Events.DispatchByName | src/getInterface.ts:399-401 | every callback kind is reached by its own name and by no other name |

## Left out

- Intern's `Executor`, `Suite` and `Test` classes are not modelled. Suites and tests are plain records, and the executor is only its `beforeRun` listener list. Running a suite, deferreds, timeouts and `executor.on` for the other events are host behaviour.
- The chai-backed assertions (`equal`, `deepEqual`, `ok`, `strictEqual` and the rest) are left out: each adds one to the counter and then calls a library that is not part of this model.
- `throws` with a non-function `expected` goes to chai's own `throws` and is left out. Only the matcher-function branch is modelled.
- Assertions.Assert.VerifySteps: `includeMembers` is a library call. It is modelled as "every expected entry occurs in the log", which is what that library documents: order is ignored, and a `null` log fails.
- Assertions.Assert.Throws: models the intended verdict, not the code as written (see Findings). The as-written behaviour is `Assertions.ThrowsAsWritten`.
- Calling the test callback with the suite's `_qunitContext`, waiting on a returned thenable before `verifyExpects`, and calling hook functions are left out. They run user code and are asynchronous. Hooks are modelled only as the listener keys attached to the suite.
- The `beforeRun` listener's promise, and `QUnit.start` becoming its `resolve` once the run begins, are left out because they are asynchronous.
- The per-test `timeout(duration)` only writes the host test's timeout field, and `stack()` always returns the empty string. Both are left out.
- Matching suite names against the filter is the host's regular-expression engine, so only the pattern text and its flag are modelled.
- `runtime`, `timeElapsed` and `Math.max` are timing values and are left out of the payloads.
- The `WeakMap` cache of one interface per executor is process-wide identity caching and is left out.
- `asyncTest` and `QUnit.stop` are commented out in the code. The wrappers in src/index.ts and tests/unit/getInterface.ts:88-141 still use them, but they are not live behaviour.
- `config.testTimeout` is read only by the commented-out `asyncTest`. `config.requireExpects` is a plain field that the end-of-test check receives as a parameter.
- Numbers are `NaN` or integers. Fractional and infinite counts are left out, and so are values like `null` passed to `expect`. For example, `async(1.5)` would never reach exactly 0.
- Extending.Extend: reads `target[key] === undefined` from the object's own properties only. A key inherited through the prototype chain (such as `toString`) is not modelled, and neither are symbol keys. The mixin is given as its own enumerable properties, in enumeration order.
- Escaping.GrepPattern: the value is a string or `undefined`. The conversion `String(str)` of other kinds of values is left out.
- Events.Dispatch: in the code, a name outside the seven event names either calls some other `QUnit` function with the callback or throws a TypeError. The model returns `None` for such names.
- src/index.ts (re-exports and plugin registration) and src/types.ts (types only) have no behaviour of their own.

## Findings

| source | as written | input that shows it | evidently intended | confidence | as-written member | corrected member |
|---|---|---|---|---|---|---|
| src/getInterface.ts:102-116 | the "expected [Function] to throw" AssertionError is thrown inside the `try`, so the `catch` passes it to the matcher like an error the block threw | `throws(() => {}, () => true)`: passes although the block never threw; with `() => false` and message `foo`, the message is "foo: expected [Function] to throw error matching [Function] but got AssertionError: foo: expected [Function] to throw" | a block that does not throw always fails with "expected [Function] to throw", whatever the matcher says | high; not executed | Assertions.ThrowsAsWrittenMissesNoThrow | Assertions.ThrowsVerdict |
