/** The per-test assertion object (src/getInterface.ts:61-174): the expected-assertion count,
    the assertion counter, the step log, `throws` with a matcher function, the `async`
    countdown and the end-of-test `verifyExpects` check. */
module Assertions {
  import opened Common

  // ---------------------------------------------------------------------------------------
  // verifyExpects (src/getInterface.ts:130-138)

  datatype ExpectError = ExpectNotCalled | CountMismatch(expected: int, actual: nat)

  datatype Verdict = Pass | Fail(error: ExpectError)

  function ExpectErrorMessage(e: ExpectError): string {
    match e
    case ExpectNotCalled =>
      "Expected " + "number" + " of assertions to be defined, but expect() was not called."
    case CountMismatch(expected, actual) =>
      "Expected " + IntToString(expected) + " assertions, but " + IntToString(actual) + " were run"
  }

  /** A string with no space in it followed by one starting with a space splits at that
      first space. */
  lemma SplitAtSpace(x1: string, r1: string, x2: string, r2: string)
    requires forall i :: 0 <= i < |x1| ==> x1[i] != ' '
    requires forall i :: 0 <= i < |x2| ==> x2[i] != ' '
    requires |r1| > 0 && r1[0] == ' ' && |r2| > 0 && r2[0] == ' '
    requires x1 + r1 == x2 + r2
    ensures x1 == x2 && r1 == r2
  {
    var k := if |x1| <= |x2| then |x1| else |x2|;
    assert (x1 + r1)[k] == (x2 + r2)[k];
    assert |x1| == |x2|;
    assert x1 == (x1 + r1)[..|x1|] && x2 == (x2 + r2)[..|x2|];
    assert r1 == (x1 + r1)[|x1|..] && r2 == (x2 + r2)[|x2|..];
  }

  /** The mismatch message, regrouped around the two numbers it prints. */
  lemma MismatchMessageShape(expected: int, actual: nat)
    ensures ExpectErrorMessage(CountMismatch(expected, actual))
      == "Expected " + (IntToString(expected) + (" assertions, but " + (IntToString(actual) + " were run")))
    ensures ExpectErrorMessage(CountMismatch(expected, actual))[9] != 'n'
  {
  }

  /** The message names the error: the missing expectation reads differently from every
      count mismatch, and a mismatch message gives back both numbers it was made from. */
  lemma ExpectErrorMessageInjective(e1: ExpectError, e2: ExpectError)
    ensures ExpectErrorMessage(e1) == ExpectErrorMessage(e2) <==> e1 == e2
  {
    assert ExpectErrorMessage(ExpectNotCalled)[9] == "number"[0] == 'n';
    if e1.CountMismatch? {
      MismatchMessageShape(e1.expected, e1.actual);
    }
    if e2.CountMismatch? {
      MismatchMessageShape(e2.expected, e2.actual);
    }
    if e1.CountMismatch? && e2.CountMismatch? && ExpectErrorMessage(e1) == ExpectErrorMessage(e2) {
      var x1, y1 := IntToString(e1.expected), IntToString(e1.actual);
      var x2, y2 := IntToString(e2.expected), IntToString(e2.actual);
      var mid, tail := " assertions, but ", " were run";
      var t1, t2 := x1 + (mid + (y1 + tail)), x2 + (mid + (y2 + tail));
      assert t1 == ExpectErrorMessage(e1)[9..] == ExpectErrorMessage(e2)[9..] == t2;
      SplitAtSpace(x1, mid + (y1 + tail), x2, mid + (y2 + tail));
      assert y1 + tail == (mid + (y1 + tail))[|mid|..] == (mid + (y2 + tail))[|mid|..] == y2 + tail;
      SplitAtSpace(y1, tail, y2, tail);
      IntToStringInjective(e1.expected, e2.expected);
      IntToStringInjective(e1.actual, e2.actual);
    }
  }

  /** The check made when a test body has returned. `NaN` means `expect()` was never given
      a count. The missing expectation is reported before any count mismatch. */
  function VerifyExpects(expected: Number, actual: nat, requireExpects: bool): (v: Verdict)
    ensures v.Pass? <==> (expected.NaN? ==> !requireExpects) && (expected.Int? ==> expected.value == actual)
    ensures v == Fail(ExpectNotCalled) <==> expected.NaN? && requireExpects
    ensures expected.Int? && expected.value != actual ==> v == Fail(CountMismatch(expected.value, actual))
  {
    if expected.NaN? && requireExpects then Fail(ExpectNotCalled)
    else if expected.Int? && actual != expected.value then Fail(CountMismatch(expected.value, actual))
    else Pass
  }

  // ---------------------------------------------------------------------------------------
  // throws(fn, matcher, message) with a matcher function (src/getInterface.ts:97-123)

  /** What the block threw: an `Error` instance (its `name` and `message`) or any other value
      (its string conversion). */
  datatype Raised = ErrorObject(name: string, message: string) | OtherValue(text: string)

  /** `Error.prototype.toString`. */
  function ErrorToString(name: string, message: string): string {
    if name == "" then message else if message == "" then name else name + ": " + message
  }

  function Describe(e: Raised): string {
    match e
    case ErrorObject(name, message) => ErrorToString(name, message)
    case OtherValue(text) => text
  }

  /** `message ? message + ': ' : ''`: an absent or empty message adds nothing. */
  function Prefix(message: Option<string>): string {
    if message.Some? && message.value != "" then message.value + ": " else ""
  }

  const NotThrownText: string := "expected [Function] to throw"
  const MismatchText: string := "expected [Function] to throw error matching [Function] but got "

  /** The code as written: the "did not throw" error is raised inside the `try`, so the
      `catch` hands it to the matcher like an error the block threw. The result is the
      message of the failure raised, if any. */
  function ThrowsAsWritten(raised: Option<Raised>, accepts: Raised -> bool, message: Option<string>): (failure: Option<string>)
    ensures raised.Some? ==> failure == ThrowsVerdict(raised, accepts, message)
  {
    var caught := if raised.Some? then raised.value else ErrorObject("AssertionError", Prefix(message) + NotThrownText);
    if accepts(caught) then None else Some(Prefix(message) + MismatchText + Describe(caught))
  }

  /** As intended: a block that does not throw always fails, whatever the matcher says; an
      error the block threw passes exactly when the matcher accepts it. */
  function ThrowsVerdict(raised: Option<Raised>, accepts: Raised -> bool, message: Option<string>): (failure: Option<string>)
    ensures failure.None? <==> raised.Some? && accepts(raised.value)
    ensures raised.None? ==> failure == Some(Prefix(message) + NotThrownText)
    ensures raised.Some? && !accepts(raised.value) ==>
      failure == Some(Prefix(message) + MismatchText + Describe(raised.value))
  {
    if raised.None? then Some(Prefix(message) + NotThrownText)
    else if accepts(raised.value) then None
    else Some(Prefix(message) + MismatchText + Describe(raised.value))
  }

  /** A block that never throws, checked with a matcher that accepts every error, passes as
      written, while the intended check fails it. */
  lemma ThrowsAsWrittenMissesNoThrow(message: Option<string>)
    ensures ThrowsAsWritten(None, _ => true, message) == None
    ensures ThrowsVerdict(None, _ => true, message) == Some(Prefix(message) + NotThrownText)
  {
  }

  /** With a matcher that rejects, the message as written reports the adapter's own
      AssertionError as what the block threw, so it still contains "expected [Function] to
      throw" but not as the whole message. */
  lemma ThrowsAsWrittenMessage(message: Option<string>)
    ensures ThrowsAsWritten(None, _ => false, message) ==
      Some(Prefix(message) + MismatchText + "AssertionError: " + Prefix(message) + NotThrownText)
  {
    var own := Prefix(message) + NotThrownText;
    assert own != "" by { assert |NotThrownText| > 0; }
    assert "AssertionError" + ": " == "AssertionError: ";
    assert Describe(ErrorObject("AssertionError", own)) == "AssertionError: " + own;
    var head := Prefix(message) + MismatchText;
    assert head + ("AssertionError: " + own) == head + "AssertionError: " + Prefix(message) + NotThrownText;
  }

  // ---------------------------------------------------------------------------------------
  // The async(callCount) countdown (src/getInterface.ts:146-166)

  /** `callCount` after its default and the `isNaN(callCount) || callCount < 1` reset. */
  function NormalizedCount(callCount: Option<Number>): (n: int)
    ensures n >= 1
    ensures callCount == Some(Int(n)) || n == 1
    ensures callCount.Some? && callCount.value.Int? && callCount.value.value >= 1 ==> n == callCount.value.value
  {
    match callCount
    case None => 1
    case Some(NaN) => 1
    case Some(Int(k)) => if k < 1 then 1 else k
  }

  /** What one call of `done` does. */
  datatype DoneCall = Resolved | Waiting | Thrown(message: string)

  /** The `done` closure with the counter it captures and the deferred it resolves. */
  class Countdown {
    /** The normalised call count the closure started from. */
    const initial: int
    /** The captured `callCount`. */
    var remaining: int
    /** How many times the deferred's `resolve` has been called. */
    var resolutions: nat

    ghost predicate Valid()
      reads this
    {
      && initial >= 1
      && remaining <= initial
      && resolutions == (if remaining <= 0 then 1 else 0)
    }

    /** The number of calls of `done` so far. */
    ghost function Calls(): int
      reads this
    {
      initial - remaining
    }

    constructor (count: int)
      requires count >= 1
      ensures Valid() && initial == count && remaining == count && resolutions == 0
    {
      initial, remaining, resolutions := count, count, 0;
    }

    /** One call of `done`: the deferred is resolved on exactly the `initial`-th call, and
        every later call throws. */
    method Done() returns (r: DoneCall)
      requires Valid()
      modifies this
      ensures Valid()
      ensures remaining == old(remaining) - 1
      ensures r == Resolved <==> Calls() == initial
      ensures r.Thrown? <==> Calls() > initial
      ensures r.Thrown? ==> r.message == "resolve called too many times"
      ensures resolutions == old(resolutions) + (if r == Resolved then 1 else 0)
    {
      remaining := remaining - 1;
      if remaining == 0 {
        resolutions := resolutions + 1;
        r := Resolved;
      } else if remaining < 0 {
        r := Thrown("resolve called too many times");
      } else {
        r := Waiting;
      }
    }
  }

  // ---------------------------------------------------------------------------------------
  // The assertion object

  /** The argument of `pushResult`. */
  datatype AssertionResult<V> = AssertionResult(result: bool, actual: V, expected: V, message: string)

  /** The AssertionError that `assert.fail(actual, expected, message)` raises. */
  datatype Failure<V> = Failure(actual: V, expected: V, message: string)

  class Assert {
    /** True for the shared `QUnit.assert` object, false for the one made per test. */
    const isBase: bool
    var expectedAssertions: Number
    var numAssertions: nat
    /** The step log; `null` on the shared object. */
    var steps: Option<seq<string>>
    /** The `done` closure handed out by the first `async` call, if any. */
    var done: Countdown?
    /** How many times the host test's `async()` deferred has been acquired. */
    var deferreds: nat

    ghost predicate Valid()
      reads this, done
    {
      && (isBase <==> steps.None?)
      && (isBase ==> done == null)
      && deferreds == (if done == null then 0 else 1)
      && (done != null ==> done.Valid())
    }

    /** The shared `baseAssert` object. */
    constructor Base()
      ensures Valid() && isBase
      ensures expectedAssertions == NaN && numAssertions == 0 && steps == None && done == null
    {
      isBase := true;
      expectedAssertions, numAssertions, steps := NaN, 0, None;
      done, deferreds := null, 0;
    }

    /** `createAssert(test)`: a fresh object per test invocation. */
    constructor ForTest()
      ensures Valid() && !isBase
      ensures expectedAssertions == NaN && numAssertions == 0 && steps == Some([]) && done == null
    {
      isBase := false;
      expectedAssertions, numAssertions, steps := NaN, 0, Some([]);
      done, deferreds := null, 0;
    }

    /** `expect(n)` records `n` and returns nothing; `expect()` returns the recorded count. */
    method Expect(numTotal: Option<Number>) returns (r: Option<Number>)
      requires Valid()
      modifies this
      ensures Valid()
      ensures numTotal.Some? ==> expectedAssertions == numTotal.value && r == None
      ensures numTotal.None? ==> r == Some(expectedAssertions) && expectedAssertions == old(expectedAssertions)
      ensures numAssertions == old(numAssertions) && steps == old(steps) && done == old(done)
    {
      if numTotal.Some? {
        expectedAssertions := numTotal.value;
        r := None;
      } else {
        r := Some(expectedAssertions);
      }
    }

    /** `pushResult`: counts one assertion whatever the outcome, and fails, carrying the
        given actual, expected and message, exactly when `result` is false. */
    method PushResult<V>(result: AssertionResult<V>) returns (failure: Option<Failure<V>>)
      requires Valid()
      modifies this
      ensures Valid()
      ensures numAssertions == old(numAssertions) + 1
      ensures failure.Some? <==> !result.result
      ensures failure.Some? ==> failure.value == Failure(result.actual, result.expected, result.message)
      ensures expectedAssertions == old(expectedAssertions) && steps == old(steps) && done == old(done)
    {
      numAssertions := numAssertions + 1;
      if !result.result {
        failure := Some(Failure(result.actual, result.expected, result.message));
      } else {
        failure := None;
      }
    }

    /** `step(message)` appends to the log; on the shared object, whose log is `null`, it
        throws a TypeError and changes nothing. */
    method Step(message: string) returns (ok: bool)
      requires Valid()
      modifies this
      ensures Valid()
      ensures ok <==> old(steps).Some?
      ensures ok ==> steps == Some(old(steps).value + [message])
      ensures !ok ==> steps == old(steps)
      ensures expectedAssertions == old(expectedAssertions) && numAssertions == old(numAssertions) && done == old(done)
    {
      if steps.Some? {
        steps := Some(steps.value + [message]);
        ok := true;
      } else {
        ok := false;
      }
    }

    /** `verifySteps(expected)`: counts one assertion, then passes when every expected entry
        is in the log; the log is not cleared. */
    method VerifySteps(expected: seq<string>) returns (passed: bool)
      requires Valid()
      modifies this
      ensures Valid()
      ensures numAssertions == old(numAssertions) + 1
      ensures passed <==> steps.Some? && forall i :: 0 <= i < |expected| ==> expected[i] in steps.value
      ensures expectedAssertions == old(expectedAssertions) && steps == old(steps) && done == old(done)
    {
      numAssertions := numAssertions + 1;
      passed := steps.Some? && forall i :: 0 <= i < |expected| ==> expected[i] in steps.value;
    }

    /** `throws(fn, matcher, message)` with a matcher function: counts one assertion and
        fails unless the block threw an error the matcher accepts. */
    method Throws(raised: Option<Raised>, accepts: Raised -> bool, message: Option<string>) returns (failure: Option<string>)
      requires Valid()
      modifies this
      ensures Valid()
      ensures numAssertions == old(numAssertions) + 1
      ensures failure == ThrowsVerdict(raised, accepts, message)
      ensures expectedAssertions == old(expectedAssertions) && steps == old(steps) && done == old(done)
    {
      numAssertions := numAssertions + 1;
      failure := ThrowsVerdict(raised, accepts, message);
    }

    /** `async(callCount)`. The shared object returns `null`. On a per-test object the first
        call acquires the test's deferred and makes a countdown from the normalised count;
        every later call returns that same countdown and acquires nothing. */
    method Async(callCount: Option<Number>) returns (d: Countdown?)
      requires Valid()
      modifies this
      ensures Valid()
      ensures isBase ==> d == null && done == null && deferreds == 0
      ensures !isBase && old(done) == null ==>
        d != null && fresh(d) && done == d && deferreds == 1 && d.Valid()
        && d.initial == NormalizedCount(callCount) && d.remaining == d.initial && d.resolutions == 0
      ensures !isBase && old(done) != null ==> d == old(done) && done == old(done) && deferreds == old(deferreds) && d != null && d.Valid()
      ensures expectedAssertions == old(expectedAssertions) && numAssertions == old(numAssertions) && steps == old(steps)
    {
      if isBase {
        d := null;
      } else if done == null {
        deferreds := deferreds + 1;
        d := new Countdown(NormalizedCount(callCount));
        done := d;
      } else {
        d := done;
      }
    }

    /** The `verifyExpects(testAssert)` call the test wrapper makes after the body returns. */
    method Finish(requireExpects: bool) returns (v: Verdict)
      requires Valid()
      ensures v == VerifyExpects(expectedAssertions, numAssertions, requireExpects)
      ensures v.Pass? ==> expectedAssertions.NaN? || expectedAssertions == Int(numAssertions)
    {
      v := VerifyExpects(expectedAssertions, numAssertions, requireExpects);
    }
  }

  // ---------------------------------------------------------------------------------------
  // Call sequences the unit tests exercise

  /** `expect()` on a fresh per-test object answers `NaN`; after `expect(n)` it answers `n`. */
  method ExpectThenRead(n: int) returns (before: Option<Number>, recorded: Option<Number>, after: Option<Number>)
    ensures before == Some(NaN)
    ensures recorded == None
    ensures after == Some(Int(n))
  {
    var a := new Assert.ForTest();
    before := a.Expect(None);
    recorded := a.Expect(Some(Int(n)));
    after := a.Expect(None);
  }

  /** `async(2)`: the first `done` waits, the second resolves, the third throws; every later
      `async()`, before or after `done` has been called, hands back the same `done` and
      acquires no new deferred. */
  method AsyncTwoCalls() returns (first: DoneCall, second: DoneCall, third: DoneCall, same: bool, deferreds: nat)
    ensures first == Waiting && second == Resolved
    ensures third == Thrown("resolve called too many times")
    ensures same && deferreds == 1
  {
    var a := new Assert.ForTest();
    var d := a.Async(Some(Int(2)));
    var again := a.Async(None);
    same := d == again;
    first := again.Done();
    var late := a.Async(Some(Int(5)));
    same := same && late == d;
    second := late.Done();
    third := d.Done();
    deferreds := a.deferreds;
  }
}
