/** `config` (src/getInterface.ts:176-214) and `QUnit.start`: the autostart toggle, whose
    state is whether a blocking `beforeRun` listener is held, and the module filter. */
module Configuration {
  import opened Common
  import opened Host
  import Escaping
  import Assertions

  /** What `QUnit.start()` does at the moment: nothing, or release the blocking listener. */
  datatype StartAction = DoNothing | ReleaseBlock

  /** The `beforeRun` listeners left after releasing `held`, if one is held. */
  function Released(listeners: seq<nat>, held: Option<nat>): (r: seq<nat>)
    ensures held.None? ==> r == listeners
    ensures held.Some? ==> held.value !in r
    ensures forall h :: h in r <==> h in listeners && held != Some(h)
  {
    if held.Some? then Without(listeners, held.value) else listeners
  }

  class Config {
    const executor: Executor
    /** `autostartHandle`: the handle of the blocking `beforeRun` listener, if held. */
    var autostartHandle: Option<nat>
    /** The current behaviour of `QUnit.start`. */
    var start: StartAction
    /** `moduleName`, the value last assigned to `config.module`. */
    var moduleName: Option<string>
    /** `config.requireExpects`, a plain property that the end-of-test check reads. */
    var requireExpects: bool

    /** A held handle names a listener the executor still has. */
    ghost predicate Valid()
      reads this, executor
    {
      && executor.Valid()
      && (autostartHandle.Some? ==> autostartHandle.value in executor.beforeRun)
    }

    constructor (executor: Executor)
      requires executor.Valid()
      ensures Valid() && this.executor == executor
      ensures autostartHandle == None && start == DoNothing && moduleName == None && !requireExpects
    {
      this.executor := executor;
      autostartHandle, start, moduleName, requireExpects := None, DoNothing, None, false;
    }

    /** The `autostart` getter. */
    function Autostart(): bool
      reads this
    {
      autostartHandle.None?
    }

    /** The `autostart` setter: first releases any held listener; then, for `false`, registers
        one new blocking listener and makes `QUnit.start` the releaser. */
    method SetAutostart(value: bool)
      requires Valid()
      modifies this, executor
      ensures Valid()
      ensures Autostart() == value
      ensures value ==> executor.beforeRun == Released(old(executor.beforeRun), old(autostartHandle)) && start == old(start)
      ensures !value ==>
        && autostartHandle == Some(old(executor.issued))
        && executor.beforeRun == Released(old(executor.beforeRun), old(autostartHandle)) + [old(executor.issued)]
        && start == ReleaseBlock
      ensures moduleName == old(moduleName) && requireExpects == old(requireExpects)
    {
      if autostartHandle.Some? {
        executor.Destroy(autostartHandle.value);
        autostartHandle := None;
      }
      if !value {
        var h := executor.OnBeforeRun();
        autostartHandle := Some(h);
        start := ReleaseBlock;
      }
    }

    /** `QUnit.start()`. As the releaser it destroys the held listener and turns itself back
        into a no-op; with no listener held (autostart re-enabled in between) it throws a
        TypeError before changing anything, and `ok` is false. */
    method Start() returns (ok: bool)
      requires Valid()
      modifies this, executor
      ensures Valid()
      ensures ok <==> !(old(start) == ReleaseBlock && old(autostartHandle).None?)
      ensures ok && old(start) == ReleaseBlock ==>
        && autostartHandle == None && start == DoNothing
        && executor.beforeRun == Released(old(executor.beforeRun), old(autostartHandle))
      ensures !(ok && old(start) == ReleaseBlock) ==>
        autostartHandle == old(autostartHandle) && start == old(start) && executor.beforeRun == old(executor.beforeRun)
      ensures moduleName == old(moduleName) && requireExpects == old(requireExpects)
    {
      if start == DoNothing {
        return true;
      }
      if autostartHandle.None? {
        return false;
      }
      executor.Destroy(autostartHandle.value);
      autostartHandle := None;
      start := DoNothing;
      ok := true;
    }

    /** The `module` setter: records the name and installs on the root suite a filter that
        matches the escaped name between " - " separators, ignoring case. */
    method SetModule(value: Option<string>)
      requires Valid()
      modifies this, executor.root
      ensures Valid()
      ensures moduleName == value
      ensures executor.root.grep == Some(Escaping.GrepPattern(value))
      ensures executor.root.tests == old(executor.root.tests)
      ensures executor.root.listeners == old(executor.root.listeners)
      ensures autostartHandle == old(autostartHandle) && start == old(start) && requireExpects == old(requireExpects)
    {
      executor.root.grep := Some(Escaping.GrepPattern(value));
      moduleName := value;
    }
  }

  /** Disabling autostart on a fresh executor adds one blocking listener; enabling it again
      leaves the executor with no `beforeRun` listener at all. */
  method DisableThenEnable(root: SuiteNode) returns (afterDisable: bool, listenersThen: nat, afterEnable: bool, listenersNow: nat)
    ensures !afterDisable && listenersThen == 1
    ensures afterEnable && listenersNow == 0
  {
    var executor := new Executor(root);
    var config := new Config(executor);
    config.SetAutostart(false);
    afterDisable, listenersThen := config.Autostart(), |executor.beforeRun|;
    config.SetAutostart(true);
    afterEnable, listenersNow := config.Autostart(), |executor.beforeRun|;
  }

  /** With `config.requireExpects` set, the end-of-test check fails a test that never
      called `expect()`, and passes one that called `expect(0)` and asserted nothing. */
  method RequireExpectsScenario(root: SuiteNode) returns (withExpect: Assertions.Verdict, without: Assertions.Verdict)
    ensures withExpect == Assertions.Pass
    ensures without == Assertions.Fail(Assertions.ExpectNotCalled)
  {
    var executor := new Executor(root);
    var config := new Config(executor);
    config.requireExpects := true;
    var first := new Assertions.Assert.ForTest();
    var _ := first.Expect(Some(Int(0)));
    withExpect := first.Finish(config.requireExpects);
    var second := new Assertions.Assert.ForTest();
    without := second.Finish(config.requireExpects);
  }
}
