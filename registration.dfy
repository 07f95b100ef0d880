/** `module` and `test` (src/getInterface.ts:264-302): suites are added under the root suite
    and a cursor of "current suites" decides where each test goes. */
module Registration {
  import opened Common
  import opened Host

  /** The second argument of `module`: absent, a hooks object (its own keys, in order), or a
      function, which the code moves to `nested` and never calls. */
  datatype HooksArg = NoHooks | HooksObject(keys: seq<string>) | NestedCallback

  /** The lifecycle methods that get a listener. */
  function HookKeys(hooks: HooksArg): (keys: seq<string>)
    ensures hooks.HooksObject? ==> keys == hooks.keys
    ensures !hooks.HooksObject? ==> keys == []
  {
    if hooks.HooksObject? then hooks.keys else []
  }

  class Registrar {
    const executor: Executor
    /** `currentSuites`, undefined until the first `module` call. */
    var currentSuites: Option<seq<SuiteNode>>

    /** `module` always leaves exactly one suite, never the root, in the cursor. */
    ghost predicate Valid()
      reads this
    {
      currentSuites.Some? ==> |currentSuites.value| == 1 && currentSuites.value[0] != executor.root
    }

    ghost function Cursor(): seq<SuiteNode>
      reads this
    {
      if currentSuites.Some? then currentSuites.value else []
    }

    constructor (executor: Executor)
      ensures Valid() && this.executor == executor && currentSuites == None
    {
      this.executor := executor;
      currentSuites := None;
    }

    /** `module(name, hooks)`: one new suite, carrying a context, is appended to the root's
        children, gets a listener per hook key, and becomes the whole cursor. */
    method Module(name: string, hooks: HooksArg) returns (suite: SuiteNode)
      requires Valid()
      modifies this, executor.root
      ensures Valid()
      ensures fresh(suite)
      ensures suite.name == name && suite.parent == executor.root && suite.hasContext
      ensures suite.tests == [] && suite.listeners == HookKeys(hooks) && suite.grep == None
      ensures executor.root.tests == old(executor.root.tests) + [SuiteChild(suite)]
      ensures executor.root.listeners == old(executor.root.listeners) && executor.root.grep == old(executor.root.grep)
      ensures currentSuites == Some([suite])
    {
      currentSuites := Some([]);
      var parentSuite := executor.root;
      suite := new SuiteNode.Module(name, parentSuite);
      parentSuite.tests := parentSuite.tests + [SuiteChild(suite)];
      currentSuites := Some(currentSuites.value + [suite]);
      assert currentSuites.value == [suite];
      if hooks.HooksObject? {
        var i := 0;
        while i < |hooks.keys|
          invariant 0 <= i <= |hooks.keys|
          invariant suite.listeners == hooks.keys[..i]
          invariant suite.tests == [] && suite.grep == None
          modifies suite
        {
          suite.listeners := suite.listeners + [hooks.keys[i]];
          i := i + 1;
        }
        assert hooks.keys[..i] == hooks.keys;
      }
    }

    /** `test(name, callback)`: every suite in the cursor gets one new test of that name
        appended to its children; nothing else changes. Before any `module` call the cursor
        is undefined and the call throws a TypeError (`ok` is false). */
    method Test(name: string) returns (ok: bool, added: seq<TestNode>)
      requires Valid()
      modifies set s | s in Cursor()
      ensures Valid() && currentSuites == old(currentSuites)
      ensures ok <==> currentSuites.Some?
      ensures |added| == |Cursor()|
      ensures forall i :: 0 <= i < |added| ==>
        fresh(added[i]) && added[i].name == name && added[i].parent == Cursor()[i]
        && Cursor()[i].tests == old(Cursor()[i].tests) + [TestChild(added[i])]
      ensures forall s :: s in Cursor() ==> s.listeners == old(s.listeners) && s.grep == old(s.grep)
      ensures executor.root.tests == old(executor.root.tests)
    {
      if currentSuites.None? {
        return false, [];
      }
      ok := true;
      var cursor := currentSuites.value;
      added := [];
      var i := 0;
      while i < |cursor|
        invariant 0 <= i <= |cursor| && |added| == i
        invariant forall k :: 0 <= k < i ==>
          fresh(added[k]) && added[k].name == name && added[k].parent == cursor[k]
          && cursor[k].tests == old(cursor[k].tests) + [TestChild(added[k])]
        invariant forall k :: i <= k < |cursor| ==> cursor[k].tests == old(cursor[k].tests)
        invariant forall k :: 0 <= k < |cursor| ==>
          cursor[k].listeners == old(cursor[k].listeners) && cursor[k].grep == old(cursor[k].grep)
      {
        var parent := cursor[i];
        var t := new TestNode(name, parent);
        parent.tests := parent.tests + [TestChild(t)];
        added := added + [t];
        i := i + 1;
      }
    }
  }

  /** `module(A)`, `module(B)`, `test(t)`: the test lands in B only, A gets no test, and each
      `module` call added exactly one child to the root. */
  method LatestModuleGetsTest(r: Registrar, a: string, b: string, t: string) returns (sa: SuiteNode, sb: SuiteNode, test: TestNode)
    requires r.Valid()
    modifies r, r.executor.root
    ensures r.Valid()
    ensures r.executor.root.tests == old(r.executor.root.tests) + [SuiteChild(sa), SuiteChild(sb)]
    ensures sa.name == a && sa.tests == []
    ensures sb.name == b && sb.tests == [TestChild(test)]
    ensures test.name == t && test.parent == sb
  {
    sa := r.Module(a, NoHooks);
    sb := r.Module(b, NoHooks);
    var ok, added := r.Test(t);
    test := added[0];
  }
}
