/** The parts of the host test runner the adapter touches, as records the adapter updates:
    suites and tests in a tree under one root suite, and the executor's list of `beforeRun`
    listeners with the handles that remove them (the behaviour tests/support/mocks.ts:23-41
    gives the host's `on` and `destroy`). */
module Host {
  import opened Common
  import Escaping

  class TestNode {
    const name: string
    const parent: SuiteNode

    constructor (name: string, parent: SuiteNode)
      ensures this.name == name && this.parent == parent
    {
      this.name, this.parent := name, parent;
    }
  }

  /** An entry of a suite's `tests` list. */
  datatype Child = SuiteChild(suite: SuiteNode) | TestChild(test: TestNode)

  class SuiteNode {
    const name: string
    const parent: SuiteNode?
    /** Whether the suite carries a `_qunitContext`, that is, was made by `module`. */
    const hasContext: bool
    var tests: seq<Child>
    /** The lifecycle methods a hook listener has been attached to, in order. */
    var listeners: seq<string>
    var grep: Option<Escaping.RegExp>

    constructor Root(name: string)
      ensures this.name == name && parent == null && !hasContext
      ensures tests == [] && listeners == [] && grep == None
    {
      this.name, parent, hasContext := name, null, false;
      tests, listeners, grep := [], [], None;
    }

    constructor Module(name: string, parent: SuiteNode)
      ensures this.name == name && this.parent == parent && hasContext
      ensures tests == [] && listeners == [] && grep == None
    {
      this.name, this.parent, hasContext := name, parent, true;
      tests, listeners, grep := [], [], None;
    }
  }

  /** `s` with every occurrence of `h` taken out, order kept. */
  function Without(s: seq<nat>, h: nat): (r: seq<nat>)
    ensures forall x :: x in r <==> x in s && x != h
    ensures |r| <= |s|
  {
    if s == [] then [] else (if s[0] == h then [] else [s[0]]) + Without(s[1..], h)
  }

  class Executor {
    const root: SuiteNode
    /** The handles of the listeners registered for `beforeRun`, in registration order. */
    var beforeRun: seq<nat>
    /** The number of handles issued so far; the next handle is this number. */
    var issued: nat

    ghost predicate Valid()
      reads this
    {
      forall h :: h in beforeRun ==> h < issued
    }

    constructor (root: SuiteNode)
      ensures Valid() && this.root == root && beforeRun == [] && issued == 0
    {
      this.root := root;
      beforeRun, issued := [], 0;
    }

    /** `executor.on('beforeRun', listener)`: registers the listener and returns its handle. */
    method OnBeforeRun() returns (h: nat)
      requires Valid()
      modifies this
      ensures Valid()
      ensures h == old(issued) && issued == old(issued) + 1
      ensures beforeRun == old(beforeRun) + [h]
    {
      h := issued;
      beforeRun := beforeRun + [h];
      issued := issued + 1;
    }

    /** `handle.destroy()`: removes that listener; destroying it again does nothing. */
    method Destroy(h: nat)
      requires Valid()
      modifies this
      ensures Valid()
      ensures beforeRun == Without(old(beforeRun), h) && issued == old(issued)
    {
      beforeRun := Without(beforeRun, h);
    }
  }
}
