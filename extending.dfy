/** `extend(target, mixin, skipExistingTargetProperties)` (src/getInterface.ts:27-40): a shallow
    merge done in place on the target object, which is then returned. */
module Extending {

  /** The value of a property: JavaScript's `undefined`, or a defined value. */
  datatype Slot<V> = Undefined | Defined(value: V)

  /** One own enumerable property of the mixin. */
  datatype Property<V> = Property(key: string, value: Slot<V>)

  /** A plain JavaScript object: its own properties. A key may be present and hold
      `undefined`, which is not the same as being absent. */
  class PlainObject<V> {
    var props: map<string, Slot<V>>

    constructor (props: map<string, Slot<V>>)
      ensures this.props == props
    {
      this.props := props;
    }
  }

  /** `obj[key]`: `undefined` for a key that is absent. */
  function Read<V>(props: map<string, Slot<V>>, key: string): Slot<V> {
    if key in props then props[key] else Undefined
  }

  /** The keys of the mixin's properties, in enumeration order. */
  function Keys<V>(mixin: seq<Property<V>>): (ks: seq<string>)
    ensures |ks| == |mixin|
    ensures forall i :: 0 <= i < |mixin| ==> ks[i] == mixin[i].key
  {
    if mixin == [] then [] else [mixin[0].key] + Keys(mixin[1..])
  }

  /** An object's own keys are distinct. */
  ghost predicate DistinctKeys<V>(mixin: seq<Property<V>>) {
    forall i, j :: 0 <= i < j < |mixin| ==> mixin[i].key != mixin[j].key
  }

  /** One iteration of the loop: delete on `undefined`, otherwise assign unless skipping a
      key the target already defines. */
  function Step<V>(props: map<string, Slot<V>>, p: Property<V>, skipExisting: bool): map<string, Slot<V>> {
    if p.value.Undefined? then props - {p.key}
    else if !skipExisting || Read(props, p.key).Undefined? then props[p.key := p.value]
    else props
  }

  /** The target's properties after the whole loop, property by property in order. */
  function Extended<V>(props: map<string, Slot<V>>, mixin: seq<Property<V>>, skipExisting: bool): map<string, Slot<V>>
    decreases |mixin|
  {
    if mixin == [] then props else Extended(Step(props, mixin[0], skipExisting), mixin[1..], skipExisting)
  }

  method Extend<V>(target: PlainObject<V>, mixin: seq<Property<V>>, skipExisting: bool) returns (result: PlainObject<V>)
    modifies target
    ensures result == target
    ensures target.props == Extended(old(target.props), mixin, skipExisting)
  {
    result := target;
    var i := 0;
    while i < |mixin|
      invariant 0 <= i <= |mixin|
      invariant Extended(result.props, mixin[i..], skipExisting) == Extended(old(target.props), mixin, skipExisting)
    {
      var p := mixin[i];
      assert mixin[i..][1..] == mixin[i + 1..];
      if p.value.Undefined? {
        result.props := result.props - {p.key};
      } else if !skipExisting || Read(result.props, p.key).Undefined? {
        result.props := result.props[p.key := p.value];
      }
      i := i + 1;
    }
  }

  /** What `extend` leaves at one key, for an object whose keys are distinct:
      - a mixin key holding `undefined` is deleted from the target;
      - a defined mixin value overwrites, unless `skipExisting` is set and the target
        already defines the key, in which case the target keeps its value;
      - a key the mixin does not have keeps whatever the target had (or stays absent). */
  lemma {:induction false} ExtendedAt<V>(props: map<string, Slot<V>>, mixin: seq<Property<V>>, skipExisting: bool, i: nat, key: string)
    requires DistinctKeys(mixin)
    requires i < |mixin| && key == mixin[i].key
    ensures mixin[i].value.Undefined? ==> key !in Extended(props, mixin, skipExisting)
    ensures mixin[i].value.Defined? && (!skipExisting || Read(props, key).Undefined?) ==>
      key in Extended(props, mixin, skipExisting) && Extended(props, mixin, skipExisting)[key] == mixin[i].value
    ensures mixin[i].value.Defined? && skipExisting && Read(props, key).Defined? ==>
      key in Extended(props, mixin, skipExisting) && Extended(props, mixin, skipExisting)[key] == props[key]
    decreases |mixin|
  {
    var next := Step(props, mixin[0], skipExisting);
    if i == 0 {
      assert key !in Keys(mixin[1..]);
      ExtendedAbsent(next, mixin[1..], skipExisting, key);
    } else {
      assert Read(next, key) == Read(props, key);
      ExtendedAt(next, mixin[1..], skipExisting, i - 1, key);
    }
  }

  /** Keys the mixin does not mention are left exactly as they were. */
  lemma {:induction false} ExtendedAbsent<V>(props: map<string, Slot<V>>, mixin: seq<Property<V>>, skipExisting: bool, key: string)
    requires key !in Keys(mixin)
    ensures key in Extended(props, mixin, skipExisting) <==> key in props
    ensures key in props ==> Extended(props, mixin, skipExisting)[key] == props[key]
    decreases |mixin|
  {
    if mixin != [] {
      assert key != mixin[0].key;
      ExtendedAbsent(Step(props, mixin[0], skipExisting), mixin[1..], skipExisting, key);
    }
  }

  /** The sample values of the unit test: the number `n`, or the object `{ c: n }`. */
  datatype Sample = Num(n: int) | WithC(c: int)

  /** The three calls of the unit test on one object: add a property, delete it with an
      `undefined` mixin value, then merge with `skipExisting` set. */
  method ExtendSequence() returns (first: map<string, Slot<Sample>>, second: map<string, Slot<Sample>>, third: map<string, Slot<Sample>>)
    ensures first == map["a" := Defined(Num(1)), "b" := Defined(WithC(1))]
    ensures second == map["a" := Defined(Num(1))]
    ensures third == map["a" := Defined(Num(1)), "b" := Defined(Num(2))]
  {
    var target := new PlainObject(map["a" := Defined(Num(1))]);
    var r := Extend(target, [Property("b", Defined(WithC(1)))], false);
    first := target.props;
    r := Extend(target, [Property("b", Undefined)], false);
    second := target.props;
    r := Extend(target, [Property("a", Defined(Num(2))), Property("b", Defined(Num(2)))], true);
    third := target.props;
  }
}
