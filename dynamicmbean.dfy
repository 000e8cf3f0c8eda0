/**
 * org.kasource.commons.jmx.dynamic.DynamicMBeanImpl: a DynamicMBean that
 * routes attribute reads, attribute writes and operation calls by name to
 * the getter, setter and operation methods of a target object. Every
 * failure is swallowed: a read gives null, a write gives false, and the
 * batch calls leave the failed names out.
 */
module DynamicMBeans {
  import opened Java
  import opened Reflect

  /** How a reflective call on the target ends: a value, or an exception. */
  datatype Outcome<V> = Returned(value: V) | Failed

  /** Reflective invocation of a method on the target object with the given arguments (`method.invoke(target, args)`). */
  type Invoker<!V> = (Method, seq<V>) -> Outcome<V>

  /** `javax.management.Attribute`: a name and a value. */
  datatype Attribute<V> = Attribute(name: string, value: V)

  /**
   * `getAttributeValue(name)`: the getter's result; IllegalArgumentException
   * for a name without a getter, IllegalStateException when the getter
   * fails, NullPointerException while no getter map is set.
   */
  function AttributeValue<V>(getters: Option<map<string, Method>>, invoke: Invoker<V>, name: string): (r: Result<V>)
    ensures r.Ok? <==> getters.Some? && name in getters.value && invoke(getters.value[name], []).Returned?
    ensures r.Ok? ==> r.value == invoke(getters.value[name], []).value
    ensures r == Throws(IllegalArgument) <==> getters.Some? && name !in getters.value
    ensures r == Throws(IllegalState) <==> getters.Some? && name in getters.value && invoke(getters.value[name], []).Failed?
    ensures r == Throws(NullPointer) <==> getters.None?
  {
    if getters.None? then Throws(NullPointer)
    else if name !in getters.value then Throws(IllegalArgument)
    else match invoke(getters.value[name], [])
      case Returned(v) => Ok(v)
      case Failed => Throws(IllegalState)
  }

  /** `getAttributes(names)`: an attribute for each readable name, in request order. */
  function AttributesRead<V>(getters: Option<map<string, Method>>, invoke: Invoker<V>, names: seq<string>): (r: seq<Attribute<V>>)
    ensures |r| <= |names|
    decreases |names|
  {
    if |names| == 0 then []
    else
      var head := AttributeValue(getters, invoke, names[|names| - 1]);
      AttributesRead(getters, invoke, names[..|names| - 1]) +
        (if head.Ok? then [Attribute(names[|names| - 1], head.value)] else [])
  }

  /** Reading a list of names is reading its parts one after the other: the order of the request is kept. */
  lemma {:induction false} AttributesReadAppend<V>(getters: Option<map<string, Method>>, invoke: Invoker<V>, a: seq<string>, b: seq<string>)
    ensures AttributesRead(getters, invoke, a + b) == AttributesRead(getters, invoke, a) + AttributesRead(getters, invoke, b)
    decreases |b|
  {
    if |b| == 0 {
      assert a + b == a;
    } else {
      assert (a + b)[..|a + b| - 1] == a + b[..|b| - 1];
      AttributesReadAppend(getters, invoke, a, b[..|b| - 1]);
    }
  }

  /** One name gives one attribute carrying the getter's value when the read succeeds, and nothing otherwise. */
  lemma AttributesReadOne<V>(getters: Option<map<string, Method>>, invoke: Invoker<V>, name: string)
    ensures AttributeValue(getters, invoke, name).Ok? ==>
      AttributesRead(getters, invoke, [name]) == [Attribute(name, AttributeValue(getters, invoke, name).value)]
    ensures AttributeValue(getters, invoke, name).Throws? ==> AttributesRead(getters, invoke, [name]) == []
  {
    assert [name][..0] == [];
  }

  /** Every returned attribute names a readable requested name and carries its value. */
  lemma {:induction false} AttributesReadSound<V>(getters: Option<map<string, Method>>, invoke: Invoker<V>, names: seq<string>, k: nat)
    requires k < |AttributesRead(getters, invoke, names)|
    ensures AttributesRead(getters, invoke, names)[k].name in names
    ensures AttributeValue(getters, invoke, AttributesRead(getters, invoke, names)[k].name) ==
      Ok(AttributesRead(getters, invoke, names)[k].value)
    decreases |names|
  {
    var init := names[..|names| - 1];
    if k < |AttributesRead(getters, invoke, init)| {
      AttributesReadSound(getters, invoke, init, k);
    }
  }

  /** `setAttributeValue(attribute)`: true iff a setter exists and its call succeeds; NullPointerException while no setter map is set. */
  function AttributeWrite<V>(setters: Option<map<string, Method>>, invoke: Invoker<V>, a: Attribute<V>): (r: Result<bool>)
    ensures r.Throws? <==> setters.None?
    ensures r.Throws? ==> r.exception == NullPointer
    ensures r == Ok(true) <==> setters.Some? && a.name in setters.value && invoke(setters.value[a.name], [a.value]).Returned?
  {
    if setters.None? then Throws(NullPointer)
    else Ok(a.name in setters.value && invoke(setters.value[a.name], [a.value]).Returned?)
  }

  /** The attributes whose write succeeds, in their original order. */
  function AttributesWritten<V>(setters: map<string, Method>, invoke: Invoker<V>, attributes: seq<Attribute<V>>): (r: seq<Attribute<V>>)
    ensures |r| <= |attributes|
    ensures forall k :: 0 <= k < |r| ==> r[k] in attributes && AttributeWrite(Some(setters), invoke, r[k]) == Ok(true)
    decreases |attributes|
  {
    if |attributes| == 0 then []
    else
      var last := attributes[|attributes| - 1];
      AttributesWritten(setters, invoke, attributes[..|attributes| - 1]) +
        (if AttributeWrite(Some(setters), invoke, last) == Ok(true) then [last] else [])
  }

  /** Every attribute whose write succeeds is in the returned list. */
  lemma {:induction false} AttributesWrittenComplete<V>(setters: map<string, Method>, invoke: Invoker<V>, attributes: seq<Attribute<V>>, i: nat)
    requires i < |attributes| && AttributeWrite(Some(setters), invoke, attributes[i]) == Ok(true)
    ensures attributes[i] in AttributesWritten(setters, invoke, attributes)
    decreases |attributes|
  {
    if i < |attributes| - 1 {
      AttributesWrittenComplete(setters, invoke, attributes[..|attributes| - 1], i);
    }
  }

  /** `invoke(operation, parameters)`: the operation's result, or null when it is unknown or fails; NullPointerException while no operation map is set. */
  function Invocation<V>(operations: Option<map<string, Method>>, invoke: Invoker<V>, operation: string, parameters: seq<V>): (r: Result<Option<V>>)
    ensures r.Throws? <==> operations.None?
    ensures r.Throws? ==> r.exception == NullPointer
    ensures r.Ok? && r.value.Some? <==>
      operations.Some? && operation in operations.value && invoke(operations.value[operation], parameters).Returned?
    ensures r.Ok? && r.value.Some? ==> r.value.value == invoke(operations.value[operation], parameters).value
  {
    if operations.None? then Throws(NullPointer)
    else if operation !in operations.value then Ok(None)
    else match invoke(operations.value[operation], parameters)
      case Returned(v) => Ok(Some(v))
      case Failed => Ok(None)
  }

  /**
   * The MBean object. `invoke` stands for reflective calls on the target
   * object; `I` is the MBeanInfo type. Unset fields are `None`.
   */
  class DynamicMBeanImpl<V, I> {
    const invoke: Invoker<V>
    var mBeanInfo: Option<I>
    var setters: Option<map<string, Method>>
    var getters: Option<map<string, Method>>
    var operations: Option<map<string, Method>>

    /** `new DynamicMBeanImpl(target)` */
    constructor (invoke: Invoker<V>)
      ensures this.invoke == invoke
      ensures mBeanInfo == None && setters == None && getters == None && operations == None
    {
      this.invoke := invoke;
      mBeanInfo := None;
      setters := None;
      getters := None;
      operations := None;
    }

    /** `getAttribute(name)`: the getter's result, or null for any failure. */
    method GetAttribute(attributeName: string) returns (r: Option<V>)
      ensures r.Some? <==> AttributeValue(getters, invoke, attributeName).Ok?
      ensures r.Some? ==> r.value == AttributeValue(getters, invoke, attributeName).value
    {
      var value := GetAttributeValue(attributeName);
      r := if value.Ok? then Some(value.value) else None;
    }

    /** `setAttribute(attribute)`: the write, with its boolean dropped; only the missing setter map escapes. */
    method SetAttribute(attribute: Attribute<V>) returns (thrown: Option<Exception>)
      ensures thrown.Some? <==> setters.None?
      ensures thrown.Some? ==> thrown.value == NullPointer
    {
      var written := SetAttributeValue(attribute);
      thrown := if written.Throws? then Some(written.exception) else None;
    }

    /** `getAttributes(names)`: one attribute per readable name, in request order; failures are left out. */
    method GetAttributes(attributeNames: seq<string>) returns (list: seq<Attribute<V>>)
      ensures list == AttributesRead(getters, invoke, attributeNames)
    {
      list := [];
      for i := 0 to |attributeNames|
        invariant list == AttributesRead(getters, invoke, attributeNames[..i])
      {
        assert attributeNames[..i + 1][..i] == attributeNames[..i];
        var value := GetAttributeValue(attributeNames[i]);
        if value.Ok? {
          list := list + [Attribute(attributeNames[i], value.value)];
        }
      }
      assert attributeNames[..|attributeNames|] == attributeNames;
    }

    /** `setAttributes(list)`: the sublist of attributes written successfully, in order. */
    method SetAttributes(attributeList: seq<Attribute<V>>) returns (r: Result<seq<Attribute<V>>>)
      ensures setters.None? && |attributeList| > 0 <==> r.Throws?
      ensures r.Throws? ==> r.exception == NullPointer
      ensures r.Ok? && setters.Some? ==> r.value == AttributesWritten(setters.value, invoke, attributeList)
      ensures r.Ok? && setters.None? ==> r.value == []
    {
      var list := [];
      for i := 0 to |attributeList|
        invariant setters.None? ==> i == 0 && list == []
        invariant setters.Some? ==> list == AttributesWritten(setters.value, invoke, attributeList[..i])
      {
        var written := SetAttributeValue(attributeList[i]);
        if written.Throws? {
          return Throws(written.exception);
        }
        assert attributeList[..i + 1][..i] == attributeList[..i];
        if written.value {
          list := list + [attributeList[i]];
        }
      }
      assert attributeList[..|attributeList|] == attributeList;
      r := Ok(list);
    }

    /** `invoke(operation, parameters, signature)`; the signature is not consulted. */
    method Invoke(operation: string, parameters: seq<V>, signature: seq<string>) returns (r: Result<Option<V>>)
      ensures r == Invocation(operations, invoke, operation, parameters)
    {
      if operations.None? {
        return Throws(NullPointer);
      }
      if operation in operations.value {
        var outcome := invoke(operations.value[operation], parameters);
        if outcome.Returned? {
          return Ok(Some(outcome.value));
        }
      }
      r := Ok(None);
    }

    method GetMBeanInfo() returns (info: Option<I>)
      ensures info == mBeanInfo
    {
      info := mBeanInfo;
    }

    /** `getAttributeValue(name)` */
    method GetAttributeValue(attributeName: string) returns (r: Result<V>)
      ensures r == AttributeValue(getters, invoke, attributeName)
    {
      if getters.None? {
        return Throws(NullPointer);
      }
      if attributeName in getters.value {
        var outcome := invoke(getters.value[attributeName], []);
        if outcome.Returned? {
          return Ok(outcome.value);
        }
        return Throws(IllegalState);
      }
      r := Throws(IllegalArgument);
    }

    /** `setAttributeValue(attribute)` */
    method SetAttributeValue(attribute: Attribute<V>) returns (r: Result<bool>)
      ensures r == AttributeWrite(setters, invoke, attribute)
    {
      if setters.None? {
        return Throws(NullPointer);
      }
      if attribute.name in setters.value {
        var outcome := invoke(setters.value[attribute.name], [attribute.value]);
        if outcome.Returned? {
          return Ok(true);
        }
      }
      r := Ok(false);
    }

    method SetMBeanInfo(info: Option<I>)
      modifies this
      ensures mBeanInfo == info
      ensures setters == old(setters) && getters == old(getters) && operations == old(operations)
    {
      mBeanInfo := info;
    }

    method SetSetters(m: Option<map<string, Method>>)
      modifies this
      ensures setters == m
      ensures mBeanInfo == old(mBeanInfo) && getters == old(getters) && operations == old(operations)
    {
      setters := m;
    }

    method SetGetters(m: Option<map<string, Method>>)
      modifies this
      ensures getters == m
      ensures mBeanInfo == old(mBeanInfo) && setters == old(setters) && operations == old(operations)
    {
      getters := m;
    }

    method SetOperations(m: Option<map<string, Method>>)
      modifies this
      ensures operations == m
      ensures mBeanInfo == old(mBeanInfo) && setters == old(setters) && getters == old(getters)
    {
      operations := m;
    }
  }
}
