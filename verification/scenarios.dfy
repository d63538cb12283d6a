/**
 * Clients of the model that replay the library's own usage: a free
 * function called by name, a member function called without an instance,
 * member functions that update a caller's object, and the failures a wrong
 * signature or an unknown class gives. Each result follows from the
 * contracts of the registry and the facades alone.
 */
module Scenarios {
  import opened Types
  import opened OwnerTable
  import opened Dispatch
  import opened Reflex
  import opened Facades

  /** `add`: the sum of its two integer parameters. */
  function Add(params: seq<Value>): Value {
    if |params| == 2 && params[0].IntValue? && params[1].IntValue? then IntValue(params[0].i + params[1].i)
    else VoidValue
  }

  /** `get_nb`: reads the data member `nb` and leaves the object as it is. */
  function GetNb(obj: Obj, params: seq<Value>): Step {
    Step(if "nb" in obj.fields then obj.fields["nb"] else VoidValue, obj)
  }

  /** `set_nb`: stores its one parameter in the data member `nb`. */
  function SetNb(obj: Obj, params: seq<Value>): Step {
    if |params| == 1 then Step(VoidValue, Obj(obj.fields["nb" := params[0]])) else Step(VoidValue, obj)
  }

  const IntIntToInt: Sig := Sig(Int, [Int, Int])
  const UnsignedGetter: Sig := Sig(UnsignedInt, [])
  const UnsignedSetter: Sig := Sig(Void, [UnsignedInt])

  /** A class whose default constructor sets `nb` to 42. */
  const SomeClassBlank: Obj := Obj(map["nb" := UnsignedValue(42)])

  /** `add` registered as a free function and called by name alone with 20 and 22. */
  method FreeFunctionByName() returns (r: Result<Value, Err>)
    ensures r == Success(IntValue(42))
  {
    var registry := new Registry();
    var fcts := [FreeFunction("add", IntIntToInt, Add)];
    var owner := RegisterFunctions(registry, fcts);
    assert owner.functions == Register(map[], fcts[0], Obj(map[]));
    assert registry.Records() == [OwnerRecord("", owner.functions)];
    assert FindOwner(registry.Records(), "") == Some(0);
    DispatchRegistered(registry.Records(), 0, fcts[0], Obj(map[]), IntIntToInt, [IntValue(20), IntValue(22)]);
    r := ReflectionMakerInvokeFree(registry, IntIntToInt, "add", [IntValue(20), IntValue(22)]);
  }

  /** The pairs `REGISTER_CLASS_FUNCTIONS(some_class, (get_nb)(set_nb))` gives. */
  const GetNbPair: Registration := MemberFunction("get_nb", UnsignedGetter, GetNb)
  const SetNbPair: Registration := MemberFunction("set_nb", UnsignedSetter, SetNb)

  /** The table of `some_class`: exactly `get_nb` and `set_nb`, each with the pair registered for it. */
  lemma GetterSetterTable(t: Table)
    requires t == RegisterAll(map[], [GetNbPair, SetNbPair], SomeClassBlank)
    ensures t.Keys == {"get_nb", "set_nb"}
    ensures t["get_nb"] == SlotsFor(GetNbPair, SomeClassBlank)
    ensures t["set_nb"] == SlotsFor(SetNbPair, SomeClassBlank)
  {
    var fcts := [GetNbPair, SetNbPair];
    RegisterAllLastWins(map[], fcts, SomeClassBlank, "get_nb");
    RegisterAllLastWins(map[], fcts, SomeClassBlank, "set_nb");
    assert LastRegistration(fcts, "get_nb") == Some(0);
    assert LastRegistration(fcts, "set_nb") == Some(1);
    assert NamesOf(fcts) == {"get_nb", "set_nb"} by {
      assert fcts[0].name == "get_nb" && fcts[1].name == "set_nb";
    }
  }

  /** A new registry holding one owner, `some_class`, with `get_nb` and `set_nb`. */
  method RegisterGetterSetter() returns (registry: Registry)
    ensures fresh(registry) && registry.Valid()
    ensures |registry.Records()| == 1 && registry.Records()[0].name == "some_class"
    ensures registry.Records()[0].table.Keys == {"get_nb", "set_nb"}
    ensures registry.Records()[0].table[GetNbPair.name] == SlotsFor(GetNbPair, SomeClassBlank)
    ensures registry.Records()[0].table[SetNbPair.name] == SlotsFor(SetNbPair, SomeClassBlank)
  {
    registry := new Registry();
    var owner := RegisterClassFunctions(registry, "some_class", SomeClassBlank, [GetNbPair, SetNbPair]);
    GetterSetterTable(owner.functions);
  }

  /**
   * `set_nb` and `get_nb` registered on a class, called on one object of
   * the caller: the value `set_nb` stores is the value `get_nb` reads
   * next, while a call without an instance still sees a new object.
   */
  method UpdateObject() returns (before: Result<Value, Err>, after: Result<Value, Err>, unbound: Result<Value, Err>)
    ensures before == Success(UnsignedValue(42))
    ensures after == Success(UnsignedValue(84))
    ensures unbound == Success(UnsignedValue(42))
  {
    var registry := RegisterGetterSetter();
    ghost var records := registry.Records();
    assert FindOwner(records, "some_class") == Some(0);
    var obj := new Instance(SomeClassBlank);
    DispatchRegisteredOnInstance(records, 0, GetNbPair, SomeClassBlank, obj.state, UnsignedGetter, []);
    before := ReflectionMakerInvokeOn(registry, UnsignedGetter, obj, "some_class", "get_nb", []);
    DispatchRegisteredOnInstance(records, 0, SetNbPair, SomeClassBlank, obj.state, UnsignedSetter, [UnsignedValue(84)]);
    var ignored := ReflectionMakerInvokeOn(registry, UnsignedSetter, obj, "some_class", "set_nb", [UnsignedValue(84)]);
    assert obj.state == Obj(map["nb" := UnsignedValue(84)]);
    DispatchRegisteredOnInstance(records, 0, GetNbPair, SomeClassBlank, obj.state, UnsignedGetter, []);
    after := ReflectionMakerInvokeOn(registry, UnsignedGetter, obj, "some_class", "get_nb", []);
    DispatchRegistered(records, 0, GetNbPair, SomeClassBlank, UnsignedGetter, []);
    unbound := ReflectionMakerInvoke(registry, UnsignedGetter, "some_class", "get_nb", []);
  }

  /**
   * A registered function asked for with another signature, a function the
   * class does not have, and a class nobody registered: each call fails
   * with its own error.
   */
  method Failures() returns (wrongSig: Result<Value, Err>, noFunction: Result<Value, Err>, noClass: Result<Value, Err>)
    ensures wrongSig == Failure(InvalidSignature("some_class", "get_nb"))
    ensures noFunction == Failure(FunctionNotRegistered("some_class", "unregistered"))
    ensures noClass == Failure(ClassNotRegistered("unregistered_class"))
  {
    var registry := RegisterGetterSetter();
    assert FindOwner(registry.Records(), "some_class") == Some(0);
    DispatchRegistered(registry.Records(), 0, GetNbPair, SomeClassBlank, Sig(Void, []), []);
    wrongSig := ReflectionMakerInvoke(registry, Sig(Void, []), "some_class", "get_nb", []);
    noFunction := ReflectionMakerInvoke(registry, Sig(Void, []), "some_class", "unregistered", []);
    noClass := ReflectionMakerInvoke(registry, Sig(Void, []), "unregistered_class", "unregistered", []);
  }

  /**
   * The same three failures on an object of the class: each call fails with
   * its own error, and the object keeps the state it had.
   */
  method FailuresOnInstance()
    returns (wrongSig: Result<Value, Err>, noFunction: Result<Value, Err>, noClass: Result<Value, Err>, state: Obj)
    ensures wrongSig == Failure(InvalidSignature("some_class", "get_nb"))
    ensures noFunction == Failure(FunctionNotRegistered("some_class", "unregistered"))
    ensures noClass == Failure(ClassNotRegistered("unregistered_class"))
    ensures state == SomeClassBlank
  {
    var registry := RegisterGetterSetter();
    ghost var records := registry.Records();
    assert FindOwner(records, "some_class") == Some(0);
    var obj := new Instance(SomeClassBlank);
    DispatchRegisteredOnInstance(records, 0, GetNbPair, SomeClassBlank, obj.state, Sig(Void, []), []);
    wrongSig := ReflectionMakerInvokeOn(registry, Sig(Void, []), obj, "some_class", "get_nb", []);
    noFunction := ReflectionMakerInvokeOn(registry, Sig(Void, []), obj, "some_class", "unregistered", []);
    noClass := ReflectionMakerInvokeOn(registry, Sig(Void, []), obj, "unregistered_class", "unregistered", []);
    state := obj.state;
  }
}
