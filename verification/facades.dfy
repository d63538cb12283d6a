/**
 * The front doors callers use: `reflection_maker<ReturnType(Params...)>`
 * (reflex.hpp) and `make_reflection<ReturnType(Params...)>`
 * (cpp_reflection.hpp). They keep no state and add no check: each form
 * hands its names and parameters to the registry, and the name-only forms
 * use the empty owner name, under which `REGISTER_FUNCTIONS` registers free
 * functions. The template argument `ReturnType(Params...)` is the `sig`
 * parameter here.
 */
module Facades {
  import opened Types
  import opened OwnerTable
  import opened Dispatch
  import opened Reflex

  /** The owner name `REGISTER_FUNCTIONS` uses: the empty type name. */
  const GlobalOwner: string := ""

  /** `reflection_maker::invoke(class_name, function_name, params...)`. */
  method ReflectionMakerInvoke(registry: Registry, sig: Sig, className: string, functionName: string, params: seq<Value>)
    returns (r: Result<Value, Err>)
    ensures r == Reflect(registry.Records(), className, functionName, sig, params)
  {
    r := registry.Invoke(className, functionName, sig, params);
  }

  /**
   * `reflection_maker::invoke(obj, class_name, function_name, params...)`.
   * The raw-pointer, `shared_ptr` and `unique_ptr` overloads all pass the
   * same object on, so they are one method here.
   */
  method ReflectionMakerInvokeOn(registry: Registry, sig: Sig, obj: Instance, className: string, functionName: string,
                                 params: seq<Value>)
    returns (r: Result<Value, Err>)
    modifies obj
    ensures registry.Records() == old(registry.Records())
    ensures Outcome(r, obj.state) ==
      ReflectOnInstance(registry.Records(), old(obj.state), className, functionName, sig, params)
  {
    r := registry.InvokeOnInstance(obj, className, functionName, sig, params);
  }

  /** `reflection_maker::invoke(function_name, params...)`: a free function, under the empty owner name. */
  method ReflectionMakerInvokeFree(registry: Registry, sig: Sig, functionName: string, params: seq<Value>)
    returns (r: Result<Value, Err>)
    ensures r == Reflect(registry.Records(), "", functionName, sig, params)
  {
    r := registry.Invoke(GlobalOwner, functionName, sig, params);
  }

  /** `make_reflection::call(class_name, function_name, params...)`. */
  method MakeReflectionCall(registry: Registry, sig: Sig, className: string, functionName: string, params: seq<Value>)
    returns (r: Result<Value, Err>)
    ensures r == Reflect(registry.Records(), className, functionName, sig, params)
  {
    r := registry.Invoke(className, functionName, sig, params);
  }

  /** `make_reflection::call(function_name, params...)`: the same call with the empty owner name. */
  method MakeReflectionCallFree(registry: Registry, sig: Sig, functionName: string, params: seq<Value>)
    returns (r: Result<Value, Err>)
    ensures r == Reflect(registry.Records(), "", functionName, sig, params)
  {
    r := registry.Invoke(GlobalOwner, functionName, sig, params);
  }

  /**
   * `REGISTER_CLASS_FUNCTIONS(type, (f)(g)...)` after expansion: one owner
   * named after the class, appended to the registry, holding the pairs.
   */
  method RegisterClassFunctions(registry: Registry, typeName: string, blank: Obj, fcts: seq<Registration>)
    returns (owner: Owner)
    requires registry.Valid()
    modifies registry
    ensures owner.Valid() && registry.Valid() && owner.name == typeName
    ensures registry.owners == old(registry.owners) + [owner]
    ensures owner.functions == RegisterAll(map[], fcts, blank)
  {
    owner := new Owner(typeName, blank, registry, fcts);
  }

  /**
   * `REGISTER_FUNCTIONS((f)(g)...)` after expansion: an owner with the empty
   * name. The macro takes the address of each name at global scope, so
   * every pair is a free function; no default object is ever built, and
   * any object stands in for it.
   */
  method RegisterFunctions(registry: Registry, fcts: seq<Registration>)
    returns (owner: Owner)
    requires registry.Valid()
    requires forall r :: r in fcts ==> r.FreeFunction?
    modifies registry
    ensures owner.Valid() && registry.Valid() && owner.name == ""
    ensures registry.owners == old(registry.owners) + [owner]
    ensures owner.functions == RegisterAll(map[], fcts, Obj(map[]))
  {
    owner := new Owner(GlobalOwner, Obj(map[]), registry, fcts);
  }
}
