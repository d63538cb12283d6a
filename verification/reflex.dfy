/**
 * The owner record `reflectable<Type>` (reflectable/reflectable.hpp) and the
 * registry `reflection_manager` (reflection_manager.hpp and
 * reflection_manager.cpp) as objects. They share one module because each
 * refers to the other: an owner registers itself into the registry when it
 * is constructed, and the registry keeps references to owners, so an owner
 * whose table changes later is seen changed by every lookup.
 */
module Reflex {
  import opened Types
  import opened Holders
  import opened OwnerTable
  import opened Dispatch

  /** `reflectable<Type>`: a name, the object `Type()` builds, and the function table. */
  class Owner {
    /** `m_name`, returned by `get_name()`. */
    const name: string
    /** The state of a default-constructed `Type`, used by every call without an instance. */
    const blank: Obj
    /** `m_member_functions`. */
    var functions: Table

    /** Every entry has the shape registration gives it. */
    ghost predicate Valid()
      reads this
    {
      WellFormed(functions)
    }

    /**
     * The constructor: the owner is appended to the registry first, then
     * the pairs are registered left to right.
     */
    constructor (name: string, blank: Obj, registry: Registry, fcts: seq<Registration>)
      requires registry.Valid()
      modifies registry
      ensures Valid() && registry.Valid()
      ensures this.name == name && this.blank == blank
      ensures registry.owners == old(registry.owners) + [this]
      ensures functions == RegisterAll(map[], fcts, blank)
    {
      this.name := name;
      this.blank := blank;
      functions := map[];
      new;
      registry.Register(this);
      RegisterFunctions(fcts);
    }

    /** The variadic `register_function(fct, fcts...)`: the first pair, then the rest. */
    method RegisterFunctions(fcts: seq<Registration>)
      requires Valid()
      modifies this
      ensures Valid()
      ensures functions == RegisterAll(old(functions), fcts, blank)
      decreases |fcts|
    {
      if |fcts| > 0 {
        RegisterFunction(fcts[0]);
        RegisterFunctions(fcts[1..]);
      }
    }

    /**
     * `register_function(fct)` for one member or free function: the entry
     * for its name is replaced and every other entry is kept.
     */
    method RegisterFunction(fct: Registration)
      requires Valid()
      modifies this
      ensures Valid()
      ensures functions == Register(old(functions), fct, blank)
    {
      functions := functions[fct.name := SlotsFor(fct, blank)];
    }
  }

  /** An object of a registered class that the caller owns and passes by pointer. */
  class Instance {
    var state: Obj

    constructor (state: Obj)
      ensures this.state == state
    {
      this.state := state;
    }
  }

  /** `reflection_manager`: the registered owners in registration order. */
  class Registry {
    /** `m_types`. */
    var owners: seq<Owner>

    constructor ()
      ensures owners == [] && Valid()
    {
      owners := [];
    }

    /** Every registered owner's table has the shape registration gives it. */
    ghost predicate Valid()
      reads this, owners
    {
      forall i :: 0 <= i < |owners| ==> owners[i].Valid()
    }

    /** What the manager reads: each owner's name and current table. */
    ghost function Records(): (rs: seq<OwnerRecord>)
      reads this, owners
      ensures |rs| == |owners|
      ensures forall i :: 0 <= i < |owners| ==> rs[i] == OwnerRecord(owners[i].name, owners[i].functions)
    {
      seq(|owners|, i reads this, owners requires 0 <= i < |owners| => OwnerRecord(owners[i].name, owners[i].functions))
    }

    /**
     * `register_reflectable`: `push_back`, so registration never fails,
     * does not look for a duplicate name, and keeps the earlier owners in
     * their order.
     */
    method Register(o: Owner)
      requires Valid() && o.Valid()
      modifies this
      ensures owners == old(owners) + [o]
      ensures Valid()
    {
      owners := owners + [o];
    }

    /**
     * In a valid registry every table the manager reads is well formed, so
     * `Dispatch.ReflectCases` applies to `Records()`.
     */
    lemma ValidTables()
      requires Valid()
      ensures forall i :: 0 <= i < |Records()| ==> WellFormed(Records()[i].table)
    {
    }

    /** The `find_if` scan: the position of the first owner named `className`, or `|owners|`. */
    method Find(className: string) returns (i: nat)
      ensures i <= |owners|
      ensures i < |owners| ==> FindOwner(Records(), className) == Some(i)
      ensures i == |owners| ==> FindOwner(Records(), className) == None
    {
      i := 0;
      while i < |owners| && owners[i].name != className
        invariant i <= |owners|
        invariant forall j :: 0 <= j < i ==> owners[j].name != className
      {
        i := i + 1;
      }
    }

    /**
     * `_make_reflection<ReturnType, Params...>(class_name, function_name,
     * params...)`: the call without an instance. It reads the owners and
     * changes nothing.
     */
    method Invoke(className: string, functionName: string, sig: Sig, params: seq<Value>)
      returns (r: Result<Value, Err>)
      ensures r == Reflect(Records(), className, functionName, sig, params)
    {
      var i := Find(className);
      if i == |owners| {
        return Failure(ClassNotRegistered(className));
      }
      var owner := owners[i];
      var holder :- GetFunction(owner.name, owner.functions, functionName);
      var fct := AsCallable(holder, sig);
      if fct.None? {
        return Failure(InvalidSignature(className, functionName));
      }
      r := Success(fct.value.Call(params));
    }

    /**
     * The call on a caller-supplied instance: the same owner lookup, the
     * given-instance slot, and the cast to the given-instance holder. The
     * registry is left as it was; only the instance may change.
     */
    method InvokeOnInstance(obj: Instance, className: string, functionName: string, sig: Sig, params: seq<Value>)
      returns (r: Result<Value, Err>)
      modifies obj
      ensures Records() == old(Records())
      ensures Outcome(r, obj.state) == ReflectOnInstance(Records(), old(obj.state), className, functionName, sig, params)
    {
      var i := Find(className);
      if i == |owners| {
        return Failure(ClassNotRegistered(className));
      }
      var owner := owners[i];
      var slot :- GetFunctionOnGivenInstance(owner.name, owner.functions, functionName);
      var holder := AsGivenInstance(slot, sig);
      if holder.None? {
        return Failure(InvalidSignature(className, functionName));
      }
      var step := holder.value.CallOn(obj.state, params);
      obj.state := step.after;
      r := Success(step.ret);
    }
  }
}
