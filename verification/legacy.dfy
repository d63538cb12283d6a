/**
 * The older `reflectable<Type>` (cpp_reflection/reflectable.hpp) and the
 * manager functions of reflection_manager.cpp as objects: the owner
 * registers itself when constructed, members are added to it afterwards
 * (by `REGISTER_MEMBER_FUNCTION`), and the manager keeps references to the
 * owners, so it sees the members added after registration.
 */
module Legacy {
  import opened Types
  import opened LegacySpec

  /** `reflectable<Type>` of the older generation. */
  class LegacyOwner {
    /** `m_name`, returned by `get_name()`. */
    const name: string
    /** The state of a default-constructed `Type`. */
    const blank: Obj
    /** `m_member_functions`. */
    var memberFunctions: LegacyTable

    /** The constructor: an empty table, and the owner appended to the registry. */
    constructor (name: string, blank: Obj, registry: LegacyRegistry)
      modifies registry
      ensures this.name == name && this.blank == blank && memberFunctions == map[]
      ensures registry.owners == old(registry.owners) + [this]
    {
      this.name := name;
      this.blank := blank;
      memberFunctions := map[];
      new;
      registry.Register(this);
    }

    /** `register_member_function(name, f)`: map assignment, overwriting an earlier entry of that name. */
    method RegisterMemberFunction(functionName: string, f: MemberProc)
      modifies this
      ensures memberFunctions == old(memberFunctions)[functionName := f]
    {
      memberFunctions := memberFunctions[functionName := f];
    }

    /** `is_registered(function_name)`. */
    predicate IsRegistered(functionName: string)
      reads this
    {
      functionName in memberFunctions
    }
  }

  /** `reflection_manager` as reflection_manager.cpp defines it. */
  class LegacyRegistry {
    /** `m_types`. */
    var owners: seq<LegacyOwner>

    constructor ()
      ensures owners == []
    {
      owners := [];
    }

    /** What the manager reads: each owner's name, default object and current table. */
    ghost function Records(): (rs: seq<LegacyRecord>)
      reads this, owners
      ensures |rs| == |owners|
      ensures forall i :: 0 <= i < |owners| ==>
        rs[i] == LegacyRecord(owners[i].name, owners[i].blank, owners[i].memberFunctions)
    {
      seq(|owners|, i reads this, owners requires 0 <= i < |owners| =>
        LegacyRecord(owners[i].name, owners[i].blank, owners[i].memberFunctions))
    }

    /** `register_reflectable` / `_register_reflectable`: `push_back`, never failing. */
    method Register(o: LegacyOwner)
      modifies this
      ensures owners == old(owners) + [o]
    {
      owners := owners + [o];
    }

    /**
     * `make_reflection` / `_make_reflection(class_name, function_name)`: the
     * `find_if` scan, then the owner's `call`. It changes no owner and no
     * table.
     */
    method MakeReflection(className: string, functionName: string) returns (r: Result<Obj, Err>)
      ensures r == LegacySpec.MakeReflection(Records(), className, functionName)
    {
      var i := 0;
      while i < |owners| && owners[i].name != className
        invariant i <= |owners|
        invariant forall j :: 0 <= j < i ==> owners[j].name != className
      {
        i := i + 1;
      }
      if i == |owners| {
        return Failure(ClassNotRegistered(className));
      }
      var owner := owners[i];
      if !owner.IsRegistered(functionName) {
        return Failure(FunctionNotRegistered(owner.name, functionName));
      }
      r := Success(owner.memberFunctions[functionName](owner.blank));
    }
  }
}
