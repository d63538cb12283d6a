/**
 * The older generation of the core: `reflectable<Type>` of
 * cpp_reflection/reflectable.hpp, whose table holds `void (Type::*)()`
 * members only, and the non-template `_make_reflection` of
 * reflection_manager.cpp, which hands the call to the owner's `call`.
 * These functions say what a call computes from the registered owners; the
 * classes in module Legacy are proved equal to them.
 */
module LegacySpec {
  import opened Types

  /** `void (Type::*)()`: what the member does to the object it runs on. */
  type MemberProc = Obj -> Obj

  /** `m_member_functions`: name to member. */
  type LegacyTable = map<string, MemberProc>

  /** One registered owner as the manager sees it: its name, the object `Type()` builds, and its table. */
  datatype LegacyRecord = LegacyRecord(name: string, blank: Obj, table: LegacyTable)

  /** The name the manager compares: `get_name()`. */
  function LegacyName(r: LegacyRecord): string {
    r.name
  }

  /**
   * `call(function_name)`: "Function <owner>::<function> is not registered."
   * for an absent name; otherwise the member runs on a new default object.
   * C++ destroys that temporary at the end of the statement, so a successful
   * `call` returns nothing observable. The model returns the state the
   * object reaches only to state that the stored member ran on a default
   * object; effects outside the object are not modelled.
   */
  function Call(owner: LegacyRecord, functionName: string): (r: Result<Obj, Err>)
    ensures r.Failure? <==> functionName !in owner.table
    ensures r.Failure? ==> r.error == FunctionNotRegistered(owner.name, functionName)
    ensures r.Success? ==> r.value == owner.table[functionName](owner.blank)
  {
    if functionName !in owner.table then Failure(FunctionNotRegistered(owner.name, functionName))
    else Success(owner.table[functionName](owner.blank))
  }

  /**
   * `_make_reflection(class_name, function_name)`: "Class <name> is not
   * registered as reflectable." when no owner has that name; otherwise the
   * `call` of the first owner that has it.
   */
  function MakeReflection(records: seq<LegacyRecord>, className: string, functionName: string): Result<Obj, Err> {
    match FindFirst(records, LegacyName, className)
    case None => Failure(ClassNotRegistered(className))
    case Some(i) => Call(records[i], functionName)
  }

  /**
   * A call fails with the class error exactly when no owner has the name,
   * and otherwise is the `call` of the first owner with it, made once,
   * whatever the later owners hold.
   */
  lemma MakeReflectionDelegates(records: seq<LegacyRecord>, className: string, functionName: string)
    ensures MakeReflection(records, className, functionName) == Failure(ClassNotRegistered(className)) <==>
      forall i :: 0 <= i < |records| ==> records[i].name != className
    ensures forall i ::
      (0 <= i < |records| && records[i].name == className &&
       forall j :: 0 <= j < i ==> records[j].name != className) ==>
      MakeReflection(records, className, functionName) == Call(records[i], functionName)
  {
  }

  /** An owner registered after one of the same name is never reached. */
  lemma {:induction false} LegacyShadowedOwnerUnreachable(records: seq<LegacyRecord>, later: LegacyRecord,
                                                          className: string, functionName: string)
    requires exists i :: 0 <= i < |records| && records[i].name == className
    ensures MakeReflection(records + [later], className, functionName) == MakeReflection(records, className, functionName)
  {
    FindFirstShadowed(records, [later], LegacyName, className);
  }

  /**
   * After `register_member_function(name, f)` the name calls `f` on a new
   * default object, and every other name calls what it called before.
   */
  lemma CallAfterRegister(owner: LegacyRecord, name: string, f: MemberProc, other: string)
    requires other != name
    ensures Call(owner.(table := owner.table[name := f]), name) == Success(f(owner.blank))
    ensures Call(owner.(table := owner.table[name := f]), other) == Call(owner, other)
  {
  }
}
