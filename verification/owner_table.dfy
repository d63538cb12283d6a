/**
 * The function table of an owner record (`reflectable<Type>`): what
 * registration stores under a function name and what the lookups return.
 * The owner class in module Reflex holds a table of this type and updates it
 * with these functions.
 */
module OwnerTable {
  import opened Types
  import opened Holders

  /**
   * The pair stored under one function name: the holder used without an
   * instance, and the holder used on a given instance (a null pointer,
   * `None`, for free and static functions).
   */
  datatype Slots = Slots(first: Holder, second: Option<Holder>)

  /** `m_member_functions`. */
  type Table = map<string, Slots>

  /** One `std::pair<std::string, Fct>` given to the constructor. */
  datatype Registration =
      /** `ReturnType (Type::*)(Params...)`: a member function. */
    | MemberFunction(name: string, sig: Sig, member: MemberFn)
      /** `ReturnType (*)(Params...)`: a free or static function. */
    | FreeFunction(name: string, sig: Sig, fct: FreeFn)

  /**
   * The closure `invoke_on_new_instance`: every call runs the member on a
   * default-constructed object `blank` (the state `Type()` builds), and the
   * object is dropped afterwards.
   */
  function OnNewInstance(member: MemberFn, blank: Obj): FreeFn {
    params => member(blank, params).ret
  }

  /** The pair `register_function` stores for one registration. */
  function SlotsFor(reg: Registration, blank: Obj): (s: Slots)
    ensures reg.MemberFunction? ==>
      s.first.ClassFunction? && s.first.sig == reg.sig &&
      s.second.Some? && s.second.value.ClassFunction2? && s.second.value.sig == reg.sig
    ensures reg.FreeFunction? ==> s.first.CFunction? && s.first.sig == reg.sig && s.second.None?
  {
    match reg
    case MemberFunction(_, sig, member) =>
      Slots(ClassFunction(sig, OnNewInstance(member, blank)),
            Some(ClassFunction2(sig, (obj, params) => member(obj, params))))
    case FreeFunction(_, sig, fct) =>
      Slots(CFunction(sig, params => fct(params)), None)
  }

  /**
   * What the stored holders do when called: a member runs on a new default
   * object in slot one and on the caller's object in slot two; a free
   * function is called as it is.
   */
  lemma SlotsBehaviour(reg: Registration, blank: Obj, obj: Obj, params: seq<Value>)
    ensures reg.MemberFunction? ==>
      SlotsFor(reg, blank).first.Call(params) == reg.member(blank, params).ret &&
      SlotsFor(reg, blank).second.value.CallOn(obj, params) == reg.member(obj, params)
    ensures reg.FreeFunction? ==> SlotsFor(reg, blank).first.Call(params) == reg.fct(params)
  {
  }

  /** `register_function(fct)`: map assignment, so a name registered again is overwritten. */
  function Register(t: Table, reg: Registration, blank: Obj): (r: Table)
    ensures r.Keys == t.Keys + {reg.name}
    ensures r[reg.name] == SlotsFor(reg, blank)
    ensures forall n :: n in t && n != reg.name ==> r[n] == t[n]
  {
    t[reg.name := SlotsFor(reg, blank)]
  }

  /** The names a list of pairs carries. */
  function NamesOf(regs: seq<Registration>): set<string> {
    set i | 0 <= i < |regs| :: regs[i].name
  }

  /**
   * The variadic `register_function(fct, fcts...)`: the pairs one after
   * another, left to right; the names registered afterwards are the earlier
   * ones and those the pairs carry.
   */
  function RegisterAll(t: Table, regs: seq<Registration>, blank: Obj): (r: Table)
    ensures r.Keys == t.Keys + NamesOf(regs)
    decreases |regs|
  {
    if |regs| == 0 then t
    else
      var r := RegisterAll(Register(t, regs[0], blank), regs[1..], blank);
      assert NamesOf(regs) == {regs[0].name} + NamesOf(regs[1..]) by {
        forall n | n in NamesOf(regs)
          ensures n in {regs[0].name} + NamesOf(regs[1..])
        {
          var i :| 0 <= i < |regs| && regs[i].name == n;
          if i > 0 {
            assert regs[1..][i - 1].name == n;
          }
        }
      }
      r
  }

  /** The position of the last registration of `name` in `regs`, if any. */
  function LastRegistration(regs: seq<Registration>, name: string): (r: Option<nat>)
    ensures r.Some? ==> r.value < |regs| && regs[r.value].name == name
    ensures r.Some? ==> forall j :: r.value < j < |regs| ==> regs[j].name != name
    ensures r.None? <==> forall j :: 0 <= j < |regs| ==> regs[j].name != name
  {
    if |regs| == 0 then None
    else match LastRegistration(regs[1..], name)
      case Some(k) => Some(k + 1)
      case None => if regs[0].name == name then Some(0) else None
  }

  /**
   * After registering a list of pairs, a name is in the table iff it was
   * there before or some pair names it; its entry comes from the last pair
   * that names it, and a name no pair mentions keeps its entry.
   */
  lemma {:induction false} RegisterAllLastWins(t: Table, regs: seq<Registration>, blank: Obj, name: string)
    ensures name in RegisterAll(t, regs, blank) <==> name in t || LastRegistration(regs, name).Some?
    ensures LastRegistration(regs, name).Some? ==>
      RegisterAll(t, regs, blank)[name] == SlotsFor(regs[LastRegistration(regs, name).value], blank)
    ensures LastRegistration(regs, name).None? && name in t ==> RegisterAll(t, regs, blank)[name] == t[name]
    decreases |regs|
  {
    if |regs| > 0 {
      var t1 := Register(t, regs[0], blank);
      RegisterAllLastWins(t1, regs[1..], blank, name);
      assert RegisterAll(t, regs, blank) == RegisterAll(t1, regs[1..], blank);
      match LastRegistration(regs[1..], name)
      case Some(k) =>
        assert regs[1..][k] == regs[k + 1];
      case None =>
    }
  }

  /**
   * The shape registration gives every entry: slot one never needs an
   * instance, and slot two, when present, always does.
   */
  predicate WellFormed(t: Table) {
    forall n :: n in t ==>
      !t[n].first.ClassFunction2? && (t[n].second.Some? ==> t[n].second.value.ClassFunction2?)
  }

  /** Registering any list of pairs keeps a table well formed. */
  lemma {:induction false} RegisterAllWellFormed(t: Table, regs: seq<Registration>, blank: Obj)
    requires WellFormed(t)
    ensures WellFormed(RegisterAll(t, regs, blank))
    decreases |regs|
  {
    if |regs| > 0 {
      RegisterAllWellFormed(Register(t, regs[0], blank), regs[1..], blank);
    }
  }

  /** `is_registered(function_name)`: the name is a key of the table. */
  predicate IsRegistered(t: Table, functionName: string) {
    functionName in t
  }

  /** A table built from a list of pairs registers exactly the names the pairs carry. */
  lemma IsRegisteredAfterConstruction(regs: seq<Registration>, blank: Obj, functionName: string)
    ensures IsRegistered(RegisterAll(map[], regs, blank), functionName) <==>
      exists i :: 0 <= i < |regs| && regs[i].name == functionName
  {
    RegisterAllLastWins(map[], regs, blank, functionName);
    if LastRegistration(regs, functionName).Some? {
      var i := LastRegistration(regs, functionName).value;
      assert regs[i].name == functionName;
    }
  }

  /** `get_function(function_name)`: slot one, or "<owner>::<function> is not registered". */
  function GetFunction(owner: string, t: Table, functionName: string): (r: Result<Holder, Err>)
    ensures r.Failure? <==> !IsRegistered(t, functionName)
    ensures r.Failure? ==> r.error == FunctionNotRegistered(owner, functionName)
    ensures r.Success? ==> r.value == t[functionName].first
  {
    if !IsRegistered(t, functionName) then Failure(FunctionNotRegistered(owner, functionName))
    else Success(t[functionName].first)
  }

  /**
   * `get_function_on_given_instance(function_name)`: slot two, with the same
   * failure for an absent name; for a free or static function the result is
   * the null slot, not a failure.
   */
  function GetFunctionOnGivenInstance(owner: string, t: Table, functionName: string): (r: Result<Option<Holder>, Err>)
    ensures r.Failure? <==> !IsRegistered(t, functionName)
    ensures r.Failure? ==> r.error == FunctionNotRegistered(owner, functionName)
    ensures r.Success? ==> r.value == t[functionName].second
  {
    if !IsRegistered(t, functionName) then Failure(FunctionNotRegistered(owner, functionName))
    else Success(t[functionName].second)
  }

  /**
   * Lookups after one registration: the registered name yields the new
   * holders (slot two null for a free function), and every other name
   * yields what it yielded before.
   */
  lemma LookupAfterRegister(owner: string, t: Table, reg: Registration, blank: Obj, other: string)
    requires other != reg.name
    ensures GetFunction(owner, Register(t, reg, blank), reg.name) == Success(SlotsFor(reg, blank).first)
    ensures reg.FreeFunction? ==> GetFunctionOnGivenInstance(owner, Register(t, reg, blank), reg.name) == Success(None)
    ensures GetFunction(owner, Register(t, reg, blank), other) == GetFunction(owner, t, other)
    ensures GetFunctionOnGivenInstance(owner, Register(t, reg, blank), other) == GetFunctionOnGivenInstance(owner, t, other)
  {
  }
}
