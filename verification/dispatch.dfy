/**
 * What `reflection_manager::_make_reflection<ReturnType, Params...>` computes
 * from the registered owners, as a function of their names and tables in
 * registration order. The Registry class in module Reflex runs the same
 * steps over its list of owner objects and is proved equal to these
 * functions.
 */
module Dispatch {
  import opened Types
  import opened Holders
  import opened OwnerTable

  /** One registered owner as the manager sees it: `get_name()` and its table. */
  datatype OwnerRecord = OwnerRecord(name: string, table: Table)

  /** The name the manager compares: `get_name()`. */
  function OwnerName(r: OwnerRecord): string {
    r.name
  }

  /** The `find_if` step: the first owner whose name equals `className` exactly. */
  function FindOwner(records: seq<OwnerRecord>, className: string): (r: Option<nat>)
    ensures r.Some? ==> r.value < |records| && records[r.value].name == className
    ensures r.Some? ==> forall j :: 0 <= j < r.value ==> records[j].name != className
    ensures r.None? <==> forall j :: 0 <= j < |records| ==> records[j].name != className
  {
    FindFirst(records, OwnerName, className)
  }

  /**
   * `_make_reflection`: find the owner, then `get_function`, then the cast
   * to `callable<ReturnType(Params...)>`, then the call. Each step that
   * fails ends the call with its error, and nothing is invoked.
   */
  function Reflect(records: seq<OwnerRecord>, className: string, functionName: string,
                   sig: Sig, params: seq<Value>): (r: Result<Value, Err>)
    ensures r == Failure(ClassNotRegistered(className)) <==> FindOwner(records, className).None?
    ensures r.Success? ==>
      FindOwner(records, className).Some? && functionName in records[FindOwner(records, className).value].table
  {
    match FindOwner(records, className)
    case None => Failure(ClassNotRegistered(className))
    case Some(i) =>
      match GetFunction(records[i].name, records[i].table, functionName)
      case Failure(e) => Failure(e)
      case Success(h) =>
        match AsCallable(h, sig)
        case None => Failure(InvalidSignature(className, functionName))
        case Some(fct) => Success(fct.Call(params))
  }

  /** The result of a call on a given instance, and the instance afterwards. */
  datatype Outcome = Outcome(result: Result<Value, Err>, after: Obj)

  /**
   * The call on a caller-supplied instance: the same owner lookup, then
   * `get_function_on_given_instance`, then the cast of slot two to
   * `class_function2<Type, ReturnType(Params...)>`. A failure leaves the
   * instance as it was.
   */
  function ReflectOnInstance(records: seq<OwnerRecord>, obj: Obj, className: string, functionName: string,
                             sig: Sig, params: seq<Value>): (r: Outcome)
    ensures r.result.Failure? ==> r.after == obj
    ensures r.result == Failure(ClassNotRegistered(className)) <==> FindOwner(records, className).None?
  {
    match FindOwner(records, className)
    case None => Outcome(Failure(ClassNotRegistered(className)), obj)
    case Some(i) =>
      match GetFunctionOnGivenInstance(records[i].name, records[i].table, functionName)
      case Failure(e) => Outcome(Failure(e), obj)
      case Success(slot) =>
        match AsGivenInstance(slot, sig)
        case None => Outcome(Failure(InvalidSignature(className, functionName)), obj)
        case Some(h) =>
          var step := h.CallOn(obj, params);
          Outcome(Success(step.ret), step.after)
  }

  /**
   * The checks run in a fixed order, and each outcome happens exactly when
   * the earlier checks pass and its own check decides it: no owner of that
   * name; the first such owner lacks the function; the stored signature
   * differs; otherwise the stored function's result.
   */
  lemma ReflectCases(records: seq<OwnerRecord>, className: string, functionName: string, sig: Sig, params: seq<Value>)
    requires forall i :: 0 <= i < |records| ==> WellFormed(records[i].table)
    ensures Reflect(records, className, functionName, sig, params) == Failure(ClassNotRegistered(className)) <==>
      forall i :: 0 <= i < |records| ==> records[i].name != className
    ensures forall i :: 0 <= i < |records| && FindOwner(records, className) == Some(i) ==>
      (functionName !in records[i].table <==>
        Reflect(records, className, functionName, sig, params) == Failure(FunctionNotRegistered(className, functionName)))
    ensures forall i :: 0 <= i < |records| && FindOwner(records, className) == Some(i) && functionName in records[i].table ==>
      (records[i].table[functionName].first.sig != sig <==>
        Reflect(records, className, functionName, sig, params) == Failure(InvalidSignature(className, functionName)))
    ensures forall i ::
      (0 <= i < |records| && FindOwner(records, className) == Some(i) && functionName in records[i].table &&
       records[i].table[functionName].first.sig == sig) ==>
      Reflect(records, className, functionName, sig, params) == Success(records[i].table[functionName].first.Call(params))
  {
  }

  /**
   * The same fixed order for a call on a given instance: no owner of that
   * name; the first such owner lacks the function; slot two is not a
   * given-instance holder of the requested signature (which is always so
   * for a free or static function); otherwise the member runs on the
   * instance. Every failure leaves the instance as it was.
   */
  lemma ReflectOnInstanceCases(records: seq<OwnerRecord>, obj: Obj, className: string, functionName: string,
                               sig: Sig, params: seq<Value>)
    ensures (ReflectOnInstance(records, obj, className, functionName, sig, params).result ==
             Failure(ClassNotRegistered(className))) <==>
      forall i :: 0 <= i < |records| ==> records[i].name != className
    ensures forall i :: 0 <= i < |records| && FindOwner(records, className) == Some(i) ==>
      (functionName !in records[i].table <==>
        ReflectOnInstance(records, obj, className, functionName, sig, params).result ==
        Failure(FunctionNotRegistered(className, functionName)))
    ensures forall i :: 0 <= i < |records| && FindOwner(records, className) == Some(i) && functionName in records[i].table ==>
      (AsGivenInstance(records[i].table[functionName].second, sig).None? <==>
        ReflectOnInstance(records, obj, className, functionName, sig, params).result ==
        Failure(InvalidSignature(className, functionName)))
    ensures forall i ::
      (0 <= i < |records| && FindOwner(records, className) == Some(i) && functionName in records[i].table &&
       AsGivenInstance(records[i].table[functionName].second, sig).Some?) ==>
      ReflectOnInstance(records, obj, className, functionName, sig, params) ==
      Outcome(Success(records[i].table[functionName].second.value.CallOn(obj, params).ret),
              records[i].table[functionName].second.value.CallOn(obj, params).after)
    ensures ReflectOnInstance(records, obj, className, functionName, sig, params).result.Failure? ==>
      ReflectOnInstance(records, obj, className, functionName, sig, params).after == obj
  {
  }

  /**
   * An owner registered after one of the same name is unreachable: every
   * call by that name behaves as if the later owner were not there.
   */
  lemma {:induction false} ShadowedOwnerUnreachable(records: seq<OwnerRecord>, later: OwnerRecord, className: string,
                                                    functionName: string, sig: Sig, params: seq<Value>, obj: Obj)
    requires exists i :: 0 <= i < |records| && records[i].name == className
    ensures Reflect(records + [later], className, functionName, sig, params) ==
            Reflect(records, className, functionName, sig, params)
    ensures ReflectOnInstance(records + [later], obj, className, functionName, sig, params) ==
            ReflectOnInstance(records, obj, className, functionName, sig, params)
  {
    FindFirstShadowed(records, [later], OwnerName, className);
  }

  /**
   * An owner whose name no earlier owner has is found by that name, and
   * calls by that name are resolved against it alone.
   */
  lemma {:induction false} NewOwnerReachable(records: seq<OwnerRecord>, owner: OwnerRecord,
                                             functionName: string, sig: Sig, params: seq<Value>, obj: Obj)
    requires forall i :: 0 <= i < |records| ==> records[i].name != owner.name
    ensures FindOwner(records + [owner], owner.name) == Some(|records|)
    ensures Reflect(records + [owner], owner.name, functionName, sig, params) ==
            Reflect([owner], owner.name, functionName, sig, params)
    ensures ReflectOnInstance(records + [owner], obj, owner.name, functionName, sig, params) ==
            ReflectOnInstance([owner], obj, owner.name, functionName, sig, params)
  {
    FindFirstPastPrefix(records, [owner], OwnerName, owner.name);
    assert FindOwner([owner], owner.name) == Some(0);
  }

  /**
   * A function registered under the owner that a name finds answers a call
   * with its own signature: a member runs on a new default object, so the
   * result depends on the parameters alone and no call sees another's
   * effects; a free function is called with the parameters as they are.
   * With any other signature the call fails and nothing runs.
   */
  lemma DispatchRegistered(records: seq<OwnerRecord>, i: nat, reg: Registration, blank: Obj,
                           sig: Sig, params: seq<Value>)
    requires i < |records| && FindOwner(records, records[i].name) == Some(i)
    requires reg.name in records[i].table && records[i].table[reg.name] == SlotsFor(reg, blank)
    ensures sig == reg.sig && reg.MemberFunction? ==>
      Reflect(records, records[i].name, reg.name, sig, params) == Success(reg.member(blank, params).ret)
    ensures sig == reg.sig && reg.FreeFunction? ==>
      Reflect(records, records[i].name, reg.name, sig, params) == Success(reg.fct(params))
    ensures sig != reg.sig ==>
      Reflect(records, records[i].name, reg.name, sig, params) == Failure(InvalidSignature(records[i].name, reg.name))
  {
  }

  /**
   * On a given instance, a registered member function with the caller's
   * signature runs on that instance and its effects stay there; asked for
   * with another signature it fails and the instance is untouched. A free
   * or static function has no given-instance holder, so the call fails
   * whatever the signature.
   */
  lemma DispatchRegisteredOnInstance(records: seq<OwnerRecord>, i: nat, reg: Registration, blank: Obj,
                                     obj: Obj, sig: Sig, params: seq<Value>)
    requires i < |records| && FindOwner(records, records[i].name) == Some(i)
    requires reg.name in records[i].table && records[i].table[reg.name] == SlotsFor(reg, blank)
    ensures sig == reg.sig && reg.MemberFunction? ==>
      ReflectOnInstance(records, obj, records[i].name, reg.name, sig, params) ==
      Outcome(Success(reg.member(obj, params).ret), reg.member(obj, params).after)
    ensures sig != reg.sig || reg.FreeFunction? ==>
      ReflectOnInstance(records, obj, records[i].name, reg.name, sig, params) ==
      Outcome(Failure(InvalidSignature(records[i].name, reg.name)), obj)
  {
  }
}
