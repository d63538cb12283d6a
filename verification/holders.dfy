/**
 * The callable holders: each wraps one invocable of a fixed signature
 * `ReturnType(Params...)` so that holders of different signatures can live in
 * one container behind a common base. Copying a holder copies the datatype
 * value, so a copy keeps the stored invocable.
 */
module Holders {
  import opened Types

  /**
   * `callable<ReturnType(Params...)>`, the holder the manager casts to. It
   * derives from `callable_base`, which has nothing but a virtual destructor.
   */
  datatype Callable = Callable(sig: Sig, fct: FreeFn) {
    /** `operator()`: the parameters go to the stored function as they are, and its result comes back. */
    function Call(params: seq<Value>): Value {
      fct(params)
    }
  }

  /** The holders that derive from `function_base` and are stored in an owner's table. */
  datatype Holder =
      /** `function<ReturnType(Params...)>`: a plain wrapper around one invocable. */
    | Function(sig: Sig, fct: FreeFn)
      /** `class_function<ReturnType(Params...)>`: the closure that calls a member on a new instance. */
    | ClassFunction(sig: Sig, callOnNewInstance: FreeFn)
      /** `class_function2<Type, ReturnType(Params...)>`: the closure that calls a member on a given instance. */
    | ClassFunction2(sig: Sig, callOnGivenInstance: MemberFn)
      /** `c_function<ReturnType(Params...)>`: the closure around a free or static function. */
    | CFunction(sig: Sig, fct: FreeFn)
  {
    /** `is_member_function()`, as `class_function` and `class_function2` define it. */
    function IsMemberFunction(): (b: bool)
      requires ClassFunction? || ClassFunction2?
      ensures b
    {
      true
    }

    /** `operator()(params...)` of the holders that take no instance. */
    function Call(params: seq<Value>): Value
      requires !ClassFunction2?
    {
      match this
      case Function(_, f) => f(params)
      case ClassFunction(_, f) => f(params)
      case CFunction(_, f) => f(params)
    }

    /** `class_function2::operator()(obj, params...)`: the instance first, then the parameters. */
    function CallOn(obj: Obj, params: seq<Value>): Step
      requires ClassFunction2?
    {
      callOnGivenInstance(obj, params)
    }
  }

  /**
   * `std::dynamic_pointer_cast<callable<ReturnType(Params...)>>`: the cast
   * succeeds exactly when the holder was built for the signature `expected`
   * and takes no instance; a null result means the signature did not match.
   */
  function AsCallable(h: Holder, expected: Sig): (r: Option<Callable>)
    ensures r.Some? <==> h.sig == expected && !h.ClassFunction2?
    ensures r.Some? ==> r.value.sig == expected
    ensures r.Some? ==> forall params :: r.value.Call(params) == h.Call(params)
  {
    if h.sig == expected && !h.ClassFunction2? then Some(Callable(expected, params => h.Call(params)))
    else None
  }

  /**
   * The cast of a table's second slot to
   * `class_function2<Type, ReturnType(Params...)>`: a null slot or a holder
   * of another signature gives a null pointer.
   */
  function AsGivenInstance(slot: Option<Holder>, expected: Sig): (r: Option<Holder>)
    ensures r.Some? <==> slot.Some? && slot.value.ClassFunction2? && slot.value.sig == expected
    ensures r.Some? ==> r.value == slot.value
  {
    if slot.Some? && slot.value.ClassFunction2? && slot.value.sig == expected then slot else None
  }
}
