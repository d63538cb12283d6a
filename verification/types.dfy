/**
 * Values shared by every part of the reflection core: the C++ types that make
 * up a call signature, the values passed to and returned by registered
 * functions, the abstract state of an object of a registered class, and the
 * errors the library raises as `reflection_exception`.
 */
module Types {

  datatype Option<+T> = None | Some(value: T)

  /** A failure-compatible result, so that `:-` propagates the first error. */
  datatype Result<+R, +E> = Success(value: R) | Failure(error: E) {
    predicate IsFailure() { Failure? }

    function PropagateFailure<U>(): Result<U, E>
      requires Failure?
    {
      Failure(error)
    }

    function Extract(): R
      requires Success?
    {
      value
    }
  }

  /**
   * A C++ type as it appears in a function signature. Only identity matters:
   * two signatures match when their tags are equal, which is all that
   * `dynamic_pointer_cast` on the holder's template arguments decides.
   * `Named` stands for every other spelling (references, pointers, classes).
   */
  datatype TypeTag = Void | Int | UnsignedInt | Char | Float | StdString | Named(spelling: string)

  /** `ReturnType(Params...)`, the template argument of every holder. */
  datatype Sig = Sig(ret: TypeTag, params: seq<TypeTag>)

  /** A value passed to or returned from a registered function. */
  datatype Value = VoidValue | IntValue(i: int) | UnsignedValue(n: nat) | CharValue(c: char) | StringValue(s: string)

  /** The state of one object of a registered class: its data members by name. */
  datatype Obj = Obj(fields: map<string, Value>)

  /** What a member function does to the object it runs on: its result and the object afterwards. */
  datatype Step = Step(ret: Value, after: Obj)

  /** A free or static function, `ReturnType (*)(Params...)`. */
  type FreeFn = seq<Value> -> Value

  /** A member function, `ReturnType (Type::*)(Params...)`, run on an object. */
  type MemberFn = (Obj, seq<Value>) -> Step

  /**
   * The kinds of `reflection_exception`, each with the names its message
   * carries: "Class <class> is not registered as reflectable.",
   * "<owner>::<function> is not registered" and
   * "invalid function signature for <class>::<function>".
   */
  datatype Err =
    | ClassNotRegistered(className: string)
    | FunctionNotRegistered(owner: string, functionName: string)
    | InvalidSignature(className: string, functionName: string)

  /**
   * The `find_if` over a list of registered owners: the position of the
   * first one whose key (its name) equals `name`, or nothing when none has it.
   */
  function FindFirst<T>(xs: seq<T>, key: T -> string, name: string): (r: Option<nat>)
    ensures r.Some? ==> r.value < |xs| && key(xs[r.value]) == name
    ensures r.Some? ==> forall j :: 0 <= j < r.value ==> key(xs[j]) != name
    ensures r.None? <==> forall j :: 0 <= j < |xs| ==> key(xs[j]) != name
  {
    if |xs| == 0 then None
    else if key(xs[0]) == name then Some(0)
    else match FindFirst(xs[1..], key, name)
      case None => None
      case Some(k) => Some(k + 1)
  }

  /** Owners appended after one that has the name do not change which one the scan finds. */
  lemma {:induction false} FindFirstShadowed<T>(xs: seq<T>, more: seq<T>, key: T -> string, name: string)
    requires exists i :: 0 <= i < |xs| && key(xs[i]) == name
    ensures FindFirst(xs + more, key, name) == FindFirst(xs, key, name)
    ensures (xs + more)[FindFirst(xs, key, name).value] == xs[FindFirst(xs, key, name).value]
  {
    var i := FindFirst(xs, key, name).value;
    assert (xs + more)[i] == xs[i];
    assert forall j :: 0 <= j < i ==> (xs + more)[j] == xs[j];
  }

  /** When no owner of a prefix has the name, the scan finds it among the appended owners. */
  lemma {:induction false} FindFirstPastPrefix<T>(xs: seq<T>, more: seq<T>, key: T -> string, name: string)
    requires forall i :: 0 <= i < |xs| ==> key(xs[i]) != name
    ensures FindFirst(xs + more, key, name) ==
      match FindFirst(more, key, name)
      case None => None
      case Some(k) => Some(|xs| + k)
  {
    assert forall j :: 0 <= j < |xs| ==> (xs + more)[j] == xs[j];
    assert forall j :: |xs| <= j < |xs| + |more| ==> (xs + more)[j] == more[j - |xs|];
    match FindFirst(more, key, name)
    case None =>
    case Some(k) =>
      assert (xs + more)[|xs| + k] == more[k];
  }
}
