# Reflex: registry and type-erased dispatch, in Dafny

Reflex is a C++ library for calling functions by name at run time. A class
registers itself as reflectable with the names of its member functions, or
a set of free functions registers under the empty class name. A caller then
writes `reflection_maker<R(P...)>::invoke("class", "function", args...)`, or
the older `make_reflection<R(P...)>::call(...)`. The library finds the owner
record of that name, takes the stored holder, checks the holder against the
signature `R(P...)` the caller asked for, and runs it.

This project models that core:

- **Values** (`types.dfy`, module `Types`). Signatures are `Sig(ret, params)` over type tags. Arguments and results are `Value`s. An object of a registered class is an `Obj`, a map from data-member names to values. Registered functions are Dafny arrows: `FreeFn` takes the parameters, and `MemberFn` also takes the object and gives back its result and the object afterwards. The three `reflection_exception` kinds are `Err`, each carrying the names its message carries. `FindFirst` is the `find_if` over the registered owners.
- **Holders** (`holders.dfy`, module `Holders`). `callable`, `function`, `class_function`, `class_function2` and `c_function` are datatypes, each holding a signature and one invocable. `dynamic_pointer_cast` becomes `AsCallable` and `AsGivenInstance`: a cast succeeds exactly when the signatures are equal and the holder is of the right kind.
- **Owner table** (`owner_table.dfy`, module `OwnerTable`). This is what `register_function` stores under a name, as a function of the table before: slot one calls a member on a new default object; slot two calls it on the caller's object, or is empty for a free function. It also covers the variadic left-to-right registration, `is_registered`, `get_function` and `get_function_on_given_instance`.
- **Dispatch** (`dispatch.dfy`, module `Dispatch`). `Reflect` is `_make_reflection` as a function of the registered owners in order. `ReflectOnInstance` is the same call made on a caller's object, and it also returns that object afterwards.
- **Objects** (`reflex.dfy`, module `Reflex`). `Owner` (`reflectable<Type>`) and `Registry` (`reflection_manager`) are classes. Constructing an owner appends it to the registry and then fills its table in place. The registry's `Find` loop and its `Invoke` and `InvokeOnInstance` methods are proved equal to the `Dispatch` functions. An `Instance` is an object of a registered class owned by the caller.
- **Facades** (`facades.dfy`, module `Facades`). These are the `reflection_maker` and `make_reflection` entry points, and the registrations that `REGISTER_CLASS_FUNCTIONS` and `REGISTER_FUNCTIONS` expand to.
- **Older generation** (`legacy_spec.dfy` and `legacy.dfy`, modules `LegacySpec` and `Legacy`). This is the older `reflectable<Type>`, whose members are `void()`, and the non-template `_make_reflection` of `reflection_manager.cpp`, which delegates to the owner's `call`. It is modelled separately, as in the repository.
- **Scenarios** (`scenarios.dfy`, module `Scenarios`). These replay the library's tests on the model: a free function called by name, a getter and a setter on one object, and the three failures, both without and with an object.

## Model

| member | source | states |
|---|---|---|
| `Types.FindFirst` | includes/cpp_reflection/reflection_manager.hpp:46-48 | the `find_if` over a list of owners returns the first position whose name equals the requested one, with no earlier owner of that name, and nothing exactly when no owner has it |
| `Types.FindFirstShadowed` | includes/cpp_reflection/reflection_manager.hpp:46-48 | owners appended after one that has the name change neither the position found nor the owner at that position |
| `Types.FindFirstPastPrefix` | includes/cpp_reflection/reflection_manager.hpp:46-48 | when no owner of a prefix has the name, the scan of the whole list finds the first match among the appended owners, shifted by the prefix length |
| `Holders.Callable.Call` | includes/cpp_reflection/callable.hpp:30-32 | `operator()` applies the stored function to the parameters as given; its promise is stated by `Holders.AsCallable`, whose result calls exactly what the stored holder calls |
| `Holders.Holder.Call` | includes/cpp_reflection/function/class_function.hpp:34-36 | `operator()` of `function`, `class_function` and `c_function` applies the stored closure to the parameters as given; `OwnerTable.SlotsBehaviour` states what the closures registration stores return |
| `Holders.Holder.CallOn` | includes/cpp_reflection/class_function2.hpp:33-35 | `operator()(obj, params...)` passes the object first and then the parameters to the stored closure; `OwnerTable.SlotsBehaviour` states that the registered closure runs the member on that object |
| `Holders.Holder.IsMemberFunction` | includes/cpp_reflection/function/class_function.hpp:30 | `is_member_function` is true for both the new-instance and the given-instance holder |
| `Holders.AsCallable` | includes/cpp_reflection/reflection_manager.hpp:53-56 | the cast to `callable<R(P...)>` succeeds iff the stored signature equals the requested one and the holder needs no instance; the result has that signature, and calling it forwards the parameters unchanged and returns the stored function's result |
| `Holders.AsGivenInstance` | includes/cpp_reflection/class_function2.hpp:19-35 | the cast of slot two succeeds iff the slot is a given-instance holder with the requested signature, and then yields that same holder; a null slot gives a null result |
| `OwnerTable.SlotsFor` | includes/cpp_reflection/reflectable/reflectable.hpp:58-84 | a member function gets a new-instance holder in slot one and a given-instance holder in slot two, both with its signature `R(Params...)`; a free function gets its holder in slot one and a null slot two |
| `OwnerTable.SlotsBehaviour` | includes/cpp_reflection/reflectable/reflectable.hpp:60-66 | slot one runs the member on a new default object and returns its result; slot two runs the member on the object it is given and returns both the result and the changed object; a free function's holder returns the function's result |
| `OwnerTable.OnNewInstance` | includes/cpp_reflection/reflectable/reflectable.hpp:60-62 | the closure `invoke_on_new_instance` runs the member on a newly built default object on every call; `OwnerTable.SlotsBehaviour` states it |
| `OwnerTable.Register` | includes/cpp_reflection/reflectable/reflectable.hpp:68-83 | registering adds the name to the keys, maps it to the new pair (overwriting an earlier one), and leaves every other entry unchanged |
| `OwnerTable.RegisterAll` | includes/cpp_reflection/reflectable/reflectable.hpp:48-52 | the variadic registration leaves exactly the earlier names plus the names the pairs carry in the table; which pair each name keeps is stated by `OwnerTable.RegisterAllLastWins` |
| `OwnerTable.RegisterAllWellFormed` | includes/cpp_reflection/reflectable/reflectable.hpp:48-84 | after any sequence of registrations, slot one never needs an instance and slot two, when present, always does |
| `OwnerTable.RegisterAllLastWins` | includes/cpp_reflection/reflectable/reflectable.hpp:48-52 | the variadic registration handles pairs left to right: a name is registered iff it was before or some pair carries it, and a name given more than once keeps the pair of its last occurrence |
| `OwnerTable.IsRegistered` | includes/cpp_reflection/reflectable/reflectable.hpp:102-104 | `is_registered(n)` is "`n` is a key of the table"; `OwnerTable.IsRegisteredAfterConstruction` and `OwnerTable.GetFunction` state what follows from it |
| `OwnerTable.IsRegisteredAfterConstruction` | includes/cpp_reflection/reflectable/reflectable.hpp:102-104 | after construction, `is_registered(n)` holds iff one of the constructor's pairs is named `n` |
| `OwnerTable.GetFunction` | includes/cpp_reflection/reflectable/reflectable.hpp:87-92 | fails with "<owner>::<function> is not registered" iff the name is absent, and otherwise returns slot one; it is a function of the table, so it changes nothing |
| `OwnerTable.GetFunctionOnGivenInstance` | includes/cpp_reflection/reflectable/reflectable.hpp:94-99 | the same failure for an absent name; otherwise it returns slot two, which for a free function is the null slot and not a failure |
| `OwnerTable.LookupAfterRegister` | includes/cpp_reflection/reflectable/reflectable.hpp:68-99 | after one registration, the new name yields the new holders (and a null slot two for a free function), and every other name yields what it yielded before |
| `Dispatch.FindOwner` | includes/cpp_reflection/reflection_manager.hpp:46-48 | the owner the manager picks is the first whose name equals the class name, and there is none exactly when no owner has that name |
| `Dispatch.Reflect` | includes/cpp_reflection/reflection_manager.hpp:44-59 | `_make_reflection` fails with the class error exactly when no owner has the name, and succeeds only when the owner it finds has the function; `Dispatch.ReflectCases` states every outcome |
| `Dispatch.ReflectOnInstance` | includes/cpp_reflection/reflectable/reflectable.hpp:94-99 | the call on a given object: the class error exactly when no owner has the name, and every failure leaves the object as it was; `Dispatch.ReflectOnInstanceCases` states every outcome |
| `Dispatch.ReflectCases` | includes/cpp_reflection/reflection_manager.hpp:45-58 | the checks run in a fixed order, each outcome as an iff: the class error iff no owner has the name; then the function error iff the first such owner lacks the function; then the signature error iff the stored signature differs; otherwise the stored holder's result on the parameters |
| `Dispatch.ReflectOnInstanceCases` | tests/sources/member_function/with_instance.cpp:53-94 | on a given object the checks run in the same fixed order, each outcome as an iff: the class error iff no owner has the name; the function error iff the first such owner lacks it; the signature error iff slot two is not a given-instance holder of the requested signature; otherwise the member's result and the object as the member left it; every failure leaves the object unchanged |
| `Dispatch.ShadowedOwnerUnreachable` | includes/cpp_reflection/reflection_manager.hpp:46-48 | an owner registered after one of the same name is unreachable: every call by that name, with or without an instance, is as if it were absent |
| `Dispatch.NewOwnerReachable` | sources/reflection_manager.cpp:15-18 | an appended owner whose name no earlier owner has is found at the end of the list, and calls by its name are resolved against it alone |
| `Dispatch.DispatchRegistered` | includes/cpp_reflection/reflection_manager.hpp:53-58 | a registered member called with its own signature returns the member's result on a new default object, and a free function returns its result on the parameters; any other signature fails with the signature error |
| `Dispatch.DispatchRegisteredOnInstance` | includes/cpp_reflection/reflectable/reflectable.hpp:64-70 | on a given object, a registered member asked for with its own signature returns its result and leaves the object as the member changed it; with another signature, or for a free function (which has no given-instance holder), the call fails with the signature error and the object is unchanged |
| `Reflex.Owner.constructor` | includes/cpp_reflection/reflectable/reflectable.hpp:34-38 | the new owner has the given name (what `get_name` returns), is appended to the registry behind the earlier owners, and its table is the left-to-right registration of the given pairs into an empty table; every owner of the registry stays well formed |
| `Reflex.Owner.RegisterFunctions` | includes/cpp_reflection/reflectable/reflectable.hpp:48-52 | the variadic `register_function` updates the table in place to the left-to-right registration of the pairs, and keeps it well formed |
| `Reflex.Owner.RegisterFunction` | includes/cpp_reflection/reflectable/reflectable.hpp:58-84 | one `register_function` updates the table in place to `Register` of the old table |
| `Reflex.Registry.constructor` | includes/cpp_reflection/reflection_manager.hpp:32 | the manager starts with no registered owners |
| `Reflex.Registry.Register` | sources/reflection_manager.cpp:15-23 | `register_reflectable` appends the owner at the end, never fails, does not look for a duplicate name, and keeps every earlier owner in place and order |
| `Reflex.Registry.ValidTables` | includes/cpp_reflection/reflectable/reflectable.hpp:58-84 | every table a registry built by owner construction holds is well formed, so the fixed-order outcomes of `Dispatch.ReflectCases` hold for every call on it |
| `Reflex.Registry.Find` | includes/cpp_reflection/reflection_manager.hpp:46-51 | the `find_if` loop stops at the first owner whose name matches, or at the end when none does, and agrees with `FindOwner` |
| `Reflex.Registry.Invoke` | includes/cpp_reflection/reflection_manager.hpp:44-59 | `_make_reflection` returns exactly `Reflect` of the registered owners, and changes no owner and no table |
| `Reflex.Registry.InvokeOnInstance` | includes/cpp_reflection/reflectable/reflectable.hpp:94-99 | the call on a caller's object leaves the registry as it was, and its result and the object's new state are exactly `ReflectOnInstance` of the object's old state |
| `Facades.ReflectionMakerInvoke` | includes/reflex/reflex.hpp:23-25 | `invoke(class, function, params...)` returns the manager's result for the same names and parameters |
| `Facades.ReflectionMakerInvokeOn` | includes/reflex/reflex.hpp:27-40 | the raw-pointer, `shared_ptr` and `unique_ptr` forms pass the object, names and parameters to the same manager call, and the object ends in the state that call gives it |
| `Facades.ReflectionMakerInvokeFree` | includes/reflex/reflex.hpp:42-44 | `invoke(function, params...)` is the call under the empty owner name |
| `Facades.MakeReflectionCall` | includes/cpp_reflection/cpp_reflection.hpp:23-25 | `call(class, function, params...)` returns the manager's result for the same arguments |
| `Facades.MakeReflectionCallFree` | includes/cpp_reflection/cpp_reflection.hpp:27-29 | `call(function, params...)` is the call under the empty owner name |
| `Facades.RegisterClassFunctions` | includes/reflex/reflex.hpp:50-54 | `REGISTER_CLASS_FUNCTIONS` appends one owner named after the class, holding the registration of the listed members |
| `Facades.RegisterFunctions` | includes/reflex/reflex.hpp:55 | `REGISTER_FUNCTIONS` appends one owner with the empty name, holding the registration of the listed functions, all of them free functions |
| `LegacySpec.Call` | includes/cpp_reflection/reflectable.hpp:43-48 | `call` fails with "Function <owner>::<function> is not registered." iff the name is absent; otherwise it runs the stored member on a new default object, and the model returns the state that object reaches |
| `LegacySpec.MakeReflection` | sources/reflection_manager.cpp:30-40 | the older `_make_reflection`: the scan for the first owner of the name, then its `call`; `LegacySpec.MakeReflectionDelegates` states the outcomes |
| `LegacySpec.MakeReflectionDelegates` | sources/reflection_manager.cpp:30-40 | the older `_make_reflection` fails with the class error iff no owner has the name, and otherwise is exactly the `call` of the first owner with it |
| `LegacySpec.LegacyShadowedOwnerUnreachable` | sources/reflection_manager.cpp:32-34 | a later owner with an already registered name is never reached |
| `LegacySpec.CallAfterRegister` | includes/cpp_reflection/reflectable.hpp:38-40 | after `register_member_function(n, f)`, `n` runs `f` on a new default object, and every other name calls what it called before |
| `Legacy.LegacyOwner.constructor` | includes/cpp_reflection/reflectable.hpp:16-18 | the older owner has the given name and an empty table, and is appended to the registry |
| `Legacy.LegacyOwner.IsRegistered` | includes/cpp_reflection/reflectable.hpp:51-53 | `is_registered(n)` is "`n` is a key of the table"; `LegacySpec.Call` states that `call` fails exactly when it does not hold |
| `Legacy.LegacyOwner.RegisterMemberFunction` | includes/cpp_reflection/reflectable.hpp:38-40 | the table becomes the old table with `n` mapped to `f`, overwriting an earlier entry and keeping the others |
| `Legacy.LegacyRegistry.constructor` | includes/cpp_reflection/reflection_manager.hpp:32 | the older manager starts with no registered owners |
| `Legacy.LegacyRegistry.Register` | sources/reflection_manager.cpp:20-23 | the older `register_reflectable` appends the owner at the end |
| `Legacy.LegacyRegistry.MakeReflection` | sources/reflection_manager.cpp:25-40 | the older `make_reflection` loop returns exactly `LegacySpec.MakeReflection` of the registered owners |
| `Scenarios.FreeFunctionByName` | tests/sources/non_member_function/c_function.cpp:26-28 | `add` registered as a free function and called by name with 20 and 22 returns 42 |
| `Scenarios.UpdateObject` | tests/sources/member_function/with_instance.cpp:39-46 | on one object, `get_nb` reads 42, `set_nb(84)` stores 84, and `get_nb` then reads 84, while a call without an object still reads the default 42 |
| `Scenarios.Failures` | tests/sources/member_function/without_instance.cpp:36-74 | a wrong signature, an unregistered function and an unregistered class each fail with their own error |
| `Scenarios.FailuresOnInstance` | tests/sources/member_function/with_instance.cpp:53-94 | the same three failures on an object of the class each give their own error, and the object keeps its state |

## Left out

- Preprocessor sugar. `REGISTER_CLASS_FUNCTIONS`, `REGISTER_FUNCTIONS`, the Boost.PP expansion and includes/reflex/reflectable/macros.hpp are modelled only by what they expand to: an owner constructed with a list of named pairs (`Facades.RegisterClassFunctions`, `Facades.RegisterFunctions`). Namespaced names such as "ns::Type" are plain strings.
- The singleton. `get_instance` returns one static local manager; the model passes the registry explicitly, so "always the same object" is not stated. Lazy construction and static-initialisation order are not modelled.
- Exception wording. Errors are kinds carrying the owner and function names, not message strings. The model follows the code's kinds; the tests expect different wording (for example "Class unregistered_class is not registered" without the trailing "as reflectable.", and "Invalid function signature for function ...").
- The holder class hierarchy. `class_function` and `class_function2` derive from `function_base`, while the manager casts to `callable<R(P...)>`, which derives from `callable_base`, and calls a `get_function` that `reflectable_base` does not declare. The model takes the evident intent: the cast succeeds exactly when the signatures are equal and the holder needs no instance.
- The manager that `reflection_maker` calls. Its `invoke`, both without an object (reflex.hpp lines 24 and 43) and with one, lives in a header that is not part of this model (includes/reflex/reflection_manager.hpp). The call without an object is modelled as the `_make_reflection` of includes/cpp_reflection/reflection_manager.hpp (`Reflex.Registry.Invoke`). `Reflex.Registry.InvokeOnInstance` follows that same path, using `get_function_on_given_instance` and a cast of slot two. Its consequences: a free or static function called with an object fails with the signature error, there is no separate "cannot call a static function with an object" error, and the object's class is not compared with the owner's `Type`.
- `c_function.hpp` is not part of this model. Its holder is `Holders.Holder.CFunction`, and its `is_member_function` value is not stated.
- `function<R(P...)>` is modelled as a holder kind (`Holders.Holder.Function`) with the same forwarding call, but no registration path stores one.
- The registered user functions are foreign code. Each is an arbitrary Dafny function, of the parameters or of the object and the parameters. Effects outside the object it runs on (globals, I/O) are not modelled.
- Reference and out-parameters. `int&` parameters such as the one `do_something` writes through are not modelled, because values are passed by value.
- Argument types. The values passed are not checked against the parameter tags, because C++ checks this at compile time. `float` arguments have no `Value` form.
- Copies. Holders are values here, so a copy keeps its stored function trivially. Pointer identity and the sharing of `shared_ptr` holders are not modelled.
- Member functions of the older owner are `Obj -> Obj`. C++ destroys the temporary `Type()` that `call` runs the member on, so a successful `call` returns nothing observable. `LegacySpec.Call` returns the state that object reaches only to state that the stored member ran on a default object. Two members that differ only in that state are therefore distinct in the model, but no C++ caller can tell them apart. Effects outside the object, the only ones a caller could observe, are not modelled.
