# std23 call wrappers in Dafny

This project models the core of the `std23` call-wrapper library: the owning,
copyable wrapper `std23::function`, the non-owning `std23::function_ref`, and
the compile-time signature machinery they share. C++ types are data (the
datatype `CppTypes.Type`), so the library's metafunctions become total
functions, and a specialisation that does not exist becomes `None`. What a
wrapped callable does is an arbitrary value of arrow type (`Callables.Fun`,
`Callables.Method`). The library's own contracts hold for every callable;
only the small usage examples (a counter, for instance) fix a callable's
code.

- `cpp_types.dfy`, module `CppTypes`: type syntax and the standard type traits
  the headers use (`remove_cvref_t`, `decay_t`, `is_object_v`, …).
- `callables.dfy`, module `Callables`: values, plain functions, and stateful
  call operators (`Method`, which returns a result and the object's new
  state).
- `functional_base.dfy`, module `FunctionalBase`: `invoke_r`, `_param_t`,
  `_is_not_self`, `_looks_nullable_to`, `_adapt_signature`,
  `_not_qualifying_this` and `_drop_first_arg_to_invoke` from
  include/std23/__functional_base.h.
- `function_ref.dfy`, module `FunctionRefs`: the `function_ref` header.
  - A ref is an immutable value: a trampoline and a `storage` union.
  - Objects live in a `Memory` (address to state). This makes visible that
    the referent is used by address. The library itself changes nothing;
    in this model a callable can only change the object it is bound to.
  - Also here: `_qual_fn_sig`, `_unwrap_reference`, this header's own
    `_drop_first_arg_to_invoke`, and the deduction guides.
- `function.dfy`, module `Functions`: the `function` header.
  - `_opt_fn_sig`.
  - The three target-object kinds, as the `holder` field of class `Function`.
  - Owned callables and referred-to objects as heap `Box`es, so deep copy,
    move-out and aliasing are stated by object identity.
  - The deduction guides.

## Notes on the code

- `function` accepts no `noexcept` signature, because `_opt_fn_sig` has only
  the `R(Args...)` and `R(Args......)` forms.
- Every callable that `function` owns (anything but a function pointer or a
  `reference_wrapper`) is held through a `unique_ptr`, that is on the heap,
  never inline.

## Model

| member | source | states |
|---|---|---|
| FunctionalBase.InvokeR | include/std23/__functional_base.h:17-26 | the result is discarded exactly when `R` is (cv) void, otherwise passed back unchanged |
| FunctionalBase.ParamTCases | include/std23/__functional_base.h:28-40 | a trivially copyable `T` is passed as `T`, any other object type as `T&&`, a reference as itself |
| FunctionalBase.ParamTTransparent | include/std23/__functional_base.h:28-40 | the convention keeps the type once cv/ref are stripped, and choosing twice changes nothing |
| FunctionalBase.ParamTsTransparent | include/std23/__functional_base.h:38-40 | the pack expansion keeps the arity and, position by position, the parameter each entry stands for |
| FunctionalBase.IsNotSelfExactly | include/std23/__functional_base.h:42-44 | `_is_not_self` is false exactly for `Self` under some cv-qualifier and reference, in both directions |
| FunctionalBase.LooksNullableToExactly | include/std23/__functional_base.h:46-58 | true exactly for member pointers, pointers to functions and `Self<...>` instances; false for object pointers and other classes |
| FunctionalBase.LooksNullableIgnoresCvRef | include/std23/__functional_base.h:56-58 | cv-qualifiers and references on the initializer's type do not change the answer |
| FunctionalBase.AdaptSignatureExactly | include/std23/__functional_base.h:60-70 | `F*` maps to `F` for a function type `F`; every other type has no result |
| FunctionalBase.NotQualifyingThisForms | include/std23/__functional_base.h:72-130 | each of the twelve cv/ref-qualified forms of `R(Args...)` maps to the bare `R(Args...)` |
| FunctionalBase.NotQualifyingThisIdempotent | include/std23/__functional_base.h:72-130 | defined exactly on non-noexcept, non-variadic function types; the result is bare and maps to itself |
| FunctionalBase.DropFirstArgOfFunctionPointer | include/std23/__functional_base.h:132-144 | `R(*)(T, Args...) [noexcept]` gives `R(Args...) [noexcept]`: return type and noexcept kept, exactly one parameter fewer |
| FunctionalBase.DropFirstArgOfMemberPointer | include/std23/__functional_base.h:146-156 | a data member `T Cls::*` gives `T()`; a member function gives its signature with qualifiers stripped |
| FunctionalBase.DropFirstArgOfNoexceptMemberFunction | include/std23/__functional_base.h:153-156 | as written, a pointer to a `noexcept` member function has no result |
| FunctionRefs.QualFnSigForms | include/function_ref.h:27-64 | exactly four forms are accepted; `is_noexcept` is the noexcept flag; `cv<T>` is `T const` for the const forms and `T` otherwise |
| FunctionRefs.QualFnSigConstInherits | include/function_ref.h:53-64 | a const form inherits `function`, `is_noexcept` and `is_invocable_using` from its base; noexcept forms ask the nothrow question |
| FunctionRefs.UnwrapReferenceExactly | include/function_ref.h:95-123 | `reference_wrapper<U>` under any cv-qualification unwraps to `U`; every other type is unchanged |
| FunctionRefs.StorageRoundTrip | include/function_ref.h:127-158 | `get<T>(storage(p)) == p` for object, const-object and function pointers, each through its own union member |
| FunctionRefs.GetOnlyWhatWasStored | include/function_ref.h:127-158 | `get<T>` succeeds only on storage built from a `T*` |
| FunctionRefs.Invoke | include/function_ref.h:261-264 | a call keeps the set of live objects and leaves the ref callable again; in this model it changes no object but the one the call works on (the referent, or the object a wrapper receiver refers to) |
| FunctionRefs.FromFunctionPointer | include/function_ref.h:185-194 | invoking the ref returns `invoke_r<R>(f, args...)` on any memory; the ref adds no effect of its own, and a `Fun` has none |
| FunctionRefs.FromCallable | include/function_ref.h:196-206 | rejects `function_ref` itself; stores the unwrapped referent's address; a call runs its call operator on that object, as const when `cv<T>` is const |
| FunctionRefs.FromFunctionReferent | include/function_ref.h:196-206 | for a function lvalue or a `reference_wrapper` to a function, the function's address goes to `fp_`; `cv<T>` has no effect, and invoking calls the function; the ref adds no effect of its own |
| FunctionRefs.FromNontype | include/function_ref.h:208-213 | invoking returns `invoke_r<R>(F, args...)`, and the result does not depend on what the storage holds |
| FunctionRefs.FromNontypeWithReceiver | include/function_ref.h:215-228 | accepted exactly when `unwrap_reference_t<U>` is an lvalue reference; the ref stores the receiver (unwrapped for an rvalue `reference_wrapper`); the call runs `F` on it, or, when the receiver is itself a `reference_wrapper`, on the object that wrapper refers to at the time of the call |
| FunctionRefs.WrapperReceiverReachesReferent | include/function_ref.h:215-228 | with an lvalue `reference_wrapper` to `x` as the receiver, a call updates `x` and leaves the wrapper unchanged |
| FunctionRefs.FromNontypeWithFunctionReceiver | include/function_ref.h:215-228 | for a function receiver, accepted exactly when `unwrap_reference_t<U>` is an lvalue reference; invoking calls `F(g, args...)` with the stored function and changes no object |
| FunctionRefs.FromNontypeWithPointer | include/function_ref.h:230-240 | the call runs `F` on the object at the stored pointer, as const when `cv<T>` is const |
| FunctionRefs.CounterCountsCalls | include/function_ref.h:196-206 | after `n` calls through a ref bound to a counter, the external counter has gone up by `n` and no other object changed |
| FunctionRefs.DropFirstArgVersionsCompared | include/function_ref.h:278-304 | this header's version drops `noexcept` from function pointers and keeps member-function qualifiers; data member pointers agree with the base header's version |
| FunctionRefs.GuidesForFunctionPointers | include/function_ref.h:309-318 | `function_ref(F*)` and `function_ref(nontype<V>)` deduce the same signature, the pointee `F` (both are `_adapt_signature`); any other `nontype` value deduces nothing |
| FunctionRefs.GuideFromNontypeWithReceiverDeduces | include/function_ref.h:320-322 | `nontype<V>, obj` deduces the signature without its first parameter, never noexcept; a member function keeps its qualifiers |
| Functions.OptFnSigForms | include/std23/function.h:13-33 | only unqualified, non-noexcept function types are accepted; `function_type` drops only the `...` and is a fixpoint; a variadic signature asks about a trailing `va_list` |
| Functions.LvalueInvocable | include/std23/function.h:133-135 | the converting constructor asks whether `R` can be returned from invoking `T&` with exactly the signature's parameters, followed by `va_list` for a variadic signature |
| Functions.UnwrapRefDecay | include/std23/function.h:154-157 | the target kind is chosen from the decayed type, with a `reference_wrapper<U>` turned into `U&` |
| Functions.LeftBehind | include/std23/function.h:96-99 | a move leaves the holder's kind in place; only an owning target's pointer is moved out (null) |
| Functions.Call | include/std23/function.h:50-123 | `bad_function_call` exactly for the empty target; otherwise a value is returned exactly when `R` is not void |
| Functions.After | include/std23/function.h:68-123 | in this model a call changes only the state of the object the target calls on, never the target's kind or code |
| Functions.PointersAreHeldByValue | include/std23/function.h:68-70 | `is_pointer_v<unwrap_ref_decay_t<F>>`, the test that keeps a target by value rather than through a `unique_ptr`, holds exactly for function-pointer initializers |
| Functions.NullTestCoversNullValues | include/std23/function.h:197-204 | the null test is compiled exactly for function pointers, member pointers and `function` values, so every initializer that can be null is tested |
| Functions.Installed | include/std23/function.h:189-207 | an initializer installs the empty target exactly when it compares equal to `nullptr` |
| Functions.Function.Target | include/std23/function.h:172-181 | the target is moved out exactly for an owning holder with a null pointer, and is a plain function exactly for a function-pointer holder |
| Functions.Function.constructor | include/std23/function.h:186 | a default-constructed function holds the empty target, so `bool(f)` is false and `f == nullptr` |
| Functions.Function.Null | include/std23/function.h:187 | a function built from `nullptr` is the same as a default-constructed one |
| Functions.Function.FromCallable | include/std23/function.h:189-207 | null initializers give the empty state; exactly the targets whose type is a pointer (function pointers) are held by value, reference wrappers by reference, everything else in a fresh heap box |
| Functions.Function.Copy | include/std23/function.h:209 | the copy has the same kind and target; an owned target is copied into a fresh box, a pointer or reference is copied as it is |
| Functions.Function.Move | include/std23/function.h:210 | the new object takes over the target (an owned box by identity); the source keeps its kind with an owning pointer moved out |
| Functions.Function.CopyAssign | include/std23/function.h:212-221 | self-assignment changes nothing, even on a moved-from function; otherwise this object gets a deep copy of `other`'s target, of the same kind (an owned target in a fresh box, a reference target still referring to the same object), and `other` is unchanged |
| Functions.Function.MoveAssign | include/std23/function.h:223-232 | self-assignment changes nothing, even on a moved-from function; otherwise this object gets `other`'s target and `other` keeps its kind |
| Functions.Function.Swap | include/std23/function.h:234-235 | the two holders are exchanged, also when an object is swapped with itself |
| Functions.Function.HasTarget | include/std23/function.h:239-242 | `bool(f)` is false exactly when the target is the empty one |
| Functions.Function.EqualsNull | include/std23/function.h:244-247 | `f == nullptr` holds exactly when the target is the empty one |
| Functions.Function.Invoke | include/std23/function.h:249-252 | the outcome is that of calling the target; an owned or referred-to object is updated in place, and the holder is unchanged |
| Functions.GuidesDeduce | include/std23/function.h:285-294 | `function(F*)` deduces `F`; a closure whose call operator is `R(Args...)` under any qualifiers deduces `R(Args...)`, a noexcept one deduces nothing |
| Functions.CopiesAreIndependent | include/std23/function.h:88-94 | calling a function that owns a counter does not change the counter in its copy |
| Functions.ReferencesAreShared | include/std23/function.h:102-123 | a function made from `std::ref(x)` and its copy both see calls made through each of them, as does `x`, and each call returns the count so far (for a non-void `R`) |
| Functions.AssignedReferencesAreShared | include/std23/function.h:102-123 | after copy assignment from a function made from `std::ref(x)`, this function refers to `x` and a call through it is seen by `x` |
| Functions.NullPointerGivesEmpty | include/std23/function.h:197-204 | a null function pointer gives a function equal to `nullptr` whose call throws `bad_function_call` |
| Functions.SelfCopyAssignOfMovedFrom | include/std23/function.h:212-221 | copy-assigning a moved-from function to itself leaves it moved-from and still `true` |
| Functions.SwapTwice | include/std23/function.h:234-235 | swapping twice restores both functions |
| Functions.MoveKeepsBehaviour | include/std23/function.h:96-99 | a moved-from function still converts to `true`, and its new owner calls what it called |

## Left out

- The C-variadic call operator (include/std23/function.h:264-274) rests on `va_start`/`va_end` and the platform ABI. The model keeps only `is_variadic` and the trailing `va_list` of `is_invocable_using`; `Function.Invoke` requires a non-variadic signature.
- The GCC-only `function_ref` constructor that converts a bound member-function pointer into a plain function pointer (include/function_ref.h:242-259), and the `_up_cast` helpers it uses, depend on a compiler extension and on object layout.
- Placement new, `std::launder`, the `alignas` byte buffer and `reinterpret_cast` (include/std23/function.h:167-181) are replaced by the `holder` field. The compile-time check that a target fits the buffer (line 195) has nothing to check in that form.
- `operator bool` uses `dynamic_cast` to test for the empty target; here it is a test of the holder's tag.
- Overload resolution, `requires` clauses and `noexcept` specifications on constructors are not modelled. The invocability questions are formed (`InvocableQuery`, `Functions.LvalueInvocable`, `QualSig.InvocableUsing`) but not decided. `is_viable_initializer` (copy- and direct-constructibility) is not modelled.
- `std::invoke` on arbitrary callables is abstract: a callable is a value of arrow type. Converting the callee's result to `R` is not modelled, since results are plain values.
- Side effects of a callable beyond the object it is bound to are not modelled: a `Fun` is pure, and a `Method` changes only the object it runs on. A lambda capturing by reference, a function writing a global, or an argument passed by reference can change other state in C++. So the "changes no other object" clauses of `FunctionRefs.Invoke` and `Functions.After` describe the wrappers, which add no effects of their own, and not every callable.
- A `nontype<F>` receiver that is a `reference_wrapper` is assumed to be looked through by `std::invoke`, so `F` works on the wrapper's referent. An `F` that takes the wrapper itself by non-const reference and rebinds it is not modelled.
- Exceptions thrown by a wrapped callable are not modelled; the only exception is the `bad_function_call` outcome of the empty target.
- Allocation details of `make_unique` are reduced to "a fresh `Box`". Destroying a `function` (`~function`, and the destruction inside move assignment and at the end of copy-and-swap) is not modelled, so boxes are never freed.
- Lifetime: a dangling `function_ref` or reference target is undefined behaviour. The model makes it a precondition (`Live`), and so is calling or copying a moved-out owning target.
- A call made through a const access path (`cv<T>` const) may only call const members. The model runs the same code and discards the state change.
- `std::decay_t` on array types is not modelled; no array types are represented.
- A `function` built from another `function` specialisation is modelled by the callable that function holds, copied into a fresh box. What the inner function's own holder kind adds (a shared referent, a function pointer) is not modelled.
- `invoke_r`, `_param_t`, `_is_not_self` and `_adapt_signature` are declared identically in both headers (include/function_ref.h:16-25, 66-77, 91-93, 267-276). They are modelled once, in `FunctionalBase`, and `FunctionRefs` uses those definitions.
- `function_ref`'s `fptr_`/`obj_` are written only in constructors' member-initialiser lists; the implicit copy assignment replaces both at once. This is modelled by making a ref an immutable value, which an assignment replaces as a whole; there is no separate member that states it.
