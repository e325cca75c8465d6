/**
 * The helpers shared by both wrappers (include/std23/__functional_base.h):
 * `invoke_r`, the parameter-passing convention `_param_t`, the constructor
 * guards `_is_not_self` and `_looks_nullable_to`, and the signature
 * transforms used by the deduction guides. All of them are compile-time
 * case analyses on types, so they are functions on `CppTypes.Type`; a
 * specialisation that does not exist is `None`.
 */
module FunctionalBase {
  import opened CppTypes
  import opened Callables

  datatype Option<T> = None | Some(value: T)

  // ---- invoke_r ----

  /** What a call hands back to its caller: nothing when the declared
      return type is void. */
  datatype Ret = NoValue | Returns(value: Value)

  /** The question `std::is_invocable_r_v<ret, args...>` (or its nothrow
      variant) asks about a provider; the library only forms these questions,
      the compiler answers them. */
  datatype InvocableQuery = IsInvocableR(ret: Type, args: seq<Type>, nothrow: bool)

  /** `invoke_r<R>(f, args...)` once `f` has been called and returned
      `result`: the callee's result is discarded when `R` is void and
      passed back otherwise. The call itself, and whatever it changes,
      happens in both cases. */
  function InvokeR(r: Type, result: Value): (ret: Ret)
    ensures ret.NoValue? <==> IsVoid(r)
    ensures ret.Returns? ==> ret.value == result
  {
    if IsVoid(r) then NoValue else Returns(result)
  }

  // ---- _param_t ----

  /** `_param_t<T>`: pass by value when trivially copyable, otherwise by
      rvalue reference. */
  function ParamT(t: Type): (p: Type) {
    if IsTriviallyCopyable(t) then t else AddRvalueReference(t)
  }

  /** `_param_t<Args>...`, the pack expansion over a parameter list. */
  function ParamTs(ps: seq<Type>): (qs: seq<Type>) {
    if ps == [] then [] else [ParamT(ps[0])] + ParamTs(ps[1..])
  }

  /** A trivially copyable parameter is passed as itself; any other object
      parameter as an rvalue reference to it; a reference stays what it is. */
  lemma ParamTCases(t: Type)
    ensures IsTriviallyCopyable(t) ==> ParamT(t) == t
    ensures !IsTriviallyCopyable(t) && IsObject(t) ==> ParamT(t) == RRef(t)
    ensures IsReference(t) ==> ParamT(t) == t
  {
  }

  /** The convention is a calling-convention choice only: the parameter's
      type with cv and reference removed is unchanged, and choosing twice
      chooses nothing new. */
  lemma ParamTTransparent(t: Type)
    ensures RemoveCvRef(ParamT(t)) == RemoveCvRef(t)
    ensures ParamT(ParamT(t)) == ParamT(t)
  {
  }

  /** The expansion keeps the arity and, position by position, the type
      each parameter stands for. */
  lemma {:induction false} ParamTsTransparent(ps: seq<Type>)
    ensures |ParamTs(ps)| == |ps|
    ensures forall i :: 0 <= i < |ps| ==> ParamTs(ps)[i] == ParamT(ps[i])
    ensures forall i :: 0 <= i < |ps| ==> RemoveCvRef(ParamTs(ps)[i]) == RemoveCvRef(ps[i])
  {
    if ps != [] {
      ParamTsTransparent(ps[1..]);
      forall i | 0 <= i < |ps|
        ensures ParamTs(ps)[i] == ParamT(ps[i])
        ensures RemoveCvRef(ParamTs(ps)[i]) == RemoveCvRef(ps[i])
      {
        ParamTTransparent(ps[i]);
        if i > 0 {
          assert ParamTs(ps)[i] == ParamTs(ps[1..])[i - 1];
        }
      }
    }
  }

  // ---- _is_not_self ----

  /** `_is_not_self<T, Self>` */
  predicate IsNotSelf(t: Type, self: Type) {
    RemoveCvRef(t) != self
  }

  /** A constructor guarded by `_is_not_self` rejects exactly the class
      itself under any cv-qualification and either kind of reference. */
  lemma IsNotSelfExactly(t: Type, self: Type)
    requires Canonical(t) && Unqualified(self)
    ensures !IsNotSelf(t, self) <==> exists cv, ref :: t == WithCvRef(self, cv, ref)
  {
    if !IsNotSelf(t, self) {
      WithCvRefOfRemoveCvRef(t);
    }
    if exists cv, ref :: t == WithCvRef(self, cv, ref) {
      var cv, ref :| t == WithCvRef(self, cv, ref);
      RemoveCvRefOfWithCvRef(self, cv, ref);
    }
  }

  // ---- _looks_nullable_to ----

  /** `_looks_nullable_to_impl<T, Self>`: the partial specialisation for
      `Self<S...>` wins, then the one for `F*`, then the primary template. */
  predicate LooksNullableImpl(t: Type, self: string) {
    if t.Inst? && t.tmpl == self then true
    else if t.Ptr? then IsFunction(t.pointee)
    else IsMemberPointer(t)
  }

  /** `_looks_nullable_to<S, Self>` */
  predicate LooksNullableTo(s: Type, self: string) {
    LooksNullableImpl(RemoveCvRef(s), self)
  }

  /** An initializer looks nullable exactly when it is a member pointer, a
      pointer to a function or a specialisation of the `Self` template;
      object pointers and all other classes do not. */
  lemma LooksNullableToExactly(s: Type, self: string)
    requires Canonical(s)
    ensures var u := RemoveCvRef(s);
      LooksNullableTo(s, self) <==>
        u.MemPtr? || (u.Ptr? && IsFunction(u.pointee)) || (u.Inst? && u.tmpl == self)
  {
    WithCvRefOfRemoveCvRef(s);
  }

  /** Only the type itself is asked: cv-qualifiers and references on the
      initializer's type do not matter. */
  lemma LooksNullableIgnoresCvRef(u: Type, cv: Cv, ref: RefQual, self: string)
    requires Unqualified(u)
    ensures LooksNullableTo(WithCvRef(u, cv, ref), self) == LooksNullableTo(u, self)
  {
    RemoveCvRefOfWithCvRef(u, cv, ref);
  }

  // ---- _adapt_signature ----

  /** `_adapt_signature<T>::type`: defined for pointers to functions only.
      The guides `function(F*)` and `function_ref(F*)` deduce the same `F`
      from `F*`, so this is also the signature those guides deduce. */
  function AdaptSignature(t: Type): Option<Type> {
    if t.Ptr? && IsFunction(t.pointee) then Some(t.pointee) else None
  }

  /** `_adapt_signature` maps `F*` to `F` for a function type `F`, and is
      undefined for every other type. */
  lemma AdaptSignatureExactly(t: Type, f: Type)
    ensures AdaptSignature(t) == Some(f) <==> t == Ptr(f) && IsFunction(f)
    ensures AdaptSignature(t).None? <==> !(t.Ptr? && IsFunction(t.pointee))
  {
  }

  // ---- _not_qualifying_this ----

  /** `_not_qualifying_this<S>::type`: the unqualified form `R(Args...)`
      maps to itself and each of the eleven cv/ref-qualified forms inherits
      from it. There is no specialisation for `noexcept` or C-variadic
      function types, nor for anything that is not a function type. */
  function NotQualifyingThis(s: Type): (r: Option<Type>)
    decreases if s.Fn? && (s.cv != NoCv || s.ref != NoRef) then 1 else 0
  {
    match s
    case Fn(ret, ps, false, cv, ref, false) =>
      if cv == NoCv && ref == NoRef then Some(s)
      else NotQualifyingThis(Signature(ret, ps))
    case _ => None
  }

  /** All twelve cv/ref-qualified forms of `R(Args...)` map to the bare
      `R(Args...)`. */
  lemma NotQualifyingThisForms(ret: Type, ps: seq<Type>, cv: Cv, ref: RefQual)
    ensures NotQualifyingThis(Fn(ret, ps, false, cv, ref, false)) == Some(Signature(ret, ps))
  {
  }

  /** `_not_qualifying_this` is defined exactly on the non-noexcept,
      non-variadic function types, its result is unqualified, and applying
      it again changes nothing. */
  lemma NotQualifyingThisIdempotent(s: Type)
    ensures NotQualifyingThis(s).Some? <==> s.Fn? && !s.variadic && !s.noexcept
    ensures NotQualifyingThis(s).Some? ==>
      var u := NotQualifyingThis(s).value;
      u == Signature(s.ret, s.params) && NotQualifyingThis(u) == Some(u)
  {
  }

  // ---- _drop_first_arg_to_invoke (this header's version) ----

  /** `_drop_first_arg_to_invoke<T>::type` as declared in
      __functional_base.h: a function pointer loses its first parameter and
      keeps `noexcept`; a data member pointer `T Cls::*` gives `T()`; a
      member function pointer gives its function type through
      `_not_qualifying_this`. */
  function DropFirstArgToInvoke(t: Type): Option<Type> {
    match t
    case Ptr(Fn(ret, ps, false, cv, ref, ne)) =>
      if cv == NoCv && ref == NoRef && |ps| >= 1
      then Some(Fn(ret, ps[1..], false, NoCv, NoRef, ne))
      else None
    case MemPtr(m, _) =>
      if IsObject(m) then Some(Signature(m, []))
      else if IsFunction(m) then NotQualifyingThis(m)
      else None
    case _ => None
  }

  /** A pointer to a function of at least one parameter: the return type
      and `noexcept` are kept and exactly the first parameter is dropped. */
  lemma DropFirstArgOfFunctionPointer(ret: Type, ps: seq<Type>, ne: bool)
    requires |ps| >= 1
    ensures var r := DropFirstArgToInvoke(Ptr(Fn(ret, ps, false, NoCv, NoRef, ne)));
      r.Some? && r.value.ret == ret && r.value.noexcept == ne &&
      r.value.params == ps[1..] && |r.value.params| + 1 == |ps|
  {
  }

  /** Member pointers: a data member `T Cls::*` gives `T()`, and a member
      function gives its signature with cv and ref qualifiers stripped. */
  lemma DropFirstArgOfMemberPointer(m: Type, cls: Type)
    ensures IsObject(m) ==> DropFirstArgToInvoke(MemPtr(m, cls)) == Some(Signature(m, []))
    ensures m.Fn? && !m.variadic && !m.noexcept ==>
      DropFirstArgToInvoke(MemPtr(m, cls)) == Some(Signature(m.ret, m.params))
  {
    if m.Fn? && !m.variadic && !m.noexcept {
      NotQualifyingThisForms(m.ret, m.params, m.cv, m.ref);
    }
  }

  /** As written, a `noexcept` member function has no result: no
      `_not_qualifying_this` specialisation matches its function type. */
  lemma DropFirstArgOfNoexceptMemberFunction(ret: Type, ps: seq<Type>, cv: Cv, ref: RefQual, cls: Type)
    ensures DropFirstArgToInvoke(MemPtr(Fn(ret, ps, false, cv, ref, true), cls)).None?
  {
  }
}
