/**
 * The non-owning callable reference `std23::function_ref`
 * (include/function_ref.h) and the signature helpers that header declares.
 *
 * After construction a `function_ref` is an immutable pair: a trampoline
 * chosen by the constructor and an untyped `storage` word. The trampoline
 * knows the static type of what was bound (here: its `Type` and its code);
 * the storage only knows where the referent lives. Objects live in a
 * `Memory`, a map from addresses to their states, so that "the referent is
 * used by address and never copied" is visible: calls read and update the
 * state at the stored address and nowhere else.
 */
module FunctionRefs {
  import opened CppTypes
  import opened Callables
  import opened FunctionalBase

  // ---- _qual_fn_sig ----

  /** What `_qual_fn_sig<Sig>` exposes: the bare function type `function`
      (as its return and parameter types), `is_noexcept`, and whether `cv<T>`
      is `T const`. */
  datatype QualSig = QualSig(ret: Type, params: seq<Type>, isNoexcept: bool, isConst: bool) {

    /** `function` */
    function Function(): Type {
      Signature(ret, params)
    }

    /** `cv<T>` */
    function Cv(t: Type): Type {
      if isConst then AddConst(t) else t
    }

    /** `is_invocable_using<T...>`: the providers' types come first, then the
        signature's parameters; a noexcept signature asks the nothrow question. */
    function InvocableUsing(ts: seq<Type>): InvocableQuery {
      IsInvocableR(ret, ts + params, isNoexcept)
    }
  }

  /** `_qual_fn_sig<Sig>`: four specialisations. The two `const` forms derive
      from the non-const ones and only redefine `cv`. */
  function QualFnSig(s: Type): Option<QualSig>
    decreases if s.Fn? && s.cv == ConstCv then 1 else 0
  {
    match s
    case Fn(ret, ps, false, cv, NoRef, ne) =>
      if cv == NoCv then Some(QualSig(ret, ps, ne, false))
      else if cv == ConstCv then
        match QualFnSig(Fn(ret, ps, false, NoCv, NoRef, ne))
        case Some(base) => Some(base.(isConst := true))
        case None => None
      else None
    case _ => None
  }

  /** The four accepted forms, `R(Args...)`, `R(Args...) noexcept`,
      `R(Args...) const` and `R(Args...) const noexcept`, and nothing else:
      `is_noexcept` is the `noexcept` flag, the `const` forms make `cv<T>`
      `T const`, and the non-const forms leave `cv<T>` as `T`. */
  lemma QualFnSigForms(s: Type, t: Type)
    ensures QualFnSig(s).Some? <==>
      s.Fn? && !s.variadic && s.ref == NoRef && (s.cv == NoCv || s.cv == ConstCv)
    ensures QualFnSig(s).Some? ==>
      var q := QualFnSig(s).value;
      && q.Function() == Signature(s.ret, s.params)
      && q.isNoexcept == s.noexcept
      && q.isConst == (s.cv == ConstCv)
      && q.Cv(t) == (if s.cv == ConstCv then AddConst(t) else t)
  {
  }

  /** A `const` form inherits everything from its non-const base but `cv`;
      a noexcept form asks whether invocation is nothrow, the others whether
      it is possible at all. */
  lemma QualFnSigConstInherits(ret: Type, ps: seq<Type>, ne: bool, ts: seq<Type>)
    ensures var base := QualFnSig(Fn(ret, ps, false, NoCv, NoRef, ne));
      var constant := QualFnSig(Fn(ret, ps, false, ConstCv, NoRef, ne));
      && base.Some? && constant.Some?
      && constant.value.Function() == base.value.Function()
      && constant.value.isNoexcept == base.value.isNoexcept
      && constant.value.InvocableUsing(ts) == base.value.InvocableUsing(ts)
      && constant.value.InvocableUsing(ts).nothrow == ne
      && constant.value.InvocableUsing(ts).args == ts + ps
  {
  }

  // ---- _unwrap_reference ----

  /** A `std::reference_wrapper<U>` under some cv-qualification. */
  predicate IsRefWrapper(t: Type) {
    RemoveCv(t).RefWrap?
  }

  /** `_unwrap_reference<T>::type`: specialised for `reference_wrapper<U>`
      and its `const`, `volatile` and `const volatile` forms. */
  function UnwrapReference(t: Type): Type {
    match t
    case RefWrap(u) => u
    case Qual(RefWrap(u), _) => u
    case _ => t
  }

  /** `_remove_and_unwrap_reference_t<T>` */
  function RemoveAndUnwrapReference(t: Type): Type {
    UnwrapReference(RemoveReference(t))
  }

  /** A reference wrapper under any cv-qualification unwraps to its referent
      type; every other type is left alone. */
  lemma UnwrapReferenceExactly(t: Type, u: Type, cv: Cv)
    ensures UnwrapReference(WithCvRef(RefWrap(u), cv, NoRef)) == u
    ensures !IsRefWrapper(t) ==> UnwrapReference(t) == t
  {
  }

  /** `std::unwrap_reference_t<T>`, the standard trait the receiver
      constructor uses: unlike `_unwrap_reference` it looks through neither
      cv-qualifiers nor references, and it yields `U&`. */
  function StdUnwrapReference(t: Type): Type {
    if t.RefWrap? then LRef(t.referent) else t
  }

  // ---- _function_ref_base::storage and get ----

  /** An address in memory; 0 is the null pointer. */
  type Addr = nat

  const NullAddr: Addr := 0

  /** A pointer value of type `T*`. */
  datatype Pointer = ObjectPtr(addr: Addr) | ConstObjectPtr(addr: Addr) | FunctionPtr(f: Fun)

  /** The `storage` union, as the member that was last written. */
  datatype Storage = P(addr: Addr) | CP(addr: Addr) | FP(f: Fun)

  /** `storage()`: the default member `p_` holds nullptr. */
  const DefaultStorage := P(NullAddr)

  /** `p` is a value of type `T*` for the type `t`. */
  predicate PointerTo(t: Type, p: Pointer) {
    if IsConst(t) then p.ConstObjectPtr?
    else if IsObject(t) then p.ObjectPtr?
    else if IsFunction(t) then p.FunctionPtr?
    else false
  }

  /** The pointer of type `T*` to the object at `a`. */
  function ObjectPointer(t: Type, a: Addr): (p: Pointer)
    requires IsObject(t)
    ensures PointerTo(t, p)
  {
    if IsConst(t) then ConstObjectPtr(a) else ObjectPtr(a)
  }

  /** The three `storage` constructors: an object pointer goes to `p_`, a
      pointer to const object to `cp_`, a function pointer to `fp_`. */
  function Store(p: Pointer): Storage {
    match p
    case ObjectPtr(a) => P(a)
    case ConstObjectPtr(a) => CP(a)
    case FunctionPtr(f) => FP(f)
  }

  /** `get<T>(obj)`: reads `cp_` for a const `T`, `p_` for another object
      type, `fp_` otherwise. Reading a member other than the one last written
      is undefined; it is `None` here. */
  function Get(t: Type, s: Storage): Option<Pointer> {
    if IsConst(t) then (if s.CP? then Some(ConstObjectPtr(s.addr)) else None)
    else if IsObject(t) then (if s.P? then Some(ObjectPtr(s.addr)) else None)
    else if s.FP? then Some(FunctionPtr(s.f)) else None
  }

  /** Storing a `T*` and reading it back with `get<T>` gives the same pointer,
      through the union member that fits `T`. */
  lemma StorageRoundTrip(t: Type, p: Pointer)
    requires PointerTo(t, p)
    ensures Get(t, Store(p)) == Some(p)
  {
  }

  /** `get<T>` succeeds only on storage that a `T*` was stored into. */
  lemma GetOnlyWhatWasStored(t: Type, s: Storage, p: Pointer)
    requires IsObject(t) || IsFunction(t)
    requires Get(t, s) == Some(p)
    ensures PointerTo(t, p) && Store(p) == s
  {
  }

  // ---- function_ref ----

  /** The `fptr_` lambda each constructor installs. */
  datatype Trampoline =
      /** `function_ref(F* f)`, and `function_ref(F&& f)` when `T` is a
          function type: calls the function stored in `fp_`. */
    | CallFunction(fType: Type)
      /** `function_ref(F&& f)`: calls `cvref<T>` `*get<T>(fn_)`, whose
          call operator is `call`. */
    | CallObject(t: Type, call: Method)
      /** `function_ref(nontype<F>)`: calls the constant `F`. */
    | CallConstant(constant: Fun)
      /** `function_ref(nontype<F>, obj)`: calls `F(*get<T>(this_), args...)`. */
    | CallWithReceiver(t: Type, call: Method)
      /** `function_ref(nontype<F>, obj)` when `T` is a `reference_wrapper`:
          `std::invoke` looks through the wrapper `*get<T>(this_)`, so `F`
          runs on the object the wrapper refers to when the call is made. */
    | CallThroughWrapper(t: Type, call: Method)
      /** `function_ref(nontype<F>, obj)` for a function lvalue `obj`: calls
          `F(*get<T>(this_), args...)` with the function stored in `fp_`. */
    | CallWithFunction(t: Type, callOn: FunctionCall)
      /** `function_ref(nontype<F>, cv<T>* obj)`: calls `F(get<cv<T>>(this_), args...)`;
          `t` is already `cv<T>`. */
    | CallWithPointer(t: Type, call: Method)

  /** A `function_ref<sig>`: `fptr_` and `obj_`. */
  datatype FunctionRef = FunctionRef(sig: Type, fptr: Trampoline, obj: Storage)

  /** The class `function_ref<sig, function>` itself, with the second
      template argument defaulted to `_qual_fn_sig<sig>::function`. */
  function FunctionRefType(sig: Type): Type
    requires QualFnSig(sig).Some?
  {
    Inst("function_ref", [sig, QualFnSig(sig).value.Function()], true)
  }

  /** The state of every live object, by address. */
  type Memory = map<Addr, Value>

  /** What a call returns and the memory afterwards. */
  datatype Result = Result(ret: Ret, mem: Memory)

  /** The object at `a` can be used: the address is not null and the object
      is alive. */
  predicate Live(a: Addr, mem: Memory) {
    a != NullAddr && a in mem
  }

  /** The return type `R` of the signature. */
  function ReturnType(sig: Type): Type
    requires QualFnSig(sig).Some?
  {
    QualFnSig(sig).value.ret
  }

  /** The object the trampoline works on, if it works on one. */
  function Referent(r: FunctionRef): Option<Addr> {
    match r.fptr
    case CallObject(t, _) => ObjectAddress(Get(t, r.obj))
    case CallWithReceiver(t, _) => ObjectAddress(Get(t, r.obj))
    case CallThroughWrapper(t, _) => ObjectAddress(Get(t, r.obj))
    case CallWithPointer(t, _) => ObjectAddress(Get(t, r.obj))
    case _ => None
  }

  function ObjectAddress(p: Option<Pointer>): Option<Addr> {
    match p
    case Some(ObjectPtr(a)) => Some(a)
    case Some(ConstObjectPtr(a)) => Some(a)
    case _ => None
  }

  /** The object the `reference_wrapper` at `w` refers to: a wrapper's
      state is the address it holds. */
  function WrapperTarget(w: Addr, mem: Memory): Option<Addr> {
    if w in mem && mem[w] >= 0 then Some(mem[w] as Addr) else None
  }

  /** The wrapper at `w` is alive and refers to another object that is
      alive. */
  predicate WrapperUsable(w: Addr, mem: Memory) {
    && Live(w, mem)
    && WrapperTarget(w, mem).Some?
    && Live(WrapperTarget(w, mem).value, mem)
    && WrapperTarget(w, mem).value != w
  }

  /** The object a call through `r` works on: the referent, or, through a
      wrapper, the object the wrapper refers to in `mem`. */
  function CalledObject(r: FunctionRef, mem: Memory): Option<Addr> {
    match r.fptr
    case CallThroughWrapper(_, _) =>
      if Referent(r).Some? then WrapperTarget(Referent(r).value, mem) else None
    case _ => Referent(r)
  }

  /** `operator()` is defined: the signature is valid, the trampoline reads
      the union member that was written, and the referent, if any, is alive
      (and, for a wrapper, so is the object it refers to). */
  predicate CanInvoke(r: FunctionRef, mem: Memory) {
    && QualFnSig(r.sig).Some?
    && match r.fptr
       case CallFunction(f) => Get(f, r.obj).Some? && Get(f, r.obj).value.FunctionPtr?
       case CallWithFunction(t, _) => Get(t, r.obj).Some? && Get(t, r.obj).value.FunctionPtr?
       case CallConstant(_) => true
       case CallThroughWrapper(_, _) => Referent(r).Some? && WrapperUsable(Referent(r).value, mem)
       case _ => Referent(r).Some? && Live(Referent(r).value, mem)
  }

  /** Runs `call` on the object at `a`. Through a const access path the
      call cannot change the object. */
  function RunOn(ret: Type, call: Method, a: Addr, readOnly: bool, mem: Memory, args: seq<Value>): (res: Result)
    requires a in mem
    ensures res.mem.Keys == mem.Keys
  {
    var step := call(mem[a], args);
    Result(InvokeR(ret, step.result), if readOnly then mem else mem[a := step.after])
  }

  /** `operator()(args...) const`: `fptr_(obj_, args...)`. The ref itself is
      not an output: nothing about it can change. In this model only the
      state of the object the call works on can change, and the ref can be
      called again on the memory it leaves. */
  function Invoke(r: FunctionRef, mem: Memory, args: seq<Value>): (res: Result)
    requires CanInvoke(r, mem)
    ensures res.mem.Keys == mem.Keys && CanInvoke(r, res.mem)
    ensures CalledObject(r, res.mem) == CalledObject(r, mem)
    ensures forall a :: a in mem && Some(a) != CalledObject(r, mem) ==> res.mem[a] == mem[a]
  {
    var q := QualFnSig(r.sig).value;
    var ret := q.ret;
    match r.fptr
    case CallFunction(f) => Result(InvokeR(ret, Get(f, r.obj).value.f(args)), mem)
    case CallObject(t, call) => RunOn(ret, call, Referent(r).value, IsConst(q.Cv(t)), mem, args)
    case CallConstant(f) => Result(InvokeR(ret, f(args)), mem)
    case CallWithReceiver(t, f) => RunOn(ret, f, Referent(r).value, IsConst(q.Cv(t)), mem, args)
    case CallThroughWrapper(t, f) =>
      RunOn(ret, f, CalledObject(r, mem).value, IsConst(UnwrapReference(t)), mem, args)
    case CallWithFunction(t, f) => Result(InvokeR(ret, f(Get(t, r.obj).value.f, args)), mem)
    case CallWithPointer(t, f) => RunOn(ret, f, Referent(r).value, IsConst(t), mem, args)
  }

  // ---- constructors ----

  /** `function_ref(F* f)` for a function type `F`: invoking the ref returns
      `invoke_r<R>(f, args...)` and touches no memory. */
  function FromFunctionPointer(sig: Type, fType: Type, f: Fun): (r: FunctionRef)
    requires QualFnSig(sig).Some? && IsFunction(fType)
    ensures r.sig == sig && r.obj == FP(f)
    ensures forall mem :: CanInvoke(r, mem)
    ensures forall mem, args :: Invoke(r, mem, args) == Result(InvokeR(ReturnType(sig), f(args)), mem)
  {
    StorageRoundTrip(fType, FunctionPtr(f));
    FunctionRef(sig, CallFunction(fType), Store(FunctionPtr(f)))
  }

  /** The argument of a forwarding-reference constructor: an object at
      `addr`, or a `std::reference_wrapper` at `self` referring to the
      object at `target`. */
  datatype Arg = Object(addr: Addr) | Wrapper(self: Addr, target: Addr) {
    /** The object `static_cast<T&>(f)` denotes once a wrapper is unwrapped. */
    function Unwrapped(): Addr {
      if Object? then addr else target
    }
    /** The object the expression itself denotes. */
    function Itself(): Addr {
      if Object? then addr else self
    }
  }

  /** `arg` is a value of the forwarding-reference type `fType`. */
  predicate ArgOfType(fType: Type, arg: Arg) {
    arg.Wrapper? <==> IsRefWrapper(RemoveReference(fType))
  }

  /** `function_ref(F&& f)`. `_is_not_self` rejects `function_ref` itself
      (the copy constructor is used instead). Otherwise the ref stores the
      address of the unwrapped referent, not a copy, and invoking the ref
      runs `T`'s call operator on that object as a `cv<T>` lvalue: a
      non-const call changes the state at that address. */
  function FromCallable(sig: Type, fType: Type, arg: Arg, call: Method): (r: Option<FunctionRef>)
    requires QualFnSig(sig).Some?
    requires ArgOfType(fType, arg) && IsObject(RemoveAndUnwrapReference(fType))
    ensures r.None? <==> !IsNotSelf(fType, FunctionRefType(sig))
    ensures r.Some? ==> Referent(r.value) == Some(arg.Unwrapped())
    ensures r.Some? ==>
      var t := RemoveAndUnwrapReference(fType);
      var readOnly := IsConst(QualFnSig(sig).value.Cv(t));
      && (forall mem :: Live(arg.Unwrapped(), mem) ==> CanInvoke(r.value, mem))
      && (forall mem, args :: Live(arg.Unwrapped(), mem) ==>
            Invoke(r.value, mem, args) == RunOn(ReturnType(sig), call, arg.Unwrapped(), readOnly, mem, args))
  {
    if !IsNotSelf(fType, FunctionRefType(sig)) then None
    else
      var t := RemoveAndUnwrapReference(fType);
      StorageRoundTrip(t, ObjectPointer(t, arg.Unwrapped()));
      Some(FunctionRef(sig, CallObject(t, call), Store(ObjectPointer(t, arg.Unwrapped()))))
  }

  /** `function_ref(F&& f)` when `T` is a function type: `f` is a function
      lvalue `g`, or a `reference_wrapper` to `g`. `static_cast<T&>(f)` is
      `g`, so its address is stored in `fp_` and a call calls `g`; `cv<T>`
      has no effect on a function type, and no object is touched. */
  function FromFunctionReferent(sig: Type, fType: Type, g: Fun): (r: FunctionRef)
    requires QualFnSig(sig).Some?
    requires IsFunction(RemoveAndUnwrapReference(fType))
    ensures IsNotSelf(fType, FunctionRefType(sig))
    ensures QualFnSig(sig).value.Cv(RemoveAndUnwrapReference(fType)) == RemoveAndUnwrapReference(fType)
    ensures Referent(r).None? && r.obj == FP(g)
    ensures forall mem :: CanInvoke(r, mem)
    ensures forall mem, args :: Invoke(r, mem, args) == Result(InvokeR(ReturnType(sig), g(args)), mem)
  {
    var t := RemoveAndUnwrapReference(fType);
    StorageRoundTrip(t, FunctionPtr(g));
    FunctionRef(sig, CallFunction(t), Store(FunctionPtr(g)))
  }

  /** `function_ref(nontype<F>)`: invoking calls `F(args...)`; the storage is
      never read. */
  function FromNontype(sig: Type, f: Fun): (r: FunctionRef)
    requires QualFnSig(sig).Some?
    ensures forall mem :: CanInvoke(r, mem)
    ensures forall mem, args :: Invoke(r, mem, args) == Result(InvokeR(ReturnType(sig), f(args)), mem)
    ensures forall s, mem :: CanInvoke(r.(obj := s), mem)
    ensures forall s, mem, args :: Invoke(r.(obj := s), mem, args) == Invoke(r, mem, args)
  {
    FunctionRef(sig, CallConstant(f), DefaultStorage)
  }

  /** `function_ref(nontype<F>, U&& obj)`. The receiver must be an lvalue
      once `std::unwrap_reference_t` is applied: an rvalue
      `reference_wrapper` is unwrapped to its referent, anything else is
      taken as it stands. The ref stores the receiver's address; invoking
      it calls `F(receiver, args...)` on the receiver's current state. When
      the receiver is itself a `reference_wrapper` (an lvalue one, say),
      `std::invoke` looks through it: `F` runs on the object the wrapper
      refers to at the time of the call, and the wrapper is left as it is. */
  function FromNontypeWithReceiver(sig: Type, f: Method, uType: Type, arg: Arg): (r: Option<FunctionRef>)
    requires QualFnSig(sig).Some?
    requires ArgOfType(uType, arg)
    requires StdUnwrapReference(uType).LRef? ==> IsObject(RemoveReference(StdUnwrapReference(uType)))
    ensures r.Some? <==> StdUnwrapReference(uType).LRef?
    ensures r.Some? ==>
      Referent(r.value) == Some(if uType.RefWrap? then arg.Unwrapped() else arg.Itself())
    ensures r.Some? && !IsRefWrapper(RemoveReference(StdUnwrapReference(uType))) ==>
      var receiver := if uType.RefWrap? then arg.Unwrapped() else arg.Itself();
      var t := RemoveReference(StdUnwrapReference(uType));
      var readOnly := IsConst(QualFnSig(sig).value.Cv(t));
      && (forall mem :: Live(receiver, mem) ==> CanInvoke(r.value, mem))
      && (forall mem, args :: Live(receiver, mem) ==>
            Invoke(r.value, mem, args) == RunOn(ReturnType(sig), f, receiver, readOnly, mem, args))
    ensures r.Some? && IsRefWrapper(RemoveReference(StdUnwrapReference(uType))) ==>
      var w := if uType.RefWrap? then arg.Unwrapped() else arg.Itself();
      var readOnly := IsConst(UnwrapReference(RemoveReference(StdUnwrapReference(uType))));
      && (forall mem :: WrapperUsable(w, mem) ==> CanInvoke(r.value, mem))
      && (forall mem, args :: WrapperUsable(w, mem) ==>
            Invoke(r.value, mem, args) ==
            RunOn(ReturnType(sig), f, WrapperTarget(w, mem).value, readOnly, mem, args))
  {
    var ty := StdUnwrapReference(uType);
    if !ty.LRef? then None
    else
      var t := RemoveReference(ty);
      var receiver := if uType.RefWrap? then arg.Unwrapped() else arg.Itself();
      StorageRoundTrip(t, ObjectPointer(t, receiver));
      var call := if IsRefWrapper(t) then CallThroughWrapper(t, f) else CallWithReceiver(t, f);
      Some(FunctionRef(sig, call, Store(ObjectPointer(t, receiver))))
  }

  /** An lvalue `reference_wrapper<X>` at `w` that refers to `x` as a
      `nontype<F>` receiver: a call updates `x`, as `F` on `rw.get()` does,
      and leaves the wrapper unchanged. */
  lemma WrapperReceiverReachesReferent(sig: Type, cls: Type, w: Addr, x: Addr, mem: Memory, args: seq<Value>)
    requires QualFnSig(sig).Some? && cls.Class?
    requires Live(w, mem) && Live(x, mem) && w != x && mem[w] == x
    ensures var r := FromNontypeWithReceiver(sig, Increment, LRef(RefWrap(cls)), Wrapper(w, x));
      && r.Some? && Referent(r.value) == Some(w)
      && var m := Invoke(r.value, mem, args).mem;
      m[x] == mem[x] + 1 && m[w] == mem[w]
  {
    var r := FromNontypeWithReceiver(sig, Increment, LRef(RefWrap(cls)), Wrapper(w, x));
    assert WrapperUsable(w, mem);
  }

  /** `function_ref(nontype<F>, U&& obj)` for a function receiver `g`:
      `U` is `G&` for a function lvalue, or an rvalue
      `reference_wrapper<G>`. The address of `g` goes to `fp_`, and invoking
      the ref calls `F(g, args...)`; no object is touched. */
  function FromNontypeWithFunctionReceiver(sig: Type, f: FunctionCall, uType: Type, g: Fun): (r: Option<FunctionRef>)
    requires QualFnSig(sig).Some?
    requires StdUnwrapReference(uType).LRef? ==> IsFunction(RemoveReference(StdUnwrapReference(uType)))
    ensures r.Some? <==> StdUnwrapReference(uType).LRef?
    ensures r.Some? ==>
      && Referent(r.value).None?
      && (forall mem :: CanInvoke(r.value, mem))
      && (forall mem, args :: Invoke(r.value, mem, args) == Result(InvokeR(ReturnType(sig), f(g, args)), mem))
  {
    var ty := StdUnwrapReference(uType);
    if !ty.LRef? then None
    else
      var t := RemoveReference(ty);
      StorageRoundTrip(t, FunctionPtr(g));
      Some(FunctionRef(sig, CallWithFunction(t, f), Store(FunctionPtr(g))))
  }

  /** `function_ref(nontype<F>, cv<T>* obj)`: the ref stores `obj`; invoking
      it calls `F(obj, args...)`, which works on the object at `obj`. */
  function FromNontypeWithPointer(sig: Type, f: Method, t: Type, obj: Addr): (r: FunctionRef)
    requires QualFnSig(sig).Some? && IsObject(t)
    ensures Referent(r) == Some(obj)
    ensures forall mem :: Live(obj, mem) ==> CanInvoke(r, mem)
    ensures var cvT := QualFnSig(sig).value.Cv(t);
      forall mem, args :: Live(obj, mem) ==>
        Invoke(r, mem, args) == RunOn(ReturnType(sig), f, obj, IsConst(cvT), mem, args)
  {
    var cvT := QualFnSig(sig).value.Cv(t);
    StorageRoundTrip(cvT, ObjectPointer(cvT, obj));
    FunctionRef(sig, CallWithPointer(cvT, f), Store(ObjectPointer(cvT, obj)))
  }

  // ---- repeated calls ----

  /** The memory after calling `r` `n` times with `args`. */
  function CallRepeatedly(r: FunctionRef, mem: Memory, args: seq<Value>, n: nat): (m: Memory)
    requires CanInvoke(r, mem)
    ensures m.Keys == mem.Keys
  {
    if n == 0 then mem else CallRepeatedly(r, Invoke(r, mem, args).mem, args, n - 1)
  }

  /** A counter: each call adds one to the object's state and returns it. */
  const Increment: Method := (s: Value, args: seq<Value>) => Step(s + 1, s + 1)

  /** A ref bound to a mutable counter at `a`: after `n` calls through the
      ref, the counter in the external object has gone up by `n`, and no
      other object has changed. */
  lemma {:induction false} CounterCountsCalls(sig: Type, cls: Type, a: Addr, mem: Memory, args: seq<Value>, n: nat)
    requires QualFnSig(sig).Some? && !QualFnSig(sig).value.isConst
    requires cls.Class? && Live(a, mem)
    ensures var r := FromCallable(sig, LRef(cls), Object(a), Increment);
      r.Some? &&
      var m := CallRepeatedly(r.value, mem, args, n);
      m[a] == mem[a] + n && forall b :: b in mem && b != a ==> m[b] == mem[b]
  {
    var r := FromCallable(sig, LRef(cls), Object(a), Increment).value;
    if n > 0 {
      var mem' := Invoke(r, mem, args).mem;
      assert mem'[a] == mem[a] + 1;
      CounterCountsCalls(sig, cls, a, mem', args, n - 1);
    }
  }

  // ---- _adapt_signature, _drop_first_arg_to_invoke and the deduction guides ----

  /** `_drop_first_arg_to_invoke<T>::type` as re-declared in function_ref.h:
      unlike the base header's version it drops `noexcept` from a function
      pointer and keeps a member function's type with all its qualifiers. */
  function DropFirstArgToInvoke(t: Type): Option<Type> {
    match t
    case Ptr(Fn(ret, ps, false, cv, ref, _)) =>
      if cv == NoCv && ref == NoRef && |ps| >= 1 then Some(Signature(ret, ps[1..])) else None
    case MemPtr(m, _) =>
      if IsObject(m) then Some(Signature(m, []))
      else if IsFunction(m) then Some(m)
      else None
    case _ => None
  }

  /** Where the two declarations of `_drop_first_arg_to_invoke` agree and
      where they do not: function pointers differ exactly in `noexcept`,
      data member pointers agree, and for member functions this header keeps
      the cv/ref qualifiers and `noexcept` that the base header strips. */
  lemma DropFirstArgVersionsCompared(ret: Type, ps: seq<Type>, ne: bool, m: Type, cls: Type)
    requires |ps| >= 1
    ensures var fp := Ptr(Fn(ret, ps, false, NoCv, NoRef, ne));
      && DropFirstArgToInvoke(fp) == Some(Signature(ret, ps[1..]))
      && FunctionalBase.DropFirstArgToInvoke(fp) == Some(Fn(ret, ps[1..], false, NoCv, NoRef, ne))
      && (DropFirstArgToInvoke(fp) == FunctionalBase.DropFirstArgToInvoke(fp) <==> !ne)
    ensures IsObject(m) ==>
      DropFirstArgToInvoke(MemPtr(m, cls)) == FunctionalBase.DropFirstArgToInvoke(MemPtr(m, cls))
    ensures m.Fn? ==> DropFirstArgToInvoke(MemPtr(m, cls)) == Some(m)
    ensures m.Fn? && !m.variadic && !m.noexcept ==>
      FunctionalBase.DropFirstArgToInvoke(MemPtr(m, cls)) == Some(Signature(m.ret, m.params))
  {
    if m.Fn? && !m.variadic && !m.noexcept {
      NotQualifyingThisForms(m.ret, m.params, m.cv, m.ref);
    }
  }

  /** The deduction guide `function_ref(nontype<V>)`: the signature it
      deduces, `_adapt_signature_t<decltype(V)>`. */
  function GuideFromNontype(v: Type): Option<Type> {
    AdaptSignature(v)
  }

  /** The deduction guide `function_ref(nontype<V>, auto)`: the signature
      it deduces, this header's `_drop_first_arg_to_invoke_t<decltype(V)>`. */
  function GuideFromNontypeWithReceiver(v: Type): Option<Type> {
    DropFirstArgToInvoke(v)
  }

  /** Binding a function pointer directly and as `nontype<V>` deduces the
      same signature, the pointee `F`; any other `nontype` value deduces
      nothing. */
  lemma GuidesForFunctionPointers(v: Type, f: Type)
    ensures IsFunction(f) ==> AdaptSignature(Ptr(f)) == Some(f) && GuideFromNontype(Ptr(f)) == Some(f)
    ensures GuideFromNontype(v).Some? <==> v.Ptr? && IsFunction(v.pointee)
    ensures GuideFromNontype(v).Some? ==> GuideFromNontype(v) == Some(v.pointee)
  {
  }

  /** `nontype<V>, obj` for `V = R(*)(T, Args...) [noexcept]` deduces
      `function_ref<R(Args...)>`, a usable signature that is never noexcept.
      For a member function the qualifiers are kept, so only the forms that
      `_qual_fn_sig` accepts (no ref-qualifier, no volatile) give a usable
      signature. */
  lemma GuideFromNontypeWithReceiverDeduces(ret: Type, ps: seq<Type>, ne: bool, m: Type, cls: Type)
    requires |ps| >= 1
    ensures var g := GuideFromNontypeWithReceiver(Ptr(Fn(ret, ps, false, NoCv, NoRef, ne)));
      && g == Some(Signature(ret, ps[1..]))
      && QualFnSig(g.value).Some?
      && !QualFnSig(g.value).value.isNoexcept
    ensures m.Fn? ==>
      var g := GuideFromNontypeWithReceiver(MemPtr(m, cls));
      g == Some(m) &&
      (QualFnSig(g.value).Some? <==> !m.variadic && m.ref == NoRef && (m.cv == NoCv || m.cv == ConstCv))
  {
    if m.Fn? {
      QualFnSigForms(m, m);
    }
  }
}
