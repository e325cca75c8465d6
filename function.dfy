/**
 * The owning, copyable call wrapper `std23::function` (include/std23/function.h).
 *
 * A `function` keeps exactly one target object in an inline buffer. Which
 * kind of target it is decides how copies, moves and calls behave:
 *  - the empty target (`empty_target_object`), which throws
 *    `bad_function_call` when called;
 *  - a callable object owned on the heap (`target_object<T>` holding a
 *    `unique_ptr<T>`), deep-copied on copy and moved out on move;
 *  - a plain function pointer (`target_object<T>` for a pointer `T`), copied
 *    by value;
 *  - a reference to an external object (`target_object<T&>`), never copied.
 *
 * The buffer is the `holder` field of class `Function`; heap objects are
 * `Box`es, so that deep copies, moves and aliasing can be stated by object
 * identity.
 */
module Functions {
  import opened CppTypes
  import opened Callables
  import opened FunctionalBase

  // ---- _opt_fn_sig ----

  /** What `_opt_fn_sig<S>` exposes: `function_type` (as its return and
      parameter types) and `is_variadic`. */
  datatype OptSig = OptSig(ret: Type, params: seq<Type>, isVariadic: bool) {

    /** `function_type`: always the non-variadic `R(Args...)`. */
    function FunctionType(): Type {
      Signature(ret, params)
    }

    /** `is_invocable_using<T...>`: a C-variadic signature passes a
        `va_list` after the declared parameters. */
    function InvocableUsing(ts: seq<Type>): InvocableQuery {
      IsInvocableR(ret, ts + params + (if isVariadic then [VaList] else []), false)
    }
  }

  /** `_opt_fn_sig<S>`: two specialisations, `R(Args...)` and
      `R(Args......)`; no cv, ref or noexcept forms. */
  function OptFnSig(s: Type): Option<OptSig> {
    match s
    case Fn(ret, ps, variadic, cv, ref, ne) =>
      if cv == NoCv && ref == NoRef && !ne then Some(OptSig(ret, ps, variadic)) else None
    case _ => None
  }

  /** `_opt_fn_sig` accepts exactly the unqualified, non-noexcept function
      types; its `function_type` drops only the `...`, is itself accepted as
      non-variadic with the same `function_type`, and the invocability
      question ends in `va_list` exactly for a variadic signature. */
  lemma OptFnSigForms(s: Type, ts: seq<Type>)
    ensures OptFnSig(s).Some? <==> s.Fn? && s.cv == NoCv && s.ref == NoRef && !s.noexcept
    ensures OptFnSig(s).Some? ==>
      var o := OptFnSig(s).value;
      && o.isVariadic == s.variadic
      && o.FunctionType() == s.(variadic := false)
      && OptFnSig(o.FunctionType()) == Some(o.(isVariadic := false))
      && o.InvocableUsing(ts).args ==
           ts + s.params + (if s.variadic then [VaList] else [])
  {
  }

  /** The class `function<S, function_type>`. */
  function FunctionType(s: Type): Type
    requires OptFnSig(s).Some?
  {
    Inst("function", [s, OptFnSig(s).value.FunctionType()], false)
  }

  /** `is_lvalue_invocable<T>`: the question the converting constructor asks
      of `T&` (the compiler answers it). */
  function LvalueInvocable(s: Type, t: Type): (q: InvocableQuery)
    requires OptFnSig(s).Some?
    ensures var o := OptFnSig(s).value;
      q.args == [LRef(RemoveReference(t))] + o.params + (if o.isVariadic then [VaList] else [])
    ensures q.ret == OptFnSig(s).value.ret && !q.nothrow
  {
    OptFnSig(s).value.InvocableUsing([LRef(RemoveReference(t))])
  }

  // ---- target objects ----

  /** A heap object owned by a target (`*p_`), or an external object a
      reference target refers to. Its `state` is what calls change. */
  class Box {
    var state: Value

    constructor (s: Value)
      ensures state == s
    {
      state := s;
    }
  }

  /** The target object in the buffer. A moved-from owning target keeps its
      kind but its `unique_ptr` is null: `Owned(null, call)`. */
  datatype Holder =
    | Empty
    | Owned(box: Box?, call: Method)
    | FnPtr(f: Fun)
    | Ref(obj: Box, call: Method)

  /** The holder `h` leaves behind in the object it was moved out of
      (`move_into_`): an owning target's pointer is moved out, every other
      target is copied, so the kind never changes. */
  function LeftBehind(h: Holder): (r: Holder)
    ensures r.Empty? == h.Empty? && r.Owned? == h.Owned? && r.FnPtr? == h.FnPtr? && r.Ref? == h.Ref?
    ensures r.Owned? ==> r.box == null && r.call == h.call
    ensures !h.Owned? ==> r == h
  {
    if h.Owned? then Owned(null, h.call) else h
  }

  /** What a holder calls, with the state of the object it calls on. */
  datatype Callee =
    | NoTarget
    | MovedOut
    | Stateful(call: Method, state: Value)
    | Plain(f: Fun)

  /** What `operator()` gives its caller. */
  datatype Outcome = BadFunctionCall | Returned(value: Ret)

  /** The result of calling the callee: `empty_target_object` throws
      `bad_function_call`; every other target returns
      `invoke_r<R>(target, args...)`. Calling a moved-out target is
      undefined. */
  function Call(c: Callee, ret: Type, args: seq<Value>): (o: Outcome)
    requires !c.MovedOut?
    ensures o.BadFunctionCall? <==> c.NoTarget?
    ensures o.Returned? ==> (o.value.NoValue? <==> IsVoid(ret))
  {
    match c
    case NoTarget => BadFunctionCall
    case Stateful(call, s) => Returned(InvokeR(ret, call(s, args).result))
    case Plain(f) => Returned(InvokeR(ret, f(args)))
  }

  /** The callee after one call: only an object's state can change; the
      code and the kind stay. */
  function After(c: Callee, args: seq<Value>): (d: Callee)
    requires !c.MovedOut?
    ensures d.NoTarget? == c.NoTarget? && d.Plain? == c.Plain? && d.Stateful? == c.Stateful?
    ensures !c.Stateful? ==> d == c
    ensures c.Stateful? ==> d.call == c.call && d.state == c.call(c.state, args).after
  {
    if c.Stateful? then c.(state := c.call(c.state, args).after) else c
  }

  // ---- initializers of the converting constructor ----

  /** A callable object: its state and its call operator. */
  datatype Object = Object(state: Value, call: Method)

  /** The value a converting constructor is given, by the kind of
      `std::unwrap_ref_decay_t<F>`. A `None` is a null pointer or an empty
      `function`. */
  datatype InitValue =
      /** a function, or a pointer to one */
    | FunctionValue(fp: Option<Fun>)
      /** a pointer to member; calling it calls a member of the first argument */
    | MemberPointerValue(pm: Option<Fun>)
      /** another `function` specialisation, by the callable it holds */
    | FunctionWrapperValue(inner: Option<Object>)
      /** `std::reference_wrapper<T>` to the object `obj` */
    | RefWrapperValue(obj: Box, call: Method)
      /** any other callable object */
    | ObjectValue(value: Object)

  /** `std::unwrap_ref_decay_t<F>` */
  function UnwrapRefDecay(t: Type): (u: Type)
    requires Canonical(t)
    ensures !u.RefWrap?
  {
    var d := Decay(t);
    if d.RefWrap? then LRef(d.referent) else d
  }

  /** `v` is a value of type `t`. Only a pointer can be a null function
      pointer: a function lvalue never is. */
  predicate Fits(t: Type, v: InitValue)
    requires Canonical(t)
  {
    var u := UnwrapRefDecay(t);
    match v
    case FunctionValue(fp) => u.Ptr? && IsFunction(u.pointee) && (fp.None? ==> RemoveCvRef(t).Ptr?)
    case MemberPointerValue(_) => u.MemPtr?
    case FunctionWrapperValue(_) => u.Inst? && u.tmpl == "function" && |u.args| == 2
    case RefWrapperValue(_, _) => u.LRef?
    case ObjectValue(_) => u.Class? || (u.Inst? && u.tmpl != "function")
  }

  /** `target_object<T>` keeps `T` by value exactly when `is_pointer_v<T>`,
      and otherwise through a `unique_ptr`; among the initializers, only a
      function pointer has a pointer type `unwrap_ref_decay_t<F>`. */
  lemma PointersAreHeldByValue(t: Type, v: InitValue)
    requires Canonical(t) && Fits(t, v)
    ensures IsPointer(UnwrapRefDecay(t)) <==> v.FunctionValue?
  {
  }

  /** The initializer compares equal to `nullptr`. */
  predicate IsNullValue(v: InitValue) {
    || (v.FunctionValue? && v.fp.None?)
    || (v.MemberPointerValue? && v.pm.None?)
    || (v.FunctionWrapperValue? && v.inner.None?)
  }

  /** `_looks_nullable_to<F, function>` selects the null test for exactly
      the function pointers, member pointers and `function` specialisations,
      so every initializer that can be null is tested; a function lvalue, a
      reference wrapper and any other object are installed untested. */
  lemma NullTestCoversNullValues(t: Type, v: InitValue)
    requires Canonical(t) && Fits(t, v)
    ensures LooksNullableTo(t, "function") <==>
      (v.FunctionValue? && RemoveCvRef(t).Ptr?) || v.MemberPointerValue? || v.FunctionWrapperValue?
    ensures IsNullValue(v) ==> LooksNullableTo(t, "function")
  {
    LooksNullableToExactly(t, "function");
    WithCvRefOfRemoveCvRef(t);
  }

  /** A pointer to member is stored by value in the heap box; a call runs
      it on the arguments and leaves the box as it was. */
  function MemberCall(pm: Fun): Method {
    (s: Value, args: seq<Value>) => Step(pm(args), s)
  }

  /** The callee a non-reference initializer installs. */
  function Installed(v: InitValue): (c: Callee)
    requires !v.RefWrapperValue?
    ensures c.NoTarget? <==> IsNullValue(v)
    ensures !c.MovedOut?
  {
    match v
    case FunctionValue(fp) => if fp.Some? then Plain(fp.value) else NoTarget
    case MemberPointerValue(pm) => if pm.Some? then Stateful(MemberCall(pm.value), 0) else NoTarget
    case FunctionWrapperValue(inner) =>
      if inner.Some? then Stateful(inner.value.call, inner.value.state) else NoTarget
    case ObjectValue(o) => Stateful(o.call, o.state)
  }

  // ---- class function ----

  class Function {
    /** The signature `S` of `function<S>`. */
    const sig: Type
    /** The target object in `storage_`. */
    var holder: Holder

    /** The heap objects the target calls on. */
    function Footprint(): set<Box>
      reads this
    {
      match holder
      case Owned(b, _) => if b == null then {} else {b}
      case Ref(o, _) => {o}
      case _ => {}
    }

    /** `*target()`, as what it calls. */
    function Target(): (c: Callee)
      reads this, Footprint()
      ensures c.MovedOut? <==> holder.Owned? && holder.box == null
      ensures c.Plain? <==> holder.FnPtr?
    {
      match holder
      case Empty => NoTarget
      case Owned(b, call) => if b == null then MovedOut else Stateful(call, b.state)
      case FnPtr(f) => Plain(f)
      case Ref(o, call) => Stateful(call, o.state)
    }

    /** `R`, the return type of the signature. */
    function ReturnType(): Type
      reads this
      requires OptFnSig(sig).Some?
    {
      OptFnSig(sig).value.ret
    }

    /** `function() noexcept`: installs the empty target. */
    constructor (s: Type)
      requires OptFnSig(s).Some?
      ensures sig == s && holder == Empty
      ensures !HasTarget() && EqualsNull()
    {
      sig := s;
      holder := Empty;
    }

    /** `function(nullptr_t) noexcept`: delegates to the default constructor. */
    constructor Null(s: Type)
      requires OptFnSig(s).Some?
      ensures sig == s && holder == Empty
      ensures !HasTarget() && EqualsNull()
    {
      sig := s;
      holder := Empty;
    }

    /** `function(F&& f)`, for an `f` of type `t` that is not a `function<S>`.
        An initializer that looks nullable and compares equal to `nullptr`
        gives the empty state; any other installs a target of the kind
        `unwrap_ref_decay_t<F>` calls for: a function pointer by value, a
        reference wrapper as a reference to its object, everything else in
        a fresh heap box. The constraint `is_lvalue_invocable<F>`, the
        question `LvalueInvocable(s, t)`, is the compiler's to answer and is
        not decided here. */
    constructor FromCallable(s: Type, t: Type, v: InitValue)
      requires OptFnSig(s).Some?
      requires Canonical(t) && IsNotSelf(t, FunctionType(s)) && Fits(t, v)
      ensures sig == s
      ensures HasTarget() <==> !IsNullValue(v)
      ensures !v.RefWrapperValue? ==> Target() == Installed(v)
      ensures v.RefWrapperValue? ==> holder == Ref(v.obj, v.call)
      ensures holder.FnPtr? <==> IsPointer(UnwrapRefDecay(t)) && !IsNullValue(v)
      ensures holder.Owned? <==>
        !IsNullValue(v) && (v.MemberPointerValue? || v.FunctionWrapperValue? || v.ObjectValue?)
      ensures holder.Owned? ==> holder.box != null && fresh(holder.box)
    {
      sig := s;
      NullTestCoversNullValues(t, v);
      PointersAreHeldByValue(t, v);
      if LooksNullableTo(t, "function") && IsNullValue(v) {
        holder := Empty;
      } else {
        match v
        case FunctionValue(fp) =>
          holder := FnPtr(fp.value);
        case MemberPointerValue(pm) =>
          var b := new Box(0);
          holder := Owned(b, MemberCall(pm.value));
        case FunctionWrapperValue(inner) =>
          var b := new Box(inner.value.state);
          holder := Owned(b, inner.value.call);
        case RefWrapperValue(o, call) =>
          holder := Ref(o, call);
        case ObjectValue(o) =>
          var b := new Box(o.state);
          holder := Owned(b, o.call);
      }
    }

    /** `function(function const&)`: `copy_into`. An owned target is copied
        into a fresh box; a function pointer and a reference are copied as
        they are, so a reference target still refers to the same object.
        Copying a moved-out target dereferences a null pointer. */
    constructor Copy(other: Function)
      requires !other.Target().MovedOut?
      ensures sig == other.sig && Target() == other.Target()
      ensures holder.Empty? == other.holder.Empty? && holder.Owned? == other.holder.Owned?
      ensures holder.Owned? ==> holder.box != null && fresh(holder.box)
      ensures !holder.Owned? ==> holder == other.holder
    {
      sig := other.sig;
      match other.holder
      case Owned(b, call) =>
        var copy := new Box(b.state);
        holder := Owned(copy, call);
      case _ =>
        holder := other.holder;
    }

    /** `function(function&&) noexcept`: `move_into`. The new object takes
        the target over (an owned box by identity); `other` keeps the kind
        of its target, but an owned target's pointer is moved out. */
    constructor Move(other: Function)
      modifies other
      ensures sig == other.sig
      ensures holder == old(other.holder)
      ensures other.holder == LeftBehind(old(other.holder))
    {
      sig := other.sig;
      holder := other.holder;
      new;
      other.holder := LeftBehind(other.holder);
    }

    /** `operator=(function const&)`: unless `other` is this object, copy
        `other` and swap with the copy. Only this object changes. */
    method CopyAssign(other: Function)
      requires sig == other.sig
      requires other != this ==> !other.Target().MovedOut?
      modifies this
      ensures other == this ==> holder == old(holder)
      ensures other != this ==> Target() == old(other.Target()) && other.holder == old(other.holder)
      ensures other != this ==>
        holder.Empty? == old(other.holder).Empty? && holder.Owned? == old(other.holder).Owned?
      ensures other != this && holder.Owned? ==> fresh(holder.box)
      ensures other != this && !holder.Owned? ==> holder == old(other.holder)
    {
      if other != this {
        var tmp := new Function.Copy(other);
        Swap(tmp);
      }
    }

    /** `operator=(function&&) noexcept`: unless `other` is this object,
        destroy this target and move-construct from `other` in its place. */
    method MoveAssign(other: Function)
      requires sig == other.sig
      modifies this, other
      ensures other == this ==> holder == old(holder)
      ensures other != this ==> holder == old(other.holder)
      ensures other != this ==> other.holder == LeftBehind(old(other.holder))
    {
      if other != this {
        holder := other.holder;
        other.holder := LeftBehind(other.holder);
      }
    }

    /** `swap(function&) noexcept`, which is `std::swap`: move this into a
        temporary, move-assign `other` into this and the temporary into
        `other`. The two targets trade places, heap boxes by identity;
        swapping an object with itself leaves it as it was. */
    method Swap(other: Function)
      requires sig == other.sig
      modifies this, other
      ensures holder == old(other.holder) && other.holder == old(holder)
    {
      var tmp := new Function.Move(this);
      MoveAssign(other);
      other.MoveAssign(tmp);
    }

    /** `explicit operator bool`: the target is not `empty_target_object`. */
    predicate HasTarget()
      reads this, Footprint()
      ensures HasTarget() <==> !Target().NoTarget?
    {
      !holder.Empty?
    }

    /** `f == nullptr` */
    predicate EqualsNull()
      reads this, Footprint()
      ensures EqualsNull() <==> Target().NoTarget?
    {
      !HasTarget()
    }

    /** `R operator()(Args...) const`, for a signature that is not
        C-variadic. The result is `Call` of the target; an owned or referred
        object is called as a non-const lvalue, so its state is updated in
        place, and the holder itself is not changed. */
    method Invoke(args: seq<Value>) returns (o: Outcome)
      requires OptFnSig(sig).Some? && !OptFnSig(sig).value.isVariadic
      requires !Target().MovedOut?
      modifies Footprint()
      ensures holder == old(holder)
      ensures o == Call(old(Target()), ReturnType(), args)
      ensures Target() == After(old(Target()), args)
    {
      var ret := ReturnType();
      match holder
      case Empty =>
        o := BadFunctionCall;
      case Owned(b, call) =>
        var step := call(b.state, args);
        b.state := step.after;
        o := Returned(InvokeR(ret, step.result));
      case FnPtr(f) =>
        o := Returned(InvokeR(ret, f(args)));
      case Ref(obj, call) =>
        var step := call(obj.state, args);
        obj.state := step.after;
        o := Returned(InvokeR(ret, step.result));
    }
  }

  // ---- deduction guides ----

  /** `function(T) -> function<_drop_first_arg_to_invoke_t<decltype(&T::operator())>>`,
      given the type `op` of `&T::operator()`. */
  function GuideFromCallable(op: Type): Option<Type> {
    DropFirstArgToInvoke(op)
  }

  /** The signatures the guides deduce: a pointer to a function deduces the
      function type (`AdaptSignature`), which names a `function` class
      exactly when it is not noexcept; a closure type whose call operator is `R(Args...)` under any
      cv/ref qualifier deduces `R(Args...)`, but a `noexcept` call operator
      deduces nothing. */
  lemma GuidesDeduce(f: Type, ret: Type, ps: seq<Type>, cv: Cv, ref: RefQual, ne: bool, cls: Type)
    requires f.Fn?
    ensures AdaptSignature(Ptr(f)) == Some(f)
    ensures OptFnSig(f).Some? <==> f.cv == NoCv && f.ref == NoRef && !f.noexcept
    ensures var g := GuideFromCallable(MemPtr(Fn(ret, ps, false, cv, ref, ne), cls));
      && (ne <==> g.None?)
      && (!ne ==> g == Some(Signature(ret, ps)) && OptFnSig(g.value) == Some(OptSig(ret, ps, false)))
  {
    if !ne {
      NotQualifyingThisForms(ret, ps, cv, ref);
    }
  }

  // ---- uses ----

  /** Two copies of a function owning a counter are independent: calling
      the original does not change the copy's counter. */
  method CopiesAreIndependent(sig: Type, cls: Type, init: Value, args: seq<Value>)
    returns (original: Value, copy: Value)
    requires OptFnSig(sig).Some? && !OptFnSig(sig).value.isVariadic && cls.Class?
    ensures original == init + 1 && copy == init
  {
    var counter := Object(init, (s: Value, a: seq<Value>) => Step(s + 1, s + 1));
    var f := new Function.FromCallable(sig, cls, ObjectValue(counter));
    var g := new Function.Copy(f);
    var _ := f.Invoke(args);
    original := f.Target().state;
    copy := g.Target().state;
  }

  /** A function made from `std::ref(x)` and its copy both refer to `x`:
      a call through either one is seen by both. */
  method ReferencesAreShared(sig: Type, init: Value, args: seq<Value>)
    returns (first: Value, second: Value, external: Value, r1: Outcome, r2: Outcome)
    requires OptFnSig(sig).Some? && !OptFnSig(sig).value.isVariadic
    ensures first == init + 2 && second == init + 2 && external == init + 2
    ensures IsVoid(OptFnSig(sig).value.ret) ==> r1 == Returned(NoValue) && r2 == Returned(NoValue)
    ensures !IsVoid(OptFnSig(sig).value.ret) ==>
      r1 == Returned(Returns(init + 1)) && r2 == Returned(Returns(init + 2))
  {
    var x := new Box(init);
    var increment := (s: Value, a: seq<Value>) => Step(s + 1, s + 1);
    var f := new Function.FromCallable(sig, RefWrap(Class("counter", true)), RefWrapperValue(x, increment));
    var g := new Function.Copy(f);
    r1 := g.Invoke(args);
    r2 := f.Invoke(args);
    first := f.Target().state;
    second := g.Target().state;
    external := x.state;
  }

  /** Copy assignment from a function made from `std::ref(x)` makes this
      function refer to `x` too, so a call through it is seen by `x`. */
  method AssignedReferencesAreShared(sig: Type, init: Value, args: seq<Value>)
    returns (isReference: bool, external: Value)
    requires OptFnSig(sig).Some? && !OptFnSig(sig).value.isVariadic
    ensures isReference && external == init + 1
  {
    var x := new Box(init);
    var increment := (s: Value, a: seq<Value>) => Step(s + 1, s + 1);
    var g := new Function.FromCallable(sig, RefWrap(Class("counter", true)), RefWrapperValue(x, increment));
    var f := new Function(sig);
    f.CopyAssign(g);
    isReference := f.holder.Ref? && f.holder.obj == x;
    var _ := f.Invoke(args);
    external := x.state;
  }

  /** A null function pointer gives an empty function, which compares equal
      to `nullptr` and throws `bad_function_call` when called. */
  method NullPointerGivesEmpty(sig: Type, f: Type, args: seq<Value>)
    returns (isNull: bool, o: Outcome)
    requires OptFnSig(sig).Some? && !OptFnSig(sig).value.isVariadic && f.Fn?
    ensures isNull && o == BadFunctionCall
  {
    var g := new Function.FromCallable(sig, Ptr(f), FunctionValue(None));
    isNull := g.EqualsNull();
    o := g.Invoke(args);
  }

  /** Copy-assigning a moved-from function to itself is a no-op: the
      self-check comes before the copy. */
  method SelfCopyAssignOfMovedFrom(sig: Type, cls: Type, init: Value)
    returns (movedOut: bool, hasTarget: bool)
    requires OptFnSig(sig).Some? && cls.Class?
    ensures movedOut && hasTarget
  {
    var counter := Object(init, (s: Value, a: seq<Value>) => Step(s + 1, s + 1));
    var f := new Function.FromCallable(sig, cls, ObjectValue(counter));
    var g := new Function.Move(f);
    f.CopyAssign(f);
    movedOut := f.Target().MovedOut?;
    hasTarget := f.HasTarget();
  }

  /** Swapping twice restores both functions. */
  method SwapTwice(a: Function, b: Function)
    requires a.sig == b.sig
    modifies a, b
    ensures a.holder == old(a.holder) && b.holder == old(b.holder)
  {
    a.Swap(b);
    a.Swap(b);
  }

  /** A moved-from function keeps its `bool`; its new owner calls exactly
      what it called. */
  method MoveKeepsBehaviour(sig: Type, cls: Type, init: Value, args: seq<Value>)
    returns (sourceHasTarget: bool, o: Outcome)
    requires OptFnSig(sig).Some? && !OptFnSig(sig).value.isVariadic && cls.Class?
    ensures sourceHasTarget
    ensures o == Returned(InvokeR(OptFnSig(sig).value.ret, init + 1))
  {
    var counter := Object(init, (s: Value, a: seq<Value>) => Step(s + 1, s + 1));
    var f := new Function.FromCallable(sig, cls, ObjectValue(counter));
    var g := new Function.Move(f);
    sourceHasTarget := f.HasTarget();
    o := g.Invoke(args);
  }
}
