/**
 * C++ types as data. The library's metafunctions are case analyses on the
 * syntax of types; this module gives that syntax and the handful of standard
 * type traits (<type_traits>) the library relies on.
 */
module CppTypes {

  /** A top-level cv-qualification. */
  datatype Cv = Cv(isConst: bool, isVolatile: bool)

  const NoCv := Cv(false, false)
  const ConstCv := Cv(true, false)

  /** A ref-qualifier on a function type, or the kind of a reference type. */
  datatype RefQual = NoRef | LvalueRef | RvalueRef

  datatype Type =
    | Void
      /** A class or scalar type named `name`; `trivial` when it is trivially copyable. */
    | Class(name: string, trivial: bool)
      /** A specialisation `tmpl<args...>` of a class template. */
    | Inst(tmpl: string, args: seq<Type>, trivial: bool)
      /** `std::reference_wrapper<referent>` */
    | RefWrap(referent: Type)
      /** `ret(params... [, ...]) cv ref noexcept(noexcept)`; `variadic` for a C-style `...` */
    | Fn(ret: Type, params: seq<Type>, variadic: bool, cv: Cv, ref: RefQual, noexcept: bool)
    | Ptr(pointee: Type)
      /** `member cls::*` */
    | MemPtr(member: Type, cls: Type)
      /** a cv-qualified type `base cv` */
    | Qual(base: Type, cv: Cv)
    | LRef(to: Type)
    | RRef(to: Type)

  /** A plain signature `ret(params...)`: no `...`, no qualifiers, not noexcept. */
  function Signature(ret: Type, params: seq<Type>): Type {
    Fn(ret, params, false, NoCv, NoRef, false)
  }

  /** `std::va_list` */
  const VaList := Class("va_list", true)

  /** Types in the shape C++ gives them: cv-qualifiers only on object types and
      never twice, no reference to a reference. */
  predicate Canonical(t: Type) {
    match t
    case Qual(b, cv) => QualifiableBy(b, cv)
    case LRef(u) => !IsReference(u) && (u.Qual? ==> QualifiableBy(u.base, u.cv))
    case RRef(u) => !IsReference(u) && (u.Qual? ==> QualifiableBy(u.base, u.cv))
    case _ => true
  }

  /** `Qual(b, cv)` is a canonical cv-qualified type. */
  predicate QualifiableBy(b: Type, cv: Cv) {
    cv != NoCv && IsObject(b) && !b.Qual?
  }

  /** A type with no top-level cv-qualifier and no reference. */
  predicate Unqualified(t: Type) {
    !t.Qual? && !t.LRef? && !t.RRef?
  }

  // ---- primary and composite type categories ----

  /** `std::is_void_v` */
  predicate IsVoid(t: Type) {
    t.Void? || (t.Qual? && t.base.Void?)
  }

  /** `std::is_function_v` */
  predicate IsFunction(t: Type) {
    t.Fn?
  }

  /** `std::is_reference_v` */
  predicate IsReference(t: Type) {
    t.LRef? || t.RRef?
  }

  /** `std::is_object_v`: anything but a function, a reference or (cv) void. */
  predicate IsObject(t: Type) {
    !IsFunction(t) && !IsReference(t) && !IsVoid(t)
  }

  /** `std::is_const_v` */
  predicate IsConst(t: Type) {
    t.Qual? && t.cv.isConst
  }

  /** `std::is_pointer_v` */
  predicate IsPointer(t: Type) {
    match t
    case Ptr(_) => true
    case Qual(b, _) => b.Ptr?
    case _ => false
  }

  /** `std::is_member_pointer_v` */
  predicate IsMemberPointer(t: Type) {
    match t
    case MemPtr(_, _) => true
    case Qual(b, _) => b.MemPtr?
    case _ => false
  }

  /** `std::is_trivially_copyable_v` */
  predicate IsTriviallyCopyable(t: Type) {
    match t
    case Void => false
    case Class(_, trivial) => trivial
    case Inst(_, _, trivial) => trivial
    case RefWrap(_) => true
    case Fn(_, _, _, _, _, _) => false
    case Ptr(_) => true
    case MemPtr(_, _) => true
    case Qual(b, _) => !b.Qual? && IsTriviallyCopyable(b)
    case LRef(_) => false
    case RRef(_) => false
  }

  // ---- transformations ----

  /** `std::remove_reference_t` */
  function RemoveReference(t: Type): Type {
    if IsReference(t) then t.to else t
  }

  /** `std::remove_cv_t` */
  function RemoveCv(t: Type): Type {
    if t.Qual? then t.base else t
  }

  /** `std::remove_cvref_t` */
  function RemoveCvRef(t: Type): Type {
    RemoveCv(RemoveReference(t))
  }

  /** `std::add_rvalue_reference_t`: references collapse, and void and
      qualified function types are not referenceable. */
  function AddRvalueReference(t: Type): (r: Type)
    ensures IsReference(t) ==> r == t
    ensures !IsReference(r) ==> r == t
  {
    if IsReference(t) || IsVoid(t) then t
    else if t.Fn? && (t.cv != NoCv || t.ref != NoRef) then t
    else RRef(t)
  }

  /** `T const` (the `cv` alias of a const signature): a no-op on references
      and function types, merged with an existing cv-qualifier. */
  function AddConst(t: Type): (r: Type)
    ensures IsObject(t) ==> IsConst(r) && RemoveCv(r) == RemoveCv(t)
    ensures !IsObject(t) && !IsVoid(t) ==> r == t
  {
    if IsFunction(t) || IsReference(t) then t
    else if t.Qual? then Qual(t.base, t.cv.(isConst := true))
    else Qual(t, ConstCv)
  }

  /** `std::decay_t`, without arrays: drop the reference, turn a function into
      a pointer to it, drop the cv-qualifier. */
  function Decay(t: Type): (r: Type)
    requires Canonical(t)
    ensures Unqualified(r) && !r.Fn?
  {
    var u := RemoveReference(t);
    if u.Fn? then Ptr(u) else RemoveCv(u)
  }

  /** The type `cv u ref`: the inverse of `RemoveCvRef` for an unqualified `u`. */
  function WithCvRef(u: Type, cv: Cv, ref: RefQual): Type {
    var q := if cv == NoCv then u else Qual(u, cv);
    match ref
    case NoRef => q
    case LvalueRef => LRef(q)
    case RvalueRef => RRef(q)
  }

  /** The top-level cv-qualifier of `t` once its reference is dropped. */
  function CvOf(t: Type): Cv {
    var u := RemoveReference(t);
    if u.Qual? then u.cv else NoCv
  }

  /** The kind of reference `t` is, if any. */
  function RefOf(t: Type): RefQual {
    match t
    case LRef(_) => LvalueRef
    case RRef(_) => RvalueRef
    case _ => NoRef
  }

  /** Stripping a cv-qualifier and a reference that were added gives the type back. */
  lemma RemoveCvRefOfWithCvRef(u: Type, cv: Cv, ref: RefQual)
    requires Unqualified(u)
    ensures RemoveCvRef(WithCvRef(u, cv, ref)) == u
    ensures CvOf(WithCvRef(u, cv, ref)) == cv && RefOf(WithCvRef(u, cv, ref)) == ref
  {
  }

  /** Every canonical type is its cv- and ref-stripped core with its
      cv-qualifier and reference put back. */
  lemma WithCvRefOfRemoveCvRef(t: Type)
    requires Canonical(t)
    ensures Unqualified(RemoveCvRef(t))
    ensures t == WithCvRef(RemoveCvRef(t), CvOf(t), RefOf(t))
  {
  }
}
