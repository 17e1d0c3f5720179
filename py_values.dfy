/** Python-side values that flow through the field algebra: the operands of
    comparisons, the errors the source raises, and the builtin `set(...)`
    conversion that `in_` / `not_in` rely on. */
module PyValues {

  datatype Option<+T> = None | Some(value: T)

  datatype Result<+T, +E> = Ok(value: T) | Err(error: E)

  /** The exceptions raised by the modelled code, with their messages. */
  datatype Error =
    | TypeError(msg: string)
    | IndexError(msg: string)
    | KeyError(key: string)
    | AttributeError(name: string)
    | ValueError(msg: string)

  /** A Python value used as a filter operand. Dictionaries, floats and
      booleans are not part of this universe. */
  datatype Value =
    | VNone
    | VInt(i: int)
    | VStr(s: string)
    | VList(items: seq<Value>)
    | VTuple(items: seq<Value>)
    | VSet(elems: set<Value>)

  /** An opaque type annotation (`dtype`); its contents are never inspected. */
  datatype DType = DType(name: string)

  /** Whether `hash(v)` succeeds: lists and sets are unhashable, a tuple is
      hashable when all of its items are. */
  predicate Hashable(v: Value)
  {
    match v
    case VList(_) => false
    case VSet(_) => false
    case VTuple(xs) => forall i :: 0 <= i < |xs| ==> Hashable(xs[i])
    case _ => true
  }

  /** The one-character strings of `s`, which is what iterating a `str` yields. */
  function Chars(s: string): (r: set<Value>)
    ensures forall i :: 0 <= i < |s| ==> VStr([s[i]]) in r
    ensures forall x :: x in r ==> x.VStr? && |x.s| == 1 && x.s[0] in s
  {
    set i | 0 <= i < |s| :: VStr([s[i]])
  }

  /** Python's `set(v)`: `None` stands for the TypeError raised when `v` is not
      iterable or when one of its items is unhashable. */
  function ToPySet(v: Value): (r: Option<set<Value>>)
    ensures r.Some? <==>
      (v.VStr? || v.VSet? ||
       ((v.VList? || v.VTuple?) && forall i :: 0 <= i < |v.items| ==> Hashable(v.items[i])))
    ensures r.Some? && (v.VList? || v.VTuple?) ==>
      forall x :: x in r.value <==> x in v.items
    ensures r.Some? && v.VSet? ==> r.value == v.elems
    ensures r.Some? && v.VStr? ==> r.value == Chars(v.s)
    ensures v.VNone? || v.VInt? ==> r.None?
  {
    match v
    case VNone => None
    case VInt(_) => None
    case VStr(s) => Some(Chars(s))
    case VSet(e) => Some(e)
    case VList(xs) =>
      if forall i :: 0 <= i < |xs| ==> Hashable(xs[i]) then Some(set x | x in xs) else None
    case VTuple(xs) =>
      if forall i :: 0 <= i < |xs| ==> Hashable(xs[i]) then Some(set x | x in xs) else None
  }

  /** `str(type(v))`, as it appears in the source's TypeError messages. */
  function TypeName(v: Value): string
  {
    match v
    case VNone => "<class 'NoneType'>"
    case VInt(_) => "<class 'int'>"
    case VStr(_) => "<class 'str'>"
    case VList(_) => "<class 'list'>"
    case VTuple(_) => "<class 'tuple'>"
    case VSet(_) => "<class 'set'>"
  }
}
