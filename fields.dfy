/** `QbField` and `QbAttrField`: immutable descriptors of one queryable field
    of an ORM entity, and the comparison operators that turn a field and an
    operand into a `(field, comparator, value)` triple. */
module Fields {
  import opened PyValues

  /** Which of the two classes a field is an instance of. */
  datatype FieldKind = Plain | Attribute

  /** The five slots of a field. `storedName` is the `_qb_field` slot; the
      name the query layer sees is `QbName`, which differs for attribute
      fields. */
  datatype Field = Field(
    kind: FieldKind,
    key: string,
    storedName: string,
    dtype: Option<DType>,
    doc: Option<string>,
    subscriptable: bool)

  const AttributesPrefix: string := "attributes."

  /** `QbField(key, qb_field, dtype=..., doc=..., subscriptable=...)`, or the
      same call on `QbAttrField`. Only a missing `qb_field` falls back to `key`;
      an empty string is kept. */
  function NewField(kind: FieldKind, key: string, qbField: Option<string>,
                    dtype: Option<DType>, doc: Option<string>, subscriptable: bool): (f: Field)
    ensures f.kind == kind && f.key == key && f.dtype == dtype && f.doc == doc
    ensures f.subscriptable == subscriptable
    ensures qbField.None? ==> f.storedName == key
    ensures qbField.Some? ==> f.storedName == qbField.value
  {
    Field(kind, key, if qbField.Some? then qbField.value else key, dtype, doc, subscriptable)
  }

  /** The `qb_field` property: the stored name, prefixed for `QbAttrField`. */
  function QbName(f: Field): string
  {
    match f.kind
    case Plain => f.storedName
    case Attribute => AttributesPrefix + f.storedName
  }

  /** Without an alias, a plain field queries under its key and an attribute
      field under `attributes.` followed by its key. */
  lemma QbNameWithoutAlias(kind: FieldKind, key: string, dtype: Option<DType>,
                           doc: Option<string>, subscriptable: bool)
    ensures kind == Plain ==> QbName(NewField(kind, key, None, dtype, doc, subscriptable)) == key
    ensures kind == Attribute ==>
      QbName(NewField(kind, key, None, dtype, doc, subscriptable)) == AttributesPrefix + key
  {
  }

  /** Every attribute field's query name is `attributes.` followed by its
      stored name, whatever alias it was built with. */
  lemma AttributeQbNamePrefixed(f: Field)
    requires f.kind == Attribute
    ensures |QbName(f)| == |AttributesPrefix| + |f.storedName|
    ensures QbName(f)[..|AttributesPrefix|] == AttributesPrefix
    ensures QbName(f)[|AttributesPrefix|..] == f.storedName
  {
  }

  /** What `__hash__` hashes: the pair `(key, qb_field)`. */
  function HashKey(f: Field): (string, string)
  {
    (f.key, QbName(f))
  }

  /** Two fields that agree on key, kind and stored name hash alike, however
      their dtype, doc and subscriptable flag differ. */
  lemma HashIgnoresMetadata(f: Field, g: Field)
    requires f.key == g.key && f.kind == g.kind && f.storedName == g.storedName
    ensures HashKey(f) == HashKey(g)
  {
  }

  /** `field[sub]`: an IndexError unless the field is subscriptable; otherwise
      a field of the same class whose key and stored name are extended by
      `"." + sub`. The stored name is built from `qb_field`, so an attribute
      field's derived query name carries the prefix twice. */
  function Subscript(f: Field, sub: string): (r: Result<Field, Error>)
    ensures r.Err? <==> !f.subscriptable
    ensures r.Err? ==> r.error == IndexError("This field is not subscriptable")
    ensures r.Ok? ==> r.value.kind == f.kind
    ensures r.Ok? ==> r.value.key == f.key + "." + sub
    ensures r.Ok? && f.kind == Plain ==> QbName(r.value) == QbName(f) + "." + sub
    ensures r.Ok? && f.kind == Attribute ==>
      QbName(r.value) == AttributesPrefix + QbName(f) + "." + sub
    ensures r.Ok? ==> !r.value.subscriptable && r.value.dtype.None? && r.value.doc == Some("")
  {
    if !f.subscriptable then Err(IndexError("This field is not subscriptable"))
    else Ok(NewField(f.kind, f.key + "." + sub, Some(QbName(f) + "." + sub), None, Some(""), false))
  }

  /** A subscripted attribute field `k[s]` queries `attributes.attributes.k.s`. */
  lemma AttributeSubscriptDoublesPrefix(key: string, sub: string, dtype: Option<DType>, doc: Option<string>)
    ensures var f := NewField(Attribute, key, None, dtype, doc, true);
      Subscript(f, sub).Ok? &&
      QbName(Subscript(f, sub).value) == "attributes.attributes." + key + "." + sub
  {
    var f := NewField(Attribute, key, None, dtype, doc, true);
    assert QbName(Subscript(f, sub).value) == AttributesPrefix + (AttributesPrefix + key) + "." + sub;
  }

  /** A derived field cannot itself be subscripted again. */
  lemma SubscriptOnce(f: Field, a: string, b: string)
    requires Subscript(f, a).Ok?
    ensures Subscript(Subscript(f, a).value, b) == Err(IndexError("This field is not subscriptable"))
  {
  }

  /** The ten filter-building operators of a field. */
  datatype Operator = Eq | Ne | Lt | Le | Gt | Ge | Like | ILike | In | NotIn

  /** The comparator string each operator writes into its filter. */
  function Symbol(op: Operator): string
  {
    match op
    case Eq => "=="
    case Ne => "!="
    case Lt => "<"
    case Le => "<="
    case Gt => ">"
    case Ge => ">="
    case Like => "like"
    case ILike => "ilike"
    case In => "in"
    case NotIn => "!in"
  }

  /** All ten operators write distinct comparators. */
  lemma SymbolInjective(a: Operator, b: Operator)
    requires Symbol(a) == Symbol(b)
    ensures a == b
  {
  }

  /** One `(field, comparator, value)` triple, as `QbFieldFilters` receives it. */
  datatype Triple = Triple(field: Field, comparator: string, value: Value)

  /** The triple an operator hands to `QbFieldFilters`, or the TypeError it
      raises first: `like`/`ilike` need a string, `in_`/`not_in` need an
      operand that `set(...)` accepts, and store that set. */
  function OperatorTriple(f: Field, op: Operator, v: Value): (r: Result<Triple, Error>)
    ensures r.Ok? ==> r.value.field == f && r.value.comparator == Symbol(op)
    ensures (op == Like || op == ILike) ==> (r.Ok? <==> v.VStr?)
    ensures (op == In || op == NotIn) ==> (r.Ok? <==> ToPySet(v).Some?)
    ensures (op == In || op == NotIn) && r.Ok? ==> r.value.value == VSet(ToPySet(v).value)
    ensures op in {Eq, Ne, Lt, Le, Gt, Ge, Like, ILike} && r.Ok? ==> r.value.value == v
    ensures op in {Eq, Ne, Lt, Le, Gt, Ge} ==> r.Ok?
    ensures op == Like && r.Err? ==> r.error == TypeError("like must be a string")
    ensures op == ILike && r.Err? ==> r.error == TypeError("ilike must be a string")
    ensures (op == In || op == NotIn) && r.Err? ==> r.error == TypeError("in_ must be iterable")
  {
    match op
    case Like =>
      if v.VStr? then Ok(Triple(f, "like", v)) else Err(TypeError("like must be a string"))
    case ILike =>
      if v.VStr? then Ok(Triple(f, "ilike", v)) else Err(TypeError("ilike must be a string"))
    case In =>
      (match ToPySet(v)
       case None => Err(TypeError("in_ must be iterable"))
       case Some(s) => Ok(Triple(f, "in", VSet(s))))
    case NotIn =>
      (match ToPySet(v)
       case None => Err(TypeError("in_ must be iterable"))
       case Some(s) => Ok(Triple(f, "!in", VSet(s))))
    case _ => Ok(Triple(f, Symbol(op), v))
  }
}
