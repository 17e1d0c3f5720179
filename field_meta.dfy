/** The field-collection part of `EntityFieldMeta.__init__`: turning the
    entries of an entity class's pydantic `Model` into a sorted `QbFields`
    registry, and the selection of the "leaf" bases that define a `Model`. */
module FieldMeta {
  import opened PyValues
  import opened Fields
  import opened Registry
  import StringOrder

  /** One entry of `cls.Model.model_fields`, with the metadata that
      `get_metadata` reads (its defaults already applied) and the field's
      annotation and description. */
  datatype ModelField = ModelField(
    name: string,
    isAttribute: bool,
    databaseAlias: Option<string>,
    subscriptable: bool,
    annotation: Option<DType>,
    description: Option<string>)

  /** The field built for one model entry: a `QbAttrField` exactly when
      `is_attribute` is set, queried under `database_alias` when given. */
  function FieldFor(mf: ModelField): (f: Field)
    ensures f.kind == Attribute <==> mf.isAttribute
    ensures f.key == mf.name
    ensures QbName(f) ==
      (if mf.isAttribute then AttributesPrefix else "") +
      (if mf.databaseAlias.Some? then mf.databaseAlias.value else mf.name)
    ensures f.subscriptable == mf.subscriptable
    ensures f.dtype == mf.annotation && f.doc == mf.description
  {
    NewField(if mf.isAttribute then Attribute else Plain, mf.name, mf.databaseAlias,
             mf.annotation, mf.description, mf.subscriptable)
  }

  /** The `fields` dict the loop fills: an entry seen later overwrites an
      earlier one under the same name. */
  function Collected(mfs: seq<ModelField>): map<string, Field>
    decreases |mfs|
  {
    if mfs == [] then map[]
    else Collected(mfs[..|mfs| - 1])[mfs[|mfs| - 1].name := FieldFor(mfs[|mfs| - 1])]
  }

  /** The collected names are exactly the model's field names. */
  lemma {:induction false} CollectedKeys(mfs: seq<ModelField>)
    ensures Collected(mfs).Keys == set i | 0 <= i < |mfs| :: mfs[i].name
    decreases |mfs|
  {
    if mfs != [] {
      var init := mfs[..|mfs| - 1];
      CollectedKeys(init);
      var all := set i | 0 <= i < |mfs| :: mfs[i].name;
      var before := set i | 0 <= i < |init| :: init[i].name;
      assert all == before + {mfs[|mfs| - 1].name} by {
        forall k | k in all ensures k in before + {mfs[|mfs| - 1].name} {
          var i :| 0 <= i < |mfs| && mfs[i].name == k;
          if i < |init| {
            assert init[i] == mfs[i];
          }
        }
        forall k | k in before ensures k in all {
          var i :| 0 <= i < |init| && init[i].name == k;
          assert mfs[i] == init[i];
        }
      }
    }
  }

  /** When the model's names are distinct (as the keys of a dict are), each
      name maps to the field built from its own entry. */
  lemma {:induction false} CollectedEntry(mfs: seq<ModelField>, i: int)
    requires forall a, b :: 0 <= a < b < |mfs| ==> mfs[a].name != mfs[b].name
    requires 0 <= i < |mfs|
    ensures mfs[i].name in Collected(mfs)
    ensures Collected(mfs)[mfs[i].name] == FieldFor(mfs[i])
    decreases |mfs|
  {
    var n := |mfs|;
    if i < n - 1 {
      var init := mfs[..n - 1];
      assert init[i] == mfs[i];
      CollectedEntry(init, i);
      assert mfs[i].name != mfs[n - 1].name;
    }
  }

  /** What the collector installs for the model entries `mfs`: a valid
      registry whose iteration order is its keys in ascending order, holding
      exactly the collected names, each with its collected field. */
  predicate IsCollection(reg: QbFields, mfs: seq<ModelField>)
  {
    && Valid(reg)
    && StringOrder.Ascending(KeysOf(reg.entries))
    && (set k | k in KeysOf(reg.entries)) == Collected(mfs).Keys
    && (forall i :: 0 <= i < |reg.entries| ==>
          reg.entries[i].0 in Collected(mfs) && reg.entries[i].1 == Collected(mfs)[reg.entries[i].0])
  }

  /** The head of an ascending sequence is below every other element. */
  lemma AscendingHead(s: seq<string>, x: string)
    requires StringOrder.Ascending(s) && x in s
    ensures x == s[0] || StringOrder.Less(s[0], x)
  {
    var j :| 0 <= j < |s| && s[j] == x;
    if j > 0 {
      assert StringOrder.Less(s[0], s[j]);
    }
  }

  /** Two ascending sequences over the same strings are equal. */
  lemma {:induction false} AscendingUnique(s: seq<string>, t: seq<string>)
    requires StringOrder.Ascending(s) && StringOrder.Ascending(t)
    requires forall x :: x in s <==> x in t
    ensures s == t
    decreases |s|
  {
    if s != [] {
      assert s[0] in t;
    }
    if t != [] {
      assert t[0] in s;
    }
    if s != [] && t != [] {
      AscendingHead(t, s[0]);
      AscendingHead(s, t[0]);
      StringOrder.LessAsymmetric(s[0], t[0]);
      var s', t' := s[1..], t[1..];
      forall x ensures x in s' <==> x in t' {
        if x in s' {
          var j :| 0 <= j < |s'| && s'[j] == x;
          assert StringOrder.Less(s[0], s[j + 1]);
          if x == t[0] {
            StringOrder.LessIrreflexive(x);
          }
          assert x in t;
        }
        if x in t' {
          var j :| 0 <= j < |t'| && t'[j] == x;
          assert StringOrder.Less(t[0], t[j + 1]);
          if x == s[0] {
            StringOrder.LessIrreflexive(x);
          }
          assert x in s;
        }
      }
      AscendingUnique(s', t');
      assert s == [s[0]] + s' && t == [t[0]] + t';
    }
  }

  /** The collection is determined by the model entries: there is only one
      sorted registry of them. */
  lemma CollectionUnique(a: QbFields, b: QbFields, mfs: seq<ModelField>)
    requires IsCollection(a, mfs) && IsCollection(b, mfs)
    ensures a == b
  {
    AscendingUnique(KeysOf(a.entries), KeysOf(b.entries));
    assert |a.entries| == |b.entries|;
    forall i | 0 <= i < |a.entries| ensures a.entries[i] == b.entries[i] {
      assert a.entries[i].0 == KeysOf(a.entries)[i] == KeysOf(b.entries)[i] == b.entries[i].0;
    }
  }

  /** The loop of `EntityFieldMeta.__init__` over `cls.Model.model_fields`,
      followed by `QbFields({key: fields[key] for key in sorted(fields)})`. */
  method CollectFields(mfs: seq<ModelField>) returns (reg: QbFields)
    ensures IsCollection(reg, mfs)
  {
    var fields: map<string, Field> := map[];
    var order: seq<string> := [];
    var i := 0;
    while i < |mfs|
      invariant 0 <= i <= |mfs|
      invariant fields == Collected(mfs[..i])
      invariant StringOrder.Distinct(order)
      invariant forall k :: k in order <==> k in fields
    {
      var mf := mfs[i];
      var fieldKind := if mf.isAttribute then Attribute else Plain;
      var field := NewField(fieldKind, mf.name, mf.databaseAlias, mf.annotation, mf.description,
                            mf.subscriptable);
      if mf.name !in fields {
        order := order + [mf.name];
      }
      fields := fields[mf.name := field];
      assert mfs[..i + 1][..i] == mfs[..i];
      i := i + 1;
    }
    assert mfs[..|mfs|] == mfs;
    var keys := StringOrder.Sorted(order);
    StringOrder.SortedAscending(order);
    StringOrder.AscendingDistinct(keys);
    reg := NewRegistry(Some(seq(|keys|, j requires 0 <= j < |keys| => (keys[j], fields[keys[j]]))));
    assert KeysOf(reg.entries) == keys;
  }

  /** Collecting a model whose field names are distinct installs, for each of
      them, the field built from its entry, reachable by subscript. */
  lemma CollectionLookup(reg: QbFields, mfs: seq<ModelField>, i: int)
    requires IsCollection(reg, mfs)
    requires forall a, b :: 0 <= a < b < |mfs| ==> mfs[a].name != mfs[b].name
    requires 0 <= i < |mfs|
    ensures GetItem(reg, mfs[i].name) == Ok(FieldFor(mfs[i]))
  {
    CollectedEntry(mfs, i);
    var k := mfs[i].name;
    assert k in KeysOf(reg.entries);
    var j :| 0 <= j < |reg.entries| && KeysOf(reg.entries)[j] == k;
    GetItemEntry(reg, j);
  }

  /** Declared fields `z` and `a` iterate as `a` before `z`. */
  lemma RegistryOrdering(reg: QbFields, z: ModelField, a: ModelField)
    requires z.name == "z" && a.name == "a"
    requires IsCollection(reg, [z, a])
    ensures Iter(reg) == ["a", "z"]
  {
    assert [z, a][..1] == [z] && [z][..0] == [];
    assert Collected([z]) == map["z" := FieldFor(z)];
    assert Collected([z, a]) == map["z" := FieldFor(z)]["a" := FieldFor(a)];
    assert Collected([z, a]).Keys == {"a", "z"};
    assert StringOrder.Less("a", "z");
    assert StringOrder.Ascending(["a", "z"]);
    AscendingUnique(Iter(reg), ["a", "z"]);
  }

  /** The value found under `fields` on a class being initialised. */
  datatype FieldsAttr = NoFields | RegistryFields(registry: QbFields) | OtherFields(v: Value)

  /** An entity class as the metaclass sees it while initialising it. */
  class EntityClass {
    /** The qualified name in `str(cls)`. */
    const qualName: string
    /** `cls.Model.model_fields` when `cls.Model` is a pydantic model. */
    const model: Option<seq<ModelField>>
    /** `getattr(cls, 'fields', None)`, inherited or set in the class body. */
    var fields: FieldsAttr

    constructor (qualName: string, model: Option<seq<ModelField>>, fields: FieldsAttr)
      ensures this.qualName == qualName && this.model == model && this.fields == fields
    {
      this.qualName := qualName;
      this.model := model;
      this.fields := fields;
    }

    /** Whether the existing `fields` attribute is neither `None` nor a registry. */
    predicate HasForeignFields()
      reads this
    {
      fields.OtherFields? && fields.v != VNone
    }

    /** `EntityFieldMeta.__init__`, from the check on `fields` on: a ValueError
        when `fields` is already something other than a registry; otherwise
        `cls.fields` becomes the sorted registry of the model's fields (empty
        when the class has no pydantic model). */
    method InitFields() returns (r: Result<QbFields, Error>)
      modifies this
      ensures old(HasForeignFields()) ==>
        r == Err(ValueError("class '<class '" + qualName + "'>' already has a `fields` attribute set")) &&
        fields == old(fields)
      ensures !old(HasForeignFields()) ==>
        r.Ok? && fields == RegistryFields(r.value) &&
        IsCollection(r.value, if model.Some? then model.value else [])
    {
      if HasForeignFields() {
        r := Err(ValueError("class '<class '" + qualName + "'>' already has a `fields` attribute set"));
        return;
      }
      var entries := if model.Some? then model.value else [];
      var reg := CollectFields(entries);
      fields := RegistryFields(reg);
      r := Ok(reg);
    }
  }

  /** A class, identified by its qualified name. */
  type ClassName = string

  /** The bases in `cls.__mro__`, in order, other than `cls`, whose own
      namespace defines a pydantic `Model`. */
  function ModelCandidates(cls: ClassName, mro: seq<ClassName>, ownsModel: ClassName -> bool): (r: seq<ClassName>)
    ensures forall b :: b in r <==> b in mro && b != cls && ownsModel(b)
    ensures |r| <= |mro|
  {
    if mro == [] then []
    else
      var rest := ModelCandidates(cls, mro[1..], ownsModel);
      assert forall b :: b in mro <==> b == mro[0] || b in mro[1..];
      if mro[0] != cls && ownsModel(mro[0]) then [mro[0]] + rest else rest
  }

  /** The leaf bases: candidates whose `Model` no other candidate's `Model`
      subclasses. `modelSub(b, base)` stands for `issubclass(b.Model, base.Model)`. */
  function Leaves(cands: seq<ClassName>, modelSub: (ClassName, ClassName) -> bool): set<ClassName>
  {
    set base | base in cands && forall b :: b in cands && b != base ==> !modelSub(b, base)
  }

  /** The candidates whose `Model` is subclassed by another candidate's. */
  function Above(cands: seq<ClassName>, modelSub: (ClassName, ClassName) -> bool, c: ClassName): set<ClassName>
  {
    set d | d in cands && d != c && modelSub(d, c)
  }

  /** What `issubclass` guarantees among the candidates' models: it is
      transitive and never holds both ways between two distinct models. */
  predicate SubclassOrder(cands: seq<ClassName>, modelSub: (ClassName, ClassName) -> bool)
  {
    && (forall a, b, c :: a in cands && b in cands && c in cands && modelSub(a, b) && modelSub(b, c) ==> modelSub(a, c))
    && (forall a, b :: a in cands && b in cands && a != b && modelSub(a, b) ==> !modelSub(b, a))
  }

  lemma StrictSubsetSmaller(a: set<ClassName>, b: set<ClassName>)
    requires a < b
    ensures |a| < |b|
  {
    assert !(forall x :: x in a <==> x in b);
    var x :| x in b && x !in a;
    assert b == a + (b - a) && x in b - a;
  }

  /** Every candidate is a leaf or has a leaf whose `Model` subclasses its own,
      so dropping the non-leaves loses no branch of the hierarchy. */
  lemma {:induction false} LeavesCover(cands: seq<ClassName>, modelSub: (ClassName, ClassName) -> bool, c: ClassName)
    requires SubclassOrder(cands, modelSub)
    requires c in cands
    ensures exists l :: l in Leaves(cands, modelSub) && (l == c || modelSub(l, c))
    decreases |Above(cands, modelSub, c)|
  {
    if c !in Leaves(cands, modelSub) {
      var d :| d in cands && d != c && modelSub(d, c);
      assert Above(cands, modelSub, d) < Above(cands, modelSub, c) by {
        forall e | e in Above(cands, modelSub, d) ensures e in Above(cands, modelSub, c) {
          assert modelSub(e, c);
        }
        assert d in Above(cands, modelSub, c) && d !in Above(cands, modelSub, d);
      }
      StrictSubsetSmaller(Above(cands, modelSub, d), Above(cands, modelSub, c));
      LeavesCover(cands, modelSub, d);
      var l :| l in Leaves(cands, modelSub) && (l == d || modelSub(l, d));
      assert l in cands;
    }
  }

  /** A class with at least one base defining a `Model` has at least one leaf. */
  lemma LeavesNonEmpty(cands: seq<ClassName>, modelSub: (ClassName, ClassName) -> bool)
    requires SubclassOrder(cands, modelSub)
    requires |cands| > 0
    ensures Leaves(cands, modelSub) != {}
    ensures Leaves(cands, modelSub) <= set c | c in cands
  {
    LeavesCover(cands, modelSub, cands[0]);
  }

  /** What `cls_model_bases` stands for: a leaf's `Model`, or pydantic's `BaseModel`. */
  datatype ModelBase = PydanticBaseModel | ModelOf(owner: ClassName)

  /** `cls_model_bases`: the leaves' models, or `{BaseModel}` when there is no leaf. */
  function ModelBases(leaves: set<ClassName>): (r: set<ModelBase>)
    ensures r == {PydanticBaseModel} <==> leaves == {}
    ensures forall c :: c in leaves <==> ModelOf(c) in r
    ensures leaves != {} ==> r == set l | l in leaves :: ModelOf(l)
  {
    if leaves == {} then {PydanticBaseModel}
    else
      var r := set l | l in leaves :: ModelOf(l);
      var l :| l in leaves;
      assert ModelOf(l) in r && PydanticBaseModel !in r;
      r
  }

  /** The diamond `C(B1, B2)` whose bases' models both derive from `A.Model`:
      `C`, `B1`, `B2` and `A` each define a `Model`, `Entity` does not. */
  predicate DiamondOwns(c: ClassName)
  {
    c == "C" || c == "B1" || c == "B2" || c == "A"
  }

  /** `issubclass` among the diamond's models. */
  predicate DiamondSub(x: ClassName, y: ClassName)
  {
    x == y || (y == "A" && (x == "B1" || x == "B2"))
  }

  /** The diamond's candidates are its three bases in MRO order. */
  lemma DiamondCandidates()
    ensures ModelCandidates("C", ["C", "B1", "B2", "A", "Entity"], DiamondOwns) == ["B1", "B2", "A"]
  {
    var mro := ["C", "B1", "B2", "A", "Entity"];
    assert mro[1..] == ["B1", "B2", "A", "Entity"];
    assert mro[1..][1..] == ["B2", "A", "Entity"];
    assert mro[1..][1..][1..] == ["A", "Entity"];
    assert mro[1..][1..][1..][1..] == ["Entity"];
    assert ["Entity"][1..] == [];
  }

  /** Of the candidates `B1`, `B2`, `A`, only `A` has a subclass model. */
  lemma DiamondCandidateLeaves()
    ensures Leaves(["B1", "B2", "A"], DiamondSub) == {"B1", "B2"}
  {
    var cands := ["B1", "B2", "A"];
    var leaves := Leaves(cands, DiamondSub);
    assert "B1" in leaves by {
      assert !DiamondSub("B2", "B1") && !DiamondSub("A", "B1");
    }
    assert "B2" in leaves by {
      assert !DiamondSub("B1", "B2") && !DiamondSub("A", "B2");
    }
    assert "A" !in leaves by {
      assert DiamondSub("B1", "A");
    }
    assert leaves <= set c | c in cands;
  }

  /** The diamond's leaves are `B1` and `B2`, not the shared root `A`. */
  lemma DiamondLeaves()
    ensures Leaves(ModelCandidates("C", ["C", "B1", "B2", "A", "Entity"], DiamondOwns), DiamondSub) == {"B1", "B2"}
  {
    DiamondCandidates();
    DiamondCandidateLeaves();
  }
}
