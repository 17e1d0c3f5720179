# Query-builder fields of AiiDA's ORM, modelled in Dafny

This project models `src/aiida/orm/fields.py` of aiida-core. An ORM entity
class gets a `fields` registry (`QbFields`) of its queryable fields. A field
is a `QbField`, or a `QbAttrField` when it is stored in the node's
attribute column. Its comparison operators (`==`, `!=`, `<`, `<=`, `>`,
`>=`, `like`, `ilike`, `in_`, `not_in`) build `QbFieldFilters` objects.
Those objects are combined with `&` and `|` into the filter dictionaries
that the `QueryBuilder` consumes. The metaclass `EntityFieldMeta` fills
the registry from the entity's pydantic `Model`. The registry is sorted by
field name.

Modules:

- `PyValues` covers the Python values a filter can hold, the exceptions
  raised, and what `set(v)` accepts. Lists and sets are unhashable.
- `StringOrder` covers Python's `<` on `str` values and `sorted(...)` on a
  list of distinct keys.
- `Fields` covers the field descriptors: construction, `qb_field`,
  `__getitem__`, `__hash__`, and the triple each operator produces.
- `Filters` covers `QbFieldFilters`, modelled as a class with one `filters`
  field:
  - both paths of `add_filters`;
  - `as_dict`, `__getitem__`, `__contains__` and `__eq__`;
  - `__checks`, `__and__` and `__or__`.

  It also has pure functions for the resulting mappings (`Step`,
  `FoldTriples`, `Combined`, `Chain`) and lemmas about them.
- `Registry` covers `QbFields`, the read-only registry. It is a value whose
  entries are in dict order.
- `FieldMeta` covers the rest of `EntityFieldMeta.__init__`:
  - the check on an existing `fields` attribute;
  - the loop over the model's fields;
  - sorting the field names;
  - selecting the "leaf" bases that define a `Model`.

Where the tests and the code disagree, the model follows the code:

- A chain `(f == 1) & (f != 2) & ...` is one top-level `'and'` list of the
  single-entry filters (`FilterOperatorsChain`). It is not the
  `{field: {'and': [...]}}` shape the test of the operators expects.
- `__checks` only tests whether the logical key is present. Other top-level
  keys stay beside the extended list (`CombineAppendsKeepingOtherKeys`).
- The leaf bases and `cls_model_bases` are computed but never used. No error
  is raised when the class's `Model` misses a base's model.
- In the triple path of `add_filters`, a collision always writes the key
  `'and'`. A later collision therefore overwrites an earlier `'and'` list
  (`RepeatedCollisions`, `LaterCollisionOverwritesAnd`).
- Subscripting a `QbAttrField` builds the new stored name from the prefixed
  `qb_field`. The derived field then queries `attributes.attributes.<key>.<sub>`
  (`AttributeSubscriptDoublesPrefix`). This is kept as written.

## Model

| member | source | states |
|---|---|---|
| PyValues.ToPySet | src/aiida/orm/fields.py:151-154 | `set(v)` succeeds exactly for a string, a set, or a list or tuple whose items are all hashable. The result holds exactly the items (the one-character strings of a string). A number or `None` is refused. |
| PyValues.Chars | src/aiida/orm/fields.py:152 | `set(s)` of a string holds exactly its one-character substrings. |
| Fields.NewField | src/aiida/orm/fields.py:28-49 | Every slot is the given argument. Only a missing `qb_field` falls back to the key; an empty string is kept. |
| Fields.QbName | src/aiida/orm/fields.py:197-199 | The query name: the stored name for a `QbField`, `attributes.` + the stored name for a `QbAttrField`. Characterised by `QbNameWithoutAlias` and `AttributeQbNamePrefixed`. |
| Fields.QbNameWithoutAlias | src/aiida/orm/fields.py:55-57 | Without an alias, a plain field is queried under its key and an attribute field under `attributes.` plus its key. |
| Fields.AttributeQbNamePrefixed | src/aiida/orm/fields.py:197-199 | An attribute field's query name is `attributes.` followed by its stored name, whatever the alias. |
| Fields.HashKey | src/aiida/orm/fields.py:105-106 | The pair `(key, qb_field)` that `__hash__` hashes. `HashIgnoresMetadata` shows it ignores dtype, doc and subscriptable. |
| Fields.HashIgnoresMetadata | src/aiida/orm/fields.py:105-106 | Two fields that agree on key, class and stored name hash alike, whatever their dtype, doc and subscriptable flag. |
| Fields.Subscript | src/aiida/orm/fields.py:99-103 | An IndexError exactly when the field is not subscriptable. Otherwise a field of the same class whose key and query name gain `.sub` (an attribute field gains a second prefix). It is not subscriptable and has no dtype and an empty doc. |
| Fields.AttributeSubscriptDoublesPrefix | src/aiida/orm/fields.py:99-103 | Subscripting an attribute field `k` with `s` queries `attributes.attributes.k.s`. |
| Fields.SubscriptOnce | src/aiida/orm/fields.py:99-103 | A derived field cannot be subscripted again. |
| Fields.SymbolInjective | src/aiida/orm/fields.py:111-163 | The ten operators write ten distinct comparator strings. |
| Fields.OperatorTriple | src/aiida/orm/fields.py:111-163 | The triple carries the field and the operator's comparator. The six comparisons always succeed and keep the operand. `like`/`ilike` succeed exactly on strings and raise their own TypeError otherwise. `in_`/`not_in` succeed exactly when `set(v)` does, store that set, and raise `in_ must be iterable` otherwise. |
| Filters.Step | src/aiida/orm/fields.py:226-234 | An unseen query name is added with `{comparator: value}`. A present one is removed and `'and'` becomes the pair of its old spec and the new one. Every other key keeps its value. |
| Filters.FoldTriples | src/aiida/orm/fields.py:225-234 | The triple loop as a left fold of `Step`. Characterised by `FoldDistinctNames`, `FoldSnoc`, `RepeatedCollisions` and `LaterCollisionOverwritesAnd`. `AddTriples` is proved equal to it. |
| Filters.FoldDistinctNames | src/aiida/orm/fields.py:225-234 | Triples on distinct fresh names add exactly those names, each with its own spec, and change nothing already present. |
| Filters.FoldSnoc | src/aiida/orm/fields.py:225-234 | Adding one more triple is one more loop step after the earlier ones. |
| Filters.RepeatedCollisions | src/aiida/orm/fields.py:228-232 | On one name, two triples give `{'and': [t1, t2]}`. A third is stored back under the bare name beside that list. A fourth overwrites `'and'` with `[t3, t4]`. |
| Filters.LaterCollisionOverwritesAnd | src/aiida/orm/fields.py:228-232 | A collision on a second name replaces the `'and'` of the first, whose comparisons vanish. |
| Filters.OperatorFilter | src/aiida/orm/fields.py:111-163 | An operator's filters are the single entry `{qb_field: {comparator: stored value}}`, or exactly the operator's TypeError. |
| Filters.ComparisonFilter | src/aiida/orm/fields.py:111-127 | `==` … `>=` never fail and give `{qb_field: {op: value}}` with the operand unchanged. |
| Filters.InListOperand | src/aiida/orm/fields.py:149-155 | `in_(['a'])` stores the set `{'a'}`. |
| Filters.NotInStringOperand | src/aiida/orm/fields.py:157-163 | `not_in('ab')` stores the set `{'a', 'b'}` of the string's characters. |
| Filters.RejectedOperands | src/aiida/orm/fields.py:129-163 | `like(1)` and `in_(1)` are TypeErrors, and so is `in_([[]])`, whose item is unhashable. |
| Filters.Combined | src/aiida/orm/fields.py:251-275 | The mapping that `__and__` / `__or__` evaluate `a` and `b` to: `a` when the operands are equal; `a` with `b` appended when the logical key is present (AttributeError if that entry is not a list); otherwise `{logical: [a, b]}`. Characterised by `CombineIdempotent`, `CombineAppendsKeepingOtherKeys` and `ChainIsFlat`. `Checks`/`Combine`/`And`/`Or` are proved equal to it. |
| Filters.CombineIdempotent | src/aiida/orm/fields.py:265-267 | `__and__` and `__or__` of a filter object with an equal one return the left operand itself, unchanged. |
| Filters.CombineAppendsKeepingOtherKeys | src/aiida/orm/fields.py:269-273 | When the logical key holds a list, `b` is appended to it. The other top-level keys stay as they are. |
| Filters.ChainIsFlat | src/aiida/orm/fields.py:251-257 | A left chain of one operator over operands without that key is a single top-level list of all operands in order. |
| Filters.FilterOperatorsChain | src/aiida/orm/fields.py:251-253 | The six comparisons on `pk` (queried as `id`), chained with `&`, give `{'and': [{'id': {'==': 1}}, …, {'id': {'<=': 6}}]}` with no top-level `id`. |
| Filters.QbFieldFilters.FromMap | src/aiida/orm/fields.py:207-209 | Construction from a mapping holds exactly that mapping. |
| Filters.QbFieldFilters.FromTriples | src/aiida/orm/fields.py:207-209 | Construction from triples holds the fold of the triples into the empty mapping. |
| Filters.QbFieldFilters.AddMap | src/aiida/orm/fields.py:219-221 | `dict.update`: the old mapping overridden by the new one. |
| Filters.QbFieldFilters.AddTriples | src/aiida/orm/fields.py:223-234 | The in-place loop of pops and insertions leaves exactly the fold of the triples over the old mapping. |
| Filters.QbFieldFilters.AsDict | src/aiida/orm/fields.py:211-213 | Returns the filters mapping itself. |
| Filters.QbFieldFilters.GetItem | src/aiida/orm/fields.py:239-240 | Returns the entry under a present key, and a KeyError exactly for an absent one. |
| Filters.QbFieldFilters.Contains | src/aiida/orm/fields.py:242-243 | True exactly when subscripting succeeds. |
| Filters.QbFieldFilters.Equals | src/aiida/orm/fields.py:245-249 | Equality of the two mappings. A TypeError naming the operand's type for any non-filter operand. |
| Filters.QbFieldFilters.Checks | src/aiida/orm/fields.py:259-275 | A TypeError for a non-filter operand. The left operand itself when the operands are equal or the logical key is present; in the second case the other mapping is appended to that list, and an AttributeError is raised when the entry is not a list. `None` otherwise. Nothing changes on any path without an append. |
| Filters.QbFieldFilters.Combine | src/aiida/orm/fields.py:251-257 | The result holds `Combined(a, b, logical)`. It is the left operand when `__checks` returned it, otherwise a fresh object, with the left operand unchanged. Errors are those of `__checks`. |
| Filters.QbFieldFilters.And | src/aiida/orm/fields.py:251-253 | `a & b`: `Combine` under `'and'`. The TypeError for a non-filter operand. When `__checks` returns the left operand, the result is that object and its filters are the appended mapping; otherwise a fresh object and the left operand unchanged. |
| Filters.QbFieldFilters.Or | src/aiida/orm/fields.py:255-257 | `__or__`: `Combine` under `'or'`, with the same error, identity and state guarantees as `And`. |
| Filters.FieldOperator | src/aiida/orm/fields.py:111-163 | An operator returns a fresh filter object holding the operator's filters, or raises the operator's TypeError. |
| Registry.NewRegistry | src/aiida/orm/fields.py:283-284 | A missing mapping gives an empty registry; a given one is kept entry for entry, in order, so `in` accepts exactly its keys. |
| Registry.GetItem | src/aiida/orm/fields.py:292-294 | Returns the field stored under a present key, and a KeyError exactly for an absent one. |
| Registry.GetItemEntry | src/aiida/orm/fields.py:292-294 | In a registry without repeated keys, each entry is what subscripting its key returns. |
| Registry.GetAttr | src/aiida/orm/fields.py:296-301 | The registry's own members come first. Any other name gives the field under that key, or an AttributeError (not a KeyError) for an absent key. |
| Registry.Contains | src/aiida/orm/fields.py:303-305 | `key in reg` exactly when `reg[key]` succeeds. |
| Registry.Iter | src/aiida/orm/fields.py:311-313 | Iteration yields one key per entry, exactly the keys `in` accepts. |
| Registry.Len | src/aiida/orm/fields.py:307-309 | The number of entries. `LenCountsKeys` shows it is the number of distinct keys. |
| Registry.LenCountsKeys | src/aiida/orm/fields.py:307-309 | `len` is the number of distinct keys that iteration yields and `in` accepts. |
| Registry.Dir | src/aiida/orm/fields.py:315-317 | The keys in order followed by `_dict`, and nothing else. |
| Registry.Dict | src/aiida/orm/fields.py:319-322 | The copy has exactly the registry's keys, each mapped to what subscripting returns. |
| StringOrder.SortedAscending | src/aiida/orm/fields.py:400 | `sorted` of distinct names is strictly ascending under Python's `str` order, with the same elements and length. |
| StringOrder.Less | src/aiida/orm/fields.py:400 | Python's `<` on `str`: code point by code point, a proper prefix first. `LessIrreflexive`, `LessTransitive`, `LessAsymmetric` and `LessTotal` make it a strict total order. |
| StringOrder.Sorted | src/aiida/orm/fields.py:400 | `sorted(keys)` as insertion under `Less`. Its ensures state that it only rearranges (same multiset). `SortedAscending` shows it is strictly ascending on distinct keys. |
| FieldMeta.FieldFor | src/aiida/orm/fields.py:390-398 | A model entry becomes a `QbAttrField` exactly when `is_attribute` is set. Its key is the entry's name and its query name comes from `database_alias` when given (prefixed for attributes). Dtype, doc and subscriptable come from the entry. |
| FieldMeta.Collected | src/aiida/orm/fields.py:390-398 | The `fields` dict the loop fills, a later entry overwriting an earlier one with the same name. Characterised by `CollectedKeys` and `CollectedEntry`. `CollectFields` is proved against it. |
| FieldMeta.CollectedKeys | src/aiida/orm/fields.py:390-398 | The collected `fields` dict has exactly the model's field names. |
| FieldMeta.CollectedEntry | src/aiida/orm/fields.py:390-398 | Each distinct model field name maps to the field built from its own entry. |
| FieldMeta.CollectFields | src/aiida/orm/fields.py:390-400 | The loop and `sorted` give a registry without repeated keys, iterating in ascending order. It holds exactly the collected names, each with its collected field. |
| FieldMeta.CollectionUnique | src/aiida/orm/fields.py:400 | Only one sorted registry matches a model's fields, so the result is determined. |
| FieldMeta.CollectionLookup | src/aiida/orm/fields.py:390-400 | After collection, `cls.fields[name]` is the field built from that model entry. |
| FieldMeta.EntityClass.HasForeignFields | src/aiida/orm/fields.py:341-342 | `fields` is present, not `None` and not a registry. `InitFields` raises its ValueError exactly then. |
| FieldMeta.RegistryOrdering | src/aiida/orm/fields.py:400 | Fields declared as `z` then `a` iterate as `a`, `z`. |
| FieldMeta.EntityClass.InitFields | src/aiida/orm/fields.py:340-400 | An existing `fields` that is neither `None` nor a registry raises the ValueError naming the class and leaves it in place. Otherwise `cls.fields` becomes the sorted collection of the model's fields, which is empty without a pydantic model. |
| FieldMeta.ModelCandidates | src/aiida/orm/fields.py:363-367 | The candidates are exactly the MRO members other than the class that define their own `Model`. |
| FieldMeta.Leaves | src/aiida/orm/fields.py:371-379 | The candidates whose model no other candidate's model subclasses. Characterised by `LeavesCover`, `LeavesNonEmpty` and `DiamondCandidateLeaves`. |
| FieldMeta.LeavesCover | src/aiida/orm/fields.py:371-379 | Every candidate is a leaf or lies under a leaf whose model subclasses its own. |
| FieldMeta.LeavesNonEmpty | src/aiida/orm/fields.py:371-379 | At least one candidate means at least one leaf, and the leaves are candidates. |
| FieldMeta.ModelBases | src/aiida/orm/fields.py:381-388 | `{BaseModel}` exactly when there is no leaf. Otherwise exactly the leaves' models. |
| FieldMeta.DiamondCandidates | src/aiida/orm/fields.py:363-367 | For `C(B1, B2)` with `B1`, `B2` deriving from `A`, the candidates are `B1`, `B2`, `A` in MRO order. |
| FieldMeta.DiamondCandidateLeaves | src/aiida/orm/fields.py:371-379 | Of `B1`, `B2`, `A`, only `A` has a subclass model, so the leaves are `{B1, B2}`. |
| FieldMeta.DiamondLeaves | src/aiida/orm/fields.py:363-379 | In that diamond, the leaf bases are `B1` and `B2`, not the shared root `A`. |

## Left out

- `__repr__` and `__str__` of all three classes, and `QbField._repr_type`: these are text rendering only.
- `QbFieldFilters.items()`: it returns a view of the same mapping that `as_dict` returns.
- Aliasing of nested dictionaries: nested filter mappings are values. In the source a filter object refers to other objects' dicts in two places: `__checks` appends `other.filters` itself, and the fresh wrapper of `__and__`/`__or__` holds `self.filters` and `other.filters` themselves. A later in-place append to one of those dicts therefore shows through in the source, but not in the model. For example, with `a = p | q` and `c = a & b`, a later `a | x` appends into `a.filters`, which changes `c.filters['and'][0]` in the source but leaves `c` unchanged in the model.
- Dict insertion order of a filters mapping: it is modelled as an unordered `map`. The registry keeps its order, because `__iter__` and `__dir__` expose it.
- Registry.Dict: the `deepcopy` is returned as an unordered map; only its contents are modelled.
- Registry.GetAttr: the registry's own members are its instance attribute `_fields`, the methods and properties its class defines, and `__module__`, `__doc__`, `__dict__` and `__weakref__` from the class dict. Names inherited from `object` (`__class__`, `__eq__`, …) and the entries particular Python versions add to a class dict are not listed, so the model sends them to the field lookup.
- `EntityFieldMeta.__new__`: the synthesis of a combined `Model` type, pydantic itself and `get_metadata` are not part of this model. A model entry carries the metadata values with their defaults already applied.
- The MRO computation: `ModelCandidates` takes the MRO, and which classes define their own `Model`, as parameters. `issubclass` between models is a parameter with the properties of a subclass order.
- Floats, bools, dicts and arbitrary objects as filter operands: operands are `None`, integers, strings, lists, tuples and sets.
- Equality of Python values is structural equality of the model's values: `1 == True` and `{1} == frozenset({1})` are not modelled.
- TypeName: only the type names of the modelled values are rendered.
- The reflected operators and Python's fallback when `__eq__` on a field is called with a filter object: only the direct call is modelled.
- `singledispatchmethod` on argument types other than a mapping, list or tuple: they are not modelled.
