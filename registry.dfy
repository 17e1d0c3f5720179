/** `QbFields`: the read-only registry of an entity class's fields. The
    internal `_fields` dict is an insertion-ordered sequence of
    `(key, field)` entries. */
module Registry {
  import opened PyValues
  import opened Fields
  import StringOrder

  datatype QbFields = QbFields(entries: seq<(string, Field)>)

  /** The keys of an ordered dict, in iteration order. */
  function KeysOf(entries: seq<(string, Field)>): (r: seq<string>)
    ensures |r| == |entries|
    ensures forall i :: 0 <= i < |entries| ==> r[i] == entries[i].0
  {
    seq(|entries|, i requires 0 <= i < |entries| => entries[i].0)
  }

  /** A real dict never repeats a key. */
  predicate Valid(reg: QbFields)
  {
    StringOrder.Distinct(KeysOf(reg.entries))
  }

  /** `QbFields(fields)`: `fields or {}`, so a missing mapping is empty. */
  function NewRegistry(fields: Option<seq<(string, Field)>>): (r: QbFields)
    ensures fields.None? ==> KeysOf(r.entries) == []
    ensures fields.Some? ==> KeysOf(r.entries) == KeysOf(fields.value)
    ensures fields.Some? ==> r.entries == fields.value
    ensures forall k :: Contains(r, k) <==> fields.Some? && k in KeysOf(fields.value)
  {
    QbFields(if fields.Some? then fields.value else [])
  }

  /** Dict lookup: the field stored under `key`. */
  function Find(entries: seq<(string, Field)>, key: string): (r: Option<Field>)
    ensures r.Some? <==> key in KeysOf(entries)
    ensures r.Some? ==> (key, r.value) in entries
  {
    if entries == [] then None
    else if entries[0].0 == key then Some(entries[0].1)
    else
      var r := Find(entries[1..], key);
      assert KeysOf(entries) == [entries[0].0] + KeysOf(entries[1..]);
      assert r.Some? ==> (key, r.value) in entries[1..];
      r
  }

  /** In a valid registry the lookup finds the one entry with that key. */
  lemma {:induction false} FindAt(entries: seq<(string, Field)>, i: int)
    requires 0 <= i < |entries|
    requires StringOrder.Distinct(KeysOf(entries))
    ensures Find(entries, entries[i].0) == Some(entries[i].1)
    decreases |entries|
  {
    if i > 0 {
      assert KeysOf(entries)[0] != KeysOf(entries)[i];
      var rest := entries[1..];
      assert KeysOf(rest) == KeysOf(entries)[1..];
      assert rest[i - 1] == entries[i];
      FindAt(rest, i - 1);
    }
  }

  /** `reg[key]`: the field, or a KeyError for an absent key. */
  function GetItem(reg: QbFields, key: string): (r: Result<Field, Error>)
    ensures r.Ok? <==> key in KeysOf(reg.entries)
    ensures r.Ok? ==> (key, r.value) in reg.entries
    ensures r.Err? ==> r.error == KeyError(key)
  {
    match Find(reg.entries, key)
    case Some(f) => Ok(f)
    case None => Err(KeyError(key))
  }

  /** Every entry of a valid registry is what subscripting returns for its key. */
  lemma GetItemEntry(reg: QbFields, i: int)
    requires Valid(reg) && 0 <= i < |reg.entries|
    ensures GetItem(reg, reg.entries[i].0) == Ok(reg.entries[i].1)
  {
    FindAt(reg.entries, i);
  }

  /** The names that ordinary attribute lookup resolves on a registry before
      `__getattr__` is consulted: its instance attribute, its class members and
      the entries the `class` statement adds to the class dict. */
  const OwnAttributes: set<string> := {
    "_fields", "_dict", "__isabstractmethod__", "__init__", "__repr__", "__str__",
    "__getitem__", "__getattr__", "__contains__", "__len__", "__iter__", "__dir__",
    "__module__", "__doc__", "__dict__", "__weakref__"
  }

  /** What `reg.name` evaluates to. */
  datatype Attr = FieldAttr(field: Field) | OwnAttr(name: string)

  /** `reg.name`: the registry's own member when it has one; otherwise the
      field, or an AttributeError (not a KeyError) for an absent key. */
  function GetAttr(reg: QbFields, name: string): (r: Result<Attr, Error>)
    ensures name in OwnAttributes ==> r == Ok(OwnAttr(name))
    ensures name !in OwnAttributes ==> (r.Ok? <==> GetItem(reg, name).Ok?)
    ensures name !in OwnAttributes && r.Ok? ==> r.value == FieldAttr(GetItem(reg, name).value)
    ensures r.Err? ==> r.error == AttributeError(name)
  {
    if name in OwnAttributes then Ok(OwnAttr(name))
    else
      match Find(reg.entries, name)
      case Some(f) => Ok(FieldAttr(f))
      case None => Err(AttributeError(name))
  }

  /** `key in reg`. */
  function Contains(reg: QbFields, key: string): (r: bool)
    ensures r <==> GetItem(reg, key).Ok?
  {
    Find(reg.entries, key).Some?
  }

  /** `list(reg)`: the keys in the dict's order. */
  function Iter(reg: QbFields): (r: seq<string>)
    ensures forall k :: k in r <==> Contains(reg, k)
    ensures |r| == |reg.entries|
  {
    KeysOf(reg.entries)
  }

  /** `len(reg)`. */
  function Len(reg: QbFields): nat
  {
    |reg.entries|
  }

  lemma {:induction false} DistinctCard(s: seq<string>)
    requires StringOrder.Distinct(s)
    ensures |set x | x in s| == |s|
    decreases |s|
  {
    if s != [] {
      var rest := s[1..];
      assert StringOrder.Distinct(rest) by {
        forall i, j | 0 <= i < j < |rest| ensures rest[i] != rest[j] {
          assert rest[i] == s[i + 1] && rest[j] == s[j + 1];
        }
      }
      DistinctCard(rest);
      assert s[0] !in rest by {
        forall j | 0 <= j < |rest| ensures rest[j] != s[0] {
          assert rest[j] == s[j + 1];
        }
      }
      assert (set x | x in s) == {s[0]} + (set x | x in rest) by {
        assert s == [s[0]] + rest;
      }
    }
  }

  /** `len` counts the distinct keys, the same keys that `in` accepts. */
  lemma LenCountsKeys(reg: QbFields)
    requires Valid(reg)
    ensures Len(reg) == |set k | k in Iter(reg)|
    ensures Len(reg) == |set k | k in Iter(reg) && Contains(reg, k)|
  {
    DistinctCard(KeysOf(reg.entries));
    assert (set k | k in Iter(reg) && Contains(reg, k)) == set k | k in Iter(reg);
  }

  /** `dir(reg)`: the keys followed by `_dict`. */
  function Dir(reg: QbFields): (r: seq<string>)
    ensures |r| == Len(reg) + 1 && r[|r| - 1] == "_dict"
    ensures forall k :: k in r <==> Contains(reg, k) || k == "_dict"
    ensures r[..Len(reg)] == Iter(reg)
  {
    Iter(reg) + ["_dict"]
  }

  /** `reg._dict`: a copy of the internal mapping, agreeing with subscripting
      on every key and holding no other key. */
  function Dict(reg: QbFields): (r: map<string, Field>)
    ensures forall k :: k in r <==> Contains(reg, k)
    ensures forall k :: k in r ==> GetItem(reg, k) == Ok(r[k])
  {
    map k | k in KeysOf(reg.entries) :: Find(reg.entries, k).value
  }
}
