/** `QbFieldFilters`: the filter object that field comparisons produce and
    that `&` / `|` combine. Its state is one mapping from a query name (or the
    logical keys `"and"` / `"or"`) to an operator spec or a list of nested
    filter mappings. Nested mappings are modelled as values. */
module Filters {
  import opened PyValues
  import opened Fields

  /** A value of the filters mapping: `{comparator: value}`, or a list of
      nested filter mappings under a logical key. */
  datatype Entry =
    | Spec(ops: map<string, Value>)
    | Clauses(items: seq<map<string, Entry>>)

  type FilterMap = map<string, Entry>

  const AndKey: string := "and"
  const OrKey: string := "or"

  /** The mapping `{qb_field: {comparator: value}}` of one triple. */
  function Leaf(t: Triple): FilterMap
  {
    map[QbName(t.field) := Spec(map[t.comparator := t.value])]
  }

  /** One iteration of the triple loop of `add_filters`: an unseen query name
      is inserted; a present one is popped and `"and"` is set to the pair of
      the popped spec and the new one. */
  function Step(m: FilterMap, t: Triple): (r: FilterMap)
    ensures QbName(t.field) !in m ==>
      r.Keys == m.Keys + {QbName(t.field)} &&
      r[QbName(t.field)] == Spec(map[t.comparator := t.value])
    ensures QbName(t.field) in m ==>
      r.Keys == (m.Keys - {QbName(t.field)}) + {AndKey} &&
      r[AndKey] == Clauses([map[QbName(t.field) := m[QbName(t.field)]], Leaf(t)])
    ensures forall k :: k in m && k != QbName(t.field) && k != AndKey ==> k in r && r[k] == m[k]
  {
    var q := QbName(t.field);
    if q in m then
      (m - {q})[AndKey := Clauses([map[q := m[q]], map[q := Spec(map[t.comparator := t.value])]])]
    else
      m[q := Spec(map[t.comparator := t.value])]
  }

  /** The triples folded into `m` from left to right. */
  function FoldTriples(m: FilterMap, ts: seq<Triple>): FilterMap
    decreases |ts|
  {
    if ts == [] then m else FoldTriples(Step(m, ts[0]), ts[1..])
  }

  /** The query names of a sequence of triples, in order. */
  function QbNames(ts: seq<Triple>): (r: seq<string>)
    ensures |r| == |ts|
    ensures forall i :: 0 <= i < |ts| ==> r[i] == QbName(ts[i].field)
  {
    seq(|ts|, i requires 0 <= i < |ts| => QbName(ts[i].field))
  }

  /** Triples on pairwise distinct, fresh query names never collide: each adds
      its own `{comparator: value}` entry and nothing already there changes. */
  lemma {:induction false} FoldDistinctNames(m: FilterMap, ts: seq<Triple>)
    requires forall i, j :: 0 <= i < j < |ts| ==> QbName(ts[i].field) != QbName(ts[j].field)
    requires forall i :: 0 <= i < |ts| ==> QbName(ts[i].field) !in m
    ensures FoldTriples(m, ts).Keys == m.Keys + set i | 0 <= i < |ts| :: QbName(ts[i].field)
    ensures forall k :: k in m ==> FoldTriples(m, ts)[k] == m[k]
    ensures forall i :: 0 <= i < |ts| ==>
      FoldTriples(m, ts)[QbName(ts[i].field)] == Spec(map[ts[i].comparator := ts[i].value])
    decreases |ts|
  {
    if ts != [] {
      var m' := Step(m, ts[0]);
      var rest := ts[1..];
      assert forall i :: 0 <= i < |rest| ==> rest[i] == ts[i + 1];
      FoldDistinctNames(m', rest);
      var r := FoldTriples(m, ts);
      assert r == FoldTriples(m', rest);
      var names := set i | 0 <= i < |ts| :: QbName(ts[i].field);
      var restNames := set i | 0 <= i < |rest| :: QbName(rest[i].field);
      assert names == {QbName(ts[0].field)} + restNames by {
        forall k | k in names ensures k in {QbName(ts[0].field)} + restNames {
          var i :| 0 <= i < |ts| && QbName(ts[i].field) == k;
          if i > 0 {
            assert QbName(rest[i - 1].field) == k;
          }
        }
      }
      forall i | 0 <= i < |ts|
        ensures r[QbName(ts[i].field)] == Spec(map[ts[i].comparator := ts[i].value])
      {
        if i > 0 {
          assert rest[i - 1] == ts[i];
        }
      }
    }
  }

  /** Folding one more triple after a prefix is one more step. */
  lemma {:induction false} FoldSnoc(m: FilterMap, ts: seq<Triple>, t: Triple)
    ensures FoldTriples(m, ts + [t]) == Step(FoldTriples(m, ts), t)
    decreases |ts|
  {
    if ts == [] {
      assert [t][1..] == [];
    } else {
      assert (ts + [t])[1..] == ts[1..] + [t];
      FoldSnoc(Step(m, ts[0]), ts[1..], t);
    }
  }

  /** Repeated triples on one query name: the second collision writes `"and"`,
      the third is stored back under the bare name, and the fourth overwrites
      `"and"`, dropping the first two comparisons. */
  lemma RepeatedCollisions(t1: Triple, t2: Triple, t3: Triple, t4: Triple)
    requires QbName(t1.field) == QbName(t2.field) == QbName(t3.field) == QbName(t4.field)
    requires QbName(t1.field) != AndKey
    ensures var q := QbName(t1.field);
      FoldTriples(map[], [t1, t2]) == map[AndKey := Clauses([Leaf(t1), Leaf(t2)])]
    ensures var q := QbName(t1.field);
      FoldTriples(map[], [t1, t2, t3]) ==
      map[AndKey := Clauses([Leaf(t1), Leaf(t2)]), q := Spec(map[t3.comparator := t3.value])]
    ensures FoldTriples(map[], [t1, t2, t3, t4]) == map[AndKey := Clauses([Leaf(t3), Leaf(t4)])]
  {
    var q := QbName(t1.field);
    assert [] + [t1] == [t1] && [t1] + [t2] == [t1, t2];
    assert [t1, t2] + [t3] == [t1, t2, t3] && [t1, t2, t3] + [t4] == [t1, t2, t3, t4];
    FoldSnoc(map[], [], t1);
    FoldSnoc(map[], [t1], t2);
    FoldSnoc(map[], [t1, t2], t3);
    FoldSnoc(map[], [t1, t2, t3], t4);
    var m1 := FoldTriples(map[], [t1]);
    assert m1 == Leaf(t1);
    var m2 := FoldTriples(map[], [t1, t2]);
    assert m2 == Step(m1, t2);
    assert m2 == map[AndKey := Clauses([Leaf(t1), Leaf(t2)])];
    var m3 := FoldTriples(map[], [t1, t2, t3]);
    assert m3 == Step(m2, t3);
    var m4 := FoldTriples(map[], [t1, t2, t3, t4]);
    assert m4 == Step(m3, t4);
    assert m3[q] == Spec(map[t3.comparator := t3.value]);
  }

  /** A collision on a second query name overwrites the `"and"` written for the
      first, so the first name's comparisons disappear from the filters. */
  lemma LaterCollisionOverwritesAnd(p1: Triple, p2: Triple, q1: Triple, q2: Triple)
    requires QbName(p1.field) == QbName(p2.field)
    requires QbName(q1.field) == QbName(q2.field)
    requires QbName(p1.field) != QbName(q1.field)
    requires QbName(p1.field) != AndKey && QbName(q1.field) != AndKey
    ensures FoldTriples(map[], [p1, p2, q1, q2]) == map[AndKey := Clauses([Leaf(q1), Leaf(q2)])]
    ensures QbName(p1.field) !in FoldTriples(map[], [p1, p2, q1, q2])
  {
    assert [] + [p1] == [p1] && [p1] + [p2] == [p1, p2];
    assert [p1, p2] + [q1] == [p1, p2, q1] && [p1, p2, q1] + [q2] == [p1, p2, q1, q2];
    FoldSnoc(map[], [], p1);
    FoldSnoc(map[], [p1], p2);
    FoldSnoc(map[], [p1, p2], q1);
    FoldSnoc(map[], [p1, p2, q1], q2);
    var m2 := FoldTriples(map[], [p1, p2]);
    assert m2 == Step(Leaf(p1), p2);
    assert m2.Keys == {AndKey};
    var m3 := FoldTriples(map[], [p1, p2, q1]);
    assert m3 == Step(m2, q1);
    assert m3.Keys == {AndKey, QbName(q1.field)};
    var m4 := FoldTriples(map[], [p1, p2, q1, q2]);
    assert m4 == Step(m3, q2);
  }

  /** The filters a field operator produces: `QbFieldFilters(((field, op, value),))`. */
  function OperatorFilter(f: Field, op: Operator, v: Value): (r: Result<FilterMap, Error>)
    ensures r.Ok? <==> OperatorTriple(f, op, v).Ok?
    ensures r.Err? ==> r.error == OperatorTriple(f, op, v).error
    ensures r.Ok? ==>
      r.value.Keys == {QbName(f)} &&
      r.value[QbName(f)] == Spec(map[Symbol(op) := OperatorTriple(f, op, v).value.value])
  {
    match OperatorTriple(f, op, v)
    case Err(e) => Err(e)
    case Ok(t) =>
      assert FoldTriples(map[], [t]) == Step(map[], t) by {
        assert [t][1..] == [];
      }
      Ok(FoldTriples(map[], [t]))
  }

  /** A mapping with one key is the one-entry display of it. */
  lemma SingletonMap(m: FilterMap, k: string, e: Entry)
    requires m.Keys == {k} && m[k] == e
    ensures m == map[k := e]
  {
    assert forall x :: x in m <==> x in map[k := e];
  }

  /** The six comparisons never fail and store their operand unchanged. */
  lemma ComparisonFilter(f: Field, op: Operator, v: Value)
    requires op in {Eq, Ne, Lt, Le, Gt, Ge}
    ensures OperatorFilter(f, op, v) == Ok(map[QbName(f) := Spec(map[Symbol(op) := v])])
  {
    assert OperatorTriple(f, op, v).Ok? && OperatorTriple(f, op, v).value.value == v;
    var r := OperatorFilter(f, op, v).value;
    assert r.Keys == map[QbName(f) := Spec(map[Symbol(op) := v])].Keys;
    assert r[QbName(f)] == Spec(map[Symbol(op) := v]);
    SingletonMap(r, QbName(f), Spec(map[Symbol(op) := v]));
  }

  /** The filters `a & b` (logical `"and"`) or `a | b` (`"or"`) evaluates to:
      `a` itself when the operands are equal; `a` with `b` appended to its
      logical list when that key is present (an AttributeError when the entry
      there is not a list); otherwise `{logical: [a, b]}`. */
  function Combined(a: FilterMap, b: FilterMap, logical: string): Result<FilterMap, Error>
  {
    if b == a then Ok(a)
    else if logical in a then
      match a[logical]
      case Clauses(items) => Ok(a[logical := Clauses(items + [b])])
      case Spec(_) => Err(AttributeError("append"))
    else Ok(map[logical := Clauses([a, b])])
  }

  /** Whether `__checks` hands back the left operand itself. */
  predicate ReturnsSelf(a: FilterMap, b: FilterMap, logical: string)
  {
    b == a || logical in a
  }

  /** `a & a` and `a | a` are `a`. */
  lemma CombineIdempotent(a: FilterMap, logical: string)
    ensures Combined(a, a, logical) == Ok(a)
    ensures ReturnsSelf(a, a, logical)
  {
  }

  /** Only presence of the logical key is tested: other top-level keys stay
      beside the extended list. */
  lemma CombineAppendsKeepingOtherKeys(a: FilterMap, b: FilterMap, logical: string)
    requires a != b && logical in a && a[logical].Clauses?
    ensures Combined(a, b, logical).Ok?
    ensures Combined(a, b, logical).value.Keys == a.Keys
    ensures Combined(a, b, logical).value[logical].items == a[logical].items + [b]
    ensures forall k :: k in a && k != logical ==> Combined(a, b, logical).value[k] == a[k]
  {
  }

  /** The left fold `((fs[0] op fs[1]) op fs[2]) ...` of one logical operator. */
  function Chain(fs: seq<FilterMap>, logical: string): Result<FilterMap, Error>
    requires |fs| > 0
    decreases |fs|
  {
    if |fs| == 1 then Ok(fs[0])
    else
      match Chain(fs[..|fs| - 1], logical)
      case Err(e) => Err(e)
      case Ok(acc) => Combined(acc, fs[|fs| - 1], logical)
  }

  /** A chain of one logical operator over operands without that key stays
      flat: one top-level list holding every operand in order. */
  lemma {:induction false} ChainIsFlat(fs: seq<FilterMap>, logical: string)
    requires |fs| >= 2
    requires forall i :: 0 <= i < |fs| ==> logical !in fs[i]
    requires fs[0] != fs[1]
    ensures Chain(fs, logical) == Ok(map[logical := Clauses(fs)])
    decreases |fs|
  {
    var n := |fs|;
    var init := fs[..n - 1];
    if n == 2 {
      assert init == [fs[0]];
      assert Chain(init, logical) == Ok(fs[0]);
      assert Chain(fs, logical) == Combined(fs[0], fs[1], logical);
      assert [fs[0], fs[1]] == fs;
    } else {
      assert init[0] == fs[0] && init[1] == fs[1];
      ChainIsFlat(init, logical);
      var acc := map[logical := Clauses(init)];
      assert Chain(init, logical) == Ok(acc);
      assert logical in acc && logical !in fs[n - 1];
      assert acc != fs[n - 1];
      assert Chain(fs, logical) == Combined(acc, fs[n - 1], logical);
      assert init + [fs[n - 1]] == fs;
      assert acc[logical := Clauses(init + [fs[n - 1]])] == map[logical := Clauses(fs)];
    }
  }

  /** The six operands of `(pk == 1) & (pk != 2) & (pk > 3) & (pk >= 4) &
      (pk < 5) & (pk <= 6)`. */
  function PkComparisons(pk: Field): seq<FilterMap>
  {
    [OperatorFilter(pk, Eq, VInt(1)).value, OperatorFilter(pk, Ne, VInt(2)).value,
     OperatorFilter(pk, Gt, VInt(3)).value, OperatorFilter(pk, Ge, VInt(4)).value,
     OperatorFilter(pk, Lt, VInt(5)).value, OperatorFilter(pk, Le, VInt(6)).value]
  }

  /** That chain on a field queried as `id` is one top-level `"and"` list of
      the six single-entry filters; no `"id"` key is left at the top level. */
  lemma FilterOperatorsChain(pk: Field)
    requires QbName(pk) == "id"
    ensures PkComparisons(pk)[0] == map["id" := Spec(map["==" := VInt(1)])]
    ensures PkComparisons(pk)[5] == map["id" := Spec(map["<=" := VInt(6)])]
    ensures Chain(PkComparisons(pk), AndKey) == Ok(map[AndKey := Clauses(PkComparisons(pk))])
    ensures "id" !in Chain(PkComparisons(pk), AndKey).value
  {
    var fs := PkComparisons(pk);
    ComparisonFilter(pk, Eq, VInt(1));
    ComparisonFilter(pk, Ne, VInt(2));
    ComparisonFilter(pk, Le, VInt(6));
    assert forall i :: 0 <= i < |fs| ==> fs[i].Keys == {"id"};
    var e0 := fs[0]["id"];
    var e1 := fs[1]["id"];
    assert "==" in e0.ops && "==" !in e1.ops;
    assert fs[0] != fs[1];
    ChainIsFlat(fs, AndKey);
  }

  /** `uuid.in_(['a'])` stores the set `{'a'}`. */
  lemma InListOperand(uuid: Field)
    ensures OperatorFilter(uuid, In, VList([VStr("a")])) ==
      Ok(map[QbName(uuid) := Spec(map["in" := VSet({VStr("a")})])])
  {
    var one := ToPySet(VList([VStr("a")]));
    assert one.Some?;
    assert one.value == {VStr("a")};
    var r := OperatorFilter(uuid, In, VList([VStr("a")]));
    assert r.Ok? && r.value.Keys == {QbName(uuid)};
    assert r.value[QbName(uuid)] == Spec(map["in" := VSet({VStr("a")})]);
    SingletonMap(r.value, QbName(uuid), Spec(map["in" := VSet({VStr("a")})]));
  }

  /** `uuid.not_in('ab')` stores the set of the string's characters. */
  lemma NotInStringOperand(uuid: Field)
    ensures OperatorFilter(uuid, NotIn, VStr("ab")) ==
      Ok(map[QbName(uuid) := Spec(map["!in" := VSet({VStr("a"), VStr("b")})])])
  {
    var chars := Chars("ab");
    assert chars == {VStr("a"), VStr("b")} by {
      assert "ab"[0] == 'a' && "ab"[1] == 'b';
      assert VStr(["ab"[0]]) == VStr("a") && VStr(["ab"[1]]) == VStr("b");
      assert VStr("a") in chars && VStr("b") in chars;
    }
    var s := OperatorFilter(uuid, NotIn, VStr("ab"));
    assert s.Ok? && s.value.Keys == {QbName(uuid)};
    assert s.value[QbName(uuid)] == Spec(map["!in" := VSet({VStr("a"), VStr("b")})]);
    SingletonMap(s.value, QbName(uuid), Spec(map["!in" := VSet({VStr("a"), VStr("b")})]));
  }

  /** `like(1)`, `in_(1)` and `in_([[]])` are TypeErrors. */
  lemma RejectedOperands(uuid: Field)
    ensures OperatorFilter(uuid, Like, VInt(1)) == Err(TypeError("like must be a string"))
    ensures OperatorFilter(uuid, In, VInt(1)) == Err(TypeError("in_ must be iterable"))
    ensures OperatorFilter(uuid, In, VList([VList([])])) == Err(TypeError("in_ must be iterable"))
  {
    var nested := VList([VList([])]);
    assert !Hashable(nested.items[0]);
    assert ToPySet(nested).None?;
  }

  /** The right operand of `==`, `&` or `|`: another filter object, or any
      other Python value. */
  datatype Operand = FilterOperand(obj: QbFieldFilters) | OtherOperand(v: Value)

  class QbFieldFilters {
    var filters: FilterMap

    /** `QbFieldFilters(mapping)`. */
    constructor FromMap(m: FilterMap)
      ensures filters == m
    {
      filters := map[];
      new;
      AddMap(m);
      assert map[] + m == m;
    }

    /** `QbFieldFilters(triples)`. */
    constructor FromTriples(ts: seq<Triple>)
      ensures filters == FoldTriples(map[], ts)
    {
      filters := map[];
      new;
      AddTriples(ts);
    }

    /** `add_filters(mapping)`: `dict.update`. */
    method AddMap(m: FilterMap)
      modifies this
      ensures filters == old(filters) + m
    {
      filters := filters + m;
    }

    /** `add_filters(triples)`: the collision loop. */
    method AddTriples(ts: seq<Triple>)
      modifies this
      ensures filters == FoldTriples(old(filters), ts)
    {
      var i := 0;
      while i < |ts|
        invariant 0 <= i <= |ts|
        invariant FoldTriples(filters, ts[i..]) == FoldTriples(old(filters), ts)
      {
        var t := ts[i];
        var q := QbName(t.field);
        ghost var before := filters;
        if q in filters {
          var popped := filters[q];
          filters := filters - {q};
          filters := filters[AndKey := Clauses([map[q := popped], map[q := Spec(map[t.comparator := t.value])]])];
        } else {
          filters := filters[q := Spec(map[t.comparator := t.value])];
        }
        assert filters == Step(before, t);
        assert ts[i..][0] == t && ts[i..][1..] == ts[i + 1..];
        i := i + 1;
      }
    }

    /** `as_dict()`. */
    function AsDict(): (r: FilterMap)
      reads this
      ensures r == filters
    {
      filters
    }

    /** `filters[key]`: a KeyError for an absent key. */
    function GetItem(key: string): (r: Result<Entry, Error>)
      reads this
      ensures r.Ok? <==> key in filters
      ensures r.Ok? ==> r.value == filters[key]
      ensures r.Err? ==> r.error == KeyError(key)
    {
      if key in filters then Ok(filters[key]) else Err(KeyError(key))
    }

    /** `key in filters`. */
    function Contains(key: string): (r: bool)
      reads this
      ensures r <==> GetItem(key).Ok?
    {
      key in filters
    }

    /** `a == b`: compares the mappings; a TypeError for a non-filter operand. */
    method Equals(other: Operand) returns (r: Result<bool, Error>)
      ensures other.OtherOperand? ==>
        r == Err(TypeError("Cannot compare QbFieldFilters to " + TypeName(other.v)))
      ensures other.FilterOperand? ==> r == Ok(filters == other.obj.filters)
    {
      match other
      case OtherOperand(v) =>
        r := Err(TypeError("Cannot compare QbFieldFilters to " + TypeName(v)));
      case FilterOperand(obj) =>
        r := Ok(filters == obj.filters);
    }

    /** `__checks`: `Some(this)` when the operands are equal or when `other`
        was appended in place to the logical list; `None` when a new wrapper
        is needed. */
    method Checks(other: Operand, logical: string) returns (r: Result<Option<QbFieldFilters>, Error>)
      modifies this
      ensures other.OtherOperand? ==>
        r == Err(TypeError("Cannot combine QbFieldFilters and " + TypeName(other.v))) &&
        filters == old(filters)
      ensures other.FilterOperand? && ReturnsSelf(old(filters), old(other.obj.filters), logical) ==>
        var c := Combined(old(filters), old(other.obj.filters), logical);
        (c.Ok? ==> r == Ok(Some(this)) && filters == c.value) &&
        (c.Err? ==> r == Err(c.error) && filters == old(filters))
      ensures other.FilterOperand? && !ReturnsSelf(old(filters), old(other.obj.filters), logical) ==>
        r == Ok(None) && filters == old(filters)
    {
      match other
      case OtherOperand(v) =>
        r := Err(TypeError("Cannot combine QbFieldFilters and " + TypeName(v)));
      case FilterOperand(obj) =>
        var same := obj.Equals(FilterOperand(this));
        if same == Ok(true) {
          r := Ok(Some(this));
        } else if logical in filters {
          match filters[logical]
          case Clauses(items) =>
            filters := filters[logical := Clauses(items + [obj.filters])];
            r := Ok(Some(this));
          case Spec(_) =>
            r := Err(AttributeError("append"));
        } else {
          r := Ok(None);
        }
    }

    /** The shared body of `__and__` and `__or__`. */
    method Combine(other: Operand, logical: string) returns (r: Result<QbFieldFilters, Error>)
      modifies this
      ensures other.OtherOperand? ==>
        r == Err(TypeError("Cannot combine QbFieldFilters and " + TypeName(other.v))) &&
        filters == old(filters)
      ensures other.FilterOperand? ==>
        var c := Combined(old(filters), old(other.obj.filters), logical);
        (r.Ok? <==> c.Ok?) &&
        (r.Ok? ==> r.value.filters == c.value) &&
        (r.Err? ==> r.error == c.error && filters == old(filters)) &&
        (r.Ok? && ReturnsSelf(old(filters), old(other.obj.filters), logical) ==> r.value == this) &&
        (r.Ok? && !ReturnsSelf(old(filters), old(other.obj.filters), logical) ==>
           fresh(r.value) && filters == old(filters))
    {
      var checked := Checks(other, logical);
      if checked.Err? {
        r := Err(checked.error);
      } else if checked.value.Some? {
        r := Ok(checked.value.value);
      } else {
        var wrapped := new QbFieldFilters.FromMap(map[logical := Clauses([filters, other.obj.filters])]);
        r := Ok(wrapped);
      }
    }

    /** `a & b`: the combination under `'and'`. */
    method And(other: Operand) returns (r: Result<QbFieldFilters, Error>)
      modifies this
      ensures other.OtherOperand? ==>
        r == Err(TypeError("Cannot combine QbFieldFilters and " + TypeName(other.v))) &&
        filters == old(filters)
      ensures other.FilterOperand? ==>
        var c := Combined(old(filters), old(other.obj.filters), AndKey);
        (r.Ok? <==> c.Ok?) &&
        (r.Ok? ==> r.value.filters == c.value) &&
        (r.Err? ==> r.error == c.error && filters == old(filters)) &&
        (r.Ok? && ReturnsSelf(old(filters), old(other.obj.filters), AndKey) ==> r.value == this) &&
        (r.Ok? && !ReturnsSelf(old(filters), old(other.obj.filters), AndKey) ==>
           fresh(r.value) && filters == old(filters))
    {
      r := Combine(other, AndKey);
    }

    /** `a | b`: the combination under `'or'`. */
    method Or(other: Operand) returns (r: Result<QbFieldFilters, Error>)
      modifies this
      ensures other.OtherOperand? ==>
        r == Err(TypeError("Cannot combine QbFieldFilters and " + TypeName(other.v))) &&
        filters == old(filters)
      ensures other.FilterOperand? ==>
        var c := Combined(old(filters), old(other.obj.filters), OrKey);
        (r.Ok? <==> c.Ok?) &&
        (r.Ok? ==> r.value.filters == c.value) &&
        (r.Err? ==> r.error == c.error && filters == old(filters)) &&
        (r.Ok? && ReturnsSelf(old(filters), old(other.obj.filters), OrKey) ==> r.value == this) &&
        (r.Ok? && !ReturnsSelf(old(filters), old(other.obj.filters), OrKey) ==>
           fresh(r.value) && filters == old(filters))
    {
      r := Combine(other, OrKey);
    }
  }

  /** The ten operators of `QbField` (`==` ... `>=`, `like`, `ilike`, `in_`,
      `not_in`): a new filter object over the single triple, or the
      TypeError raised before it is built. */
  method FieldOperator(f: Field, op: Operator, v: Value) returns (r: Result<QbFieldFilters, Error>)
    ensures r.Ok? <==> OperatorFilter(f, op, v).Ok?
    ensures r.Ok? ==> fresh(r.value) && r.value.filters == OperatorFilter(f, op, v).value
    ensures r.Err? ==> r.error == OperatorFilter(f, op, v).error
  {
    var t := OperatorTriple(f, op, v);
    if t.Err? {
      r := Err(t.error);
    } else {
      var made := new QbFieldFilters.FromTriples([t.value]);
      r := Ok(made);
    }
  }
}
