/**
 * `dict_function` of the post-fit tools: a nested dictionary mapped leaf by
 * leaf, keeping its keys and its nesting.
 */
module PostFit {
  import opened Wrappers

  /** A value of a nested dictionary: a leaf, or a dictionary of further values. */
  datatype Nested<K, V> = Leaf(value: V) | Branch(children: map<K, Nested<K, V>>)

  /** `dict_function(d, func)`: a new dictionary with the same keys, mapping every leaf through `func`. */
  function DictFunction<K, V, W>(d: map<K, Nested<K, V>>, func: V -> W): (r: map<K, Nested<K, W>>)
    ensures r.Keys == d.Keys
    ensures forall k :: k in d && d[k].Leaf? ==> r[k] == Leaf(func(d[k].value))
    ensures forall k :: k in d && d[k].Branch? ==> r[k].Branch? && r[k].children.Keys == d[k].children.Keys
    ensures forall k :: k in d && d[k].Branch? ==> r[k] == Branch(DictFunction(d[k].children, func))
    decreases Branch(d), 0
  {
    map k | k in d :: MapValue(d[k], func)
  }

  /** The value stored under one key of the new dictionary. */
  function MapValue<K, V, W>(v: Nested<K, V>, func: V -> W): Nested<K, W>
    decreases v, 1
  {
    match v
    case Leaf(x) => Leaf(func(x))
    case Branch(children) => Branch(DictFunction(children, func))
  }

  /** Two nested values have the same keys at every level and leaves in the same places. */
  predicate SameShape<K, V, W>(a: Nested<K, V>, b: Nested<K, W>)
    decreases a
  {
    match a
    case Leaf(_) => b.Leaf?
    case Branch(ca) =>
      b.Branch? && ca.Keys == b.children.Keys &&
      forall k :: k in ca ==> SameShape(ca[k], b.children[k])
  }

  /** The result has the structure and depth of the input. */
  lemma {:induction false} MapValueShape<K, V, W>(v: Nested<K, V>, func: V -> W)
    ensures SameShape(v, MapValue(v, func))
    decreases v
  {
    match v {
      case Leaf(_) =>
      case Branch(children) =>
        forall k | k in children ensures SameShape(children[k], DictFunction(children, func)[k]) {
          MapValueShape(children[k], func);
        }
    }
  }

  /** The value reached by following `path` one key per level, if every key is there. */
  function At<K, V>(v: Nested<K, V>, path: seq<K>): Option<Nested<K, V>>
    decreases |path|
  {
    if path == [] then Some(v)
    else if v.Branch? && path[0] in v.children then At(v.children[path[0]], path[1..])
    else None
  }

  /**
   * At every depth: a path reaches a value of the result iff it reaches one of
   * the input, that value is the mapped input value, and a leaf `x` becomes
   * `Leaf(func(x))`.
   */
  lemma {:induction false} MapValueAt<K, V, W>(v: Nested<K, V>, func: V -> W, path: seq<K>)
    ensures At(v, path).None? <==> At(MapValue(v, func), path).None?
    ensures At(v, path).Some? ==> At(MapValue(v, func), path) == Some(MapValue(At(v, path).value, func))
    ensures At(v, path).Some? && At(v, path).value.Leaf? ==>
      At(MapValue(v, func), path) == Some(Leaf(func(At(v, path).value.value)))
    decreases |path|
  {
    if path != [] && v.Branch? && path[0] in v.children {
      MapValueAt(v.children[path[0]], func, path[1..]);
    }
  }

  /** Mapping with `f` and then with `g` is mapping once with their composition. */
  lemma {:induction false} MapValueCompose<K, U, V, W>(v: Nested<K, U>, f: U -> V, g: V -> W)
    ensures MapValue(MapValue(v, f), g) == MapValue(v, (x: U) => g(f(x)))
    decreases v
  {
    match v {
      case Leaf(_) =>
      case Branch(children) =>
        var lhs := DictFunction(DictFunction(children, f), g);
        var rhs := DictFunction(children, (x: U) => g(f(x)));
        forall k | k in children ensures lhs[k] == rhs[k] {
          MapValueCompose(children[k], f, g);
        }
        assert lhs == rhs;
    }
  }

  /** Mapping with the identity gives an equal dictionary. */
  lemma {:induction false} MapValueIdentity<K, V>(v: Nested<K, V>)
    ensures MapValue(v, (x: V) => x) == v
    decreases v
  {
    match v {
      case Leaf(_) =>
      case Branch(children) =>
        var r := DictFunction(children, (x: V) => x);
        forall k | k in children ensures r[k] == children[k] {
          MapValueIdentity(children[k]);
        }
        assert r == children;
    }
  }
}
