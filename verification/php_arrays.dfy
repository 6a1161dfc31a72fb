/**
 * PHP arrays as the query layer uses them: ordered dictionaries whose keys are unique.
 * An array is a sequence of (key, value) pairs in insertion order; insertion order matters
 * because `serialize` (and therefore every fingerprint) depends on it.
 */
module PhpArrays {
  import opened Wrappers

  /** Array keys: PHP normalises numeric strings to integers, so the two kinds never collide. */
  datatype Key = IntKey(i: int) | StrKey(s: string)

  /** The PHP values that flow through query arguments, hook parameters and user records. */
  datatype Value =
    | Null
    | Bool(b: bool)
    | Int(i: int)
    | Str(s: string)
    | Arr(entries: seq<(Key, Value)>)

  /** The set of keys of an array. */
  function Keys<K(==), V>(a: seq<(K, V)>): set<K>
  {
    if a == [] then {} else {a[0].0} + Keys(a[1..])
  }

  /** No key occurs twice: every PHP array has this shape. */
  predicate UniqueKeys<K(==), V>(a: seq<(K, V)>)
  {
    a == [] || (a[0].0 !in Keys(a[1..]) && UniqueKeys(a[1..]))
  }

  /** A string-keyed PHP array, such as a set of query arguments. */
  type Args = a: seq<(string, Value)> | UniqueKeys(a) witness []

  /** `isset`-free read of `$a[$k]`: the value stored under `k`, if any. */
  function Lookup<K(==), V>(a: seq<(K, V)>, k: K): (r: Option<V>)
    ensures r.Some? <==> k in Keys(a)
    ensures r.Some? ==> (k, r.value) in a
  {
    if a == [] then None
    else if a[0].0 == k then Some(a[0].1)
    else Lookup(a[1..], k)
  }

  /**
   * `$a[$k] = $v`: an existing key keeps its position and takes the new value;
   * a new key is appended at the end.
   */
  function Assign<K(==, !new), V>(a: seq<(K, V)>, k: K, v: V): (r: seq<(K, V)>)
    ensures Lookup(r, k) == Some(v)
    ensures forall k' :: k' != k ==> Lookup(r, k') == Lookup(a, k')
    ensures Keys(r) == Keys(a) + {k}
    ensures k in Keys(a) ==> |r| == |a| && forall i :: 0 <= i < |a| ==> r[i].0 == a[i].0
    ensures k !in Keys(a) ==> r == a + [(k, v)]
    ensures UniqueKeys(a) ==> UniqueKeys(r)
  {
    if a == [] then [(k, v)]
    else if a[0].0 == k then [(k, v)] + a[1..]
    else [a[0]] + Assign(a[1..], k, v)
  }

  /**
   * `array_merge($a, $b)` for string keys: the entries of `b`, in order, are assigned
   * into `a`, so on a shared key `b` wins while the key keeps its place in `a`.
   */
  function Merge<K(==, !new), V>(a: seq<(K, V)>, b: seq<(K, V)>): (r: seq<(K, V)>)
    requires UniqueKeys(b)
    ensures forall k :: Lookup(r, k) == if k in Keys(b) then Lookup(b, k) else Lookup(a, k)
    ensures Keys(r) == Keys(a) + Keys(b)
    ensures UniqueKeys(a) ==> UniqueKeys(r)
    decreases |b|
  {
    if b == [] then a
    else
      var a' := Assign(a, b[0].0, b[0].1);
      Merge(a', b[1..])
  }

  /** The keys of `b` that are not in `seen`, in `b`'s order. */
  function NewKeys<K(==), V>(seen: set<K>, b: seq<(K, V)>): seq<K>
  {
    if b == [] then []
    else (if b[0].0 in seen then [] else [b[0].0]) + NewKeys(seen, b[1..])
  }

  lemma {:induction false} NewKeysIgnoresAbsent<K, V>(seen: set<K>, k: K, b: seq<(K, V)>)
    requires k !in Keys(b)
    ensures NewKeys(seen + {k}, b) == NewKeys(seen, b)
    decreases |b|
  {
    if b != [] {
      NewKeysIgnoresAbsent(seen, k, b[1..]);
    }
  }

  /** The keys of an array in insertion order, as `array_keys` lists them. */
  function KeyOrder<K, V>(a: seq<(K, V)>): (r: seq<K>)
    ensures |r| == |a|
  {
    seq(|a|, i requires 0 <= i < |a| => a[i].0)
  }

  lemma {:induction false} KeyOrderAppend<K, V>(a: seq<(K, V)>, x: (K, V))
    ensures KeyOrder(a + [x]) == KeyOrder(a) + [x.0]
  {
    assert forall i | 0 <= i < |a| :: (a + [x])[i] == a[i];
  }

  /** Overwriting an existing key changes neither the key set nor the key order. */
  lemma {:induction false} AssignExistingKeyOrder<K(!new), V>(a: seq<(K, V)>, k: K, v: V)
    requires k in Keys(a)
    ensures Keys(Assign(a, k, v)) == Keys(a) && KeyOrder(Assign(a, k, v)) == KeyOrder(a)
  {
    var a' := Assign(a, k, v);
    assert forall i | 0 <= i < |a| :: KeyOrder(a')[i] == KeyOrder(a)[i];
  }

  /** Assigning a new key appends it to the key order, and it no longer counts as new. */
  lemma {:induction false} AssignNewKeyOrder<K(!new), V>(a: seq<(K, V)>, b: seq<(K, V)>)
    requires b != [] && UniqueKeys(b) && b[0].0 !in Keys(a)
    ensures var a' := Assign(a, b[0].0, b[0].1);
            KeyOrder(a') == KeyOrder(a) + [b[0].0] &&
            NewKeys(Keys(a'), b[1..]) == NewKeys(Keys(a), b[1..])
  {
    KeyOrderAppend(a, (b[0].0, b[0].1));
    NewKeysIgnoresAbsent(Keys(a), b[0].0, b[1..]);
  }

  /** One step of `array_merge`: assigning `b`'s first entry moves its key, if new, out of `b`'s remainder. */
  lemma {:induction false} AssignKeyOrder<K(!new), V>(a: seq<(K, V)>, b: seq<(K, V)>)
    requires b != [] && UniqueKeys(b)
    ensures var a' := Assign(a, b[0].0, b[0].1);
            KeyOrder(a') + NewKeys(Keys(a'), b[1..]) == KeyOrder(a) + NewKeys(Keys(a), b)
  {
    var rest := NewKeys(Keys(a), b[1..]);
    assert NewKeys(Keys(a), b) == (if b[0].0 in Keys(a) then [] else [b[0].0]) + rest;
    if b[0].0 in Keys(a) {
      AssignExistingKeyOrder(a, b[0].0, b[0].1);
    } else {
      AssignNewKeyOrder(a, b);
      assert (KeyOrder(a) + [b[0].0]) + rest == KeyOrder(a) + ([b[0].0] + rest);
    }
  }

  /**
   * `array_merge($a, $b)` lists `a`'s keys first, in their order, then the keys of `b`
   * that `a` lacked, in the order they have in `b`.
   */
  lemma {:induction false} MergeKeyOrder<K(!new), V>(a: seq<(K, V)>, b: seq<(K, V)>)
    requires UniqueKeys(b)
    ensures KeyOrder(Merge(a, b)) == KeyOrder(a) + NewKeys(Keys(a), b)
    decreases |b|
  {
    if b != [] {
      MergeKeyOrder(Assign(a, b[0].0, b[0].1), b[1..]);
      AssignKeyOrder(a, b);
    }
  }
}
