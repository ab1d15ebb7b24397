/** The two Python dict idioms the service uses, on Dafny maps:
    appending to a list two levels down (`d[kind][region].append(x)`, creating
    the levels on first use) and storing under a key (`d[key] = v`). */
module Dicts {
  import opened Wrappers

  /** An item together with the two keys it is appended under. */
  datatype Keyed<K, V> = Keyed(kind: K, region: string, item: V)

  type Nested<K, V> = map<K, map<string, seq<V>>>

  /** The list at `d[kind][region]`, or the empty list where a level is missing. */
  function Bucket<K(==,!new), V>(m: Nested<K, V>, kind: K, region: string): seq<V>
  {
    if kind in m && region in m[kind] then m[kind][region] else []
  }

  /** `d[kind]`, or the empty dict where it is missing. */
  function Level<K(==,!new), V>(m: Nested<K, V>, kind: K): map<string, seq<V>>
  {
    if kind in m then m[kind] else map[]
  }

  /** No level is ever created without an item being appended under it. */
  ghost predicate NonEmpty<K(!new), V>(m: Nested<K, V>)
  {
    forall k :: k in m ==> m[k] != map[] && forall r :: r in m[k] ==> m[k][r] != []
  }

  /** Under NonEmpty, a key path exists exactly when its list has an item. */
  lemma PresentIffNonEmpty<K(!new), V>(m: Nested<K, V>, kind: K, region: string)
    requires NonEmpty(m)
    ensures (kind in m && region in m[kind]) <==> Bucket(m, kind, region) != []
  {
  }

  function Append<K(==,!new), V>(m: Nested<K, V>, x: Keyed<K, V>): (m': Nested<K, V>)
    ensures m'.Keys == m.Keys + {x.kind}
    ensures x.region in m'[x.kind]
    ensures forall k :: k in m && k != x.kind ==> m'[k] == m[k]
    ensures x.kind in m ==> m'[x.kind].Keys == m[x.kind].Keys + {x.region}
    ensures Bucket(m', x.kind, x.region) == Bucket(m, x.kind, x.region) + [x.item]
    ensures forall k, r :: (k != x.kind || r != x.region) ==> Bucket(m', k, r) == Bucket(m, k, r)
    ensures NonEmpty(m) ==> NonEmpty(m')
  {
    var inner := if x.kind in m then m[x.kind] else map[];
    var list := if x.region in inner then inner[x.region] else [];
    m[x.kind := inner[x.region := list + [x.item]]]
  }

  /** Appending each item in turn, in order. */
  function AppendAll<K(==,!new), V>(m: Nested<K, V>, xs: seq<Keyed<K, V>>): (m': Nested<K, V>)
    ensures NonEmpty(m) ==> NonEmpty(m')
    decreases |xs|
  {
    if xs == [] then m else Append(AppendAll(m, xs[..|xs| - 1]), xs[|xs| - 1])
  }

  /** Appending one more item. */
  lemma AppendAllSnoc<K(!new), V>(m: Nested<K, V>, xs: seq<Keyed<K, V>>, x: Keyed<K, V>)
    ensures AppendAll(m, xs + [x]) == Append(AppendAll(m, xs), x)
  {
    assert (xs + [x])[..|xs|] == xs;
  }

  /** The items of xs addressed to `[kind][region]`, in order. */
  function Matching<K(==,!new), V>(xs: seq<Keyed<K, V>>, kind: K, region: string): seq<V>
    decreases |xs|
  {
    if xs == [] then []
    else
      var last := xs[|xs| - 1];
      Matching(xs[..|xs| - 1], kind, region) + (if last.kind == kind && last.region == region then [last.item] else [])
  }

  /** Appending never replaces: every list grows by exactly the items
      addressed to it, in arrival order. */
  lemma {:induction false} BucketAfterAppendAll<K(!new), V>(m: Nested<K, V>, xs: seq<Keyed<K, V>>, kind: K, region: string)
    ensures Bucket(AppendAll(m, xs), kind, region) == Bucket(m, kind, region) + Matching(xs, kind, region)
    decreases |xs|
  {
    if xs != [] {
      var init := xs[..|xs| - 1];
      var last := xs[|xs| - 1];
      BucketAfterAppendAll(m, init, kind, region);
      var before := AppendAll(m, init);
      assert AppendAll(m, xs) == Append(before, last);
      if last.kind == kind && last.region == region {
        calc {
          Bucket(AppendAll(m, xs), kind, region);
          Bucket(before, kind, region) + [last.item];
          (Bucket(m, kind, region) + Matching(init, kind, region)) + [last.item];
          Bucket(m, kind, region) + (Matching(init, kind, region) + [last.item]);
        }
      } else {
        assert Bucket(AppendAll(m, xs), kind, region) == Bucket(before, kind, region);
        assert Matching(xs, kind, region) == Matching(init, kind, region) + [];
      }
    }
  }

  /** Some item of xs is addressed to the first-level key `kind`. */
  predicate HasKind<K(==), V>(xs: seq<Keyed<K, V>>, kind: K)
    decreases |xs|
  {
    xs != [] && (xs[|xs| - 1].kind == kind || HasKind(xs[..|xs| - 1], kind))
  }

  /** HasKind is the existence of an index addressed to `kind`. */
  lemma {:induction false} HasKindIff<K, V>(xs: seq<Keyed<K, V>>, kind: K)
    ensures HasKind(xs, kind) <==> exists i :: 0 <= i < |xs| && xs[i].kind == kind
    decreases |xs|
  {
    if xs != [] {
      var init := xs[..|xs| - 1];
      HasKindIff(init, kind);
      if xs[|xs| - 1].kind == kind {
        assert HasKind(xs, kind);
      } else if HasKind(init, kind) {
        var i :| 0 <= i < |init| && init[i].kind == kind;
        assert xs[i] == init[i];
      } else {
        forall i | 0 <= i < |xs| ensures xs[i].kind != kind {
          if i < |init| {
            assert xs[i] == init[i];
          }
        }
      }
    }
  }

  /** A first-level key exists afterwards exactly when it existed before or
      some item was addressed to it. */
  lemma {:induction false} KindsAfterAppendAll<K(!new), V>(m: Nested<K, V>, xs: seq<Keyed<K, V>>, kind: K)
    ensures kind in AppendAll(m, xs) <==> kind in m || exists i :: 0 <= i < |xs| && xs[i].kind == kind
  {
    KindsStep(m, xs, kind);
    HasKindIff(xs, kind);
  }

  lemma {:induction false} KindsStep<K(!new), V>(m: Nested<K, V>, xs: seq<Keyed<K, V>>, kind: K)
    ensures kind in AppendAll(m, xs) <==> kind in m || HasKind(xs, kind)
    decreases |xs|
  {
    if xs != [] {
      KindsStep(m, xs[..|xs| - 1], kind);
    }
  }

  /** Every item stored anywhere in m satisfies p. */
  ghost predicate AllItems<K(!new), V(!new)>(m: Nested<K, V>, p: (K, string, V) -> bool)
  {
    forall k, r, i :: k in m && r in m[k] && 0 <= i < |m[k][r]| ==> p(k, r, m[k][r][i])
  }

  /** Appending an item that satisfies p keeps every stored item satisfying p. */
  lemma AppendKeepsAllItems<K(!new), V(!new)>(m: Nested<K, V>, x: Keyed<K, V>, p: (K, string, V) -> bool)
    requires AllItems(m, p)
    requires p(x.kind, x.region, x.item)
    ensures AllItems(Append(m, x), p)
  {
    var m' := Append(m, x);
    forall k, r, i | k in m' && r in m'[k] && 0 <= i < |m'[k][r]|
      ensures p(k, r, m'[k][r][i])
    {
      assert m'[k][r] == Bucket(m', k, r);
      if k == x.kind && r == x.region {
        assert m'[k][r] == Bucket(m, k, r) + [x.item];
      } else {
        assert m'[k][r] == Bucket(m, k, r);
      }
    }
  }

  /** `d[key] = value` for each pair in turn. */
  function StoreAll<V>(m: map<string, V>, xs: seq<(string, V)>): map<string, V>
    decreases |xs|
  {
    if xs == [] then m else StoreAll(m, xs[..|xs| - 1])[xs[|xs| - 1].0 := xs[|xs| - 1].1]
  }

  /** Storing one more pair. */
  lemma StoreAllSnoc<V>(m: map<string, V>, xs: seq<(string, V)>, x: (string, V))
    ensures StoreAll(m, xs + [x]) == StoreAll(m, xs)[x.0 := x.1]
  {
    assert (xs + [x])[..|xs|] == xs;
  }

  /** The value of the last pair with the given key. */
  function LastFor<V>(xs: seq<(string, V)>, key: string): Option<V>
    decreases |xs|
  {
    if xs == [] then None
    else if xs[|xs| - 1].0 == key then Some(xs[|xs| - 1].1)
    else LastFor(xs[..|xs| - 1], key)
  }

  /** After storing, a key holds the value of its last pair; a key with no
      pair keeps what it had (or stays absent). */
  lemma {:induction false} StoreAllKeepsLast<V>(m: map<string, V>, xs: seq<(string, V)>, key: string)
    ensures key in StoreAll(m, xs) <==> key in m || LastFor(xs, key).Some?
    ensures key in StoreAll(m, xs) ==>
      StoreAll(m, xs)[key] == if LastFor(xs, key).Some? then LastFor(xs, key).value else m[key]
    decreases |xs|
  {
    if xs != [] {
      StoreAllKeepsLast(m, xs[..|xs| - 1], key);
    }
  }
}
