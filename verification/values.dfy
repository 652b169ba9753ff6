/** JavaScript values as the logger sees them, and plain objects as
    insertion-ordered field lists with the two operations the logger
    applies to them: property assignment (`o[k] = v`) and object spread
    (`{...a, ...b}`). */
module Values {

  datatype Option<T> = None | Some(value: T)

  datatype Result<T, E> = Ok(value: T) | Err(error: E)

  /** A JavaScript value. `Obj` is a plain object given by its own
      enumerable string-keyed properties in insertion order; `Other` stands
      for every other value (numbers, booleans, dates, functions), told
      apart only by an opaque tag. Arrays are `Other` too, although the
      logger would spread their index properties. */
  datatype Value =
    | Undef
    | Null
    | Str(s: string)
    | Obj(fields: Fields)
    | Other(tag: nat)

  /** The own properties of a plain object, in property order. */
  type Fields = seq<(string, Value)>

  /** The property names, in property order. */
  function Keys(r: Fields): seq<string>
  {
    seq(|r|, i requires 0 <= i < |r| => r[i].0)
  }

  predicate DistinctKeys(r: Fields)
  {
    forall i, j :: 0 <= i < j < |r| ==> r[i].0 != r[j].0
  }

  /** The position of the last property named `k`, if any. */
  function Find(r: Fields, k: string): (res: Option<nat>)
    ensures res.Some? ==> res.value < |r| && r[res.value].0 == k
    ensures res.Some? ==> forall j :: res.value < j < |r| ==> r[j].0 != k
    ensures res.None? <==> k !in Keys(r)
    decreases |r|
  {
    if r == [] then None
    else if r[|r| - 1].0 == k then
      assert Keys(r)[|r| - 1] == k;
      Some(|r| - 1)
    else
      var rest := Find(r[..|r| - 1], k);
      assert Keys(r) == Keys(r[..|r| - 1]) + [r[|r| - 1].0];
      rest
  }

  /** The value of property `k` (`o[k]` for an own property). */
  function Lookup(r: Fields, k: string): Option<Value>
  {
    match Find(r, k)
    case Some(i) => Some(r[i].1)
    case None => None
  }

  /** `o[k] = v` on a plain object. */
  function Assign(r: Fields, k: string, v: Value): Fields
  {
    match Find(r, k)
    case Some(i) => r[i := (k, v)]
    case None => r + [(k, v)]
  }

  /** An assigned property keeps its position and takes the new value, a
      new one is appended; no other property changes. */
  lemma AssignSpec(r: Fields, k: string, v: Value)
    ensures |Assign(r, k, v)| == if k in Keys(r) then |r| else |r| + 1
    ensures forall i :: 0 <= i < |r| ==> Assign(r, k, v)[i].0 == r[i].0
    ensures k !in Keys(r) ==> Assign(r, k, v) == r + [(k, v)]
    ensures Keys(Assign(r, k, v)) == if k in Keys(r) then Keys(r) else Keys(r) + [k]
    ensures Lookup(Assign(r, k, v), k) == Some(v)
    ensures forall k' :: k' != k ==> Lookup(Assign(r, k, v), k') == Lookup(r, k')
    ensures DistinctKeys(r) ==> DistinctKeys(Assign(r, k, v))
  {
    var r' := Assign(r, k, v);
    match Find(r, k)
    case Some(i) =>
      assert Keys(r') == Keys(r);
      SameKeysSameFind(r, r');
    case None =>
      assert r'[..|r'| - 1] == r;
      assert forall i :: 0 <= i < |r| ==> Keys(r)[i] == r[i].0;
  }

  lemma SameKeysSameFind(a: Fields, b: Fields)
    requires Keys(a) == Keys(b)
    ensures forall k :: Find(a, k) == Find(b, k)
  {
    forall k ensures Find(a, k) == Find(b, k) {
      var fa, fb := Find(a, k), Find(b, k);
      assert |a| == |Keys(a)| == |b|;
      assert forall i :: 0 <= i < |a| ==> Keys(a)[i] == a[i].0 && Keys(b)[i] == b[i].0;
      if fa.Some? && fb.Some? {
        assert a[fb.value].0 == b[fb.value].0;
        assert b[fa.value].0 == a[fa.value].0;
      }
    }
  }

  /** `{...r, ...f}` where `r` already holds the properties copied so far:
      the properties of `f` are assigned one by one, in order. */
  function Spread(r: Fields, f: Fields): Fields
    decreases |f|
  {
    if f == [] then r else Spread(Assign(r, f[0].0, f[0].1), f[1..])
  }

  /** The keys of `ks` that are not in `seen`, each once, in the order of
      their first occurrence: where spread appends new properties. */
  function NewKeys(seen: seq<string>, ks: seq<string>): seq<string>
    decreases |ks|
  {
    if ks == [] then []
    else if ks[0] in seen then NewKeys(seen, ks[1..])
    else [ks[0]] + NewKeys(seen + [ks[0]], ks[1..])
  }

  /** The position of the first occurrence of `x` in `ks`. */
  function FirstIndex(ks: seq<string>, x: string): (i: nat)
    requires x in ks
    ensures i < |ks| && ks[i] == x && x !in ks[..i]
  {
    if ks[0] == x then 0 else 1 + FirstIndex(ks[1..], x)
  }

  /** Spread leaves every existing property at its position. */
  lemma {:induction false} SpreadKeepsPositions(r: Fields, f: Fields)
    ensures |Spread(r, f)| >= |r|
    ensures forall i :: 0 <= i < |r| ==> Spread(r, f)[i].0 == r[i].0
    decreases |f|
  {
    if f != [] {
      AssignSpec(r, f[0].0, f[0].1);
      SpreadKeepsPositions(Assign(r, f[0].0, f[0].1), f[1..]);
    }
  }

  lemma AssignNoIndexKeys(r: Fields, k: string, v: Value)
    requires NoIndexKeys(r) && !IsArrayIndex(k)
    ensures NoIndexKeys(Assign(r, k, v))
  {
    AssignSpec(r, k, v);
  }

  lemma {:induction false} SpreadNoIndexKeys(r: Fields, f: Fields)
    requires NoIndexKeys(r) && NoIndexKeys(f)
    ensures NoIndexKeys(Spread(r, f))
    decreases |f|
  {
    if f != [] {
      var r' := Assign(r, f[0].0, f[0].1);
      AssignNoIndexKeys(r, f[0].0, f[0].1);
      SpreadNoIndexKeys(r', f[1..]);
    }
  }

  /** Spreading properties none of which is present yet appends them
      as they are. */
  lemma {:induction false} SpreadFresh(r: Fields, f: Fields)
    requires DistinctKeys(f)
    requires forall i :: 0 <= i < |f| ==> f[i].0 !in Keys(r)
    ensures Spread(r, f) == r + f
    decreases |f|
  {
    if f != [] {
      var r' := r + [f[0]];
      var t := f[1..];
      assert Spread(r, f) == Spread(r', t) by {
        assert f[0].0 !in Keys(r);
        AssignSpec(r, f[0].0, f[0].1);
      }
      assert DistinctKeys(t);
      assert forall i :: 0 <= i < |t| ==> t[i].0 !in Keys(r') by {
        assert Keys(r') == Keys(r) + [f[0].0];
        assert forall i :: 0 <= i < |t| ==> t[i] == f[i + 1];
      }
      SpreadFresh(r', t);
      assert r' + t == r + f;
    }
  }

  /** Spread keeps every existing property where it was and appends the
      new ones in the order they first appear in the spread object. */
  lemma {:induction false} SpreadKeys(r: Fields, f: Fields)
    ensures Keys(Spread(r, f)) == Keys(r) + NewKeys(Keys(r), Keys(f))
    decreases |f|
  {
    if f != [] {
      var k := f[0].0;
      var r' := Assign(r, k, f[0].1);
      assert Keys(r') == if k in Keys(r) then Keys(r) else Keys(r) + [k] by {
        AssignSpec(r, k, f[0].1);
      }
      assert Keys(f) == [k] + Keys(f[1..]);
      SpreadKeys(r', f[1..]);
    }
  }

  lemma {:induction false} SpreadPreservesDistinct(r: Fields, f: Fields)
    requires DistinctKeys(r)
    ensures DistinctKeys(Spread(r, f))
    decreases |f|
  {
    if f != [] {
      AssignSpec(r, f[0].0, f[0].1);
      SpreadPreservesDistinct(Assign(r, f[0].0, f[0].1), f[1..]);
    }
  }

  /** What new keys are: the keys of `ks` outside `seen`. */
  lemma {:induction false} NewKeysMembers(seen: seq<string>, ks: seq<string>)
    ensures forall x :: x in NewKeys(seen, ks) <==> x in ks && x !in seen
    decreases |ks|
  {
    if ks != [] {
      if ks[0] in seen {
        NewKeysMembers(seen, ks[1..]);
      } else {
        NewKeysMembers(seen + [ks[0]], ks[1..]);
      }
    }
  }

  /** New keys are listed once each, ordered by first occurrence in `ks`. */
  lemma {:induction false} NewKeysOrder(seen: seq<string>, ks: seq<string>)
    ensures forall x :: x in NewKeys(seen, ks) ==> x in ks
    ensures forall i, j :: 0 <= i < j < |NewKeys(seen, ks)| ==>
      NewKeys(seen, ks)[i] != NewKeys(seen, ks)[j] &&
      FirstIndex(ks, NewKeys(seen, ks)[i]) < FirstIndex(ks, NewKeys(seen, ks)[j])
    decreases |ks|
  {
    NewKeysMembers(seen, ks);
    if ks != [] {
      var nk := NewKeys(seen, ks);
      if ks[0] in seen {
        NewKeysOrder(seen, ks[1..]);
        forall x | x in nk ensures FirstIndex(ks, x) == 1 + FirstIndex(ks[1..], x) {
          assert x != ks[0];
        }
      } else {
        var tail := NewKeys(seen + [ks[0]], ks[1..]);
        NewKeysOrder(seen + [ks[0]], ks[1..]);
        NewKeysMembers(seen + [ks[0]], ks[1..]);
        assert nk == [ks[0]] + tail;
        forall x | x in tail ensures FirstIndex(ks, x) == 1 + FirstIndex(ks[1..], x) {
          assert x != ks[0];
        }
        forall i, j | 0 <= i < j < |nk| ensures nk[i] != nk[j] && FirstIndex(ks, nk[i]) < FirstIndex(ks, nk[j]) {
          assert nk[j] == tail[j - 1];
          if i > 0 {
            assert nk[i] == tail[i - 1];
          }
        }
      }
    }
  }

  /** The value a key has after a spread: the spread object's own value
      when it has the key, the earlier value otherwise. */
  lemma {:induction false} SpreadLookup(r: Fields, f: Fields, k: string)
    ensures Lookup(Spread(r, f), k) == if k in Keys(f) then Lookup(f, k) else Lookup(r, k)
    decreases |f|
  {
    if f != [] {
      var r' := Assign(r, f[0].0, f[0].1);
      AssignSpec(r, f[0].0, f[0].1);
      SpreadLookup(r', f[1..], k);
      LookupCons(f, k);
    }
  }

  lemma LookupCons(f: Fields, k: string)
    requires f != []
    ensures k in Keys(f) <==> k == f[0].0 || k in Keys(f[1..])
    ensures Lookup(f, k) == if k in Keys(f[1..]) then Lookup(f[1..], k)
                            else if k == f[0].0 then Some(f[0].1) else None
  {
    assert Keys(f) == [f[0].0] + Keys(f[1..]);
    var t := f[1..];
    var ff, ft := Find(f, k), Find(t, k);
    if ft.Some? {
      assert f[ft.value + 1] == t[ft.value];
      assert ff.Some? && ff.value >= ft.value + 1;
      assert t[ff.value - 1] == f[ff.value];
    } else if k == f[0].0 {
      assert forall j :: 1 <= j < |f| ==> f[j].0 == Keys(t)[j - 1];
      assert ff == Some(0);
    }
  }

  /** Decimal digits only. */
  predicate AllDigits(k: string)
  {
    forall i :: 0 <= i < |k| ==> '0' <= k[i] <= '9'
  }

  function DecimalValue(k: string): nat
    requires AllDigits(k)
    decreases |k|
  {
    if k == [] then 0
    else DecimalValue(k[..|k| - 1]) * 10 + (k[|k| - 1] as int - '0' as int)
  }

  /** A canonical array index (ECMA-262 section 6.1.7): a property name that
      JavaScript orders before all others, so outside what `Fields` models. */
  predicate IsArrayIndex(k: string)
  {
    |k| > 0 && AllDigits(k) && (k[0] != '0' || |k| == 1) && DecimalValue(k) < 0xFFFF_FFFF
  }

  predicate NoIndexKeys(r: Fields)
  {
    forall i :: 0 <= i < |r| ==> !IsArrayIndex(r[i].0)
  }
}
