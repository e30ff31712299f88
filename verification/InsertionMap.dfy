/** A JavaScript `Map` with string keys: iterated in insertion order, where setting a key again keeps its place. */
module InsertionMap {
  import opened Wrappers

  datatype Item<+V> = Item(key: string, value: V)

  ghost predicate DistinctKeys<V>(m: seq<Item<V>>) {
    forall i, j :: 0 <= i < j < |m| ==> m[i].key != m[j].key
  }

  function Find<V>(m: seq<Item<V>>, key: string): Option<V> {
    if m == [] then None else if m[0].key == key then Some(m[0].value) else Find(m[1..], key)
  }

  function Put<V>(m: seq<Item<V>>, key: string, value: V): seq<Item<V>> {
    if m == [] then [Item(key, value)]
    else if m[0].key == key then [Item(key, value)] + m[1..]
    else [m[0]] + Put(m[1..], key, value)
  }

  function Without<V>(m: seq<Item<V>>, key: string): seq<Item<V>> {
    if m == [] then [] else if m[0].key == key then m[1..] else [m[0]] + Without(m[1..], key)
  }

  lemma {:induction false} FoundIsThere<V>(m: seq<Item<V>>, key: string)
    ensures Find(m, key).None? <==> forall item :: item in m ==> item.key != key
    ensures Find(m, key).Some? ==> Item(key, Find(m, key).value) in m
  {
    if m != [] {
      FoundIsThere(m[1..], key);
      assert m == [m[0]] + m[1..];
    }
  }

  /** Setting a key changes the value in its place, or adds the key at the end; the other items stay where they are. */
  lemma {:induction false} PutKeepsPlaces<V>(m: seq<Item<V>>, key: string, value: V)
    ensures Find(m, key).None? ==> Put(m, key, value) == m + [Item(key, value)]
    ensures Find(m, key).Some? ==>
              exists i :: 0 <= i < |m| && m[i].key == key && Put(m, key, value) == m[i := Item(key, value)]
  {
    if m != [] {
      if m[0].key == key {
        assert Put(m, key, value) == m[0 := Item(key, value)];
      } else {
        PutKeepsPlaces(m[1..], key, value);
        assert m == [m[0]] + m[1..];
        if Find(m, key).Some? {
          var i :| 0 <= i < |m[1..]| && m[1..][i].key == key
            && Put(m[1..], key, value) == m[1..][i := Item(key, value)];
          assert Put(m, key, value) == m[i + 1 := Item(key, value)];
        }
      }
    }
  }

  lemma GapBehindTheFirst<V>(m: seq<Item<V>>, i: nat)
    requires i + 1 < |m|
    ensures [m[0]] + (m[1..][..i] + m[1..][i + 1..]) == m[..i + 1] + m[i + 2..]
  {
  }

  /** Deleting a key closes the gap. */
  lemma {:induction false} WithoutClosesTheGap<V>(m: seq<Item<V>>, key: string)
    ensures Find(m, key).None? ==> Without(m, key) == m
    ensures Find(m, key).Some? ==>
              exists i :: 0 <= i < |m| && m[i].key == key && Without(m, key) == m[..i] + m[i + 1..]
  {
    if m != [] {
      if m[0].key == key {
        assert Without(m, key) == m[..0] + m[1..];
      } else {
        WithoutClosesTheGap(m[1..], key);
        assert m == [m[0]] + m[1..];
        if Find(m, key).Some? {
          var i :| 0 <= i < |m[1..]| && m[1..][i].key == key && Without(m[1..], key) == m[1..][..i] + m[1..][i + 1..];
          GapBehindTheFirst(m, i);
          assert m[i + 1].key == key && Without(m, key) == m[..i + 1] + m[i + 2..];
        }
      }
    }
  }

  lemma {:induction false} FindAfterPut<V>(m: seq<Item<V>>, key: string, value: V, other: string)
    ensures Find(Put(m, key, value), other) == if other == key then Some(value) else Find(m, other)
  {
    if m != [] && m[0].key != key {
      FindAfterPut(m[1..], key, value, other);
      assert Put(m, key, value)[1..] == Put(m[1..], key, value);
    } else if m != [] {
      assert Put(m, key, value)[1..] == m[1..];
    } else {
      assert Put(m, key, value)[1..] == [];
    }
  }

  lemma {:induction false} FindAfterWithout<V>(m: seq<Item<V>>, key: string, other: string)
    requires DistinctKeys(m)
    ensures Find(Without(m, key), other) == if other == key then None else Find(m, other)
  {
    if m != [] {
      if m[0].key == key {
        FoundIsThere(m[1..], key);
      } else {
        FindAfterWithout(m[1..], key, other);
        assert Without(m, key)[1..] == Without(m[1..], key);
      }
    }
  }

  lemma {:induction false} PutItems<V>(m: seq<Item<V>>, key: string, value: V)
    requires DistinctKeys(m)
    ensures DistinctKeys(Put(m, key, value))
    ensures forall item :: item in Put(m, key, value) ==> item == Item(key, value) || item in m
    ensures |Put(m, key, value)| == if Find(m, key).Some? then |m| else |m| + 1
  {
    if m != [] && m[0].key != key {
      PutItems(m[1..], key, value);
      FoundIsThere(m[1..], m[0].key);
      Prepend(m[0], Put(m[1..], key, value));
      assert m == [m[0]] + m[1..];
    }
  }

  lemma Prepend<V>(first: Item<V>, rest: seq<Item<V>>)
    requires DistinctKeys(rest) && forall item :: item in rest ==> item.key != first.key
    ensures DistinctKeys([first] + rest)
  {
    var all := [first] + rest;
    forall i, j | 0 <= i < j < |all| ensures all[i].key != all[j].key {
      assert all[j] == rest[j - 1] && all[j] in rest;
      assert i > 0 ==> all[i] == rest[i - 1];
    }
  }

  lemma {:induction false} WithoutItems<V>(m: seq<Item<V>>, key: string)
    requires DistinctKeys(m)
    ensures DistinctKeys(Without(m, key))
    ensures forall item :: item in Without(m, key) ==> item in m
    ensures |Without(m, key)| == if Find(m, key).Some? then |m| - 1 else |m|
  {
    if m != [] && m[0].key != key {
      WithoutItems(m[1..], key);
      FoundIsThere(m[1..], m[0].key);
      Prepend(m[0], Without(m[1..], key));
      assert m == [m[0]] + m[1..];
    }
  }
}
