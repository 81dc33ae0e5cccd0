/** The dictionary a JavaScript `reduce` builds with
    `acc[key] = (acc[key] || 0) + value`, starting from `{}`: its keys in
    the order they were first seen (the order `Object.entries` lists them
    in), and the number stored under each. */
module Grouping {

  datatype Tally<K> = Tally(order: seq<K>, value: map<K, int>)

  /** Each key is listed once, and the listed keys are the keys of the map. */
  ghost predicate ValidTally<K(!new)>(t: Tally<K>) {
    && (forall i, j :: 0 <= i < j < |t.order| ==> t.order[i] != t.order[j])
    && (forall k :: k in t.value <==> k in t.order)
  }

  function SumOver<K(==, !new)>(keys: seq<K>, value: map<K, int>): int
    requires forall i :: 0 <= i < |keys| ==> keys[i] in value
  {
    if |keys| == 0 then 0
    else SumOver(keys[..|keys| - 1], value) + value[keys[|keys| - 1]]
  }

  /** The values of a tally added up (`Object.values(acc)` summed). */
  function Total<K(==, !new)>(t: Tally<K>): int
    requires ValidTally(t)
  {
    SumOver(t.order, t.value)
  }

  /** One step of the `reduce`: `acc[k] = (acc[k] || 0) + v`. A key not yet
      present is added after the others. */
  function Bump<K(==, !new)>(t: Tally<K>, k: K, v: int): Tally<K> {
    if k in t.value then Tally(t.order, t.value[k := t.value[k] + v])
    else Tally(t.order + [k], t.value[k := v])
  }

  /** The tally the `reduce` builds from `{}` over `(key, value)` entries. */
  function Tallied<K(==, !new)>(entries: seq<(K, int)>): Tally<K> {
    if |entries| == 0 then Tally([], map[])
    else Bump(Tallied(entries[..|entries| - 1]), entries[|entries| - 1].0, entries[|entries| - 1].1)
  }

  /** The values the entries carry under key `k`, added up. */
  function SumFor<K(==, !new)>(entries: seq<(K, int)>, k: K): int {
    if |entries| == 0 then 0
    else SumFor(entries[..|entries| - 1], k)
         + (if entries[|entries| - 1].0 == k then entries[|entries| - 1].1 else 0)
  }

  /** Folding one more entry is one more step. */
  lemma TalliedSnoc<K(!new)>(entries: seq<(K, int)>, k: K, v: int)
    ensures Tallied(entries + [(k, v)]) == Bump(Tallied(entries), k, v)
  {
    assert (entries + [(k, v)])[..|entries|] == entries;
  }

  /** All values the entries carry, added up. */
  function SumAll<K(==, !new)>(entries: seq<(K, int)>): int {
    if |entries| == 0 then 0
    else SumAll(entries[..|entries| - 1]) + entries[|entries| - 1].1
  }

  lemma {:induction false} SumForAbsent<K(!new)>(entries: seq<(K, int)>, k: K)
    requires forall i :: 0 <= i < |entries| ==> entries[i].0 != k
    ensures SumFor(entries, k) == 0
  {
    if |entries| > 0 {
      SumForAbsent(entries[..|entries| - 1], k);
    }
  }

  lemma {:induction false} SumOverFrame<K(!new)>(keys: seq<K>, m1: map<K, int>, m2: map<K, int>)
    requires forall i :: 0 <= i < |keys| ==> keys[i] in m1 && keys[i] in m2 && m1[keys[i]] == m2[keys[i]]
    ensures SumOver(keys, m1) == SumOver(keys, m2)
  {
    if |keys| > 0 {
      SumOverFrame(keys[..|keys| - 1], m1, m2);
    }
  }

  /** Adding `v` to the value of a key listed once adds `v` to the sum. */
  lemma {:induction false} SumOverAdd<K(!new)>(keys: seq<K>, m: map<K, int>, k: K, v: int)
    requires forall i :: 0 <= i < |keys| ==> keys[i] in m
    requires forall i, j :: 0 <= i < j < |keys| ==> keys[i] != keys[j]
    requires k in keys
    ensures SumOver(keys, m[k := m[k] + v]) == SumOver(keys, m) + v
  {
    var front := keys[..|keys| - 1];
    var last := keys[|keys| - 1];
    if last == k {
      assert k !in front;
      SumOverFrame(front, m, m[k := m[k] + v]);
    } else {
      assert k in front by {
        var i :| 0 <= i < |keys| && keys[i] == k;
        assert front[i] == k;
      }
      SumOverAdd(front, m, k, v);
    }
  }

  lemma BumpValid<K(!new)>(t: Tally<K>, k: K, v: int)
    requires ValidTally(t)
    ensures ValidTally(Bump(t, k, v))
    ensures forall key :: key in Bump(t, k, v).value <==> key in t.value || key == k
  {
  }

  /** A step keeps the tally well formed and adds its value to the total. */
  lemma BumpTotal<K(!new)>(t: Tally<K>, k: K, v: int)
    requires ValidTally(t)
    ensures ValidTally(Bump(t, k, v))
    ensures Total(Bump(t, k, v)) == Total(t) + v
  {
    BumpValid(t, k, v);
    if k in t.value {
      BumpExistingTotal(t, k, v);
    } else {
      forall i | 0 <= i < |t.order|
        ensures t.order[i] in t.value
      {
      }
      BumpNewTotal(t.order, t.value, k, v);
      assert Bump(t, k, v) == Tally(t.order + [k], t.value[k := v]);
    }
  }

  lemma BumpExistingTotal<K(!new)>(t: Tally<K>, k: K, v: int)
    requires ValidTally(t) && k in t.value
    ensures ValidTally(Bump(t, k, v))
    ensures Total(Bump(t, k, v)) == Total(t) + v
  {
    BumpValid(t, k, v);
    SumOverAdd(t.order, t.value, k, v);
  }

  /** A key not yet listed, appended with value `v`, adds `v` to the sum. */
  lemma BumpNewTotal<K(!new)>(keys: seq<K>, m: map<K, int>, k: K, v: int)
    requires forall i :: 0 <= i < |keys| ==> keys[i] in m
    requires k !in m
    ensures SumOver(keys + [k], m[k := v]) == SumOver(keys, m) + v
  {
    var keys', m' := keys + [k], m[k := v];
    assert keys'[..|keys'| - 1] == keys;
    SumOverFrame(keys, m, m');
  }

  /** The fold over the entries produces a well-formed tally whose total is
      the sum of all entries. */
  lemma {:induction false} TalliedTotal<K(!new)>(entries: seq<(K, int)>)
    ensures ValidTally(Tallied(entries))
    ensures Total(Tallied(entries)) == SumAll(entries)
  {
    if |entries| > 0 {
      var front := entries[..|entries| - 1];
      TalliedTotal(front);
      BumpTotal(Tallied(front), entries[|entries| - 1].0, entries[|entries| - 1].1);
    }
  }

  /** The keys of the tally are exactly the keys the entries carry. */
  lemma {:induction false} TalliedKeys<K(!new)>(entries: seq<(K, int)>)
    ensures forall k :: k in Tallied(entries).value <==> exists i :: 0 <= i < |entries| && entries[i].0 == k
  {
    if |entries| > 0 {
      var front := entries[..|entries| - 1];
      var k := entries[|entries| - 1].0;
      TalliedKeys(front);
      forall key
        ensures key in Tallied(entries).value <==> exists i :: 0 <= i < |entries| && entries[i].0 == key
      {
        if key != k && key in Tallied(entries).value {
          var i :| 0 <= i < |front| && front[i].0 == key;
          assert entries[i].0 == key;
        }
        if key != k && (exists i :: 0 <= i < |entries| && entries[i].0 == key) {
          var i :| 0 <= i < |entries| && entries[i].0 == key;
          assert i != |entries| - 1;
          assert front[i].0 == key;
        }
      }
    }
  }

  /** The value under each key of the tally is the sum of that key's entries. */
  lemma {:induction false} TalliedValues<K(!new)>(entries: seq<(K, int)>)
    ensures forall k :: k in Tallied(entries).value ==> Tallied(entries).value[k] == SumFor(entries, k)
  {
    if |entries| > 0 {
      var front := entries[..|entries| - 1];
      var k := entries[|entries| - 1].0;
      TalliedValues(front);
      TalliedKeys(front);
      if k !in Tallied(front).value {
        SumForAbsent(front, k);
      }
    }
  }
}
