/** JavaScript plain objects used as string-keyed records, as ordered association
    lists: keys are listed in insertion order, reading a key gives the value stored
    under it, and assigning a key overwrites it in place or appends it. JavaScript's
    own enumeration puts integer-like keys first, and a `__proto__` assignment adds
    no own key; neither is modelled here. */
module Records {
  import opened Errors

  type Entries<V> = seq<(string, V)>

  function Keys<V>(r: Entries<V>): seq<string> {
    seq(|r|, i requires 0 <= i < |r| => r[i].0)
  }

  /** What every JavaScript object satisfies: a key occurs once. */
  predicate DistinctKeys<V>(r: Entries<V>) {
    forall i, j | 0 <= i < j < |r| :: r[i].0 != r[j].0
  }

  /** `record[key]`, None standing for undefined. */
  function Get<V>(r: Entries<V>, key: string): Option<V>
    decreases |r|
  {
    if |r| == 0 then None
    else if r[0].0 == key then Some(r[0].1)
    else Get(r[1..], key)
  }

  /** `record[key] = value`. */
  function Put<V>(r: Entries<V>, key: string, value: V): Entries<V>
    decreases |r|
  {
    if |r| == 0 then [(key, value)]
    else if r[0].0 == key then [(key, value)] + r[1..]
    else [r[0]] + Put(r[1..], key, value)
  }

  lemma {:induction false} GetPut<V>(r: Entries<V>, key: string, value: V, other: string)
    ensures Get(Put(r, key, value), other) == if other == key then Some(value) else Get(r, other)
    decreases |r|
  {
    if |r| > 0 && r[0].0 != key {
      GetPut(r[1..], key, value, other);
      assert Put(r, key, value)[1..] == Put(r[1..], key, value);
    }
  }

  lemma {:induction false} GetSomeIffKey<V>(r: Entries<V>, key: string)
    ensures Get(r, key).Some? <==> key in Keys(r)
    decreases |r|
  {
    if |r| > 0 {
      GetSomeIffKey(r[1..], key);
      assert Keys(r) == [r[0].0] + Keys(r[1..]);
    }
  }

  lemma {:induction false} GetFirst<V>(r: Entries<V>, i: nat)
    requires i < |r|
    requires forall j | 0 <= j < i :: r[j].0 != r[i].0
    ensures Get(r, r[i].0) == Some(r[i].1)
    decreases i
  {
    if i > 0 {
      GetFirst(r[1..], i - 1);
    }
  }

  lemma {:induction false} PutKeys<V>(r: Entries<V>, key: string, value: V)
    ensures key in Keys(r) ==> Keys(Put(r, key, value)) == Keys(r)
    ensures key !in Keys(r) ==> Keys(Put(r, key, value)) == Keys(r) + [key]
    decreases |r|
  {
    if |r| > 0 {
      assert Keys(r) == [r[0].0] + Keys(r[1..]);
      if r[0].0 != key {
        PutKeys(r[1..], key, value);
        assert Keys(Put(r, key, value)) == [r[0].0] + Keys(Put(r[1..], key, value));
      } else {
        assert Keys(Put(r, key, value)) == [key] + Keys(r[1..]);
      }
    }
  }

  /** Assigning a key the record does not have appends it. */
  lemma {:induction false} PutAppends<V>(r: Entries<V>, key: string, value: V)
    requires key !in Keys(r)
    ensures Put(r, key, value) == r + [(key, value)]
    decreases |r|
  {
    if |r| > 0 {
      assert Keys(r) == [r[0].0] + Keys(r[1..]);
      PutAppends(r[1..], key, value);
      assert [r[0]] + (r[1..] + [(key, value)]) == r + [(key, value)];
    }
  }

  /** Reading a concatenation reads the first part when it has the key. */
  lemma {:induction false} GetConcat<V>(a: Entries<V>, b: Entries<V>, key: string)
    ensures Get(a + b, key) == if key in Keys(a) then Get(a, key) else Get(b, key)
    decreases |a|
  {
    if |a| > 0 {
      assert Keys(a) == [a[0].0] + Keys(a[1..]);
      assert (a + b)[1..] == a[1..] + b;
      GetConcat(a[1..], b, key);
    } else {
      assert a + b == b;
    }
  }

  lemma {:induction false} PutDistinct<V>(r: Entries<V>, key: string, value: V)
    requires DistinctKeys(r)
    ensures DistinctKeys(Put(r, key, value))
    decreases |r|
  {
    if |r| > 0 && r[0].0 != key {
      assert DistinctKeys(r[1..]);
      PutDistinct(r[1..], key, value);
      PutKeys(r[1..], key, value);
      var t := Put(r[1..], key, value);
      assert forall j | 0 <= j < |r[1..]| :: r[1..][j].0 != r[0].0;
      assert forall j | 0 <= j < |t| :: t[j].0 == Keys(t)[j];
      assert r[0].0 !in Keys(r[1..]);
      assert forall j | 0 <= j < |t| :: t[j].0 != r[0].0;
    } else if |r| > 0 {
      assert Put(r, key, value)[1..] == r[1..];
    }
  }

  /** `Object.entries(metadata).slice(0, 5)`, the metadata both redirect
      providers copy into their numbered fields. */
  function MetadataShown(metadata: Option<Entries<string>>): (r: Entries<string>)
    ensures |r| <= 5
    ensures metadata.Some? ==> |r| <= |metadata.value| && r == metadata.value[..|r|] && (|r| < 5 ==> r == metadata.value)
    ensures metadata.None? ==> r == []
  {
    if metadata.None? then [] else if |metadata.value| <= 5 then metadata.value else metadata.value[..5]
  }

  /** `entries.forEach(([, value], index) => { record[keys[index]] = value; })`
      after its first `n` steps. */
  function PutValues<V>(r: Entries<V>, keys: seq<string>, entries: Entries<V>, n: nat): Entries<V>
    requires n <= |entries| && n <= |keys|
    decreases n
  {
    if n == 0 then r else Put(PutValues(r, keys, entries, n - 1), keys[n - 1], entries[n - 1].1)
  }

  /** With distinct keys, the i-th value lands under keys[i], and nothing else changes. */
  lemma {:induction false} PutValuesGet<V>(r: Entries<V>, keys: seq<string>, entries: Entries<V>, n: nat, key: string)
    requires n <= |entries| && n <= |keys|
    requires forall i, j | 0 <= i < j < |keys| :: keys[i] != keys[j]
    ensures forall i | 0 <= i < n :: key == keys[i] ==> Get(PutValues(r, keys, entries, n), key) == Some(entries[i].1)
    ensures key !in keys[..n] ==> Get(PutValues(r, keys, entries, n), key) == Get(r, key)
    decreases n
  {
    if n > 0 {
      PutValuesGet(r, keys, entries, n - 1, key);
      GetPut(PutValues(r, keys, entries, n - 1), keys[n - 1], entries[n - 1].1, key);
      assert keys[..n] == keys[..n - 1] + [keys[n - 1]];
    }
  }

  /** The keys written are keys[..n]. */
  lemma {:induction false} PutValuesKeys<V>(r: Entries<V>, keys: seq<string>, entries: Entries<V>, n: nat)
    requires n <= |entries| && n <= |keys|
    ensures forall k | k in Keys(PutValues(r, keys, entries, n)) :: k in Keys(r) || k in keys[..n]
    decreases n
  {
    if n > 0 {
      PutValuesKeys(r, keys, entries, n - 1);
      PutKeys(PutValues(r, keys, entries, n - 1), keys[n - 1], entries[n - 1].1);
      assert keys[..n] == keys[..n - 1] + [keys[n - 1]];
    }
  }
}
