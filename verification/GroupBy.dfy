/** What a MapReduce job computes, said without files, tasks or hashing: group the pairs by key and reduce
    each group. */
module GroupBy {
  import opened StringOrder

  datatype KeyValue = KeyValue(key: string, value: string)

  type Reducer = (string, seq<string>) -> string

  /** The values of one key, in order. */
  function ValuesOf(k: string, kvs: seq<KeyValue>): seq<string> {
    if kvs == [] then []
    else (if kvs[0].key == k then [kvs[0].value] else []) + ValuesOf(k, kvs[1..])
  }

  ghost function KeysOf(kvs: seq<KeyValue>): set<string> {
    set kv | kv in kvs :: kv.key
  }

  function KeyList(kvs: seq<KeyValue>): (keys: seq<string>)
    ensures |keys| == |kvs| && forall i :: 0 <= i < |kvs| ==> keys[i] == kvs[i].key
  {
    seq(|kvs|, i requires 0 <= i < |kvs| => kvs[i].key)
  }

  /** Each key of kvs once, in ascending order, with its values reduced. */
  ghost predicate IsGroupBy(out: seq<KeyValue>, kvs: seq<KeyValue>, reduceF: Reducer) {
    && Ascending(KeyList(out))
    && Elements(KeyList(out)) == KeysOf(kvs)
    && forall i :: 0 <= i < |out| ==> out[i].value == reduceF(out[i].key, ValuesOf(out[i].key, kvs))
  }

  /** The description leaves no choice. */
  lemma GroupByUnique(a: seq<KeyValue>, b: seq<KeyValue>, kvs: seq<KeyValue>, reduceF: Reducer)
    requires IsGroupBy(a, kvs, reduceF) && IsGroupBy(b, kvs, reduceF)
    ensures a == b
  {
    AscendingUnique(KeyList(a), KeyList(b));
    forall i | 0 <= i < |a| ensures a[i] == b[i] {
      assert KeyList(a)[i] == a[i].key && KeyList(b)[i] == b[i].key;
    }
  }

  /** The keys of kvs, each once. */
  function DistinctKeys(kvs: seq<KeyValue>): (ks: seq<string>)
    ensures Distinct(ks)
    ensures forall k :: k in ks <==> k in KeysOf(kvs)
  {
    if kvs == [] then []
    else
      var rest := DistinctKeys(kvs[1..]);
      assert forall kv :: kv in kvs <==> kv == kvs[0] || kv in kvs[1..];
      if kvs[0].key in rest then rest else [kvs[0].key] + rest
  }

  /** The group-by itself. */
  function GroupOf(kvs: seq<KeyValue>, reduceF: Reducer): seq<KeyValue> {
    var ks := SortStrings(DistinctKeys(kvs));
    seq(|ks|, i requires 0 <= i < |ks| => KeyValue(ks[i], reduceF(ks[i], ValuesOf(ks[i], kvs))))
  }

  lemma GroupOfIsGroupBy(kvs: seq<KeyValue>, reduceF: Reducer)
    ensures IsGroupBy(GroupOf(kvs, reduceF), kvs, reduceF)
  {
    var ks := SortStrings(DistinctKeys(kvs));
    SortStringsAscending(DistinctKeys(kvs));
    assert KeyList(GroupOf(kvs, reduceF)) == ks;
  }

  /** Whatever groups kvs is the group-by. */
  lemma IsGroupByOnly(out: seq<KeyValue>, kvs: seq<KeyValue>, reduceF: Reducer)
    requires IsGroupBy(out, kvs, reduceF)
    ensures out == GroupOf(kvs, reduceF)
  {
    GroupOfIsGroupBy(kvs, reduceF);
    GroupByUnique(out, GroupOf(kvs, reduceF), kvs, reduceF);
  }

  lemma {:induction false} ValuesOfConcat(k: string, a: seq<KeyValue>, b: seq<KeyValue>)
    ensures ValuesOf(k, a + b) == ValuesOf(k, a) + ValuesOf(k, b)
  {
    if a == [] {
      assert a + b == b;
    } else {
      assert (a + b)[0] == a[0] && (a + b)[1..] == a[1..] + b;
      ValuesOfConcat(k, a[1..], b);
      Associative(if a[0].key == k then [a[0].value] else [], ValuesOf(k, a[1..]), ValuesOf(k, b));
    }
  }

  lemma OneMorePair(kvs: seq<KeyValue>, kv: KeyValue)
    ensures KeysOf(kvs + [kv]) == KeysOf(kvs) + {kv.key}
    ensures forall k :: ValuesOf(k, kvs + [kv]) == ValuesOf(k, kvs) + if k == kv.key then [kv.value] else []
  {
    KeysOfConcat(kvs, [kv]);
    forall k ensures ValuesOf(k, kvs + [kv]) == ValuesOf(k, kvs) + if k == kv.key then [kv.value] else [] {
      ValuesOfConcat(k, kvs, [kv]);
      assert ValuesOf(k, [kv]) == if k == kv.key then [kv.value] else [];
    }
  }

  lemma KeysOfConcat(a: seq<KeyValue>, b: seq<KeyValue>)
    ensures KeysOf(a + b) == KeysOf(a) + KeysOf(b)
  {
    assert forall kv :: kv in a + b <==> kv in a || kv in b;
  }

  /** A key has values exactly when it occurs. */
  lemma {:induction false} HasValues(k: string, kvs: seq<KeyValue>)
    ensures k in KeysOf(kvs) <==> ValuesOf(k, kvs) != []
  {
    if kvs != [] {
      HasValues(k, kvs[1..]);
      assert kvs == [kvs[0]] + kvs[1..];
      KeysOfConcat([kvs[0]], kvs[1..]);
      assert KeysOf([kvs[0]]) == {kvs[0].key};
    }
  }

  /** In a list of distinct keys every key has one value. */
  lemma {:induction false} ValueOfDistinct(kvs: seq<KeyValue>, i: nat)
    requires Distinct(KeyList(kvs)) && i < |kvs|
    ensures ValuesOf(kvs[i].key, kvs) == [kvs[i].value]
  {
    assert forall a, b :: 0 <= a < b < |kvs| ==> KeyList(kvs)[a] != KeyList(kvs)[b];
    var k := kvs[i].key;
    if i == 0 {
      forall kv | kv in kvs[1..] ensures kv.key != k {
        var j :| 0 <= j < |kvs[1..]| && kvs[1..][j] == kv;
        assert KeyList(kvs)[j + 1] == kv.key && KeyList(kvs)[0] == k;
      }
      HasValues(k, kvs[1..]);
    } else {
      assert KeyList(kvs)[0] != KeyList(kvs)[i];
      assert KeyList(kvs[1..]) == KeyList(kvs)[1..];
      ValueOfDistinct(kvs[1..], i - 1);
    }
  }

  function Flatten<T>(parts: seq<seq<T>>): seq<T> {
    if parts == [] then [] else Flatten(parts[..|parts| - 1]) + parts[|parts| - 1]
  }

  function ValuesOfEach(k: string, parts: seq<seq<KeyValue>>): (vs: seq<seq<string>>)
    ensures |vs| == |parts| && forall i :: 0 <= i < |parts| ==> vs[i] == ValuesOf(k, parts[i])
  {
    seq(|parts|, i requires 0 <= i < |parts| => ValuesOf(k, parts[i]))
  }

  lemma {:induction false} ValuesOfFlatten(k: string, parts: seq<seq<KeyValue>>)
    ensures ValuesOf(k, Flatten(parts)) == Flatten(ValuesOfEach(k, parts))
  {
    if parts != [] {
      var n := |parts| - 1;
      ValuesOfFlatten(k, parts[..n]);
      ValuesOfConcat(k, Flatten(parts[..n]), parts[n]);
      assert ValuesOfEach(k, parts)[..n] == ValuesOfEach(k, parts[..n]);
    }
  }

  // ---- hashing keys to partitions ----

  type Hash = string -> nat

  /** The partition of key k among n. */
  function Bucket(hash: Hash, n: nat, k: string): (r: nat)
    requires n > 0
    ensures r < n
  {
    hash(k) % n
  }

  function InBucket(hash: Hash, n: nat, r: nat): string -> bool
    requires n > 0
  {
    k => Bucket(hash, n, k) == r
  }

  /** The pairs whose key satisfies p, in order. */
  function Keep(kvs: seq<KeyValue>, p: string -> bool): seq<KeyValue> {
    if kvs == [] then [] else (if p(kvs[0].key) then [kvs[0]] else []) + Keep(kvs[1..], p)
  }

  lemma {:induction false} KeepConcat(a: seq<KeyValue>, b: seq<KeyValue>, p: string -> bool)
    ensures Keep(a + b, p) == Keep(a, p) + Keep(b, p)
  {
    if a == [] {
      assert a + b == b;
    } else {
      assert (a + b)[0] == a[0] && (a + b)[1..] == a[1..] + b;
      KeepConcat(a[1..], b, p);
      Associative(if p(a[0].key) then [a[0]] else [], Keep(a[1..], p), Keep(b, p));
    }
  }

  lemma Associative<T>(a: seq<T>, b: seq<T>, c: seq<T>)
    ensures a + (b + c) == (a + b) + c
  {
  }

  function KeepEach(parts: seq<seq<KeyValue>>, p: string -> bool): (kept: seq<seq<KeyValue>>)
    ensures |kept| == |parts| && forall i :: 0 <= i < |parts| ==> kept[i] == Keep(parts[i], p)
  {
    seq(|parts|, i requires 0 <= i < |parts| => Keep(parts[i], p))
  }

  lemma {:induction false} KeepFlatten(parts: seq<seq<KeyValue>>, p: string -> bool)
    ensures Keep(Flatten(parts), p) == Flatten(KeepEach(parts, p))
  {
    if parts != [] {
      var n := |parts| - 1;
      KeepFlatten(parts[..n], p);
      KeepConcat(Flatten(parts[..n]), parts[n], p);
      assert KeepEach(parts, p)[..n] == KeepEach(parts[..n], p);
    }
  }

  lemma {:induction false} ValuesOfKept(k: string, kvs: seq<KeyValue>, p: string -> bool)
    ensures ValuesOf(k, Keep(kvs, p)) == if p(k) then ValuesOf(k, kvs) else []
  {
    if kvs != [] {
      ValuesOfKept(k, kvs[1..], p);
      ValuesOfConcat(k, if p(kvs[0].key) then [kvs[0]] else [], Keep(kvs[1..], p));
    }
  }

  /** The pairs whose key hashes to partition r, in order. */
  function Partition(kvs: seq<KeyValue>, hash: Hash, n: nat, r: nat): seq<KeyValue>
    requires n > 0
  {
    Keep(kvs, InBucket(hash, n, r))
  }

  lemma PartitionOneMore(kvs: seq<KeyValue>, kv: KeyValue, hash: Hash, n: nat, r: nat)
    requires n > 0
    ensures Partition(kvs + [kv], hash, n, r) ==
            Partition(kvs, hash, n, r) + if Bucket(hash, n, kv.key) == r then [kv] else []
  {
    KeepConcat(kvs, [kv], InBucket(hash, n, r));
  }

  lemma {:induction false} KeepExactly(kvs: seq<KeyValue>, p: string -> bool, kv: KeyValue)
    ensures kv in Keep(kvs, p) <==> kv in kvs && p(kv.key)
  {
    if kvs != [] { KeepExactly(kvs[1..], p, kv); }
  }

  /** A pair is in partition r exactly if its key's hash leaves r when divided by the number of partitions. */
  lemma PartitionExactly(kvs: seq<KeyValue>, hash: Hash, n: nat, r: nat, kv: KeyValue)
    requires n > 0
    ensures kv in Partition(kvs, hash, n, r) <==> kv in kvs && hash(kv.key) % n == r
  {
    KeepExactly(kvs, InBucket(hash, n, r), kv);
  }

  lemma ValuesOfPartition(k: string, kvs: seq<KeyValue>, hash: Hash, n: nat, r: nat)
    requires n > 0
    ensures ValuesOf(k, Partition(kvs, hash, n, r)) == if Bucket(hash, n, k) == r then ValuesOf(k, kvs) else []
  {
    ValuesOfKept(k, kvs, InBucket(hash, n, r));
  }

  /** The last value wins: what writing the pairs into a map leaves of each key. */
  function LastValue(): Reducer {
    (k, vs) => if vs == [] then "" else vs[|vs| - 1]
  }

  /** A reduced list has one reduced value for each key of its group. */
  lemma ValuesOfGroupBy(k: string, out: seq<KeyValue>, kvs: seq<KeyValue>, reduceF: Reducer)
    requires IsGroupBy(out, kvs, reduceF)
    ensures ValuesOf(k, out) == if k in KeysOf(kvs) then [reduceF(k, ValuesOf(k, kvs))] else []
  {
    HasValues(k, out);
    assert k in KeysOf(out) <==> k in Elements(KeyList(out)) by {
      assert forall i :: 0 <= i < |out| ==> KeyList(out)[i] in KeyList(out);
    }
    if k in KeysOf(kvs) {
      var i :| 0 <= i < |KeyList(out)| && KeyList(out)[i] == k;
      ValueOfDistinct(out, i);
    }
  }

  /** Reduce the first c partitions separately and concatenate: each key of those partitions has exactly one
      value, reduced over all of its pairs. */
  lemma {:induction false} ValuesOfReduced(k: string, parts: seq<seq<KeyValue>>, kvs: seq<KeyValue>,
                                           hash: Hash, n: nat, reduceF: Reducer)
    requires n > 0 && |parts| <= n
    requires forall r :: 0 <= r < |parts| ==> IsGroupBy(parts[r], Partition(kvs, hash, n, r), reduceF)
    ensures ValuesOf(k, Flatten(parts)) ==
            if Bucket(hash, n, k) < |parts| && k in KeysOf(kvs) then [reduceF(k, ValuesOf(k, kvs))] else []
  {
    if parts != [] {
      var r := |parts| - 1;
      ValuesOfReduced(k, parts[..r], kvs, hash, n, reduceF);
      ValuesOfConcat(k, Flatten(parts[..r]), parts[r]);
      ValuesOfGroupBy(k, parts[r], Partition(kvs, hash, n, r), reduceF);
      ValuesOfPartition(k, kvs, hash, n, r);
      HasValues(k, kvs);
      HasValues(k, Partition(kvs, hash, n, r));
    }
  }

  /** Partition by any hash, reduce each partition, merge: the result is the plain group-by of all pairs,
      whatever the hash and however many partitions, and merging never overwrites a key. */
  lemma PartitionedGroupBy(out: seq<KeyValue>, parts: seq<seq<KeyValue>>, kvs: seq<KeyValue>,
                           hash: Hash, n: nat, reduceF: Reducer)
    requires n > 0 && |parts| == n
    requires forall r :: 0 <= r < n ==> IsGroupBy(parts[r], Partition(kvs, hash, n, r), reduceF)
    requires IsGroupBy(out, Flatten(parts), LastValue())
    ensures IsGroupBy(out, kvs, reduceF)
    ensures forall k :: |ValuesOf(k, Flatten(parts))| <= 1
  {
    forall k ensures |ValuesOf(k, Flatten(parts))| <= 1 && (k in KeysOf(Flatten(parts)) <==> k in KeysOf(kvs)) {
      ValuesOfReduced(k, parts, kvs, hash, n, reduceF);
      HasValues(k, Flatten(parts));
    }
    assert KeysOf(Flatten(parts)) == KeysOf(kvs);
    forall i | 0 <= i < |out| ensures out[i].value == reduceF(out[i].key, ValuesOf(out[i].key, kvs)) {
      ValuesOfReduced(out[i].key, parts, kvs, hash, n, reduceF);
      assert KeyList(out)[i] in Elements(KeyList(out));
    }
  }
}
