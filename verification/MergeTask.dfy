/** merge: the nReduce reduced files in, one sorted file out. */
module MergeTask {
  import opened StringOrder
  import opened GroupBy
  import opened FileNames
  import opened Files

  /** The records of the reduced files, in reduce-task order. */
  function Collect(files: FileMap, job: string, n: nat): seq<KeyValue> {
    if n == 0 then [] else Collect(files, job, n - 1) + Content(files, MergeName(job, n - 1))
  }

  predicate HasResults(files: FileMap, job: string, n: nat) {
    forall r: nat :: r < n ==> MergeName(job, r) in files
  }

  /** The map that keeps the last value of each key. */
  ghost predicate Latest(last: map<string, string>, kvs: seq<KeyValue>) {
    && last.Keys == KeysOf(kvs)
    && forall k :: k in last ==> last[k] == LastValue()(k, ValuesOf(k, kvs))
  }

  lemma LatestOneMore(last: map<string, string>, kvs: seq<KeyValue>, kv: KeyValue)
    requires Latest(last, kvs)
    ensures Latest(last[kv.key := kv.value], kvs + [kv])
  {
    OneMorePair(kvs, kv);
  }

  method ReadRecords(start: map<string, string>, ghost earlier: seq<KeyValue>, records: seq<KeyValue>)
    returns (last: map<string, string>)
    requires Latest(start, earlier)
    ensures Latest(last, earlier + records)
  {
    last := start;
    assert earlier == earlier + records[..0];
    for j := 0 to |records|
      invariant Latest(last, earlier + records[..j])
    {
      LatestOneMore(last, earlier + records[..j], records[j]);
      last := last[records[j].key := records[j].value];
      assert earlier + records[..j + 1] == earlier + records[..j] + [records[j]];
    }
    assert records[..|records|] == records;
  }

  lemma OneMoreResult(files: FileMap, job: string, i: nat, n: nat)
    requires HasResults(files, job, i) && i < n
    ensures HasResults(files, job, i + 1) <==> MergeName(job, i) in files
    ensures HasResults(files, job, n) ==> MergeName(job, i) in files
  {
  }

  method ReadResults(disk: Disk, job: string, n: nat) returns (ok: bool, last: map<string, string>)
    ensures ok <==> HasResults(disk.files, job, n)
    ensures ok ==> Latest(last, Collect(disk.files, job, n))
  {
    last := map[];
    for i := 0 to n
      invariant HasResults(disk.files, job, i)
      invariant Latest(last, Collect(disk.files, job, i))
    {
      var name := MergeName(job, i);
      OneMoreResult(disk.files, job, i, n);
      if name !in disk.files {
        return false, last;
      }
      last := ReadRecords(last, Collect(disk.files, job, i), disk.files[name]);
    }
    ok := true;
  }

  lemma WrittenInOrder(out: seq<KeyValue>, keys: seq<string>, last: map<string, string>, kvs: seq<KeyValue>)
    requires Latest(last, kvs) && Ascending(keys) && Elements(keys) == last.Keys && |out| == |keys|
    requires forall j :: 0 <= j < |keys| ==> keys[j] in last && out[j] == KeyValue(keys[j], last[keys[j]])
    ensures out == GroupOf(kvs, LastValue())
  {
    assert KeyList(out) == keys;
    IsGroupByOnly(out, kvs, LastValue());
  }

  method WriteOutput(disk: Disk, name: string, keys: seq<string>, last: map<string, string>,
                     ghost kvs: seq<KeyValue>)
    requires Latest(last, kvs) && Ascending(keys) && Elements(keys) == last.Keys
    modifies disk
    ensures disk.files == PerformAll(old(disk.files), FileWrites(name, GroupOf(kvs, LastValue())))
  {
    ghost var before := disk.files;
    ghost var out: seq<KeyValue> := [];
    disk.Create(name);
    PerformOneMore(before, [], Create(name));
    assert FileWrites(name, out) == [] + [Create(name)];
    for i := 0 to |keys|
      invariant |out| == i
      invariant forall j :: 0 <= j < i ==> keys[j] in last && out[j] == KeyValue(keys[j], last[keys[j]])
      invariant disk.files == PerformAll(before, FileWrites(name, out))
    {
      assert keys[i] in Elements(keys);
      var kv := KeyValue(keys[i], last[keys[i]]);
      disk.Append(name, kv);
      PerformOneMore(before, FileWrites(name, out), Append(name, kv));
      FileWritesOneMore(name, out, kv);
      out := out + [kv];
    }
    WrittenInOrder(out, keys, last, kvs);
  }

  /** The answer is false where the original stops the process: a reduced file is missing. */
  method Merge(disk: Disk, job: string, n: nat) returns (ok: bool)
    modifies disk
    ensures ok <==> HasResults(old(disk.files), job, n)
    ensures var out := GroupOf(Collect(old(disk.files), job, n), LastValue());
            disk.files == if ok then PerformAll(old(disk.files), FileWrites(OutputName(job), out)) else old(disk.files)
  {
    var last;
    ok, last := ReadResults(disk, job, n);
    if !ok {
      return;
    }
    var keys := RangeKeys(last);
    SortStringsAscending(keys);
    keys := SortStrings(keys);
    assert Elements(keys) == last.Keys;
    WriteOutput(disk, OutputName(job), keys, last, Collect(disk.files, job, n));
  }
}
