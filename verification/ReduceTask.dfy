/** doReduce: the nMap intermediate files of one partition in, one sorted and reduced file out. */
module ReduceTask {
  import opened StringOrder
  import opened GroupBy
  import opened FileNames
  import opened Files

  /** The records of the intermediate files for reduce task r, in map-task order. */
  function Gather(files: FileMap, job: string, nMap: nat, r: nat): seq<KeyValue> {
    if nMap == 0 then [] else Gather(files, job, nMap - 1, r) + Content(files, ReduceName(job, nMap - 1, r))
  }

  predicate HasInputs(files: FileMap, job: string, nMap: nat, r: nat) {
    forall m: nat :: m < nMap ==> ReduceName(job, m, r) in files
  }

  function ReduceWrites(files: FileMap, job: string, r: nat, nMap: nat, reduceF: Reducer): seq<Write> {
    FileWrites(MergeName(job, r), GroupOf(Gather(files, job, nMap, r), reduceF))
  }

  /** The map from key to the list of its values, as the reading loop builds it. */
  ghost predicate Grouped(groups: map<string, seq<string>>, kvs: seq<KeyValue>) {
    && groups.Keys == KeysOf(kvs)
    && forall k :: k in groups ==> groups[k] == ValuesOf(k, kvs)
  }

  lemma GroupOneMore(groups: map<string, seq<string>>, kvs: seq<KeyValue>, kv: KeyValue)
    requires Grouped(groups, kvs)
    ensures var vs := if kv.key in groups then groups[kv.key] else [];
            Grouped(groups[kv.key := vs + [kv.value]], kvs + [kv])
  {
    OneMorePair(kvs, kv);
    HasValues(kv.key, kvs);
  }

  method ReadRecords(start: map<string, seq<string>>, ghost earlier: seq<KeyValue>, records: seq<KeyValue>)
    returns (groups: map<string, seq<string>>)
    requires Grouped(start, earlier)
    ensures Grouped(groups, earlier + records)
  {
    groups := start;
    assert earlier == earlier + records[..0];
    for j := 0 to |records|
      invariant Grouped(groups, earlier + records[..j])
    {
      var kv := records[j];
      GroupOneMore(groups, earlier + records[..j], kv);
      groups := groups[kv.key := (if kv.key in groups then groups[kv.key] else []) + [kv.value]];
      assert earlier + records[..j + 1] == earlier + records[..j] + [kv];
    }
    assert records[..|records|] == records;
  }

  lemma OneMoreInput(files: FileMap, job: string, i: nat, r: nat, nMap: nat)
    requires HasInputs(files, job, i, r) && i < nMap
    ensures HasInputs(files, job, i + 1, r) <==> ReduceName(job, i, r) in files
    ensures HasInputs(files, job, nMap, r) ==> ReduceName(job, i, r) in files
  {
  }

  method ReadGroups(disk: Disk, job: string, r: nat, nMap: nat)
    returns (ok: bool, groups: map<string, seq<string>>)
    ensures ok <==> HasInputs(disk.files, job, nMap, r)
    ensures ok ==> Grouped(groups, Gather(disk.files, job, nMap, r))
  {
    groups := map[];
    for i := 0 to nMap
      invariant HasInputs(disk.files, job, i, r)
      invariant Grouped(groups, Gather(disk.files, job, i, r))
    {
      var name := ReduceName(job, i, r);
      OneMoreInput(disk.files, job, i, r, nMap);
      if name !in disk.files {
        return false, groups;
      }
      groups := ReadRecords(groups, Gather(disk.files, job, i, r), disk.files[name]);
    }
    ok := true;
  }

  lemma WrittenInOrder(out: seq<KeyValue>, keys: seq<string>, kvs: seq<KeyValue>, reduceF: Reducer)
    requires Ascending(keys) && Elements(keys) == KeysOf(kvs) && |out| == |keys|
    requires forall j :: 0 <= j < |keys| ==> out[j] == KeyValue(keys[j], reduceF(keys[j], ValuesOf(keys[j], kvs)))
    ensures out == GroupOf(kvs, reduceF)
  {
    assert KeyList(out) == keys;
    IsGroupByOnly(out, kvs, reduceF);
  }

  method WriteGroups(disk: Disk, name: string, keys: seq<string>, groups: map<string, seq<string>>,
                     reduceF: Reducer, ghost kvs: seq<KeyValue>)
    requires Grouped(groups, kvs) && Ascending(keys) && Elements(keys) == groups.Keys
    modifies disk
    ensures disk.files == PerformAll(old(disk.files), FileWrites(name, GroupOf(kvs, reduceF)))
  {
    ghost var before := disk.files;
    ghost var out: seq<KeyValue> := [];
    disk.Create(name);
    PerformOneMore(before, [], Create(name));
    assert FileWrites(name, out) == [] + [Create(name)];
    for i := 0 to |keys|
      invariant |out| == i
      invariant forall j :: 0 <= j < i ==> out[j] == KeyValue(keys[j], reduceF(keys[j], ValuesOf(keys[j], kvs)))
      invariant disk.files == PerformAll(before, FileWrites(name, out))
    {
      assert keys[i] in Elements(keys);
      var kv := KeyValue(keys[i], reduceF(keys[i], groups[keys[i]]));
      disk.Append(name, kv);
      PerformOneMore(before, FileWrites(name, out), Append(name, kv));
      FileWritesOneMore(name, out, kv);
      out := out + [kv];
    }
    WrittenInOrder(out, keys, kvs, reduceF);
  }

  /** The answer is false where the original stops the process: an intermediate file is missing. Otherwise
      the reduced file holds the group-by of everything gathered, and no other file changes. */
  method DoReduce(disk: Disk, job: string, r: nat, nMap: nat, reduceF: Reducer) returns (ok: bool)
    modifies disk
    ensures ok <==> HasInputs(old(disk.files), job, nMap, r)
    ensures disk.files == if ok then PerformAll(old(disk.files), ReduceWrites(old(disk.files), job, r, nMap, reduceF))
                          else old(disk.files)
  {
    var groups;
    ok, groups := ReadGroups(disk, job, r, nMap);
    if !ok {
      return;
    }
    var keys := RangeKeys(groups);
    SortStringsAscending(keys);
    keys := SortStrings(keys);

    assert Elements(keys) == groups.Keys;
    WriteGroups(disk, MergeName(job, r), keys, groups, reduceF, Gather(disk.files, job, nMap, r));
  }
}
