/** doMap: one input file in, nReduce intermediate files out. */
module MapTask {
  import opened StringOrder
  import opened GroupBy
  import opened FileNames
  import opened Files

  type Mapper = (string, string) -> seq<KeyValue>

  /** The names of the intermediate files of map task m. */
  function MapFiles(job: string, m: nat, n: nat): (names: seq<string>)
    ensures |names| == n && forall r :: 0 <= r < n ==> names[r] == ReduceName(job, m, r)
  {
    seq(n, r requires 0 <= r < n => ReduceName(job, m, r))
  }

  lemma MapFilesDistinct(job: string, m: nat, n: nat)
    ensures Distinct(MapFiles(job, m, n))
  {
    var names := MapFiles(job, m, n);
    forall i, j | 0 <= i < j < n ensures names[i] != names[j] {
      if names[i] == names[j] { ReduceNamesDistinct(job, m, i, m, j); }
    }
  }

  function Creates(names: seq<string>): (ws: seq<Write>)
    ensures |ws| == |names| && forall r :: 0 <= r < |names| ==> ws[r] == Create(names[r])
  {
    seq(|names|, r requires 0 <= r < |names| => Create(names[r]))
  }

  function Appends(names: seq<string>, hash: Hash, kvs: seq<KeyValue>): (ws: seq<Write>)
    requires names != []
    ensures |ws| == |kvs|
    ensures forall i :: 0 <= i < |kvs| ==> ws[i] == Append(names[Bucket(hash, |names|, kvs[i].key)], kvs[i])
  {
    seq(|kvs|, i requires 0 <= i < |kvs| => Append(names[Bucket(hash, |names|, kvs[i].key)], kvs[i]))
  }

  /** The writes of a map task with these intermediate files when its input maps to kvs. */
  function MapWrites(names: seq<string>, hash: Hash, kvs: seq<KeyValue>): (ws: seq<Write>)
    requires names != []
    ensures forall i :: 0 <= i < |ws| ==> ws[i].name in names
  {
    Creates(names) + Appends(names, hash, kvs)
  }

  lemma {:induction false} CreatesContent(names: seq<string>, r: nat, c: seq<KeyValue>)
    requires r < |names| && Distinct(names)
    ensures Replay(c, names[r], Creates(names)) == []
  {
    var n := |names| - 1;
    assert Creates(names)[..n] == Creates(names[..n]);
    if r < n { CreatesContent(names[..n], r, c); }
  }

  lemma AppendsOneMore(names: seq<string>, hash: Hash, kvs: seq<KeyValue>, kv: KeyValue)
    requires names != []
    ensures Appends(names, hash, kvs + [kv]) ==
            Appends(names, hash, kvs) + [Append(names[Bucket(hash, |names|, kv.key)], kv)]
  {
  }

  lemma ReplayAppend(c: seq<KeyValue>, name: string, ws: seq<Write>, other: string, kv: KeyValue)
    ensures Replay(c, name, ws + [Append(other, kv)]) == Replay(c, name, ws) + if other == name then [kv] else []
  {
    assert (ws + [Append(other, kv)])[..|ws|] == ws;
  }

  lemma {:induction false} AppendsContent(names: seq<string>, hash: Hash, kvs: seq<KeyValue>, r: nat, c: seq<KeyValue>)
    requires r < |names| && Distinct(names)
    ensures Replay(c, names[r], Appends(names, hash, kvs)) == c + Partition(kvs, hash, |names|, r)
  {
    if kvs != [] {
      var k := |kvs| - 1;
      var q := Bucket(hash, |names|, kvs[k].key);
      AppendsContent(names, hash, kvs[..k], r, c);
      assert kvs == kvs[..k] + [kvs[k]];
      AppendsOneMore(names, hash, kvs[..k], kvs[k]);
      PartitionOneMore(kvs[..k], kvs[k], hash, |names|, r);
      ReplayAppend(c, names[r], Appends(names, hash, kvs[..k]), names[q], kvs[k]);
    }
  }

  /** A complete run leaves in intermediate file r exactly partition r of the emitted pairs, in emission order,
      whatever earlier runs had left there. */
  lemma MapWritesContent(names: seq<string>, hash: Hash, kvs: seq<KeyValue>, r: nat, c: seq<KeyValue>)
    requires r < |names| && Distinct(names)
    ensures Replay(c, names[r], MapWrites(names, hash, kvs)) == Partition(kvs, hash, |names|, r)
    ensures Touches(MapWrites(names, hash, kvs), names[r])
  {
    ReplayConcat(c, names[r], Creates(names), Appends(names, hash, kvs));
    CreatesContent(names, r, c);
    AppendsContent(names, hash, kvs, r, []);
    assert MapWrites(names, hash, kvs)[r].name == names[r];
  }

  /** What doMap leaves on the disk: nothing new if the input cannot be read. */
  function MapResult(files: FileMap, job: string, m: nat, inFile: string, n: nat,
                     inputs: map<string, string>, mapF: Mapper, hash: Hash): FileMap
    requires n > 0
  {
    if inFile in inputs then PerformAll(files, MapWrites(MapFiles(job, m, n), hash, mapF(inFile, inputs[inFile])))
    else files
  }

  lemma OneMoreFile(job: string, m: nat, i: nat)
    ensures MapFiles(job, m, i + 1) == MapFiles(job, m, i) + [ReduceName(job, m, i)]
  {
  }

  lemma CreatesOneMore(names: seq<string>, name: string)
    ensures Creates(names + [name]) == Creates(names) + [Create(name)]
  {
  }

  method CreateAll(disk: Disk, job: string, m: nat, n: nat) returns (file: seq<string>)
    modifies disk
    ensures file == MapFiles(job, m, n)
    ensures disk.files == PerformAll(old(disk.files), Creates(file))
  {
    file := [];
    ghost var before := disk.files;
    for i := 0 to n
      invariant file == MapFiles(job, m, i)
      invariant disk.files == PerformAll(before, Creates(file))
    {
      var name := ReduceName(job, m, i);
      disk.Create(name);
      PerformOneMore(before, Creates(file), Create(name));
      OneMoreFile(job, m, i);
      CreatesOneMore(file, name);
      file := file + [name];
    }
  }

  method AppendAll(disk: Disk, file: seq<string>, result: seq<KeyValue>, hash: Hash)
    requires file != []
    modifies disk
    ensures disk.files == PerformAll(old(disk.files), Appends(file, hash, result))
  {
    ghost var before := disk.files;
    for i := 0 to |result|
      invariant disk.files == PerformAll(before, Appends(file, hash, result[..i]))
    {
      var name := file[Bucket(hash, |file|, result[i].key)];
      disk.Append(name, result[i]);
      ghost var ws := Appends(file, hash, result[..i]);
      PerformOneMore(before, ws, Append(name, result[i]));
      assert result[..i + 1] == result[..i] + [result[i]];
      AppendsOneMore(file, hash, result[..i], result[i]);
    }
    assert result[..|result|] == result;
  }

  method DoMap(disk: Disk, job: string, m: nat, inFile: string, n: nat,
               inputs: map<string, string>, mapF: Mapper, hash: Hash)
    requires n > 0
    modifies disk
    ensures disk.files == MapResult(old(disk.files), job, m, inFile, n, inputs, mapF, hash)
  {
    if inFile !in inputs {
      return;
    }
    var result := mapF(inFile, inputs[inFile]);
    var file := CreateAll(disk, job, m, n);
    AppendAll(disk, file, result, hash);
    PerformConcat(old(disk.files), Creates(file), Appends(file, hash, result));
  }
}
