/** The shared file system that master and workers write: named lists of records. */
module Files {
  import opened GroupBy

  type FileMap = map<string, seq<KeyValue>>

  /** os.Create empties the file or makes it; the encoder appends one record. */
  datatype Write =
    | Create(name: string)
    | Append(name: string, kv: KeyValue)

  function Content(files: FileMap, name: string): seq<KeyValue> {
    if name in files then files[name] else []
  }

  function Perform(files: FileMap, w: Write): FileMap {
    match w
    case Create(name) => files[name := []]
    case Append(name, kv) => files[name := Content(files, name) + [kv]]
  }

  function PerformAll(files: FileMap, ws: seq<Write>): FileMap {
    if ws == [] then files else Perform(PerformAll(files, ws[..|ws| - 1]), ws[|ws| - 1])
  }

  lemma PerformOneMore(files: FileMap, ws: seq<Write>, w: Write)
    ensures PerformAll(files, ws + [w]) == Perform(PerformAll(files, ws), w)
  {
    assert (ws + [w])[..|ws|] == ws;
  }

  lemma {:induction false} PerformConcat(files: FileMap, a: seq<Write>, b: seq<Write>)
    ensures PerformAll(files, a + b) == PerformAll(PerformAll(files, a), b)
  {
    if b == [] {
      assert a + b == a;
    } else {
      var n := |b| - 1;
      assert a + b == (a + b[..n]) + [b[n]];
      PerformOneMore(files, a + b[..n], b[n]);
      PerformConcat(files, a, b[..n]);
    }
  }

  /** What file `name` holds after ws, if it held c before. */
  function Replay(c: seq<KeyValue>, name: string, ws: seq<Write>): seq<KeyValue> {
    if ws == [] then c
    else
      var held := Replay(c, name, ws[..|ws| - 1]);
      match ws[|ws| - 1]
      case Create(n) => if n == name then [] else held
      case Append(n, kv) => if n == name then held + [kv] else held
  }

  predicate Touches(ws: seq<Write>, name: string) {
    exists i :: 0 <= i < |ws| && ws[i].name == name
  }

  /** A file's content depends on the writes to that file alone, and writing creates it. */
  lemma {:induction false} FileAfter(files: FileMap, name: string, ws: seq<Write>)
    ensures Content(PerformAll(files, ws), name) == Replay(Content(files, name), name, ws)
    ensures name in PerformAll(files, ws) <==> name in files || Touches(ws, name)
  {
    if ws != [] {
      var n := |ws| - 1;
      FileAfter(files, name, ws[..n]);
      if Touches(ws[..n], name) {
        var i :| 0 <= i < n && ws[..n][i].name == name;
        assert ws[i].name == name;
      }
      if Touches(ws, name) && ws[n].name != name {
        var i :| 0 <= i < |ws| && ws[i].name == name;
        assert ws[..n][i].name == name;
      }
    }
  }

  lemma ReplayOneMore(c: seq<KeyValue>, name: string, ws: seq<Write>, w: Write)
    ensures Replay(c, name, ws + [w]) == Replay(Replay(c, name, ws), name, [w])
  {
    assert (ws + [w])[..|ws|] == ws;
    assert [w][..0] == [];
  }

  lemma {:induction false} ReplayConcat(c: seq<KeyValue>, name: string, a: seq<Write>, b: seq<Write>)
    ensures Replay(c, name, a + b) == Replay(Replay(c, name, a), name, b)
  {
    if b == [] {
      assert a + b == a;
    } else {
      var n := |b| - 1;
      assert a + b == (a + b[..n]) + [b[n]];
      assert (a + b)[..|a + b| - 1] == a + b[..n];
      ReplayConcat(c, name, a, b[..n]);
    }
  }

  lemma {:induction false} ReplayUntouched(c: seq<KeyValue>, name: string, ws: seq<Write>)
    requires !Touches(ws, name)
    ensures Replay(c, name, ws) == c
  {
    if ws != [] {
      var n := |ws| - 1;
      assert ws[n].name != name;
      assert forall i :: 0 <= i < n ==> ws[..n][i] == ws[i];
      ReplayUntouched(c, name, ws[..n]);
    }
  }

  // ---- one file written from scratch ----

  function FileWrites(name: string, kvs: seq<KeyValue>): (ws: seq<Write>)
    ensures |ws| == |kvs| + 1 && ws[0] == Create(name)
    ensures forall i :: 0 <= i < |ws| ==> ws[i].name == name
  {
    [Create(name)] + seq(|kvs|, i requires 0 <= i < |kvs| => Append(name, kvs[i]))
  }

  lemma FileWritesOneMore(name: string, kvs: seq<KeyValue>, kv: KeyValue)
    ensures FileWrites(name, kvs + [kv]) == FileWrites(name, kvs) + [Append(name, kv)]
  {
  }

  /** Whatever the file held before, it then holds exactly kvs. */
  lemma {:induction false} FileWritesContent(c: seq<KeyValue>, name: string, kvs: seq<KeyValue>)
    ensures Replay(c, name, FileWrites(name, kvs)) == kvs
  {
    var ws := FileWrites(name, kvs);
    if kvs == [] {
      assert ws == [Create(name)];
    } else {
      var n := |kvs| - 1;
      assert kvs == kvs[..n] + [kvs[n]];
      FileWritesOneMore(name, kvs[..n], kvs[n]);
      assert ws[..|ws| - 1] == FileWrites(name, kvs[..n]);
      FileWritesContent(c, name, kvs[..n]);
    }
  }

  class Disk {
    var files: FileMap

    constructor ()
      ensures files == map[]
    {
      files := map[];
    }

    method Create(name: string)
      modifies this
      ensures files == Perform(old(files), Write.Create(name))
    {
      files := files[name := []];
    }

    method Append(name: string, kv: KeyValue)
      modifies this
      ensures files == Perform(old(files), Write.Append(name, kv))
    {
      files := files[name := Content(files, name) + [kv]];
    }
  }
}
