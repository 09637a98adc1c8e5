/** The inverted-index program: its map and reduce functions, and what a whole job of them computes. */
module InvertedIndex {
  import opened Decimal
  import opened StringOrder
  import opened FileNames
  import opened GroupBy
  import opened Files
  import opened Phases
  import opened Job
  import WordCount
  import opened MapTask
  import Sequential
  import Distributed

  /** Each word of ws once, with the document's name. */
  ghost predicate IsIndexed(kvs: seq<KeyValue>, document: string, ws: seq<string>) {
    && WordCount.EachWordOnce(kvs, ws)
    && forall i :: 0 <= i < |kvs| ==> kvs[i].value == document
  }

  method MapF(document: string, value: string, words: string -> seq<string>) returns (res: seq<KeyValue>)
    ensures IsIndexed(res, document, words(value))
  {
    var mp := WordCount.CountWords(words(value));
    res := [];
    var todo := mp.Keys;
    while todo != {}
      invariant todo <= mp.Keys
      invariant Distinct(KeyList(res))
      invariant Elements(KeyList(res)) == mp.Keys - todo
      invariant forall i :: 0 <= i < |res| ==> res[i].value == document
    {
      var k :| k in todo;
      WordCount.OneMoreKey(res, KeyValue(k, document));
      assert k !in Elements(KeyList(res));
      res := res + [KeyValue(k, document)];
      todo := todo - {k};
    }
  }

  /** strings.Join */
  function Join(s: seq<string>, sep: string): string {
    if s == [] then "" else if |s| == 1 then s[0] else s[0] + sep + Join(s[1..], sep)
  }

  /** Joining keeps the order: what is joined first is written first. */
  lemma {:induction false} JoinConcat(a: seq<string>, b: seq<string>, sep: string)
    requires a != [] && b != []
    ensures Join(a + b, sep) == Join(a, sep) + sep + Join(b, sep)
  {
    if |a| == 1 {
      assert (a + b)[1..] == b;
    } else {
      assert (a + b)[1..] == a[1..] + b;
      JoinConcat(a[1..], b, sep);
      assert a[0] + sep + (Join(a[1..], sep) + sep + Join(b, sep)) == Join(a, sep) + sep + Join(b, sep);
    }
  }

  /** The pieces of a text between the occurrences of c. */
  function Split(text: string, c: char): (pieces: seq<string>)
    ensures |pieces| > 0
  {
    if text == "" then [""]
    else
      var rest := Split(text[1..], c);
      if text[0] == c then [""] + rest else [[text[0]] + rest[0]] + rest[1..]
  }

  lemma {:induction false} SplitPlain(text: string, c: char)
    requires c !in text
    ensures Split(text, c) == [text]
  {
    if text != "" {
      SplitPlain(text[1..], c);
      assert [text[0]] + text[1..] == text;
    }
  }

  lemma {:induction false} SplitFirst(first: string, rest: string, c: char)
    requires c !in first
    ensures Split(first + [c] + rest, c) == [first] + Split(rest, c)
  {
    var text := first + [c] + rest;
    if first == "" {
      assert text[0] == c && text[1..] == rest;
    } else {
      assert text[0] == first[0] && text[1..] == first[1..] + [c] + rest;
      SplitFirst(first[1..], rest, c);
      assert [first[0]] + first[1..] == first;
    }
  }

  /** Splitting the joined names gives back the names, in order, if none holds the separator. */
  lemma {:induction false} SplitJoin(s: seq<string>, c: char)
    requires s != [] && forall i :: 0 <= i < |s| ==> c !in s[i]
    ensures Split(Join(s, [c]), c) == s
  {
    if |s| == 1 {
      SplitPlain(s[0], c);
    } else {
      SplitJoin(s[1..], c);
      SplitFirst(s[0], Join(s[1..], [c]), c);
      assert [s[0]] + s[1..] == s;
    }
  }

  function Entry(values: seq<string>): string {
    Itoa(|values|) + " " + Join(values, ",")
  }

  function Reduce(): Reducer {
    (k, vs) => Entry(vs)
  }

  // ---- end to end ----

  function MentionedIn(w: string, names: seq<string>, docs: seq<seq<string>>): (vs: seq<seq<string>>)
    requires |docs| == |names|
    ensures |vs| == |docs| && forall i :: 0 <= i < |docs| ==> vs[i] == if w in docs[i] then [names[i]] else []
  {
    seq(|docs|, i requires 0 <= i < |docs| => if w in docs[i] then [names[i]] else [])
  }

  /** The names of the documents that contain w, in input order. */
  function Containing(w: string, names: seq<string>, docs: seq<seq<string>>): seq<string>
    requires |docs| == |names|
  {
    Flatten(MentionedIn(w, names, docs))
  }

  ghost function Documents(w: string, docs: seq<seq<string>>): set<nat> {
    set i: nat | i < |docs| && w in docs[i]
  }

  lemma DocumentsOneMore(w: string, docs: seq<seq<string>>)
    requires docs != []
    ensures var n := |docs| - 1;
            Documents(w, docs) == Documents(w, docs[..n]) + if w in docs[n] then {n} else {}
  {
  }

  lemma {:induction false} ContainingCount(w: string, names: seq<string>, docs: seq<seq<string>>)
    requires |docs| == |names|
    ensures |Containing(w, names, docs)| == |Documents(w, docs)|
  {
    if docs != [] {
      var n := |docs| - 1;
      ContainingCount(w, names[..n], docs[..n]);
      DocumentsOneMore(w, docs);
      assert n !in Documents(w, docs[..n]);
      assert MentionedIn(w, names, docs)[..n] == MentionedIn(w, names[..n], docs[..n]);
    }
  }

  lemma {:induction false} FlattenMembers<T>(parts: seq<seq<T>>, x: T)
    ensures x in Flatten(parts) <==> exists i :: 0 <= i < |parts| && x in parts[i]
  {
    if parts != [] {
      var n := |parts| - 1;
      FlattenMembers(parts[..n], x);
      assert forall i :: 0 <= i < n ==> parts[..n][i] == parts[i];
    }
  }

  /** The list names exactly the documents with w, one entry for each. */
  lemma ContainingExact(w: string, names: seq<string>, docs: seq<seq<string>>)
    requires |docs| == |names|
    ensures |Containing(w, names, docs)| == |Documents(w, docs)|
    ensures forall name :: name in Containing(w, names, docs) <==>
                           exists i :: i in Documents(w, docs) && names[i] == name
  {
    ContainingCount(w, names, docs);
    var parts := MentionedIn(w, names, docs);
    forall name
      ensures name in Containing(w, names, docs) <==> exists i :: i in Documents(w, docs) && names[i] == name
    {
      FlattenMembers(parts, name);
      assert forall i :: 0 <= i < |parts| ==> (name in parts[i] <==> i in Documents(w, docs) && names[i] == name);
    }
  }

  ghost predicate IndexOf(emits: Emits, names: seq<string>, docs: seq<seq<string>>) {
    && |names| == |docs| && AllMapped(emits, |docs|)
    && forall m: nat :: m < |docs| ==> IsIndexed(emits[m], names[m], docs[m])
  }

  lemma ValuesOfIndexed(w: string, kvs: seq<KeyValue>, document: string, ws: seq<string>)
    requires IsIndexed(kvs, document, ws)
    ensures ValuesOf(w, kvs) == if w in ws then [document] else []
  {
    WordCount.ValuesOfWord(w, kvs, ws);
  }

  /** The values gathered for a word are the names of its documents, in input order. */
  lemma ValuesAreDocuments(w: string, emits: Emits, names: seq<string>, docs: seq<seq<string>>)
    requires IndexOf(emits, names, docs)
    ensures ValuesOf(w, Pairs(emits, |docs|)) == Containing(w, names, docs)
  {
    var parts := EmitList(emits, |docs|);
    forall i | 0 <= i < |docs| ensures ValuesOf(w, parts[i]) == MentionedIn(w, names, docs)[i] {
      ValuesOfIndexed(w, parts[i], names[i], docs[i]);
    }
    ValuesOfFlatten(w, parts);
    assert ValuesOfEach(w, parts) == MentionedIn(w, names, docs);
  }

  /** The text is the number of names, a blank, and then the names: split at the commas it is the list, unless
      a name holds a comma itself. */
  ghost predicate Lists(text: string, names: seq<string>) {
    var number := Itoa(|names|) + " ";
    && text == number + Join(names, ",")
    && (names != [] && (forall i :: 0 <= i < |names| ==> ',' !in names[i]) ==> Split(text[|number|..], ',') == names)
  }

  lemma EntryLists(names: seq<string>)
    ensures Lists(Entry(names), names)
  {
    var number := Itoa(|names|) + " ";
    assert Entry(names)[|number|..] == Join(names, ",");
    if names != [] && forall i :: 0 <= i < |names| ==> ',' !in names[i] { SplitJoin(names, ','); }
  }

  /** Every word of the documents once, in ascending order, with the number and the names of its documents. */
  ghost predicate IsInvertedIndex(out: seq<KeyValue>, names: seq<string>, docs: seq<seq<string>>)
    requires |names| == |docs|
  {
    && Ascending(KeyList(out))
    && (forall w :: w in KeyList(out) <==> Documents(w, docs) != {})
    && forall i :: 0 <= i < |out| ==>
         && |Containing(out[i].key, names, docs)| == |Documents(out[i].key, docs)|
         && Lists(out[i].value, Containing(out[i].key, names, docs))
  }

  lemma IndexOfPairs(emits: Emits, names: seq<string>, docs: seq<seq<string>>)
    requires IndexOf(emits, names, docs)
    ensures IsInvertedIndex(GroupOf(Pairs(emits, |docs|), Reduce()), names, docs)
  {
    var kvs := Pairs(emits, |docs|);
    var out := GroupOf(kvs, Reduce());
    GroupOfIsGroupBy(kvs, Reduce());
    forall w ensures w in KeyList(out) <==> Documents(w, docs) != {} {
      ValuesAreDocuments(w, emits, names, docs);
      ContainingExact(w, names, docs);
      HasValues(w, kvs);
      assert w in KeyList(out) <==> w in Elements(KeyList(out));
    }
    forall i | 0 <= i < |out|
      ensures |Containing(out[i].key, names, docs)| == |Documents(out[i].key, docs)|
      ensures Lists(out[i].value, Containing(out[i].key, names, docs))
    {
      ValuesAreDocuments(out[i].key, emits, names, docs);
      ContainingExact(out[i].key, names, docs);
      EntryLists(Containing(out[i].key, names, docs));
    }
  }

  /** Inverted index end to end, for every finished job: the sequential one, and the distributed one. */
  lemma InvertedIndexJob(before: FileMap, after: FileMap, job: string, n: nat, hash: Hash, emits: Emits, pairs: Emits,
                         names: seq<string>, docs: seq<seq<string>>)
    requires n > 0 && IndexOf(pairs, names, docs) && Completes(before, job, |docs|, n, hash, emits, pairs)
    requires JobDone(before, after, job, |docs|, n, hash, emits, Reduce())
    ensures OutputName(job) in after && IsInvertedIndex(after[OutputName(job)], names, docs)
  {
    JobOutput(before, after, job, |docs|, n, hash, emits, pairs, Reduce());
    IndexOfPairs(pairs, names, docs);
  }

  /** A map function that lists the words of a text with the text's name, in whatever order. */
  ghost predicate IndexesWords(mapF: Mapper, words: string -> seq<string>) {
    forall name, text :: IsIndexed(mapF(name, text), name, words(text))
  }

  lemma IndexEmitted(inFiles: seq<string>, inputs: map<string, string>, mapF: Mapper, words: string -> seq<string>)
    requires IndexesWords(mapF, words) && forall m :: 0 <= m < |inFiles| ==> inFiles[m] in inputs
    ensures IndexOf(Sequential.Emitted(inFiles, inputs, mapF, |inFiles|), inFiles,
                    WordCount.Documents(inFiles, inputs, words))
  {
    var emits := Sequential.Emitted(inFiles, inputs, mapF, |inFiles|);
    var docs := WordCount.Documents(inFiles, inputs, words);
    forall m: nat | m < |docs| ensures IsIndexed(emits[m], inFiles[m], docs[m]) {
      assert IsIndexed(mapF(inFiles[m], inputs[inFiles[m]]), inFiles[m], words(inputs[inFiles[m]]));
    }
  }

  /** The sequential inverted-index program. */
  method RunSequential(disk: Disk, job: string, inFiles: seq<string>, n: nat, inputs: map<string, string>,
                       mapF: Mapper, hash: Hash, ghost words: string -> seq<string>)
    returns (ok: bool)
    requires n > 0 && IndexesWords(mapF, words) && forall m :: 0 <= m < |inFiles| ==> inFiles[m] in inputs
    modifies disk
    ensures ok && OutputName(job) in disk.files
    ensures IsInvertedIndex(disk.files[OutputName(job)], inFiles, WordCount.Documents(inFiles, inputs, words))
  {
    ghost var before := disk.files;
    ghost var emits := Sequential.Emitted(inFiles, inputs, mapF, |inFiles|);
    Sequential.AllReadable(before, job, inFiles, n, hash, inputs, mapF);
    IndexEmitted(inFiles, inputs, mapF, words);
    ok := Sequential.Run(disk, job, inFiles, n, inputs, mapF, hash, Reduce());
    InvertedIndexJob(before, disk.files, job, n, hash, emits, emits, inFiles,
                     WordCount.Documents(inFiles, inputs, words));
  }

  ghost function AnyOrder(names: seq<string>, docs: seq<seq<string>>): Distributed.Emission
    requires |names| == |docs|
  {
    (m: nat, kvs: seq<KeyValue>) => m < |docs| && IsIndexed(kvs, names[m], docs[m])
  }

  lemma InvertedIndexDistributed(before: FileMap, maps: Distributed.Phase, reduces: Distributed.Phase, job: string,
                                 n: nat, hash: Hash, names: seq<string>, docs: seq<seq<string>>)
    requires |names| == |docs| && n > 0
    requires Distributed.JobRan(before, maps, reduces, job, |docs|, n, hash, Distributed.Tasks(|docs|),
                                AnyOrder(names, docs), Reduce())
    ensures var after := Distributed.AfterJob(before, maps, reduces, job, n);
            OutputName(job) in after && IsInvertedIndex(after[OutputName(job)], names, docs)
  {
    var emits := Distributed.EveryTaskEmits(before, maps, reduces, job, |docs|, n, hash, AnyOrder(names, docs),
                                            Reduce());
    forall m: nat | m < |docs| ensures IsIndexed(emits[m], names[m], docs[m]) {
      assert AnyOrder(names, docs)(m, emits[m]);
    }
    IndexOfPairs(emits, names, docs);
  }
}
