/** The word-count program: its map and reduce functions, and what a whole job of them computes. */
module WordCount {
  import opened Options
  import opened Decimal
  import opened StringOrder
  import opened FileNames
  import opened GroupBy
  import opened Files
  import opened Phases
  import opened Job
  import opened MapTask
  import Sequential
  import Distributed

  /** How often w occurs in ws. */
  function Count(w: string, ws: seq<string>): nat {
    if ws == [] then 0 else Count(w, ws[..|ws| - 1]) + if ws[|ws| - 1] == w then 1 else 0
  }

  lemma {:induction false} CountPositive(w: string, ws: seq<string>)
    ensures Count(w, ws) > 0 <==> w in ws
  {
    if ws != [] {
      CountPositive(w, ws[..|ws| - 1]);
      assert ws == ws[..|ws| - 1] + [ws[|ws| - 1]];
    }
  }

  /** The count is the multiplicity. */
  lemma {:induction false} CountIsMultiplicity(w: string, ws: seq<string>)
    ensures Count(w, ws) == multiset(ws)[w]
  {
    if ws != [] {
      CountIsMultiplicity(w, ws[..|ws| - 1]);
      assert ws == ws[..|ws| - 1] + [ws[|ws| - 1]];
    }
  }

  /** The keys are the words of ws, each once, in any order. */
  ghost predicate EachWordOnce(kvs: seq<KeyValue>, ws: seq<string>) {
    Distinct(KeyList(kvs)) && Elements(KeyList(kvs)) == Elements(ws)
  }

  lemma ValuesOfWord(w: string, kvs: seq<KeyValue>, ws: seq<string>)
    requires EachWordOnce(kvs, ws)
    ensures w in ws ==> exists i :: 0 <= i < |kvs| && kvs[i].key == w && ValuesOf(w, kvs) == [kvs[i].value]
    ensures w !in ws ==> ValuesOf(w, kvs) == []
  {
    HasValues(w, kvs);
    assert w in KeysOf(kvs) <==> w in Elements(KeyList(kvs)) by {
      assert forall i :: 0 <= i < |kvs| ==> KeyList(kvs)[i] in KeyList(kvs);
    }
    assert w in Elements(ws) <==> w in ws;
    if w in ws {
      var i :| 0 <= i < |KeyList(kvs)| && KeyList(kvs)[i] == w;
      ValueOfDistinct(kvs, i);
    }
  }

  /** Each word of ws once, with its count. */
  ghost predicate IsCounts(kvs: seq<KeyValue>, ws: seq<string>) {
    && EachWordOnce(kvs, ws)
    && forall i :: 0 <= i < |kvs| ==> kvs[i].value == Itoa(Count(kvs[i].key, ws))
  }

  ghost predicate Counted(mp: map<string, int>, ws: seq<string>) {
    && mp.Keys == Elements(ws)
    && forall w :: w in mp ==> mp[w] == Count(w, ws)
  }

  lemma OneMoreWord(mp: map<string, int>, ws: seq<string>, w: string)
    requires Counted(mp, ws)
    ensures Counted(mp[w := (if w in mp then mp[w] else 0) + 1], ws + [w])
  {
    assert (ws + [w])[..|ws|] == ws;
    assert Elements(ws + [w]) == Elements(ws) + {w};
    CountPositive(w, ws);
  }

  lemma OneMoreKey(kvs: seq<KeyValue>, kv: KeyValue)
    ensures KeyList(kvs + [kv]) == KeyList(kvs) + [kv.key]
    ensures Elements(KeyList(kvs + [kv])) == Elements(KeyList(kvs)) + {kv.key}
  {
    assert KeyList(kvs + [kv]) == KeyList(kvs) + [kv.key];
  }

  method CountWords(ws: seq<string>) returns (mp: map<string, int>)
    ensures Counted(mp, ws)
  {
    mp := map[];
    for i := 0 to |ws|
      invariant Counted(mp, ws[..i])
    {
      OneMoreWord(mp, ws[..i], ws[i]);
      mp := mp[ws[i] := (if ws[i] in mp then mp[ws[i]] else 0) + 1];
      assert ws[..i + 1] == ws[..i] + [ws[i]];
    }
    assert ws[..|ws|] == ws;
  }

  /** `words` splits a text into its words. */
  method MapF(value: string, words: string -> seq<string>) returns (res: seq<KeyValue>)
    ensures IsCounts(res, words(value))
  {
    var mp := CountWords(words(value));
    res := [];
    var todo := mp.Keys;
    while todo != {}
      invariant todo <= mp.Keys
      invariant Distinct(KeyList(res))
      invariant Elements(KeyList(res)) == mp.Keys - todo
      invariant forall i :: 0 <= i < |res| ==> res[i].value == Itoa(Count(res[i].key, words(value)))
    {
      var k :| k in todo;
      OneMoreKey(res, KeyValue(k, Itoa(mp[k])));
      assert k !in Elements(KeyList(res));
      res := res + [KeyValue(k, Itoa(mp[k]))];
      todo := todo - {k};
    }
  }

  type Parser = string -> Option<int>

  /** The sum of the parsed values, or None if one of them cannot be parsed. */
  function Total(values: seq<string>, parse: Parser): Option<int> {
    if values == [] then Some(0)
    else
      match (Total(values[..|values| - 1], parse), parse(values[|values| - 1]))
      case (Some(t), Some(v)) => Some(t + v)
      case _ => None
  }

  function Number(): Parser {
    v => Atoi(v)
  }

  lemma {:induction false} TotalFails(values: seq<string>, k: nat, parse: Parser)
    requires k <= |values| && Total(values[..k], parse).None?
    ensures Total(values, parse).None?
  {
    if k < |values| {
      var n := |values| - 1;
      assert values[..n][..k] == values[..k];
      TotalFails(values[..n], k, parse);
    } else {
      assert values[..k] == values;
    }
  }

  lemma TotalAppend(values: seq<string>, v: string, parse: Parser)
    ensures Total(values + [v], parse) == match (Total(values, parse), parse(v))
                                          case (Some(t), Some(c)) => Some(t + c)
                                          case _ => None
  {
    assert (values + [v])[..|values|] == values;
  }

  method Sum(values: seq<string>, parse: Parser) returns (r: Option<int>)
    ensures r == Total(values, parse)
  {
    var tot := 0;
    for i := 0 to |values|
      invariant Total(values[..i], parse) == Some(tot)
    {
      TotalAppend(values[..i], values[i], parse);
      assert values[..i + 1] == values[..i] + [values[i]];
      match parse(values[i]) {
        case None =>
          TotalFails(values, i + 1, parse);
          return None;
        case Some(cur) =>
          tot := tot + cur;
      }
    }
    assert values[..|values|] == values;
    return Some(tot);
  }

  /** None is where the original stops the process. */
  method ReduceF(key: string, values: seq<string>) returns (r: Option<string>)
    ensures Total(values, Number()).None? ==> r == None
    ensures Total(values, Number()).Some? ==> r == Some(Reduce()(key, values))
  {
    var tot := Sum(values, Number());
    match tot {
      case None => return None;
      case Some(t) => return Some(Itoa(t));
    }
  }

  /** The reduce function where it returns. */
  function Reduce(): Reducer {
    (k, vs) => match Total(vs, Number()) case Some(t) => Itoa(t) case None => ""
  }

  // ---- end to end ----

  function SumOf(cs: seq<nat>): nat {
    if cs == [] then 0 else SumOf(cs[..|cs| - 1]) + cs[|cs| - 1]
  }

  function CountEach(w: string, docs: seq<seq<string>>): (cs: seq<nat>)
    ensures |cs| == |docs| && forall i :: 0 <= i < |docs| ==> cs[i] == Count(w, docs[i])
  {
    seq(|docs|, i requires 0 <= i < |docs| => Count(w, docs[i]))
  }

  /** How often w occurs in all documents. */
  function Occurrences(w: string, docs: seq<seq<string>>): nat {
    SumOf(CountEach(w, docs))
  }

  /** ... counted over the documents one after the other. */
  lemma {:induction false} OccurrencesInAll(w: string, docs: seq<seq<string>>)
    ensures Occurrences(w, docs) == multiset(Flatten(docs))[w]
  {
    if docs != [] {
      var n := |docs| - 1;
      OccurrencesInAll(w, docs[..n]);
      assert CountEach(w, docs)[..n] == CountEach(w, docs[..n]);
      CountIsMultiplicity(w, docs[n]);
    }
  }

  ghost predicate CountsOf(emits: Emits, docs: seq<seq<string>>) {
    AllMapped(emits, |docs|) && forall m: nat :: m < |docs| ==> IsCounts(emits[m], docs[m])
  }

  lemma {:induction false} TotalConcat(a: seq<string>, b: seq<string>, parse: Parser, t: int, u: int)
    requires Total(a, parse) == Some(t) && Total(b, parse) == Some(u)
    ensures Total(a + b, parse) == Some(t + u)
  {
    if b == [] {
      assert a + b == a;
    } else {
      var n := |b| - 1;
      assert a + b == a + b[..n] + [b[n]];
      TotalAppend(a + b[..n], b[n], parse);
      TotalConcat(a, b[..n], parse, t, Total(b[..n], parse).value);
    }
  }

  lemma TotalOfOne(c: nat)
    ensures Total([Itoa(c)], Number()) == Some(c)
  {
    AtoiOfItoa(c);
    TotalAppend([], Itoa(c), Number());
    assert [] + [Itoa(c)] == [Itoa(c)];
  }

  lemma ValuesOfCounts(w: string, kvs: seq<KeyValue>, ws: seq<string>)
    requires IsCounts(kvs, ws)
    ensures ValuesOf(w, kvs) == if w in ws then [Itoa(Count(w, ws))] else []
  {
    ValuesOfWord(w, kvs, ws);
  }

  /** The values add up to c, and there is one exactly if c is positive. */
  ghost predicate Represents(values: seq<string>, c: nat, parse: Parser) {
    Total(values, parse) == Some(c) && (values != [] <==> c > 0)
  }

  lemma CountsRepresent(w: string, kvs: seq<KeyValue>, ws: seq<string>)
    requires IsCounts(kvs, ws)
    ensures Represents(ValuesOf(w, kvs), Count(w, ws), Number())
  {
    ValuesOfCounts(w, kvs, ws);
    CountPositive(w, ws);
    TotalOfOne(Count(w, ws));
  }

  lemma {:induction false} SumRepresented(values: seq<seq<string>>, cs: seq<nat>, parse: Parser)
    requires |values| == |cs| && forall i :: 0 <= i < |cs| ==> Represents(values[i], cs[i], parse)
    ensures Represents(Flatten(values), SumOf(cs), parse)
  {
    if cs != [] {
      var n := |cs| - 1;
      SumRepresented(values[..n], cs[..n], parse);
      TotalConcat(Flatten(values[..n]), values[n], parse, SumOf(cs[..n]), cs[n]);
    }
  }

  /** No value ever fails to parse, and the values of a word add up to its occurrences. */
  lemma TotalOfWord(w: string, emits: Emits, docs: seq<seq<string>>)
    requires CountsOf(emits, docs)
    ensures Total(ValuesOf(w, Pairs(emits, |docs|)), Number()) == Some(Occurrences(w, docs))
    ensures w in KeysOf(Pairs(emits, |docs|)) <==> Occurrences(w, docs) > 0
  {
    var parts := EmitList(emits, |docs|);
    var values, cs := ValuesOfEach(w, parts), CountEach(w, docs);
    forall i | 0 <= i < |docs| ensures Represents(values[i], cs[i], Number()) {
      CountsRepresent(w, parts[i], docs[i]);
    }
    SumRepresented(values, cs, Number());
    ValuesOfFlatten(w, parts);
    HasValues(w, Flatten(parts));
  }

  /** Every word of the documents once, in ascending order, with its number of occurrences. */
  ghost predicate IsWordCount(out: seq<KeyValue>, docs: seq<seq<string>>) {
    && Ascending(KeyList(out))
    && (forall w :: w in KeyList(out) <==> w in Flatten(docs))
    && forall i :: 0 <= i < |out| ==> out[i].value == Itoa(multiset(Flatten(docs))[out[i].key])
  }

  lemma WordCountOfPairs(emits: Emits, docs: seq<seq<string>>)
    requires CountsOf(emits, docs)
    ensures IsWordCount(GroupOf(Pairs(emits, |docs|), Reduce()), docs)
  {
    var kvs := Pairs(emits, |docs|);
    var out := GroupOf(kvs, Reduce());
    GroupOfIsGroupBy(kvs, Reduce());
    forall w ensures w in KeyList(out) <==> w in Flatten(docs) {
      TotalOfWord(w, emits, docs);
      OccurrencesInAll(w, docs);
      assert w in KeyList(out) <==> w in Elements(KeyList(out));
    }
    forall i | 0 <= i < |out| ensures out[i].value == Itoa(multiset(Flatten(docs))[out[i].key]) {
      OccurrencesInAll(out[i].key, docs);
      TotalOfWord(out[i].key, emits, docs);
    }
  }

  /** Word count end to end, for every finished job: the sequential one, and the distributed one. */
  lemma WordCountJob(before: FileMap, after: FileMap, job: string, n: nat, hash: Hash, emits: Emits, pairs: Emits,
                     docs: seq<seq<string>>)
    requires n > 0 && CountsOf(pairs, docs) && Completes(before, job, |docs|, n, hash, emits, pairs)
    requires JobDone(before, after, job, |docs|, n, hash, emits, Reduce())
    ensures OutputName(job) in after && IsWordCount(after[OutputName(job)], docs)
  {
    JobOutput(before, after, job, |docs|, n, hash, emits, pairs, Reduce());
    WordCountOfPairs(pairs, docs);
  }

  /** A map function that counts the words of a text, in whatever order. */
  ghost predicate CountsWords(mapF: Mapper, words: string -> seq<string>) {
    forall name, text :: IsCounts(mapF(name, text), words(text))
  }

  function Documents(inFiles: seq<string>, inputs: map<string, string>, words: string -> seq<string>)
    : (docs: seq<seq<string>>)
    requires forall m :: 0 <= m < |inFiles| ==> inFiles[m] in inputs
    ensures |docs| == |inFiles| && forall m :: 0 <= m < |docs| ==> docs[m] == words(inputs[inFiles[m]])
  {
    seq(|inFiles|, m requires 0 <= m < |inFiles| => words(inputs[inFiles[m]]))
  }

  lemma CountsEmitted(inFiles: seq<string>, inputs: map<string, string>, mapF: Mapper, words: string -> seq<string>)
    requires CountsWords(mapF, words) && forall m :: 0 <= m < |inFiles| ==> inFiles[m] in inputs
    ensures CountsOf(Sequential.Emitted(inFiles, inputs, mapF, |inFiles|), Documents(inFiles, inputs, words))
  {
    var emits, docs := Sequential.Emitted(inFiles, inputs, mapF, |inFiles|), Documents(inFiles, inputs, words);
    forall m: nat | m < |docs| ensures IsCounts(emits[m], docs[m]) {
      assert IsCounts(mapF(inFiles[m], inputs[inFiles[m]]), words(inputs[inFiles[m]]));
    }
  }

  /** The sequential word-count program. */
  method RunSequential(disk: Disk, job: string, inFiles: seq<string>, n: nat, inputs: map<string, string>,
                       mapF: Mapper, hash: Hash, ghost words: string -> seq<string>)
    returns (ok: bool)
    requires n > 0 && CountsWords(mapF, words) && forall m :: 0 <= m < |inFiles| ==> inFiles[m] in inputs
    modifies disk
    ensures ok && OutputName(job) in disk.files
    ensures IsWordCount(disk.files[OutputName(job)], Documents(inFiles, inputs, words))
  {
    ghost var before := disk.files;
    ghost var emits := Sequential.Emitted(inFiles, inputs, mapF, |inFiles|);
    Sequential.AllReadable(before, job, inFiles, n, hash, inputs, mapF);
    CountsEmitted(inFiles, inputs, mapF, words);
    ok := Sequential.Run(disk, job, inFiles, n, inputs, mapF, hash, Reduce());
    WordCountJob(before, disk.files, job, n, hash, emits, emits, Documents(inFiles, inputs, words));
  }

  ghost function AnyOrder(docs: seq<seq<string>>): Distributed.Emission {
    (m: nat, kvs: seq<KeyValue>) => m < |docs| && IsCounts(kvs, docs[m])
  }

  /** The distributed word count is right although every run of a map task may range over its words in
      another order. */
  lemma WordCountDistributed(before: FileMap, maps: Distributed.Phase, reduces: Distributed.Phase, job: string,
                             n: nat, hash: Hash, docs: seq<seq<string>>)
    requires n > 0
    requires Distributed.JobRan(before, maps, reduces, job, |docs|, n, hash, Distributed.Tasks(|docs|),
                                AnyOrder(docs), Reduce())
    ensures var after := Distributed.AfterJob(before, maps, reduces, job, n);
            OutputName(job) in after && IsWordCount(after[OutputName(job)], docs)
  {
    var emits := Distributed.EveryTaskEmits(before, maps, reduces, job, |docs|, n, hash, AnyOrder(docs), Reduce());
    forall m: nat | m < |docs| ensures IsCounts(emits[m], docs[m]) {
      assert AnyOrder(docs)(m, emits[m]);
    }
    WordCountOfPairs(emits, docs);
  }
}
