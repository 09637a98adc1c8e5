/** The names of a job's files: intermediate, reduced and merged. */
module FileNames {
  import opened Decimal

  function ReduceName(job: string, mapTask: nat, reduceTask: nat): string {
    "mrtmp." + job + "-" + Itoa(mapTask) + "-" + Itoa(reduceTask)
  }

  function MergeName(job: string, reduceTask: nat): string {
    "mrtmp." + job + "-res-" + Itoa(reduceTask)
  }

  function OutputName(job: string): string {
    "mrtmp." + job
  }

  lemma SamePrefix(p: string, a: string, b: string)
    requires p + a == p + b
    ensures a == b
  {
    assert a == (p + a)[|p|..] && b == (p + b)[|p|..];
  }

  lemma FirstDash(a: string, b: string)
    requires AllDigits(a)
    ensures var s := a + "-" + b;
            && s[|a|] == '-' && (forall k :: 0 <= k < |a| ==> s[k] != '-')
            && s[..|a|] == a && s[|a| + 1..] == b
  {
  }

  lemma SplitAtDash(a: string, b: string, c: string, d: string)
    requires AllDigits(a) && AllDigits(c) && a + "-" + b == c + "-" + d
    ensures a == c && b == d
  {
    FirstDash(a, b);
    FirstDash(c, d);
    assert |a| == |c|;
  }

  lemma ItoaInjective(a: nat, b: nat)
    requires Itoa(a) == Itoa(b)
    ensures a == b
  {
    AtoiOfItoa(a);
    AtoiOfItoa(b);
  }

  lemma ReduceNameSplit(job: string, m: nat, r: nat)
    ensures ReduceName(job, m, r) == ("mrtmp." + job + "-") + (Itoa(m) + "-" + Itoa(r))
  {
    var p, a, b := "mrtmp." + job + "-", Itoa(m), Itoa(r);
    assert p + a + "-" + b == p + (a + "-" + b);
  }

  /** No two intermediate files of a job share a name. */
  lemma ReduceNamesDistinct(job: string, m: nat, r: nat, m': nat, r': nat)
    requires ReduceName(job, m, r) == ReduceName(job, m', r')
    ensures m == m' && r == r'
  {
    var p := "mrtmp." + job + "-";
    var a, b := Itoa(m) + "-" + Itoa(r), Itoa(m') + "-" + Itoa(r');
    ReduceNameSplit(job, m, r);
    ReduceNameSplit(job, m', r');
    SamePrefix(p, a, b);
    SplitAtDash(Itoa(m), Itoa(r), Itoa(m'), Itoa(r'));
    ItoaInjective(m, m');
    ItoaInjective(r, r');
  }

  /** No two reduced files of a job share a name. */
  lemma MergeNamesDistinct(job: string, r: nat, r': nat)
    requires MergeName(job, r) == MergeName(job, r')
    ensures r == r'
  {
    var p := "mrtmp." + job + "-res-";
    assert p + Itoa(r) == MergeName(job, r) && p + Itoa(r') == MergeName(job, r');
    SamePrefix(p, Itoa(r), Itoa(r'));
    ItoaInjective(r, r');
  }

  /** An intermediate file, a reduced file and the output of a job never share a name. */
  lemma KindsDistinct(job: string, m: nat, r: nat, r': nat)
    ensures ReduceName(job, m, r) != MergeName(job, r')
    ensures ReduceName(job, m, r) != OutputName(job) && MergeName(job, r') != OutputName(job)
  {
    var i := |"mrtmp." + job + "-"|;
    assert ReduceName(job, m, r)[i] == Itoa(m)[0];
    assert MergeName(job, r')[i] == 'r';
  }

  /** The names as they appear on the disk. */
  lemma NamesOnDisk()
    ensures ReduceName("wcseq", 12, 3) == "mrtmp.wcseq-12-3"
    ensures MergeName("wcseq", 3) == "mrtmp.wcseq-res-3" && OutputName("wcseq") == "mrtmp.wcseq"
  {
    assert NatToString(1) == "1" && NatToString(3) == "3";
    assert NatToString(12) == NatToString(1) + "2";
  }
}
