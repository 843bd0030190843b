/** Paper metadata: `generate_paper_metadata` of simple_experiment.py (the
    copy in experiment.py is identical). The three `random.choice` calls per
    paper arrive as indices into the fixed venue, topic and year lists. */
module Papers {

  datatype Paper = Paper(paperId: string, title: string, venue: string, topic: string, year: int)

  const Venues: seq<string> := ["ICML", "NeurIPS", "ICLR"]
  const Topics: seq<string> := ["Deep Learning", "Reinforcement Learning", "Computer Vision", "NLP", "Theory"]
  const Years: seq<int> := [2022, 2023, 2024]

  /** The outcome of the three `random.choice` calls for one paper. */
  datatype Pick = Pick(venue: nat, topic: nat, year: nat)

  /** `random.choice` only returns elements of the list it is given. */
  predicate ValidPick(p: Pick) {
    p.venue < |Venues| && p.topic < |Topics| && p.year < |Years|
  }

  // ---------------------------------------------------------------------------
  // Decimal formatting, as in `f'{i}'` and `f'{i:03d}'`

  predicate IsDigit(c: char) {
    '0' <= c <= '9'
  }

  function DigitChar(d: nat): (c: char)
    requires d < 10
    ensures IsDigit(c)
  {
    (('0' as int) + d) as char
  }

  function DigitValue(c: char): nat
    requires IsDigit(c)
  {
    (c as int) - ('0' as int)
  }

  /** The decimal numeral of `n`, without leading zeros. */
  function Decimal(n: nat): (s: string)
    ensures 1 <= |s|
    ensures forall i :: 0 <= i < |s| ==> IsDigit(s[i])
    decreases n
  {
    if n < 10 then [DigitChar(n)] else Decimal(n / 10) + [DigitChar(n % 10)]
  }

  /** The value of a string of digits; leading zeros are allowed. */
  function ParseDecimal(s: string): nat
    requires forall i :: 0 <= i < |s| ==> IsDigit(s[i])
    decreases |s|
  {
    if s == [] then 0 else ParseDecimal(s[..|s| - 1]) * 10 + DigitValue(s[|s| - 1])
  }

  /** `width - |s|` zeros in front of `s`, as the `0` fill of a format spec;
      a numeral already as wide is left alone. */
  function ZeroPad(s: string, width: nat): (r: string)
    ensures |s| >= width ==> r == s
    ensures |s| < width ==> |r| == width && r[width - |s|..] == s
    ensures |s| < width ==> forall i :: 0 <= i < width - |s| ==> r[i] == '0'
  {
    if |s| >= width then s else seq(width - |s|, _ => '0') + s
  }

  /** `f'paper_{i:03d}'`. */
  function PaperId(i: nat): string {
    "paper_" + ZeroPad(Decimal(i), 3)
  }

  /** `f'Research Paper {i+1}: Advanced ML Methods'`. */
  function Title(i: nat): string {
    "Research Paper " + Decimal(i + 1) + ": Advanced ML Methods"
  }

  /** Paper `i` of the generated list. */
  function MakePaper(i: nat, pick: Pick): Paper
    requires ValidPick(pick)
  {
    Paper(PaperId(i), Title(i), Venues[pick.venue], Topics[pick.topic], Years[pick.year])
  }

  /** Parsing a numeral gives back its number. */
  lemma {:induction false} ParseDecimalOfDecimal(n: nat)
    ensures ParseDecimal(Decimal(n)) == n
    decreases n
  {
    if n >= 10 {
      var s := Decimal(n);
      ParseDecimalOfDecimal(n / 10);
      assert s[..|s| - 1] == Decimal(n / 10);
    }
  }

  /** Leading zeros do not change the value of a numeral. */
  lemma {:induction false} ParseDecimalLeadingZeros(z: string, s: string)
    requires forall i :: 0 <= i < |z| ==> z[i] == '0'
    requires forall i :: 0 <= i < |s| ==> IsDigit(s[i])
    ensures forall i :: 0 <= i < |z + s| ==> IsDigit((z + s)[i])
    ensures ParseDecimal(z + s) == ParseDecimal(s)
    decreases |z| + |s|
  {
    if s == [] {
      assert z + s == z;
      if z != [] {
        ParseDecimalLeadingZeros(z[..|z| - 1], []);
        assert z[..|z| - 1] + [] == z[..|z| - 1];
      }
    } else {
      var n := |s| - 1;
      ParseDecimalLeadingZeros(z, s[..n]);
      assert (z + s)[..|z + s| - 1] == z + s[..n];
    }
  }

  /** The padded numeral still denotes `i`. */
  lemma ParsePadded(i: nat)
    ensures forall k :: 0 <= k < |ZeroPad(Decimal(i), 3)| ==> IsDigit(ZeroPad(Decimal(i), 3)[k])
    ensures ParseDecimal(ZeroPad(Decimal(i), 3)) == i
  {
    var d := Decimal(i);
    ParseDecimalOfDecimal(i);
    if |d| < 3 {
      var z := seq(3 - |d|, _ => '0');
      assert ZeroPad(d, 3) == z + d;
      ParseDecimalLeadingZeros(z, d);
    }
  }

  /** Different positions get different ids. */
  lemma PaperIdInjective(i: nat, j: nat)
    requires PaperId(i) == PaperId(j)
    ensures i == j
  {
    var p, q := ZeroPad(Decimal(i), 3), ZeroPad(Decimal(j), 3);
    assert PaperId(i)[6..] == p;
    assert PaperId(j)[6..] == q;
    ParsePadded(i);
    ParsePadded(j);
  }

  /** Every id starts with `paper_`, followed by at least three digits. */
  lemma PaperIdShape(i: nat)
    ensures |PaperId(i)| >= 9 && PaperId(i)[..6] == "paper_"
    ensures forall k :: 6 <= k < |PaperId(i)| ==> IsDigit(PaperId(i)[k])
  {
    var p := ZeroPad(Decimal(i), 3);
    ParsePadded(i);
    var id := PaperId(i);
    assert id == "paper_" + p;
    assert |p| >= 3;
    assert id[..6] == "paper_";
    forall k | 6 <= k < |id| ensures IsDigit(id[k]) {
      assert id[k] == p[k - 6];
    }
  }

  /** The list `generate_paper_metadata(n)` returns for the picks `picks`. */
  function PaperList(n: nat, picks: seq<Pick>): (papers: seq<Paper>)
    requires n <= |picks| && forall i :: 0 <= i < n ==> ValidPick(picks[i])
    ensures |papers| == n
  {
    seq(n, i requires 0 <= i < n => MakePaper(i, picks[i]))
  }

  /** `generate_paper_metadata(n_papers)`: the papers in order, paper `i`
      with id `paper_` + `i` padded to three digits, the title naming `i + 1`,
      and venue, topic and year drawn from the fixed lists by `picks[i]`. */
  method GeneratePaperMetadata(nPapers: nat, picks: seq<Pick>) returns (papers: seq<Paper>)
    requires nPapers <= |picks|
    requires forall i :: 0 <= i < nPapers ==> ValidPick(picks[i])
    ensures |papers| == nPapers && papers == PaperList(nPapers, picks)
    ensures forall i :: 0 <= i < nPapers ==> papers[i] == MakePaper(i, picks[i])
    ensures forall i :: 0 <= i < nPapers ==>
      papers[i].paperId == PaperId(i) && papers[i].title == Title(i)
      && papers[i].venue in Venues && papers[i].topic in Topics && papers[i].year in Years
    ensures forall i, j :: 0 <= i < j < nPapers ==> papers[i].paperId != papers[j].paperId
  {
    papers := [];
    var i := 0;
    while i < nPapers
      invariant 0 <= i <= nPapers
      invariant |papers| == i
      invariant forall k :: 0 <= k < i ==> papers[k] == MakePaper(k, picks[k])
    {
      papers := papers + [MakePaper(i, picks[i])];
      i := i + 1;
    }
    forall i, j | 0 <= i < j < nPapers ensures papers[i].paperId != papers[j].paperId {
      if papers[i].paperId == papers[j].paperId {
        PaperIdInjective(i, j);
      }
    }
  }
}
