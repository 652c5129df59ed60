/** Counting the findings of a scan report (`internal/shared/domain/image_scan_report.go`). */
module ScanReports {
  import opened GoStrings
  import opened Severities

  datatype Finding = Finding(id: string, pkg: string, installed: string, fixedVersion: string, severity: string,
                             url: string)

  datatype Target = Target(name: string, kind: string, findings: seq<Finding>)

  datatype SeverityCounts = SeverityCounts(critical: nat, high: nat, medium: nat, low: nat, unknown: nat) {
    function At(rank: nat): nat {
      if rank == 0 then critical else if rank == 1 then high else if rank == 2 then medium else
        if rank == 3 then low else unknown
    }

    function Plus(o: SeverityCounts): SeverityCounts {
      SeverityCounts(critical + o.critical, high + o.high, medium + o.medium, low + o.low, unknown + o.unknown)
    }
  }

  datatype Summary = Summary(all: SeverityCounts, fixable: SeverityCounts, targets: nat)

  /** A finding somebody has fixed. */
  predicate Fixable(f: Finding) {
    !Blank(f.fixedVersion)
  }

  function Findings(report: seq<Target>): seq<Finding> {
    if report == [] then [] else Findings(report[..|report| - 1]) + report[|report| - 1].findings
  }

  /** Marks a finding that is not to be counted. */
  const SKIPPED := 5

  function Buckets(ranks: multiset<nat>): SeverityCounts {
    SeverityCounts(ranks[0], ranks[1], ranks[2], ranks[3], ranks[4])
  }

  function RankIn(f: Finding, fixableOnly: bool): nat {
    if fixableOnly && !Fixable(f) then SKIPPED else CountedAs(f.severity)
  }

  function Map(fs: seq<Finding>, rank: Finding -> nat): seq<nat> {
    seq(|fs|, i requires 0 <= i < |fs| => rank(fs[i]))
  }

  lemma MapJoin(a: seq<Finding>, b: seq<Finding>, rank: Finding -> nat)
    ensures Map(a + b, rank) == Map(a, rank) + Map(b, rank)
  {
  }

  function Reader(fixableOnly: bool): Finding -> nat {
    f => RankIn(f, fixableOnly)
  }

  /** How many findings of each severity; or how many fixable ones. */
  function CountsOf(fs: seq<Finding>, fixableOnly: bool): SeverityCounts {
    Buckets(multiset(Map(fs, Reader(fixableOnly))))
  }

  lemma BucketsJoin(a: seq<nat>, b: seq<nat>)
    ensures Buckets(multiset(a + b)) == Buckets(multiset(a)).Plus(Buckets(multiset(b)))
  {
    assert multiset(a + b) == multiset(a) + multiset(b);
    BucketsAdd(multiset(a), multiset(b));
    hide Buckets;
  }

  lemma BucketsAdd(m: multiset<nat>, n: multiset<nat>)
    ensures Buckets(m + n) == Buckets(m).Plus(Buckets(n))
  {
  }

  /** Counting parts and adding up is counting the whole. */
  lemma CountsJoin(a: seq<Finding>, b: seq<Finding>, fixableOnly: bool)
    ensures CountsOf(a + b, fixableOnly) == CountsOf(a, fixableOnly).Plus(CountsOf(b, fixableOnly))
  {
    MapJoin(a, b, Reader(fixableOnly));
    BucketsJoin(Map(a, Reader(fixableOnly)), Map(b, Reader(fixableOnly)));
  }

  lemma MapOne(f: Finding, rank: Finding -> nat)
    ensures Map([f], rank) == [rank(f)]
  {
  }

  lemma CountsOne(f: Finding, fixableOnly: bool)
    ensures CountsOf([f], fixableOnly) == Buckets(multiset{RankIn(f, fixableOnly)})
  {
    MapOne(f, Reader(fixableOnly));
  }

  /** Going through the findings one by one. */
  lemma CountsSnoc(fs: seq<Finding>, i: nat)
    requires i < |fs|
    ensures CountsOf(fs[..i + 1], false) == CountsOf(fs[..i], false).Plus(Buckets(multiset{CountedAs(fs[i].severity)}))
    ensures CountsOf(fs[..i + 1], true) ==
            if Fixable(fs[i]) then CountsOf(fs[..i], true).Plus(Buckets(multiset{CountedAs(fs[i].severity)}))
              else CountsOf(fs[..i], true)
  {
    hide CountsOf, Buckets, CountedAs;
    assert fs[..i + 1] == fs[..i] + [fs[i]];
    SkippedAddsNothing(CountsOf(fs[..i], true));
    CountsJoin(fs[..i], [fs[i]], false);
    CountsJoin(fs[..i], [fs[i]], true);
    CountsOne(fs[i], false);
    CountsOne(fs[i], true);
  }

  lemma SkippedAddsNothing(c: SeverityCounts)
    ensures c.Plus(Buckets(multiset{SKIPPED})) == c
  {
  }

  predicate Counted(f: Finding, rank: nat, fixableOnly: bool) {
    CountedAs(f.severity) == rank && (fixableOnly ==> Fixable(f))
  }

  /** A bucket is not empty exactly if a finding belongs in it. */
  lemma CountedIff(fs: seq<Finding>, rank: nat, fixableOnly: bool)
    requires rank <= UNKNOWN_RANK
    ensures CountsOf(fs, fixableOnly).At(rank) > 0 <==> exists i :: 0 <= i < |fs| && Counted(fs[i], rank, fixableOnly)
  {
    BucketAt(Map(fs, Reader(fixableOnly)), rank);
    RankIff(fs, rank, fixableOnly);
  }

  lemma BucketAt(ranks: seq<nat>, rank: nat)
    requires rank <= UNKNOWN_RANK
    ensures Buckets(multiset(ranks)).At(rank) > 0 <==> rank in ranks
  {
    assert rank in ranks <==> rank in multiset(ranks);
  }

  lemma RankIff(fs: seq<Finding>, rank: nat, fixableOnly: bool)
    requires rank <= UNKNOWN_RANK
    ensures rank in Map(fs, Reader(fixableOnly)) <==> exists i :: 0 <= i < |fs| && Counted(fs[i], rank, fixableOnly)
  {
    var ranks := Map(fs, Reader(fixableOnly));
    forall i: nat | i < |fs|
      ensures ranks[i] == rank <==> Counted(fs[i], rank, fixableOnly) { ReadAt(fs, rank, fixableOnly, i); }
    hide Counted, Reader;
    if rank in ranks {
      var i :| 0 <= i < |ranks| && ranks[i] == rank;
    }
  }

  lemma ReadAt(fs: seq<Finding>, rank: nat, fixableOnly: bool, i: nat)
    requires i < |fs| && rank <= UNKNOWN_RANK
    ensures Map(fs, Reader(fixableOnly))[i] == rank <==> Counted(fs[i], rank, fixableOnly)
  {
  }

  // ---- the counting loop -----------------------------------------------------------------------------------

  class Tally {
    var critical: nat
    var high: nat
    var medium: nat
    var low: nat
    var unknown: nat

    function Counts(): SeverityCounts
      reads this
    {
      SeverityCounts(critical, high, medium, low, unknown)
    }

    constructor ()
      ensures Counts() == SeverityCounts(0, 0, 0, 0, 0)
    {
      critical, high, medium, low, unknown := 0, 0, 0, 0, 0;
    }

    method Add(severity: string)
      modifies this
      ensures Counts() == old(Counts()).Plus(Buckets(multiset{CountedAs(severity)}))
    {
      hide CountedAs;
      var rank := CountedAs(severity);
      match rank {
        case 0 => critical := critical + 1;
        case 1 => high := high + 1;
        case 2 => medium := medium + 1;
        case 3 => low := low + 1;
        case _ => unknown := unknown + 1;
      }
    }
  }

  lemma PlusAssociates(a: SeverityCounts, b: SeverityCounts, c: SeverityCounts)
    ensures a.Plus(b).Plus(c) == a.Plus(b.Plus(c))
  {
  }

  function Unit(f: Finding): SeverityCounts {
    Buckets(multiset{CountedAs(f.severity)})
  }

  method CountFinding(f: Finding, all: Tally, fixable: Tally)
    requires all != fixable
    modifies all, fixable
    ensures all.Counts() == old(all.Counts()).Plus(Unit(f))
    ensures fixable.Counts() == if Fixable(f) then old(fixable.Counts()).Plus(Unit(f)) else old(fixable.Counts())
  {
    all.Add(f.severity);
    if !Blank(f.fixedVersion) { fixable.Add(f.severity); }
  }

  lemma CountsTaken(start: SeverityCounts, fs: seq<Finding>, i: nat)
    requires i < |fs|
    ensures start.Plus(CountsOf(fs[..i], false)).Plus(Unit(fs[i])) == start.Plus(CountsOf(fs[..i + 1], false))
    ensures (if Fixable(fs[i]) then start.Plus(CountsOf(fs[..i], true)).Plus(Unit(fs[i]))
             else start.Plus(CountsOf(fs[..i], true)))
         == start.Plus(CountsOf(fs[..i + 1], true))
  {
    CountsSnoc(fs, i);
    PlusAssociates(start, CountsOf(fs[..i], false), Unit(fs[i]));
    PlusAssociates(start, CountsOf(fs[..i], true), Unit(fs[i]));
  }

  method CountFindings(fs: seq<Finding>, all: Tally, fixable: Tally)
    requires all != fixable
    modifies all, fixable
    ensures all.Counts() == old(all.Counts()).Plus(CountsOf(fs, false))
    ensures fixable.Counts() == old(fixable.Counts()).Plus(CountsOf(fs, true))
  {
    for i := 0 to |fs|
      invariant all.Counts() == old(all.Counts()).Plus(CountsOf(fs[..i], false))
      invariant fixable.Counts() == old(fixable.Counts()).Plus(CountsOf(fs[..i], true))
    {
      CountsTaken(old(all.Counts()), fs, i);
      CountsTaken(old(fixable.Counts()), fs, i);
      CountFinding(fs[i], all, fixable);
    }
    assert fs[..|fs|] == fs;
  }

  method ParseTrivyReport(report: seq<Target>) returns (s: Summary)
    ensures s == Summary(CountsOf(Findings(report), false), CountsOf(Findings(report), true), |report|)
  {
    var all := new Tally();
    var fixable := new Tally();
    assert CountsOf(Findings(report[..0]), false) == CountsOf(Findings(report[..0]), true) == all.Counts();
    hide CountsOf;
    for i := 0 to |report|
      invariant fresh(all) && fresh(fixable) && all != fixable
      invariant all.Counts() == CountsOf(Findings(report[..i]), false)
      invariant fixable.Counts() == CountsOf(Findings(report[..i]), true)
    {
      assert report[..i + 1][..i] == report[..i];
      CountsJoin(Findings(report[..i]), report[i].findings, false);
      CountsJoin(Findings(report[..i]), report[i].findings, true);
      CountFindings(report[i].findings, all, fixable);
    }
    assert report[..|report|] == report;
    s := Summary(all.Counts(), fixable.Counts(), |report|);
  }
}
