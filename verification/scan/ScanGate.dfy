/** The gate on scan results: the policy (`internal/cicd/domain/scan_policy.go`), its verdict on a report
    (`internal/cicd/domain/image_scan.go`), and how that is squared with what CI decided
    (`internal/cicd/domain/image_scan_gate.go`). */
module ScanGate {
  import opened Wrappers
  import opened GoStrings
  import opened Severities
  import opened ScanReports

  /** What a policy says about severities. */
  datatype Policy = Policy(blockSeverity: string, ignoreUnfixed: bool)

  datatype GateResult = Pass | Warn | Block | GateError

  /** The rank that blocks; a severity that is none of the four reads as CRITICAL. */
  function BlockRank(p: Policy): (r: nat)
    ensures r < UNKNOWN_RANK
    ensures p.blockSeverity in ORDER ==> ORDER[r] == p.blockSeverity
    ensures p.blockSeverity !in ORDER ==> ORDER[r] == "CRITICAL"
  {
    var r := Index(p.blockSeverity, ORDER);
    if r < UNKNOWN_RANK then r else 0
  }

  // ---- what CI is told --------------------------------------------------------------------------------------

  function Join(parts: seq<string>): string {
    if parts == [] then "" else if |parts| == 1 then parts[0] else parts[0] + "," + Join(parts[1..])
  }

  function Split(s: string): (parts: seq<string>)
    ensures parts != []
  {
    if s == "" then [""]
    else if s[0] == ',' then [""] + Split(s[1..])
    else var rest := Split(s[1..]); [[s[0]] + rest[0]] + rest[1..]
  }

  lemma {:induction false} SplitPart(part: string, rest: string)
    requires ',' !in part
    ensures Split(part + "," + rest) == [part] + Split(rest)
  {
    if part == "" {
      assert part + "," + rest == "," + rest;
      assert ("," + rest)[1..] == rest;
    } else {
      SplitPart(part[1..], rest);
      assert (part + "," + rest)[1..] == part[1..] + "," + rest;
      assert [part[0]] + part[1..] == part;
      assert ([part[1..]] + Split(rest))[1..] == Split(rest);
    }
  }

  lemma {:induction false} SplitAlone(part: string)
    requires ',' !in part
    ensures Split(part) == [part]
  {
    if part != "" {
      SplitAlone(part[1..]);
      assert [part[0]] + part[1..] == part;
    }
  }

  lemma {:induction false} SplitJoin(parts: seq<string>)
    requires parts != [] && forall i | 0 <= i < |parts| :: ',' !in parts[i]
    ensures Split(Join(parts)) == parts
  {
    if |parts| == 1 {
      SplitAlone(parts[0]);
    } else {
      SplitPart(parts[0], Join(parts[1..]));
      SplitJoin(parts[1..]);
    }
  }

  /** From the blocking severity up to the most severe. */
  function Listed(block: nat): seq<string>
    requires block < UNKNOWN_RANK
  {
    seq(block + 1, i requires 0 <= i <= block => ORDER[block - i])
  }

  /** The severities CI's scanner is told to fail on, as one argument. */
  method TrivySeverities(p: Policy) returns (argument: string)
    ensures argument == Join(Listed(BlockRank(p)))
  {
    var parts: seq<string> := [];
    var i: int := BlockRank(p);
    while i >= 0
      invariant -1 <= i <= BlockRank(p)
      invariant parts == Listed(BlockRank(p))[..BlockRank(p) - i]
    {
      parts := parts + [ORDER[i]];
      i := i - 1;
    }
    assert Listed(BlockRank(p))[..BlockRank(p) + 1] == Listed(BlockRank(p));
    argument := Join(parts);
  }

  lemma NoCommas()
    ensures forall r | 0 <= r < UNKNOWN_RANK :: ',' !in ORDER[r]
  {
    forall r, k | 0 <= r < UNKNOWN_RANK && 0 <= k < |ORDER[r]| ensures ORDER[r][k] != ',' {
      OrdersCorrespond();
      assert Cases(ORDER[r], LIST_ORDER[r]);
    }
  }

  /** Read back as a list, the argument names every severity from the blocking one up, and no other word. */
  lemma ListedIff(p: Policy, word: string)
    ensures word in Split(Join(Listed(BlockRank(p)))) <==> Index(word, ORDER) <= BlockRank(p)
  {
    var block := BlockRank(p);
    NoCommas();
    SplitJoin(Listed(block));
    if Index(word, ORDER) <= block { assert Listed(block)[block - Index(word, ORDER)] == word; }
    if word in Listed(block) {
      var i :| 0 <= i <= block && Listed(block)[i] == word;
      FirstPlace(ORDER, block - i);
    }
  }

  lemma {:induction false} FirstPlace(names: seq<string>, i: nat)
    requires i < |names|
    ensures Index(names[i], names) <= i
  {
    if i > 0 && names[0] != names[i] { FirstPlace(names[1..], i - 1); }
  }

  /** CI fails on a finding whose severity is in the argument; unfixed ones count only if they are not ignored. */
  ghost predicate Trips(f: Finding, p: Policy) {
    ToUpper(TrimSpace(f.severity)) in Split(Join(Listed(BlockRank(p)))) && (p.ignoreUnfixed ==> Fixable(f))
  }

  ghost predicate CIFails(report: seq<Target>, p: Policy) {
    exists i :: 0 <= i < |Findings(report)| && Trips(Findings(report)[i], p)
  }

  // ---- the platform's verdict ---------------------------------------------------------------------------------

  function Judged(s: Summary, p: Policy): SeverityCounts {
    if p.ignoreUnfixed then s.fixable else s.all
  }

  predicate BlocksUpTo(c: SeverityCounts, rank: nat) {
    exists r :: 0 <= r <= rank && c.At(r) > 0
  }

  function VerdictAt(counts: SeverityCounts, block: nat): GateResult
    requires block < UNKNOWN_RANK
  {
    if BlocksUpTo(counts, block) then Block
    else if block + 1 < UNKNOWN_RANK && counts.At(block + 1) > 0 then Warn
    else Pass
  }

  function Verdict(s: Summary, p: Policy): GateResult {
    VerdictAt(Judged(s, p), BlockRank(p))
  }

  method EvaluateGate(s: Option<Summary>, p: Policy) returns (r: GateResult)
    ensures r == if s.None? then GateError else Verdict(s.value, p)
  {
    if s.None? { return GateError; }
    var counts := s.value.all;
    if p.ignoreUnfixed { counts := s.value.fixable; }
    var block := BlockRank(p);
    for i := 0 to block + 1
      invariant forall r | 0 <= r < i :: counts.At(r) == 0
    {
      if counts.At(i) > 0 { return Block; }
    }
    if block + 1 < UNKNOWN_RANK && counts.At(block + 1) > 0 { return Warn; }
    return Pass;
  }

  function SummaryOf(report: seq<Target>): Summary {
    Summary(CountsOf(Findings(report), false), CountsOf(Findings(report), true), |report|)
  }

  ghost predicate AnyOf(fs: seq<Finding>, which: Finding -> bool) {
    exists i :: 0 <= i < |fs| && which(fs[i])
  }

  ghost function Of(rank: nat, fixableOnly: bool): Finding -> bool {
    f => Counted(f, rank, fixableOnly)
  }

  ghost predicate Holds(report: seq<Target>, rank: nat, fixableOnly: bool) {
    AnyOf(Findings(report), Of(rank, fixableOnly))
  }

  ghost predicate HoldsUpTo(report: seq<Target>, rank: nat, fixableOnly: bool) {
    exists r: nat :: r <= rank && Holds(report, r, fixableOnly)
  }

  lemma JudgedIff(report: seq<Target>, p: Policy, r: nat)
    requires r <= UNKNOWN_RANK
    ensures Judged(SummaryOf(report), p).At(r) > 0 <==> Holds(report, r, p.ignoreUnfixed)
  {
    CountedIff(Findings(report), r, p.ignoreUnfixed);
    if i :| 0 <= i < |Findings(report)| && Counted(Findings(report)[i], r, p.ignoreUnfixed) {
      assert Of(r, p.ignoreUnfixed)(Findings(report)[i]);
    }
  }

  lemma BlocksIff(report: seq<Target>, p: Policy, rank: nat)
    requires rank < UNKNOWN_RANK
    ensures BlocksUpTo(Judged(SummaryOf(report), p), rank) <==> HoldsUpTo(report, rank, p.ignoreUnfixed)
  {
    var counts := Judged(SummaryOf(report), p);
    if r :| 0 <= r <= rank && counts.At(r) > 0 { JudgedIff(report, p, r); }
    if r: nat :| r <= rank && Holds(report, r, p.ignoreUnfixed) {
      JudgedIff(report, p, r);
      assert counts.At(r) > 0;
    }
  }

  /** The verdict in terms of the findings. */
  lemma VerdictIff(report: seq<Target>, p: Policy)
    ensures Verdict(SummaryOf(report), p) == Block <==> HoldsUpTo(report, BlockRank(p), p.ignoreUnfixed)
    ensures Verdict(SummaryOf(report), p) == Warn <==>
            !HoldsUpTo(report, BlockRank(p), p.ignoreUnfixed) && BlockRank(p) + 1 < UNKNOWN_RANK
              && Holds(report, BlockRank(p) + 1, p.ignoreUnfixed)
  {
    BlocksIff(report, p, BlockRank(p));
    JudgedIff(report, p, BlockRank(p) + 1);
  }

  lemma TripsIff(f: Finding, p: Policy)
    ensures Trips(f, p) <==> CountedAs(f.severity) <= BlockRank(p) && Counted(f, CountedAs(f.severity), p.ignoreUnfixed)
  {
    ListedIff(p, ToUpper(TrimSpace(f.severity)));
  }

  /** The platform blocks exactly the reports CI fails on. */
  lemma AgreesWithCI(report: seq<Target>, p: Policy)
    ensures Verdict(SummaryOf(report), p) == Block <==> CIFails(report, p)
  {
    VerdictIff(report, p);
    hide Trips, CountedAs, BlockRank, SummaryOf, Verdict;
    if r: nat :| r <= BlockRank(p) && Holds(report, r, p.ignoreUnfixed) {
      var i :| 0 <= i < |Findings(report)| && Of(r, p.ignoreUnfixed)(Findings(report)[i]);
      TripsIff(Findings(report)[i], p);
    }
    if i :| 0 <= i < |Findings(report)| && Trips(Findings(report)[i], p) {
      TripsIff(Findings(report)[i], p);
      assert Of(CountedAs(Findings(report)[i].severity), p.ignoreUnfixed)(Findings(report)[i]);
      assert Holds(report, CountedAs(Findings(report)[i].severity), p.ignoreUnfixed);
    }
  }

  // ---- the verdict never softens ------------------------------------------------------------------------------

  function Hardness(r: GateResult): nat {
    match r case Pass => 0 case Warn => 1 case Block => 2 case GateError => 3
  }

  /** Whatever severity is counted on the left is counted on the right. */
  ghost predicate Fewer(less: SeverityCounts, more: SeverityCounts) {
    forall r: nat | r <= UNKNOWN_RANK :: less.At(r) > 0 ==> more.At(r) > 0
  }

  lemma FewerIsSofter(less: SeverityCounts, more: SeverityCounts, block: nat)
    requires Fewer(less, more) && block < UNKNOWN_RANK
    ensures Hardness(VerdictAt(less, block)) <= Hardness(VerdictAt(more, block))
  {
    if r :| 0 <= r <= block && less.At(r) > 0 { assert more.At(r) > 0; }
  }

  lemma MoreCounted(less: seq<Finding>, more: seq<Finding>, rank: Finding -> nat)
    requires forall f | f in less :: f in more
    ensures Fewer(Buckets(multiset(Map(less, rank))), Buckets(multiset(Map(more, rank))))
  {
    var l, m := Map(less, rank), Map(more, rank);
    forall r: nat | r <= UNKNOWN_RANK && Buckets(multiset(l)).At(r) > 0 ensures Buckets(multiset(m)).At(r) > 0 {
      BucketAt(l, r);
      BucketAt(m, r);
      var i :| 0 <= i < |l| && l[i] == r;
      assert less[i] in more;
      var j :| 0 <= j < |more| && more[j] == less[i];
      assert m[j] == r;
    }
  }

  lemma SkippingCounts(fs: seq<Finding>, some: Finding -> nat, all: Finding -> nat)
    requires forall f :: some(f) == all(f) || some(f) == SKIPPED
    ensures Fewer(Buckets(multiset(Map(fs, some))), Buckets(multiset(Map(fs, all))))
  {
    var l, m := Map(fs, some), Map(fs, all);
    forall r: nat | r <= UNKNOWN_RANK && Buckets(multiset(l)).At(r) > 0 ensures Buckets(multiset(m)).At(r) > 0 {
      BucketAt(l, r);
      BucketAt(m, r);
      var i :| 0 <= i < |l| && l[i] == r;
      assert m[i] == r;
    }
  }

  /** More findings never soften a verdict. */
  lemma MoreFindingsHarden(less: seq<Target>, more: seq<Target>, p: Policy)
    requires forall f | f in Findings(less) :: f in Findings(more)
    ensures Hardness(Verdict(SummaryOf(less), p)) <= Hardness(Verdict(SummaryOf(more), p))
  {
    MoreCounted(Findings(less), Findings(more), Reader(p.ignoreUnfixed));
    FewerIsSofter(Judged(SummaryOf(less), p), Judged(SummaryOf(more), p), BlockRank(p));
  }

  /** Neither does blocking at a lower severity. */
  lemma LowerSeverityHardens(s: Summary, p: Policy, q: Policy)
    requires BlockRank(p) <= BlockRank(q) && p.ignoreUnfixed == q.ignoreUnfixed
    ensures Hardness(Verdict(s, p)) <= Hardness(Verdict(s, q))
  {
    LowerIsHarder(Judged(s, p), BlockRank(p), BlockRank(q));
  }

  lemma LowerIsHarder(counts: SeverityCounts, block: nat, lower: nat)
    requires block <= lower < UNKNOWN_RANK
    ensures Hardness(VerdictAt(counts, block)) <= Hardness(VerdictAt(counts, lower))
  {
    if r :| 0 <= r <= block && counts.At(r) > 0 { assert BlocksUpTo(counts, lower); }
    if block < lower && counts.At(block + 1) > 0 { assert BlocksUpTo(counts, lower); }
  }

  /** And ignoring what nobody has fixed never hardens one. */
  lemma IgnoringSoftens(report: seq<Target>, p: Policy)
    ensures Hardness(Verdict(SummaryOf(report), p.(ignoreUnfixed := true))) <= Hardness(Verdict(SummaryOf(report),
        p.(ignoreUnfixed := false)))
  {
    ReadersSkip();
    SkippingCounts(Findings(report), Reader(true), Reader(false));
    FewerIsSofter(SummaryOf(report).fixable, SummaryOf(report).all, BlockRank(p));
  }

  lemma ReadersSkip()
    ensures forall f :: Reader(true)(f) == Reader(false)(f) || Reader(true)(f) == SKIPPED
  {
  }

  // ---- squaring the stage with the report -----------------------------------------------------------------------

  const SUCCESS := "success"
  const FAILED := "failed"

  function GateResultFromStageStatus(status: string): Option<GateResult> {
    var s := ToLower(TrimSpace(status));
    if s == SUCCESS then Some(Pass) else if s == FAILED then Some(Block) else None
  }

  function GateFromStageAndReport(status: string, report: Option<Summary>, p: Policy): Option<GateResult> {
    match GateResultFromStageStatus(status)
    case None => None
    case Some(fromStage) =>
      if report == None then Some(fromStage)
      else Some(Squared(fromStage, Verdict(report.value, p)))
  }

  /** The status of a stage, trimmed, spells this word, in whatever case. */
  ghost predicate StageSays(status: string, word: string) {
    Spells(TrimSpace(status), word, ReadsLower)
  }

  /** A stage that says success passes, one that says failed blocks, and any other shows no gate. */
  lemma StageIff(status: string)
    ensures GateResultFromStageStatus(status) == Some(Pass) <==> StageSays(status, "success")
    ensures GateResultFromStageStatus(status) == Some(Block) <==> StageSays(status, "failed")
    ensures GateResultFromStageStatus(status) in {Some(Pass), Some(Block), None}
    ensures !(StageSays(status, "success") && StageSays(status, "failed"))
  {
    hide ToLower, TrimSpace, Spells;
    assert |"success"| == 7 && |"failed"| == 6;
    SmallWords();
    LowerSpells(TrimSpace(status), "success");
    LowerSpells(TrimSpace(status), "failed");
  }

  lemma SmallWords()
    ensures forall word, c | word in ["success", "failed"] && c in word ::
              !('A' <= c <= 'Z') && c != '\U{130}' && c != '\U{212a}'
  {
  }

  /** Without a report the gate is what the stage says. */
  lemma StageAlone(status: string, p: Policy)
    ensures GateFromStageAndReport(status, None, p) == Some(Pass) <==> StageSays(status, "success")
    ensures GateFromStageAndReport(status, None, p) == Some(Block) <==> StageSays(status, "failed")
  {
    StageIff(status);
    hide GateResultFromStageStatus, StageSays;
  }

  /** How CI's stage ends under its policy, when its scanner works. */
  ghost predicate StageEnds(status: string, report: seq<Target>, p: Policy) {
    StageSays(status, if CIFails(report, p) then "failed" else "success")
  }

  lemma StageFrom(status: string, report: seq<Target>, p: Policy)
    requires StageEnds(status, report, p)
    ensures GateResultFromStageStatus(status) == Some(if CIFails(report, p) then Block else Pass)
  {
    StageIff(status);
    hide GateResultFromStageStatus, StageSays, CIFails;
  }

  /** Judged by CI and by the platform under one policy, the gate shows the platform's verdict unchanged. */
  lemma SamePolicySameGate(status: string, report: seq<Target>, p: Policy)
    requires StageEnds(status, report, p)
    ensures GateFromStageAndReport(status, Some(SummaryOf(report)), p) == Some(Verdict(SummaryOf(report), p))
  {
    StageFrom(status, report, p);
    AgreesWithCI(report, p);
    hide GateResultFromStageStatus, StageEnds, CIFails, Verdict, SummaryOf;
  }

  /** What the gate shows of a finished stage, from the stage's result and the verdict. */
  function Squared(fromStage: GateResult, verdict: GateResult): GateResult {
    if fromStage == Pass then if verdict == Block then Warn else verdict
    else if verdict == Block then Block else GateError
  }

  lemma GateSquares(status: string, s: Summary, p: Policy, fromStage: GateResult)
    requires GateResultFromStageStatus(status) == Some(fromStage)
    ensures GateFromStageAndReport(status, Some(s), p) == Some(Squared(fromStage, Verdict(s, p)))
  {
  }

  /** When the policy has changed since CI ran, the gate shows an error exactly if CI failed on a report the policy
      would not block now, blocks exactly what both fail, and warns of what CI let through but should not now. */
  lemma ChangedPolicyGate(status: string, report: seq<Target>, was: Policy, now: Policy) returns (gate: GateResult)
    requires StageEnds(status, report, was)
    ensures GateFromStageAndReport(status, Some(SummaryOf(report)), now) == Some(gate)
    ensures gate == GateError <==> CIFails(report, was) && !CIFails(report, now)
    ensures gate == Block <==> CIFails(report, was) && CIFails(report, now)
    ensures !CIFails(report, was) && CIFails(report, now) ==> gate == Warn
    ensures !CIFails(report, was) && !CIFails(report, now) ==> gate == Verdict(SummaryOf(report), now)
  {
    var verdict := Verdict(SummaryOf(report), now);
    var fromStage := if CIFails(report, was) then Block else Pass;
    gate := Squared(fromStage, verdict);
    StageFrom(status, report, was);
    GateSquares(status, SummaryOf(report), now, fromStage);
    AgreesWithCI(report, now);
  }

  /** A failed stage whose report holds nothing to fail on: the scanner failed, and the gate says so. */
  lemma FailedWithoutFindings(status: string, report: seq<Target>, p: Policy)
    requires StageSays(status, "failed")
    ensures GateFromStageAndReport(status, Some(SummaryOf(report)), p) == Some(GateError) <==> !CIFails(report, p)
  {
    StageIff(status);
    GateSquares(status, SummaryOf(report), p, Block);
    AgreesWithCI(report, p);
  }
}
