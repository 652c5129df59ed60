/** The retention rule over the runs as they come and the times they were made at: no list of candidates, no order, no
    positions. */
module RetentionByTime {
  import opened Sorting
  import opened Sums
  import opened BackupRuns
  import opened Retention
  import opened RetentionLaws

  /** A run that has artifacts: it succeeded, at least in part. */
  predicate Stored(r: RunSummary) {
    r.status == Succeeded || r.status == Partial
  }

  predicate Newer(runs: seq<RunSummary>, s: RunSummary, r: RunSummary) {
    s in runs && Stored(s) && s.createdAt > r.createdAt
  }

  ghost predicate Newest(runs: seq<RunSummary>, r: RunSummary) {
    forall s | s in runs && Stored(s) :: s.createdAt <= r.createdAt
  }

  /** The newest run of its bucket, in one of the first `limit` buckets counted from now backwards. */
  predicate NewestOfBucket(runs: seq<RunSummary>, limit: int, key: int -> string, r: RunSummary) {
    && (forall s | s in runs && Stored(s) && key(s.createdAt) == key(r.createdAt) :: s.createdAt <= r.createdAt)
    && |set s | s in runs && Newer(runs, s, r) :: key(s.createdAt)| < limit
  }

  ghost predicate ByRule(p: Policy, cal: Calendar, runs: seq<RunSummary>, r: RunSummary) {
    || Newest(runs, r)
    || NewestOfBucket(runs, p.daily, cal.day, r)
    || NewestOfBucket(runs, p.weekly, cal.week, r)
    || NewestOfBucket(runs, p.monthly, cal.month, r)
  }

  /** What a run weighs among those that a rule keeps and that are newer than r. */
  ghost function BytesBefore(p: Policy, cal: Calendar, runs: seq<RunSummary>, r: RunSummary): RunSummary -> int {
    s => if Newer(runs, s, r) && ByRule(p, cal, runs, s) then s.totalBytes else 0
  }

  ghost predicate KeptByTime(p: Policy, cal: Calendar, runs: seq<RunSummary>, r: RunSummary) {
    && ByRule(p, cal, runs, r)
    && (Newest(runs, r) || p.maxTotalBytes <= 0
        || SumBy(runs, BytesBefore(p, cal, runs, r)) + r.totalBytes <= p.maxTotalBytes)
  }

  // ---- positions and times ------------------------------------------------------------------------------------

  /** Different runs were made at different times, and have different IDs. */
  ghost predicate Distinct(runs: seq<RunSummary>) {
    forall i, j | 0 <= i < j < |runs| && Stored(runs[i]) && Stored(runs[j]) ::
      runs[i].createdAt != runs[j].createdAt && runs[i].id != runs[j].id
  }

  lemma {:induction false} StoredAmong(runs: seq<RunSummary>, r: RunSummary)
    ensures r in WithArtifacts(runs) <==> r in runs && Stored(r)
  {
    if runs != [] {
      assert runs == runs[..|runs| - 1] + [runs[|runs| - 1]];
      StoredAmong(runs[..|runs| - 1], r);
    }
  }

  lemma {:induction false} StoredDistinct(runs: seq<RunSummary>)
    requires Distinct(runs)
    ensures DistinctTimes(WithArtifacts(runs)) && DistinctIds(WithArtifacts(runs))
  {
    if runs != [] {
      var init, last := runs[..|runs| - 1], runs[|runs| - 1];
      StoredDistinct(init);
      forall s | Stored(last) && s in WithArtifacts(init) ensures s.createdAt != last.createdAt && s.id != last.id {
        StoredAmong(init, s);
        var i :| 0 <= i < |init| && init[i] == s;
        assert runs[i] == s;
      }
    }
  }

  lemma Multiplicity(xs: seq<RunSummary>, i: nat, j: nat)
    requires i < j < |xs| && xs[i] == xs[j]
    ensures multiset(xs)[xs[i]] >= 2
  {
    assert xs == xs[..j] + xs[j..];
    assert xs[i] == xs[..j][i] && xs[j] == xs[j..][0];
    assert xs[i] in multiset(xs[..j]) && xs[i] in multiset(xs[j..]);
  }

  lemma {:induction false} OnceEach(xs: seq<RunSummary>, x: RunSummary)
    requires DistinctIds(xs)
    ensures multiset(xs)[x] <= 1
  {
    if xs != [] {
      var init, last := xs[..|xs| - 1], xs[|xs| - 1];
      assert xs == init + [last];
      OnceEach(init, x);
      forall y | y in init ensures y.id != last.id {
        var i :| 0 <= i < |init| && init[i] == y;
        assert xs[i] == y;
      }
    }
  }

  /** What is needed of the list of candidates: the stored runs, each once, from the newest to the oldest. */
  ghost predicate Ranked(runs: seq<RunSummary>, c: seq<RunSummary>) {
    && (forall r :: r in c <==> r in runs && Stored(r))
    && (forall i, j | 0 <= i < j < |c| :: c[i].createdAt > c[j].createdAt)
  }

  lemma CandidatesAmong(runs: seq<RunSummary>, r: RunSummary)
    ensures r in Candidates(runs) <==> r in runs && Stored(r)
  {
    StoredAmong(runs, r);
    assert r in multiset(Candidates(runs)) <==> r in multiset(WithArtifacts(runs));
  }

  /** What was distinct is distinct in any order. */
  lemma StillDistinct(w: seq<RunSummary>, c: seq<RunSummary>, i: nat, j: nat)
    requires multiset(w) == multiset(c) && DistinctTimes(w) && DistinctIds(w) && i < j < |c|
    ensures c[i].createdAt != c[j].createdAt && c[i].id != c[j].id
  {
    if c[i] == c[j] {
      Multiplicity(c, i, j);
      OnceEach(w, c[i]);
    }
    assert c[i] in multiset(w) && c[j] in multiset(w);
    var a, b :| 0 <= a < |w| && 0 <= b < |w| && w[a] == c[i] && w[b] == c[j];
    assert a < b || b < a;
  }

  lemma CandidatesRanked(runs: seq<RunSummary>)
    requires Distinct(runs)
    ensures Ranked(runs, Candidates(runs)) && DistinctIds(Candidates(runs)) && DistinctTimes(Candidates(runs))
  {
    var w, c := WithArtifacts(runs), Candidates(runs);
    SortSorted(w, NewestFirst);
    StoredDistinct(runs);
    hide SortBy, WithArtifacts;
    forall r ensures r in c <==> r in runs && Stored(r) { CandidatesAmong(runs, r); }
    forall i, j | 0 <= i < j < |c| ensures c[i].createdAt > c[j].createdAt && c[i].id != c[j].id {
      assert NewestFirst(c[i], c[j]);
      StillDistinct(w, c, i, j);
    }
  }

  // ---- the rules by time -----------------------------------------------------------------------------------

  lemma NewerAbove(runs: seq<RunSummary>, c: seq<RunSummary>, i: nat, s: RunSummary)
    requires Ranked(runs, c) && i < |c|
    ensures Newer(runs, s, c[i]) <==> exists j :: 0 <= j < i && c[j] == s
    ensures Newest(runs, c[i]) <==> i == 0
  {
    if Newer(runs, s, c[i]) {
      assert s in c;
      var j :| 0 <= j < |c| && c[j] == s;
      assert j < i;
    }
    if i > 0 { assert c[0] in c && c[0].createdAt > c[i].createdAt; }
  }

  lemma ChosenByTime(runs: seq<RunSummary>, c: seq<RunSummary>, limit: int, key: int -> string, i: nat)
    requires Ranked(runs, c) && i < |c|
    ensures NewestOfBucket(runs, limit, key, c[i]) <==> Chosen(c, limit, key, i)
  {
    var r := c[i];
    var newer := set s | s in runs && Newer(runs, s, r) :: key(s.createdAt);
    forall s ensures Newer(runs, s, r) <==> exists j :: 0 <= j < i && c[j] == s { NewerAbove(runs, c, i, s); }
    assert newer == Keys(c, key, i) by {
      forall k | k in newer ensures k in Keys(c, key, i) {
        var s :| s in runs && Newer(runs, s, r) && key(s.createdAt) == k;
        var j :| 0 <= j < i && c[j] == s;
      }
      forall k | k in Keys(c, key, i) ensures k in newer {
        var j :| 0 <= j < i && key(c[j].createdAt) == k;
        assert Newer(runs, c[j], r) && c[j] in c;
      }
    }
    if key(r.createdAt) in newer {
      var s :| s in runs && Newer(runs, s, r) && key(s.createdAt) == key(r.createdAt);
    }
  }

  lemma RuleByTime(p: Policy, cal: Calendar, runs: seq<RunSummary>, c: seq<RunSummary>, i: nat)
    requires Ranked(runs, c) && i < |c|
    ensures ByRule(p, cal, runs, c[i]) <==> BucketKept(p, cal, c, i)
  {
    NewerAbove(runs, c, i, c[i]);
    ChosenByTime(runs, c, p.daily, cal.day, i);
    ChosenByTime(runs, c, p.weekly, cal.week, i);
    ChosenByTime(runs, c, p.monthly, cal.month, i);
  }

  // ---- bytes --------------------------------------------------------------------------------------------------

  lemma {:induction false} OnlyStoredWeigh(runs: seq<RunSummary>, f: RunSummary -> int)
    requires forall s | !Stored(s) :: f(s) == 0
    ensures SumBy(runs, f) == SumBy(WithArtifacts(runs), f)
  {
    if runs != [] {
      var init, last := runs[..|runs| - 1], runs[|runs| - 1];
      OnlyStoredWeigh(init, f);
      if Stored(last) {
        SumSnoc(WithArtifacts(init), last, f);
      } else {
        assert WithArtifacts(runs) == WithArtifacts(init);
      }
    }
  }

  lemma {:induction false} WeighUpTo(c: seq<RunSummary>, flags: seq<bool>, f: RunSummary -> int, i: nat, n: nat)
    requires n <= |c| == |flags| && i <= |c|
    requires forall j | 0 <= j < |c| :: f(c[j]) == if j < i && flags[j] then c[j].totalBytes else 0
    ensures SumBy(c[..n], f) == KeptBytes(c, flags, if n < i then n else i)
  {
    if n > 0 {
      WeighUpTo(c, flags, f, i, n - 1);
      assert c[..n] == c[..n - 1] + [c[n - 1]];
      SumSnoc(c[..n - 1], c[n - 1], f);
    }
  }

  lemma BytesByTime(p: Policy, cal: Calendar, runs: seq<RunSummary>, i: nat)
    requires Distinct(runs) && i < |Candidates(runs)|
    ensures var c := Candidates(runs);
            SumBy(runs, BytesBefore(p, cal, runs, c[i])) == KeptBytes(c, BucketFlags(p, cal, c), i)
  {
    var c := Candidates(runs);
    var f, flags := BytesBefore(p, cal, runs, c[i]), BucketFlags(p, cal, c);
    hide BucketKept, BucketFlags, KeptByTime;
    CandidatesRanked(runs);
    OnlyStoredWeigh(runs, f);
    SumPermutes(WithArtifacts(runs), c, f);
    forall j | 0 <= j < |c| ensures f(c[j]) == if j < i && flags[j] then c[j].totalBytes else 0 {
      NewerAbove(runs, c, i, c[j]);
      RuleByTime(p, cal, runs, c, j);
    }
    WeighUpTo(c, flags, f, i, |c|);
    assert c[..|c|] == c;
  }

  lemma SurvivesByTime(p: Policy, cal: Calendar, runs: seq<RunSummary>, i: nat)
    requires Distinct(runs) && i < |Candidates(runs)|
    ensures Survives(p, cal, Candidates(runs), i) <==> KeptByTime(p, cal, runs, Candidates(runs)[i])
  {
    CandidatesRanked(runs);
    RuleByTime(p, cal, runs, Candidates(runs), i);
    NewerAbove(runs, Candidates(runs), i, Candidates(runs)[i]);
    BytesByTime(p, cal, runs, i);
    if i > 0 && BucketKept(p, cal, Candidates(runs), i) { ThroughIs(p, cal, Candidates(runs), i); }
  }

  lemma ThroughIs(p: Policy, cal: Calendar, c: seq<RunSummary>, i: nat)
    requires i < |c| && BucketKept(p, cal, c, i)
    ensures Through(c, BucketFlags(p, cal, c), i) == KeptBytes(c, BucketFlags(p, cal, c), i) + c[i].totalBytes
  {
  }

  // ---- what is deleted --------------------------------------------------------------------------------------

  lemma {:induction false} UnflaggedIds(c: seq<RunSummary>, g: seq<bool>, n: nat, id: string)
    requires n <= |c| == |g|
    ensures id in Unflagged(c, g, n) <==> exists i :: 0 <= i < n && !g[i] && c[i].id == id
  {
    if n > 0 {
      UnflaggedIds(c, g, n - 1, id);
      if i :| 0 <= i < n && !g[i] && c[i].id == id { assert i == n - 1 || i < n - 1; }
    }
  }

  /** Where a stored run stands among the candidates, and there alone. */
  lemma Placed(runs: seq<RunSummary>, r: RunSummary) returns (i: nat)
    requires Distinct(runs) && r in runs && Stored(r)
    ensures i < |Candidates(runs)| && Candidates(runs)[i] == r
    ensures forall j | 0 <= j < |Candidates(runs)| && Candidates(runs)[j].id == r.id :: j == i
  {
    CandidatesRanked(runs);
    hide Candidates;
    assert r in Candidates(runs);
    i :| 0 <= i < |Candidates(runs)| && Candidates(runs)[i] == r;
  }

  lemma DeletedAt(p: Policy, cal: Calendar, c: seq<RunSummary>, i: nat)
    requires i < |c| && forall j | 0 <= j < |c| && c[j].id == c[i].id :: j == i
    ensures c[i].id in Deleted(p, cal, c) <==> !Survives(p, cal, c, i)
  {
    UnflaggedIds(c, SurvivorFlags(p, cal, c), |c|, c[i].id);
  }

  /** The artifacts of a run are deleted exactly if it has some and no rule keeps it, or it does not fit under the cap
      with the newer runs that a rule keeps. */
  lemma DeletedIff(p: Policy, cal: Calendar, runs: seq<RunSummary>, r: RunSummary)
    requires Distinct(runs) && r in runs && Stored(r)
    ensures r.id in Deleted(p, cal, Candidates(runs)) <==> !KeptByTime(p, cal, runs, r)
  {
    var i := Placed(runs, r);
    hide Survives, KeptByTime, Candidates, Deleted, Distinct;
    DeletedAt(p, cal, Candidates(runs), i);
    SurvivesByTime(p, cal, runs, i);
  }

  lemma DeletedStored(p: Policy, cal: Calendar, runs: seq<RunSummary>, id: string)
    requires Distinct(runs) && id in Deleted(p, cal, Candidates(runs))
    ensures exists r | r in runs :: Stored(r) && r.id == id
  {
    var c := Candidates(runs);
    CandidatesRanked(runs);
    UnflaggedIds(c, SurvivorFlags(p, cal, c), |c|, id);
    var i :| 0 <= i < |c| && c[i].id == id;
    assert c[i] in c;
  }

  /** The stored run with the latest time keeps its artifacts. */
  lemma LatestIsKept(p: Policy, cal: Calendar, runs: seq<RunSummary>, r: RunSummary)
    requires Distinct(runs) && r in runs && Stored(r) && forall s | s in runs && Stored(s) :: s.createdAt <= r.createdAt
    ensures r.id !in Deleted(p, cal, Candidates(runs))
  {
    DeletedIff(p, cal, runs, r);
  }

  ghost predicate LatestOf(runs: seq<RunSummary>, key: int -> string, r: RunSummary) {
    forall s | s in runs && Stored(s) && key(s.createdAt) == key(r.createdAt) :: s.createdAt <= r.createdAt
  }

  /** What is kept is the latest of all, or the latest of its day, week or month. */
  lemma KeptIsLatest(p: Policy, cal: Calendar, runs: seq<RunSummary>, r: RunSummary)
    requires Distinct(runs) && r in runs && Stored(r) && r.id !in Deleted(p, cal, Candidates(runs))
    ensures (forall s | s in runs && Stored(s) :: s.createdAt <= r.createdAt)
            || LatestOf(runs, cal.day, r) || LatestOf(runs, cal.week, r) || LatestOf(runs, cal.month, r)
  {
    DeletedIff(p, cal, runs, r);
  }

  /** When the cap takes a run that a rule keeps, it has taken every older one. */
  lemma CapTakesOlder(p: Policy, cal: Calendar, runs: seq<RunSummary>, r: RunSummary, s: RunSummary)
    requires Distinct(runs) && r in runs && Stored(r) && s in runs && Stored(s) && s.createdAt < r.createdAt
    requires ByRule(p, cal, runs, r) && r.id in Deleted(p, cal, Candidates(runs))
    ensures s.id in Deleted(p, cal, Candidates(runs))
  {
    var c := Candidates(runs);
    var i := Placed(runs, r);
    var j := Placed(runs, s);
    CandidatesRanked(runs);
    RuleByTime(p, cal, runs, c, i);
    SurvivesByTime(p, cal, runs, i);
    SurvivesByTime(p, cal, runs, j);
    DeletedIff(p, cal, runs, r);
    DeletedIff(p, cal, runs, s);
    hide Survives, KeptByTime, Candidates, ByRule, BucketKept, Distinct, Deleted;
    if Survives(p, cal, c, j) { CapDropsOldestFirst(p, cal, c, i, j); }
  }
}
