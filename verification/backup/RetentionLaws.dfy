/** What the retention rule guarantees, for every policy, calendar and list of runs. */
module RetentionLaws {
  import opened Sorting
  import opened BackupRuns
  import opened Retention

  /** The flagged runs among the n newest, in order. */
  function Pick(c: seq<RunSummary>, g: seq<bool>, n: nat): (r: seq<RunSummary>)
    requires n <= |c| == |g|
  {
    if n == 0 then [] else Pick(c, g, n - 1) + if g[n - 1] then [c[n - 1]] else []
  }

  function Kept(p: Policy, cal: Calendar, c: seq<RunSummary>): seq<RunSummary> {
    Pick(c, SurvivorFlags(p, cal, c), |c|)
  }

  function Ids(c: seq<RunSummary>): seq<string> {
    seq(|c|, i requires 0 <= i < |c| => c[i].id)
  }

  // ---- partition, newest, cap ------------------------------------------------------------------------

  lemma {:induction false} PartitionUpTo(c: seq<RunSummary>, g: seq<bool>, n: nat)
    requires n <= |c| == |g|
    ensures multiset(Unflagged(c, g, n)) + multiset(Ids(Pick(c, g, n))) == multiset(Ids(c[..n]))
  {
    if n > 0 {
      PartitionUpTo(c, g, n - 1);
      assert c[..n] == c[..n - 1] + [c[n - 1]];
      IdsSnoc(c[..n - 1], c[n - 1]);
      IdsSnoc(Pick(c, g, n - 1), c[n - 1]);
      PickStep(c, g, n);
      if g[n - 1] { assert Unflagged(c, g, n) == Unflagged(c, g, n - 1); }
    }
  }

  lemma IdsSnoc(c: seq<RunSummary>, r: RunSummary)
    ensures Ids(c + [r]) == Ids(c) + [r.id]
  {
  }

  lemma PickStep(c: seq<RunSummary>, g: seq<bool>, n: nat)
    requires 0 < n <= |c| == |g|
    ensures Pick(c, g, n) == if g[n - 1] then Pick(c, g, n - 1) + [c[n - 1]] else Pick(c, g, n - 1)
  {
  }

  /** Deleted and kept runs together are exactly the candidates, each once. */
  lemma Partition(p: Policy, cal: Calendar, c: seq<RunSummary>)
    ensures multiset(Deleted(p, cal, c)) + multiset(Ids(Kept(p, cal, c))) == multiset(Ids(c))
  {
    PartitionUpTo(c, SurvivorFlags(p, cal, c), |c|);
    assert c[..|c|] == c;
  }

  lemma {:induction false} PickAt(c: seq<RunSummary>, g: seq<bool>, i: nat, n: nat)
    requires i < n <= |c| == |g| && g[i]
    ensures |Pick(c, g, i)| < |Pick(c, g, n)| && Pick(c, g, n)[|Pick(c, g, i)|] == c[i]
    ensures Pick(c, g, i) <= Pick(c, g, n)
    decreases n
  {
    if i < n - 1 { PickAt(c, g, i, n - 1); }
  }

  /** The newest candidate is never deleted. */
  lemma NewestSurvives(p: Policy, cal: Calendar, c: seq<RunSummary>)
    requires c != []
    ensures Kept(p, cal, c) != [] && Kept(p, cal, c)[0] == c[0]
  {
    PickAt(c, SurvivorFlags(p, cal, c), 0, |c|);
  }

  function TotalBytes(c: seq<RunSummary>): nat {
    if c == [] then 0 else TotalBytes(c[..|c| - 1]) + c[|c| - 1].totalBytes
  }

  lemma {:induction false} PickBytes(c: seq<RunSummary>, g: seq<bool>, n: nat)
    requires n <= |c| == |g|
    ensures TotalBytes(Pick(c, g, n)) == KeptBytes(c, g, n)
  {
    if n > 0 {
      PickBytes(c, g, n - 1);
      PickStep(c, g, n);
      if g[n - 1] { assert (Pick(c, g, n - 1) + [c[n - 1]])[..|Pick(c, g, n - 1)|] == Pick(c, g, n - 1); }
    }
  }

  lemma {:induction false} FewerBytes(c: seq<RunSummary>, f: seq<bool>, g: seq<bool>, n: nat)
    requires n <= |c| == |f| == |g|
    requires forall i | 0 <= i < n && g[i] :: f[i]
    ensures KeptBytes(c, g, n) <= KeptBytes(c, f, n)
  {
    if n > 0 { FewerBytes(c, f, g, n - 1); }
  }

  lemma {:induction false} CapUpTo(p: Policy, cal: Calendar, c: seq<RunSummary>, n: nat)
    requires n <= |c| && p.maxTotalBytes > 0
    ensures var g := SurvivorFlags(p, cal, c);
            KeptBytes(c, g, n) <= p.maxTotalBytes || Pick(c, g, n) <= c[..1]
  {
    var g, f := SurvivorFlags(p, cal, c), BucketFlags(p, cal, c);
    if n > 1 {
      CapUpTo(p, cal, c, n - 1);
      if g[n - 1] {
        assert Fits(c, f, p.maxTotalBytes, n - 1);
        FewerBytes(c, f, g, n);
      }
    } else if n == 1 {
      assert Pick(c, g, 0) == [];
    }
  }

  /** With a cap, the survivors fit under it, or only the newest candidate remains. */
  lemma CapRespected(p: Policy, cal: Calendar, c: seq<RunSummary>)
    requires c != [] && p.maxTotalBytes > 0
    ensures TotalBytes(Kept(p, cal, c)) <= p.maxTotalBytes || Kept(p, cal, c) == [c[0]]
  {
    CapUpTo(p, cal, c, |c|);
    PickBytes(c, SurvivorFlags(p, cal, c), |c|);
    NewestSurvives(p, cal, c);
  }

  /** The cap drops from the old end: no bucket-kept run goes while an older one other than the newest stays. */
  lemma CapDropsOldestFirst(p: Policy, cal: Calendar, c: seq<RunSummary>, i: nat, j: nat)
    requires i < j < |c| && BucketKept(p, cal, c, i) && Survives(p, cal, c, j)
    ensures Survives(p, cal, c, i)
  {
    ThroughGrows(c, BucketFlags(p, cal, c), j);
  }

  // ---- stability -----------------------------------------------------------------------------------------

  lemma {:induction false} PickKeys(c: seq<RunSummary>, g: seq<bool>, key: int -> string, i: nat)
    requires i <= |c| == |g|
    ensures |Pick(c, g, i)| <= |Pick(c, g, |c|)| && Pick(c, g, i) <= Pick(c, g, |c|)
    ensures Keys(Pick(c, g, i), key, |Pick(c, g, i)|) <= Keys(c, key, i)
  {
    PickPrefix(c, g, i, |c|);
    forall j | 0 <= j < |Pick(c, g, i)| ensures key(Pick(c, g, i)[j].createdAt) in Keys(c, key, i) {
      var k := PickedFrom(c, g, i, j);
    }
  }

  lemma {:induction false} PickPrefix(c: seq<RunSummary>, g: seq<bool>, m: nat, n: nat)
    requires m <= n <= |c| == |g|
    ensures Pick(c, g, m) <= Pick(c, g, n)
    decreases n
  {
    if m < n { PickPrefix(c, g, m, n - 1); }
  }

  /** Where a picked run comes from. */
  lemma {:induction false} PickedFrom(c: seq<RunSummary>, g: seq<bool>, n: nat, j: nat) returns (i: nat)
    requires n <= |c| == |g| && j < |Pick(c, g, n)|
    ensures i < n && g[i] && Pick(c, g, n)[j] == c[i] && |Pick(c, g, i)| == j
  {
    if j == |Pick(c, g, n - 1)| { i := n - 1; } else { i := PickedFrom(c, g, n - 1, j); }
  }

  /** A run chosen by a bucket rule stays chosen in any sub-list that contains it. */
  lemma ChosenInSublist(c: seq<RunSummary>, g: seq<bool>, limit: int, key: int -> string, i: nat)
    requires i < |c| == |g| && g[i] && Chosen(c, limit, key, i)
    ensures |Pick(c, g, i)| < |Pick(c, g, |c|)| && Pick(c, g, |c|)[|Pick(c, g, i)|] == c[i]
    ensures Chosen(Pick(c, g, |c|), limit, key, |Pick(c, g, i)|)
  {
    var r := |Pick(c, g, i)|;
    PickAt(c, g, i, |c|);
    PickKeys(c, g, key, i);
    assert Keys(Pick(c, g, |c|), key, r) == Keys(Pick(c, g, i), key, r);
    SubsetSize(Keys(Pick(c, g, |c|), key, r), Keys(c, key, i));
  }

  lemma {:induction false} AllKeptBytes(c: seq<RunSummary>, g: seq<bool>, f: seq<bool>, n: nat)
    requires n <= |c| == |g| && |f| == |Pick(c, g, |c|)|
    requires forall j | 0 <= j < |f| :: f[j]
    ensures |Pick(c, g, n)| <= |f| && KeptBytes(Pick(c, g, |c|), f, |Pick(c, g, n)|) == KeptBytes(c, g, n)
  {
    PickPrefix(c, g, n, |c|);
    if n > 0 {
      AllKeptBytes(c, g, f, n - 1);
      if g[n - 1] { PickAt(c, g, n - 1, |c|); }
    }
  }

  /** What fitted among the flagged runs f fits among the sub-list of the survivors g. */
  lemma FitsAgain(c: seq<RunSummary>, f: seq<bool>, g: seq<bool>, cap: int, h: seq<bool>, i: nat)
    requires i < |c| == |f| == |g| && |h| == |Pick(c, g, |c|)|
    requires forall j | 0 <= j < |c| && g[j] :: f[j]
    requires forall j | 0 <= j < |h| :: h[j]
    requires g[i] && Fits(c, f, cap, i)
    ensures |Pick(c, g, i)| < |h| && Fits(Pick(c, g, |c|), h, cap, |Pick(c, g, i)|)
  {
    PickAt(c, g, i, |c|);
    if i > 0 && cap > 0 {
      PickStep(c, g, i + 1);
      AllKeptBytes(c, g, h, i + 1);
      FewerBytes(c, f, g, i + 1);
      assert Through(c, f, i) <= cap;
    }
  }

  /** Every survivor survives again, in the list of the survivors. */
  lemma SurvivesAgain(p: Policy, cal: Calendar, c: seq<RunSummary>, r: nat)
    requires r < |Kept(p, cal, c)|
    ensures Survives(p, cal, Kept(p, cal, c), r)
  {
    var g, k := SurvivorFlags(p, cal, c), Kept(p, cal, c);
    forall j: nat | j < |k| ensures BucketKept(p, cal, k, j) { BucketKeptAgain(p, cal, c, j); }
    var i := PickedFrom(c, g, |c|, r);
    FitsAgain(c, BucketFlags(p, cal, c), g, p.maxTotalBytes, BucketFlags(p, cal, k), i);
  }

  lemma BucketKeptAgain(p: Policy, cal: Calendar, c: seq<RunSummary>, r: nat)
    requires r < |Kept(p, cal, c)|
    ensures BucketKept(p, cal, Kept(p, cal, c), r)
  {
    var g := SurvivorFlags(p, cal, c);
    var i := PickedFrom(c, g, |c|, r);
    if Chosen(c, p.daily, cal.day, i) { ChosenInSublist(c, g, p.daily, cal.day, i); }
    if Chosen(c, p.weekly, cal.week, i) { ChosenInSublist(c, g, p.weekly, cal.week, i); }
    if Chosen(c, p.monthly, cal.month, i) { ChosenInSublist(c, g, p.monthly, cal.month, i); }
  }

  lemma {:induction false} NoneUnflagged(k: seq<RunSummary>, g: seq<bool>, n: nat)
    requires n <= |k| == |g| && forall r: nat | r < |k| :: g[r]
    ensures Unflagged(k, g, n) == []
  {
    if n > 0 { NoneUnflagged(k, g, n - 1); }
  }

  /** Two picked runs stand as they stood in the list. */
  lemma PickedInOrder(c: seq<RunSummary>, g: seq<bool>, i: nat, j: nat) returns (a: nat, b: nat)
    requires |g| == |c| && i < j < |Pick(c, g, |c|)|
    ensures a < b < |c| && Pick(c, g, |c|)[i] == c[a] && Pick(c, g, |c|)[j] == c[b]
  {
    a := PickedFrom(c, g, |c|, i);
    b := PickedFrom(c, g, |c|, j);
    if b <= a { PickPrefix(c, g, b, a); }
  }

  /** What is left of a list of candidates has one newest-first order, the one it had. */
  lemma KeptInOrder(p: Policy, cal: Calendar, runs: seq<RunSummary>, rest: seq<RunSummary>)
    requires var c := Candidates(runs); DistinctTimes(c) && multiset(WithArtifacts(rest)) == multiset(Kept(p, cal, c))
    ensures Candidates(rest) == Kept(p, cal, Candidates(runs))
  {
    var c := Candidates(runs);
    var g, k := SurvivorFlags(p, cal, c), Kept(p, cal, c);
    SortSorted(WithArtifacts(runs), NewestFirst);
    forall i, j | 0 <= i < j < |k| ensures NewestFirst(k[i], k[j]) && k[i].createdAt != k[j].createdAt {
      var a, b := PickedInOrder(c, g, i, j);
    }
    forall x, y | x in k && y in k && x.createdAt == y.createdAt ensures x == y {
      var i, j :| 0 <= i < |k| && 0 <= j < |k| && k[i] == x && k[j] == y;
    }
    forall x | x in WithArtifacts(rest) ensures x in k { assert x in multiset(k); }
    SortFixpoint(k, NewestFirst);
    SortIgnoresOrder(WithArtifacts(rest), k, NewestFirst);
  }

  /** Applied to its own survivors, in whatever order they come, the policy deletes nothing more. */
  lemma RetentionIsStable(p: Policy, cal: Calendar, runs: seq<RunSummary>, rest: seq<RunSummary>)
    requires var c := Candidates(runs); DistinctTimes(c) && multiset(WithArtifacts(rest)) == multiset(Kept(p, cal, c))
    ensures Deleted(p, cal, Candidates(rest)) == []
  {
    KeptInOrder(p, cal, runs, rest);
    var k := Kept(p, cal, Candidates(runs));
    forall r: nat | r < |k| ensures Survives(p, cal, k, r) { SurvivesAgain(p, cal, Candidates(runs), r); }
    NoneUnflagged(k, SurvivorFlags(p, cal, k), |k|);
  }

  // ---- the newest run that succeeded ------------------------------------------------------------------------------

  /** c[i] succeeded, and what is newer did not. */
  predicate NewestSucceeded(c: seq<RunSummary>, i: nat) {
    i < |c| && c[i].status == Succeeded && forall j | 0 <= j < i :: c[j].status != Succeeded
  }

  /** No newer run shares the bucket, and the newer runs leave one of the first `limit` buckets to it. */
  predicate OwnBucket(c: seq<RunSummary>, limit: int, key: int -> string, i: nat)
    requires i < |c|
  {
    && (forall j | 0 <= j < i :: key(c[j].createdAt) != key(c[i].createdAt))
    && |set j | 0 <= j < i :: key(c[j].createdAt)| < limit
  }

  /** The newest run that succeeded survives exactly if it is the newest of all, or some rule gives it a bucket of its
      own among the newer, partial runs, and it fits under the cap with those of them that are kept. */
  lemma NewestSucceededSurvivesIff(p: Policy, cal: Calendar, c: seq<RunSummary>, i: nat)
    requires NewestSucceeded(c, i)
    ensures Survives(p, cal, c, i) <==>
            i == 0
            || ((OwnBucket(c, p.daily, cal.day, i) || OwnBucket(c, p.weekly, cal.week, i)
                 || OwnBucket(c, p.monthly, cal.month, i))
                && (p.maxTotalBytes <= 0
                    || KeptBytes(c, BucketFlags(p, cal, c), i) + c[i].totalBytes <= p.maxTotalBytes))
  {
    if i > 0 {
      OwnIsChosen(c, p.daily, cal.day, i);
      OwnIsChosen(c, p.weekly, cal.week, i);
      OwnIsChosen(c, p.monthly, cal.month, i);
    }
  }

  lemma OwnIsChosen(c: seq<RunSummary>, limit: int, key: int -> string, i: nat)
    requires i < |c|
    ensures OwnBucket(c, limit, key, i) <==> Chosen(c, limit, key, i)
  {
    assert Keys(c, key, i) == set j | 0 <= j < i :: key(c[j].createdAt);
  }

  /** A partial run later the same day: the only run that succeeded is deleted. */
  lemma SucceededMayGo(p: Policy, cal: Calendar, partial: RunSummary, whole: RunSummary)
    requires partial.status == Partial && whole.status == Succeeded
    requires cal.day(partial.createdAt) == cal.day(whole.createdAt)
    requires cal.week(partial.createdAt) == cal.week(whole.createdAt)
    requires cal.month(partial.createdAt) == cal.month(whole.createdAt)
    ensures NewestSucceeded([partial, whole], 1) && Deleted(p, cal, [partial, whole]) == [whole.id]
  {
    var c := [partial, whole];
    NewestSucceededSurvivesIff(p, cal, c, 1);
    assert c[0] == partial;
    var g := SurvivorFlags(p, cal, c);
    assert g[0] && !g[1];
    assert Unflagged(c, g, 1) == Unflagged(c, g, 0) + [];
  }
}
