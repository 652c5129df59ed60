/** Which backup runs lose their artifacts (`internal/backup/domain/retention.go`). */
module Retention {
  import opened Sorting
  import opened BackupRuns

  datatype RunSummary = RunSummary(id: string, createdAt: int, totalBytes: nat, status: Status)

  datatype Policy = Policy(daily: int, weekly: int, monthly: int, maxTotalBytes: int)

  /** The bucket keys of an instant: calendar day, ISO 8601 week and month. */
  datatype Calendar = Calendar(day: int -> string, week: int -> string, month: int -> string)

  predicate HasArtifacts(s: Status) {
    s == Succeeded || s == Partial
  }

  predicate NewestFirst(a: RunSummary, b: RunSummary) {
    a.createdAt >= b.createdAt
  }

  function WithArtifacts(runs: seq<RunSummary>): seq<RunSummary> {
    if runs == [] then []
    else WithArtifacts(runs[..|runs| - 1]) + if HasArtifacts(runs[|runs| - 1].status) then [runs[|runs| - 1]] else []
  }

  /** The candidates, newest first. */
  function Candidates(runs: seq<RunSummary>): seq<RunSummary> {
    SortBy(WithArtifacts(runs), NewestFirst)
  }

  ghost predicate DistinctIds(c: seq<RunSummary>) {
    forall i, j | 0 <= i < j < |c| :: c[i].id != c[j].id
  }

  ghost predicate DistinctTimes(c: seq<RunSummary>) {
    forall i, j | 0 <= i < j < |c| :: c[i].createdAt != c[j].createdAt
  }

  // ---- what the policy keeps, said without loops ---------------------------------------------------

  function Keys(c: seq<RunSummary>, key: int -> string, n: nat): set<string>
    requires n <= |c|
  {
    set j | 0 <= j < n :: key(c[j].createdAt)
  }

  /** c[i] is the newest run of its bucket, and its bucket is one of the first `limit`. */
  predicate Chosen(c: seq<RunSummary>, limit: int, key: int -> string, i: nat)
    requires i < |c|
  {
    key(c[i].createdAt) !in Keys(c, key, i) && |Keys(c, key, i)| < limit
  }

  /** Kept before the size cap: the newest run, or chosen by one of the three bucket rules. */
  predicate BucketKept(p: Policy, cal: Calendar, c: seq<RunSummary>, i: nat)
    requires i < |c|
  {
    i == 0 || Chosen(c, p.daily, cal.day, i) || Chosen(c, p.weekly, cal.week, i) || Chosen(c, p.monthly, cal.month, i)
  }

  function BucketFlags(p: Policy, cal: Calendar, c: seq<RunSummary>): (f: seq<bool>)
    ensures |f| == |c| && forall i | 0 <= i < |c| :: f[i] == BucketKept(p, cal, c, i)
  {
    seq(|c|, i requires 0 <= i < |c| => BucketKept(p, cal, c, i))
  }

  /** Bytes of the flagged runs among the n newest. */
  function KeptBytes(c: seq<RunSummary>, f: seq<bool>, n: nat): nat
    requires n <= |c| == |f|
  {
    if n == 0 then 0 else KeptBytes(c, f, n - 1) + if f[n - 1] then c[n - 1].totalBytes else 0
  }

  /** Bytes of the flagged runs from the newest down to c[i]. */
  function Through(c: seq<RunSummary>, f: seq<bool>, i: nat): nat
    requires i < |c| == |f|
  {
    KeptBytes(c, f, i + 1)
  }

  /** c[i] and the newer flagged runs fit under the cap; the newest run always does, and a cap of 0 is none. */
  predicate Fits(c: seq<RunSummary>, f: seq<bool>, cap: int, i: nat)
    requires i < |c| == |f|
  {
    i == 0 || cap <= 0 || Through(c, f, i) <= cap
  }

  /** Kept in the end. */
  predicate Survives(p: Policy, cal: Calendar, c: seq<RunSummary>, i: nat)
    requires i < |c|
  {
    BucketKept(p, cal, c, i) && Fits(c, BucketFlags(p, cal, c), p.maxTotalBytes, i)
  }

  function SurvivorFlags(p: Policy, cal: Calendar, c: seq<RunSummary>): (g: seq<bool>)
    ensures |g| == |c| && forall i | 0 <= i < |c| :: g[i] == Survives(p, cal, c, i)
  {
    seq(|c|, i requires 0 <= i < |c| => Survives(p, cal, c, i))
  }

  /** The IDs of the unflagged among the n newest candidates, newest first. */
  function Unflagged(c: seq<RunSummary>, g: seq<bool>, n: nat): seq<string>
    requires n <= |c| == |g|
  {
    if n == 0 then [] else Unflagged(c, g, n - 1) + if g[n - 1] then [] else [c[n - 1].id]
  }

  /** The IDs to delete: every candidate that does not survive. */
  function Deleted(p: Policy, cal: Calendar, c: seq<RunSummary>): seq<string> {
    Unflagged(c, SurvivorFlags(p, cal, c), |c|)
  }

  // ---- the loops -----------------------------------------------------------------------------------

  /** Keeps the newest run of each of the first `limit` buckets. */
  method MarkBuckets(c: seq<RunSummary>, limit: int, key: int -> string, keep: set<string>)
    returns (marked: set<string>)
    requires DistinctIds(c)
    ensures forall i | 0 <= i < |c| :: c[i].id in marked <==> c[i].id in keep || Chosen(c, limit, key, i)
  {
    marked := keep;
    if limit <= 0 { return; }
    var seen: set<string> := {};
    for n := 0 to |c|
      invariant seen == Keys(c, key, n) && |seen| < limit
      invariant forall i | 0 <= i < |c| :: c[i].id in marked <==> c[i].id in keep || (i < n && Chosen(c, limit, key, i))
    {
      var k := key(c[n].createdAt);
      KeysSnoc(c, key, n);
      if k in seen { continue; }
      seen := seen + {k};
      marked := marked + {c[n].id};
      if |seen| >= limit {
        forall i | n < i < |c| ensures !Chosen(c, limit, key, i) { KeysGrow(c, key, n + 1, i); }
        return;
      }
    }
  }

  lemma KeysSnoc(c: seq<RunSummary>, key: int -> string, n: nat)
    requires n < |c|
    ensures Keys(c, key, n + 1) == Keys(c, key, n) + {key(c[n].createdAt)}
  {
  }

  lemma {:induction false} KeysGrow(c: seq<RunSummary>, key: int -> string, m: nat, n: nat)
    requires m <= n <= |c|
    ensures Keys(c, key, m) <= Keys(c, key, n) && |Keys(c, key, m)| <= |Keys(c, key, n)|
  {
    SubsetSize(Keys(c, key, m), Keys(c, key, n));
  }

  lemma {:induction false} SubsetSize<T>(a: set<T>, b: set<T>)
    requires a <= b
    ensures |a| <= |b|
  {
    assert b == a + (b - a);
  }

  /** Drops kept runs, oldest first and never the newest, until the rest fit under the cap. */
  method ApplyCap(c: seq<RunSummary>, ghost f: seq<bool>, cap: int, keep: set<string>) returns (rest: set<string>)
    requires DistinctIds(c) && 0 < |c| == |f|
    requires forall i | 0 <= i < |c| :: c[i].id in keep <==> f[i]
    ensures forall i | 0 <= i < |c| :: c[i].id in rest <==> f[i] && Fits(c, f, cap, i)
  {
    rest := keep;
    if cap <= 0 { return; }
    var total: int := 0;
    for n := 0 to |c|
      invariant total == KeptBytes(c, f, n)
    {
      if c[n].id in keep { total := total + c[n].totalBytes; }
    }
    assert total == Through(c, f, |c| - 1);
    var i := |c| - 1;
    while i >= 0 && total > cap
      invariant -1 <= i < |c|
      invariant total == Through(c, f, if i < 0 then 0 else i)
      invariant forall j | 0 <= j < |c| :: c[j].id in rest <==> f[j] && (j <= i || j == 0)
      invariant forall j: nat | i < j < |c| && j > 0 && f[j] :: Through(c, f, j) > cap
    {
      var r := c[i];
      if r.id in rest && i != 0 {
        rest := rest - {r.id};
        total := total - r.totalBytes;
      }
      i := i - 1;
    }
    if i >= 0 { ThroughGrows(c, f, i); }
  }

  lemma ThroughGrows(c: seq<RunSummary>, f: seq<bool>, i: nat)
    requires i < |c| == |f|
    ensures forall j: nat | j <= i :: Through(c, f, j) <= Through(c, f, i)
  {
    forall j: nat | j <= i ensures Through(c, f, j) <= Through(c, f, i) {
      KeptBytesGrow(c, f, j + 1, i + 1);
    }
  }

  lemma {:induction false} KeptBytesGrow(c: seq<RunSummary>, f: seq<bool>, m: nat, n: nat)
    requires m <= n <= |c| == |f|
    ensures KeptBytes(c, f, m) <= KeptBytes(c, f, n)
    decreases n
  {
    if m < n { KeptBytesGrow(c, f, m, n - 1); }
  }

  /** The newest run and what the three bucket rules choose. */
  method MarkKept(p: Policy, cal: Calendar, c: seq<RunSummary>) returns (keep: set<string>)
    requires DistinctIds(c) && c != []
    ensures forall i | 0 <= i < |c| :: c[i].id in keep <==> BucketKept(p, cal, c, i)
  {
    keep := {c[0].id};
    keep := MarkBuckets(c, p.daily, cal.day, keep);
    keep := MarkBuckets(c, p.weekly, cal.week, keep);
    keep := MarkBuckets(c, p.monthly, cal.month, keep);
  }

  method ListUnkept(c: seq<RunSummary>, ghost g: seq<bool>, keep: set<string>) returns (out: seq<string>)
    requires |g| == |c| && forall i | 0 <= i < |c| :: c[i].id in keep <==> g[i]
    ensures out == Unflagged(c, g, |c|)
  {
    out := [];
    for n := 0 to |c|
      invariant out == Unflagged(c, g, n)
    {
      if c[n].id !in keep { out := out + [c[n].id]; }
    }
  }

  /** The IDs of the runs whose artifacts go: exactly the candidates that do not survive. */
  method SelectForDeletion(p: Policy, cal: Calendar, runs: seq<RunSummary>) returns (out: seq<string>)
    requires DistinctIds(Candidates(runs))
    ensures out == Deleted(p, cal, Candidates(runs))
  {
    var c := Candidates(runs);
    if |c| == 0 { return []; }
    var keep := MarkKept(p, cal, c);
    keep := ApplyCap(c, BucketFlags(p, cal, c), p.maxTotalBytes, keep);
    out := ListUnkept(c, SurvivorFlags(p, cal, c), keep);
  }
}
