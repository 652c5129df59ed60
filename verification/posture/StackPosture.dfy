/** Security posture of a stack's images (`internal/observability/domain/security_posture.go`). */
module StackPosture {
  import opened Wrappers
  import opened Sorting
  import opened Ordering
  import opened Sums
  import opened ScanReports
  import AppPosture

  /** A scanned image has counts, if its report could be read. No database date and the zero date are one. */
  datatype StackImage = StackImage(image: string, shared: bool, exposed: bool, scanned: bool,
                                   counts: Option<SeverityCounts>,
                                   fixable: Option<SeverityCounts>, dbUpdatedAt: Option<int>)

  datatype Grade = GradeA | GradeB | GradeC | Ungraded

  /** Something critical that can be fixed, on an exposed image first; then what can be fixed of high severity. */
  function GradeImage(i: StackImage): Grade {
    if !i.scanned || i.fixable == None then Ungraded
    else if i.fixable.value.critical > 0 then if i.exposed then GradeA else GradeB
    else if i.fixable.value.high > 0 then GradeC
    else Ungraded
  }

  /** The grade in terms of what can be fixed and who can reach it. */
  lemma GradeIff(i: StackImage)
    ensures GradeImage(i) in {GradeA, GradeB} <==> i.scanned && i.fixable.Some? && i.fixable.value.critical > 0
    ensures GradeImage(i) == GradeA ==> i.exposed
    ensures GradeImage(i) == GradeB ==> !i.exposed
    ensures GradeImage(i) == GradeC <==>
            i.scanned && i.fixable.Some? && i.fixable.value.critical == 0 && i.fixable.value.high > 0
  {
  }

  // ---- what is added up ----------------------------------------------------------------------------------

  datatype Part = Images | Failed | Shared | InGrade(grade: Grade) | FixableAt(rank: nat)

  function Measure(part: Part): StackImage -> int {
    (i: StackImage) =>
      match part
      case Images => 1
      case Failed => One(!i.scanned)
      case Shared => One(i.shared)
      case InGrade(g) => One(i.scanned && GradeImage(i) == g)
      case FixableAt(rank) => if i.scanned && i.fixable.Some? then i.fixable.value.At(rank) else 0
  }

  datatype Totals = Totals(images: int, failed: int, shared: int, gradeA: int, gradeB: int, gradeC: int,
                           fixable: SeverityCounts)

  ghost predicate AddsUp(t: Totals, images: seq<StackImage>) {
    && t.images == SumBy(images, Measure(Images)) && t.failed == SumBy(images, Measure(Failed))
      && t.shared == SumBy(images, Measure(Shared))
    && t.gradeA == SumBy(images, Measure(InGrade(GradeA))) && t.gradeB == SumBy(images, Measure(InGrade(GradeB)))
    && t.gradeC == SumBy(images, Measure(InGrade(GradeC)))
    && forall rank: nat | rank <= 4 :: t.fixable.At(rank) == SumBy(images, Measure(FixableAt(rank)))
  }

  lemma AddsUpSnoc(t: Totals, images: seq<StackImage>, i: StackImage, now: Totals)
    requires AddsUp(t, images)
    requires now.images == t.images + 1 && now.failed == t.failed + One(!i.scanned)
             && now.shared == t.shared + One(i.shared)
    requires now.gradeA == t.gradeA + One(i.scanned && GradeImage(i) == GradeA)
             && now.gradeB == t.gradeB + One(i.scanned && GradeImage(i) == GradeB)
    requires now.gradeC == t.gradeC + One(i.scanned && GradeImage(i) == GradeC)
    requires now.fixable == if i.scanned && i.fixable.Some? then t.fixable.Plus(i.fixable.value) else t.fixable
    ensures AddsUp(now, images + [i])
  {
    SumSnoc(images, i, Measure(Images));
    SumSnoc(images, i, Measure(Failed));
    SumSnoc(images, i, Measure(Shared));
    SumSnoc(images, i, Measure(InGrade(GradeA)));
    SumSnoc(images, i, Measure(InGrade(GradeB)));
    SumSnoc(images, i, Measure(InGrade(GradeC)));
    forall rank: nat | rank <= 4 ensures now.fixable.At(rank) == SumBy(images + [i], Measure(FixableAt(rank))) {
      SumSnoc(images, i, Measure(FixableAt(rank)));
    }
  }

  lemma TotalsPermute(t: Totals, u: Totals, xs: seq<StackImage>, ys: seq<StackImage>)
    requires AddsUp(t, xs) && AddsUp(u, ys) && multiset(xs) == multiset(ys)
    ensures t == u
  {
    SumPermutes(xs, ys, Measure(Images));
    SumPermutes(xs, ys, Measure(Failed));
    SumPermutes(xs, ys, Measure(Shared));
    SumPermutes(xs, ys, Measure(InGrade(GradeA)));
    SumPermutes(xs, ys, Measure(InGrade(GradeB)));
    SumPermutes(xs, ys, Measure(InGrade(GradeC)));
    forall rank: nat | rank <= 4
      ensures t.fixable.At(rank) == u.fixable.At(rank) { SumPermutes(xs, ys, Measure(FixableAt(rank))); }
    assert t.fixable.At(0) == u.fixable.At(0) && t.fixable.At(1) == u.fixable.At(1)
      && t.fixable.At(2) == u.fixable.At(2)
        && t.fixable.At(3) == u.fixable.At(3) && t.fixable.At(4) == u.fixable.At(4);
  }

  // ---- the worst image -----------------------------------------------------------------------------------

  predicate Ranked(i: StackImage) {
    i.scanned && i.counts.Some?
  }

  /** More of the more severe first; equal counts by name. */
  predicate MoreSevere(a: SeverityCounts, b: SeverityCounts, aName: string, bName: string) {
    if a.critical != b.critical then a.critical > b.critical
    else if a.high != b.high then a.high > b.high
    else if a.medium != b.medium then a.medium > b.medium
    else if a.low != b.low then a.low > b.low
    else aName != bName && StringLeq(aName, bName)
  }

  predicate Worse(i: StackImage, j: StackImage)
    requires Ranked(i) && Ranked(j)
  {
    MoreSevere(i.counts.value, j.counts.value, i.image, j.image)
  }

  ghost predicate Worst(w: Option<StackImage>, images: seq<StackImage>) {
    match w
    case None => forall i | i in images :: !Ranked(i)
    case Some(x) => x in images && Ranked(x) && forall i | i in images && Ranked(i) :: !Worse(i, x)
  }

  lemma WorseTransitive(i: StackImage, j: StackImage, k: StackImage)
    requires Ranked(i) && Ranked(j) && Ranked(k) && Worse(i, j) && Worse(j, k)
    ensures Worse(i, k)
  {
    if StringLeq(i.image, j.image) && StringLeq(j.image, k.image) {
      StringTransitive(i.image, j.image, k.image);
      if i.image == k.image { StringAntisymmetric(i.image, j.image); }
    }
  }

  lemma WorseConnected(i: StackImage, j: StackImage)
    requires Ranked(i) && Ranked(j) && i.image != j.image
    ensures Worse(i, j) || Worse(j, i)
  {
    StringTotal(i.image, j.image);
  }

  lemma WorstSnoc(w: Option<StackImage>, images: seq<StackImage>, i: StackImage)
    requires Worst(w, images)
    ensures Worst(if Ranked(i) && (w == None || Worse(i, w.value)) then Some(i) else w, images + [i])
  {
    if Ranked(i) && w.Some? && Worse(i, w.value) {
      forall j | j in images && Ranked(j) ensures !Worse(j, i) {
        if Worse(j, i) { WorseTransitive(j, i, w.value); }
      }
      assert !Worse(i, i);
    }
  }

  /** They have equal counts of all that is more severe than this, and the first has more of this. */
  predicate MoreAt(a: SeverityCounts, b: SeverityCounts, rank: nat) {
    rank < 4 && a.At(rank) > b.At(rank) && forall r | 0 <= r < rank :: a.At(r) == b.At(r)
  }

  lemma MoreSevereIff(a: SeverityCounts, b: SeverityCounts, aName: string, bName: string)
    ensures MoreSevere(a, b, aName, bName) <==>
            || (exists rank: nat :: MoreAt(a, b, rank))
            || (aName != bName && StringLeq(aName, bName) && forall r | 0 <= r < 4 :: a.At(r) == b.At(r))
  {
    assert a.At(0) == a.critical && a.At(1) == a.high && a.At(2) == a.medium && a.At(3) == a.low;
    assert b.At(0) == b.critical && b.At(1) == b.high && b.At(2) == b.medium && b.At(3) == b.low;
    if a.critical > b.critical { assert MoreAt(a, b, 0); }
    else if a.critical == b.critical && a.high > b.high { assert MoreAt(a, b, 1); }
    else if a.critical == b.critical && a.high == b.high && a.medium > b.medium { assert MoreAt(a, b, 2); }
    else if a.critical == b.critical && a.high == b.high && a.medium == b.medium && a.low > b.low {
      assert MoreAt(a, b, 3);
    }
  }

  /** No image has more of the most severe findings than the worst one, at the first severity where they differ; of
      those with equal counts it is the first by name. */
  lemma WorstIsWorst(p: Posture, images: seq<StackImage>, now: int, i: StackImage)
    requires Evaluated(p, images, now) && i in images && Ranked(i)
    ensures p.worst.Some? && p.worst.value in images && Ranked(p.worst.value)
    ensures var worst, other := p.worst.value.counts.value, i.counts.value;
            && (forall rank: nat :: !MoreAt(other, worst, rank))
            && ((forall r | 0 <= r < 4 :: other.At(r) == worst.At(r)) ==> StringLeq(p.worst.value.image, i.image))
  {
    var w := p.worst.value;
    MoreSevereIff(i.counts.value, w.counts.value, i.image, w.image);
    StringTotal(w.image, i.image);
    hide MoreSevere, MoreAt;
  }

  /** With distinct names there is one worst image. */
  lemma WorstUnique(v: Option<StackImage>, w: Option<StackImage>, xs: seq<StackImage>, ys: seq<StackImage>)
    requires Worst(v, xs) && Worst(w, ys) && forall i :: i in xs <==> i in ys
    requires forall i, j | i in xs && j in xs && i.image == j.image :: i == j
    ensures v == w
  {
    if v.Some? && w.Some? && v.value.image != w.value.image { WorseConnected(v.value, w.value); }
  }

  // ---- the oldest database ---------------------------------------------------------------------------------

  ghost predicate Oldest(o: Option<int>, images: seq<StackImage>) {
    match o
    case None => forall i | i in images && i.scanned :: i.dbUpdatedAt == None
    case Some(t) =>
      && (exists i | i in images :: i.scanned && i.dbUpdatedAt == Some(t))
      && (forall i | i in images && i.scanned && i.dbUpdatedAt.Some? :: t <= i.dbUpdatedAt.value)
  }

  ghost predicate AllDated(images: seq<StackImage>) {
    forall i | i in images && i.scanned :: i.dbUpdatedAt.Some?
  }

  lemma OldestSnoc(o: Option<int>, images: seq<StackImage>, i: StackImage)
    requires Oldest(o, images)
    ensures Oldest(if i.scanned && i.dbUpdatedAt.Some?
                   && (o == None || i.dbUpdatedAt.value < o.value) then i.dbUpdatedAt else o, images + [i])
  {
    if o.Some? {
      var j :| j in images && j.scanned && j.dbUpdatedAt == o;
      assert j in images + [i];
    }
    assert i in images + [i];
  }

  // ---- the posture -------------------------------------------------------------------------------------------

  datatype Posture = Posture(totals: Totals, worst: Option<StackImage>, oldest: Option<int>, dbStale: bool)

  ghost predicate Evaluated(p: Posture, images: seq<StackImage>, now: int) {
    && AddsUp(p.totals, images) && Worst(p.worst, images) && Oldest(p.oldest, images)
    && (p.dbStale <==> !AllDated(images) || AppPosture.IsDBStale(p.oldest, now))
  }

  method CountImage(i: StackImage, t: Totals, ghost images: seq<StackImage>) returns (now: Totals)
    requires AddsUp(t, images)
    ensures AddsUp(now, images + [i])
  {
    now := t.(images := t.images + 1);
    if i.shared { now := now.(shared := now.shared + 1); }
    if !i.scanned {
      now := now.(failed := now.failed + 1);
    } else {
      match GradeImage(i) {
        case GradeA => now := now.(gradeA := now.gradeA + 1);
        case GradeB => now := now.(gradeB := now.gradeB + 1);
        case GradeC => now := now.(gradeC := now.gradeC + 1);
        case Ungraded =>
      }
      if i.fixable.Some? { now := now.(fixable := now.fixable.Plus(i.fixable.value)); }
    }
    AddsUpSnoc(t, images, i, now);
  }

  datatype ScanState = Scanned | ScanPending | ScanSkipped

  /** Goes through the images of a scanned stack once; of any other stack there is nothing to show. */
  method EvaluateStack(state: ScanState, images: seq<StackImage>, now: int) returns (p: Option<Posture>)
    ensures p.Some? <==> state == Scanned
    ensures p.Some? ==> Evaluated(p.value, images, now)
  {
    if state != Scanned { return None; }
    var totals, worst, oldest, dated := Totals(0, 0, 0, 0, 0, 0, SeverityCounts(0, 0, 0, 0, 0)), None, None, true;
    for n := 0 to |images|
      invariant AddsUp(totals, images[..n]) && Worst(worst, images[..n]) && Oldest(oldest, images[..n])
      invariant dated <==> AllDated(images[..n])
    {
      var i := images[n];
      assert images[..n + 1] == images[..n] + [i];
      WorstSnoc(worst, images[..n], i);
      OldestSnoc(oldest, images[..n], i);
      DatedSnoc(images[..n], i);
      totals := CountImage(i, totals, images[..n]);
      if i.scanned {
        if i.counts.Some? && (worst == None
                              || MoreSevere(i.counts.value, worst.value.counts.value, i.image,
                                            worst.value.image)) { worst := Some(i); }
        if i.dbUpdatedAt == None {
          dated := false;
        } else if oldest == None || i.dbUpdatedAt.value < oldest.value {
          oldest := i.dbUpdatedAt;
        }
      }
    }
    assert images[..|images|] == images;
    p := Some(Posture(totals, worst, oldest, !dated || AppPosture.IsDBStale(oldest, now)));
  }

  lemma DatedSnoc(images: seq<StackImage>, i: StackImage)
    ensures AllDated(images + [i]) <==> AllDated(images) && (i.scanned ==> i.dbUpdatedAt.Some?)
  {
    assert i in images + [i];
    if AllDated(images + [i]) {
      forall j | j in images && j.scanned ensures j.dbUpdatedAt.Some? { assert j in images + [i]; }
    }
  }

  lemma OldestUnique(o: Option<int>, q: Option<int>, xs: seq<StackImage>, ys: seq<StackImage>)
    requires Oldest(o, xs) && Oldest(q, ys) && forall i :: i in xs <==> i in ys
    ensures o == q
  {
    if o.Some? {
      var i :| i in xs && i.scanned && i.dbUpdatedAt == o;
      assert i in ys;
    }
    if q.Some? {
      var j :| j in ys && j.scanned && j.dbUpdatedAt == q;
      assert j in xs;
    }
  }

  /** With distinct image names, a stack's posture does not depend on the order its images come in. */
  lemma PostureIgnoresOrder(p: Posture, q: Posture, xs: seq<StackImage>, ys: seq<StackImage>, now: int)
    requires Evaluated(p, xs, now) && Evaluated(q, ys, now) && multiset(xs) == multiset(ys)
    requires forall i, j | i in xs && j in xs && i.image == j.image :: i == j
    ensures p == q
  {
    forall i ensures i in xs <==> i in ys { assert i in multiset(xs) <==> i in multiset(ys); }
    TotalsPermute(p.totals, q.totals, xs, ys);
    WorstUnique(p.worst, q.worst, xs, ys);
    OldestUnique(p.oldest, q.oldest, xs, ys);
    assert AllDated(xs) <==> AllDated(ys);
  }
}
