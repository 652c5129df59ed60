/** Security posture of applications (`internal/observability/domain/security_posture.go`): cells, rank, summary,
    groups per stack, and the order they are shown in. */
module AppPosture {
  import opened Wrappers
  import opened GoStrings
  import opened Sorting
  import opened Ordering
  import opened Sums

  datatype Stage = SecretScan | DependencyScan | SAST | ImageScan

  const STAGES := [SecretScan, DependencyScan, SAST, ImageScan]

  datatype CellState = Passed | Warned | Blocked | Errored | Unrecorded | NotApplied

  /** A stored scan; `critical` is its number of critical findings, if it counted any. */
  datatype ScanRecord = ScanRecord(gate: string, deploymentId: string, critical: Option<nat>, dbUpdatedAt: Option<int>)

  datatype Cell = Cell(state: CellState, record: Option<ScanRecord>, staleRun: bool, dbStale: Option<bool>)

  datatype App = App(pipelineId: string, name: string, stackId: string, stagesKnown: bool, hasStage: set<Stage>,
                     secretPolicyOff: bool, latestRun: Option<(string, int)>, records: map<Stage, ScanRecord>)

  datatype Cells = Cells(secret: Cell, dependency: Cell, sast: Cell, image: Cell) {
    function At(stage: Stage): Cell {
      match stage case SecretScan => secret case DependencyScan => dependency case SAST => sast case ImageScan => image
    }
  }

  datatype Posture = Posture(app: App, rank: int, cells: Cells, critical: nat)

  // ---- cells ----------------------------------------------------------------------------------------------

  const STALE_DB_AGE := 30 * 24 * 3600 * 1_000_000_000

  predicate IsDBStale(updatedAt: Option<int>, now: int) {
    updatedAt == None || now - updatedAt.value > STALE_DB_AGE
  }

  function CellStateFromGate(gate: string): (state: CellState)
    ensures state in {Passed, Warned, Blocked, Errored}
  {
    match ToLower(TrimSpace(gate))
    case "pass" => Passed
    case "warn" => Warned
    case "block" => Blocked
    case _ => Errored
  }

  predicate PolicyOff(app: App, stage: Stage) {
    stage == SecretScan && app.secretPolicyOff
  }

  /** The cell of a stage, its record's gate read by `read`; the code reads it by `CellStateFromGate`. */
  function CellFor(app: App, stage: Stage, now: int, read: string -> CellState): Cell {
    var none := Cell(NotApplied, None, false, None);
    if PolicyOff(app, stage) then none
    else if app.stagesKnown && stage !in app.hasStage then none
    else if stage !in app.records then if app.stagesKnown then none.(state := Unrecorded) else none
    else
      var record := app.records[stage];
      Cell(read(record.gate), Some(record),
           app.latestRun.Some? && record.deploymentId != app.latestRun.value.0,
           if (stage == DependencyScan || stage == ImageScan) && record.critical.Some?
             then Some(IsDBStale(record.dbUpdatedAt, now)) else None)
  }

  // ---- rank ---------------------------------------------------------------------------------------------------

  const SECRET_LEAK := 1
  const BLOCKED := 2
  const UNDETERMINED := 3
  const WARNING := 4
  const PASSING := 5
  const NO_STAGE := 6

  predicate IsProblemRank(rank: int) {
    SECRET_LEAK <= rank <= WARNING
  }

  predicate SomeCell(cells: Cells, states: set<CellState>) {
    exists stage :: cells.At(stage).state in states
  }

  predicate LeaksSecret(cells: Cells) {
    cells.secret.state in {Blocked, Warned}
  }

  predicate Applied(cells: Cells) {
    SomeCell(cells, {Passed, Warned, Blocked, Errored, Unrecorded})
  }

  /** Among the first n stages, in the order the code goes through them. */
  predicate SomeOf(cells: Cells, states: set<CellState>, n: nat)
    requires n <= |STAGES|
  {
    exists k :: 0 <= k < n && cells.At(STAGES[k]).state in states
  }

  lemma StagesCover(cells: Cells, states: set<CellState>)
    ensures SomeOf(cells, states, 4) <==> SomeCell(cells, states)
  {
    if stage :| cells.At(stage).state in states {
      match stage {
        case SecretScan => assert STAGES[0] == stage;
        case DependencyScan => assert STAGES[1] == stage;
        case SAST => assert STAGES[2] == stage;
        case ImageScan => assert STAGES[3] == stage;
      }
    }
  }

  function RankSpec(cells: Cells): (rank: int)
    ensures rank != NO_STAGE <==> Applied(cells)
    ensures IsProblemRank(rank) <==> SomeCell(cells, {Warned, Blocked, Errored, Unrecorded})
  {
    if LeaksSecret(cells) then assert cells.At(SecretScan).state != NotApplied; SECRET_LEAK
    else if SomeCell(cells, {Blocked}) then BLOCKED
    else if SomeCell(cells, {Errored, Unrecorded}) then UNDETERMINED
    else if SomeCell(cells, {Warned}) then WARNING
    else if Applied(cells) then PASSING
    else NO_STAGE
  }

  method RankOf(cells: Cells) returns (rank: int)
    ensures rank == RankSpec(cells)
  {
    var s := cells.secret.state;
    if s == Blocked || s == Warned { return SECRET_LEAK; }
    var block, unknown, warn, applied := false, false, false, false;
    for i := 0 to |STAGES|
      invariant block <==> SomeOf(cells, {Blocked}, i)
      invariant unknown <==> SomeOf(cells, {Errored, Unrecorded}, i)
      invariant warn <==> SomeOf(cells, {Warned}, i)
      invariant applied <==> SomeOf(cells, {Passed, Warned, Blocked, Errored, Unrecorded}, i)
    {
      var state := cells.At(STAGES[i]).state;
      match state {
        case Blocked => block := true;
        case Errored => unknown := true;
        case Unrecorded => unknown := true;
        case Warned => warn := true;
        case _ =>
      }
      if state != NotApplied { applied := true; }
    }
    StagesCover(cells, {Blocked});
    StagesCover(cells, {Errored, Unrecorded});
    StagesCover(cells, {Warned});
    StagesCover(cells, {Passed, Warned, Blocked, Errored, Unrecorded});
    rank := if block then BLOCKED else if unknown then UNDETERMINED else if warn then WARNING else
      if applied then PASSING else NO_STAGE;
  }

  function CriticalIn(cell: Cell): nat {
    if cell.record.Some? && cell.record.value.critical.Some? then cell.record.value.critical.value else 0
  }

  method EvaluateApp(app: App, now: int, read: string -> CellState) returns (p: Posture)
    ensures p.app == app && EvaluatedAt(p, now, read)
  {
    var cells := Cells(CellFor(app, SecretScan, now, read), CellFor(app, DependencyScan, now, read),
                       CellFor(app, SAST, now, read), CellFor(app, ImageScan, now, read));
    var rank := RankOf(cells);
    p := Posture(app, rank, cells, CriticalIn(cells.dependency) + CriticalIn(cells.image));
  }

  /** A posture as `EvaluateApp` makes it. */
  predicate Evaluated(p: Posture) {
    p.rank == RankSpec(p.cells) && p.critical == CriticalIn(p.cells.dependency) + CriticalIn(p.cells.image)
  }

  predicate EvaluatedAt(p: Posture, now: int, read: string -> CellState) {
    Evaluated(p) && forall stage :: p.cells.At(stage) == CellFor(p.app, stage, now, read)
  }

  /** A pipeline from before its stages were known is judged, ranked and counted as one that has exactly the stages it
      has records of. */
  lemma OldPipelinesReadByRecords(p: Posture, q: Posture, now: int, read: string -> CellState)
    requires EvaluatedAt(p, now, read) && EvaluatedAt(q, now, read)
    requires !p.app.stagesKnown && q.app == p.app.(stagesKnown := true, hasStage := p.app.records.Keys)
    ensures p.cells == q.cells && p.rank == q.rank && p.critical == q.critical && Unit(p) == Unit(q)
  {
    forall stage ensures p.cells.At(stage) == q.cells.At(stage) {
      assert CellFor(p.app, stage, now, read) == CellFor(q.app, stage, now, read);
    }
    CellsByStage(p.cells, q.cells);
  }

  /** The gate of a record, trimmed, spells this word, in whatever case. */
  ghost predicate GateSays(gate: string, word: string) {
    Spells(TrimSpace(gate), word, ReadsLower)
  }

  /** What a recorded gate shows: an unknown word is never taken for a pass. */
  lemma GateIff(gate: string)
    ensures CellStateFromGate(gate) == Passed <==> GateSays(gate, "pass")
    ensures CellStateFromGate(gate) == Warned <==> GateSays(gate, "warn")
    ensures CellStateFromGate(gate) == Blocked <==> GateSays(gate, "block")
  {
    hide ToLower, TrimSpace, Spells, CellStateFromGate;
    var word := TrimSpace(gate);
    SmallWords();
    LowerSpells(word, "pass");
    LowerSpells(word, "warn");
    LowerSpells(word, "block");
    GateWord(gate, ToLower(word));
  }

  lemma SmallWords()
    ensures forall word, c | word in ["pass", "warn", "block"] && c in word ::
              !('A' <= c <= 'Z') && c != '\U{130}' && c != '\U{212a}'
  {
  }

  lemma GateWord(gate: string, word: string)
    requires ToLower(TrimSpace(gate)) == word
    ensures CellStateFromGate(gate) == Passed <==> word == "pass"
    ensures CellStateFromGate(gate) == Warned <==> word == "warn"
    ensures CellStateFromGate(gate) == Blocked <==> word == "block"
  {
    hide ToLower, TrimSpace;
    assert "pass"[0] == 'p' && "warn"[0] == 'w' && |"block"| == 5;
  }

  /** When a stage does not apply, when its result is missing, and else what its record shows. */
  lemma CellIff(app: App, stage: Stage, now: int)
    ensures var cell, off := CellFor(app, stage, now, CellStateFromGate), stage == SecretScan && app.secretPolicyOff;
            && (cell.state == NotApplied <==>
                  off || (if app.stagesKnown then stage !in app.hasStage else stage !in app.records))
            && (cell.state == Unrecorded <==>
                  !off && app.stagesKnown && stage in app.hasStage && stage !in app.records)
            && (cell.record.Some? ==>
                  && stage in app.records && cell.record.value == app.records[stage]
                  && cell.state == CellStateFromGate(app.records[stage].gate))
            && (cell.record.None? ==> cell.state == NotApplied || cell.state == Unrecorded)
  {
    hide CellStateFromGate;
  }

  /** A stage that should have a result and has none leaves its application undetermined at best, and counted so. */
  lemma MissingIsUndetermined(p: Posture, now: int, stage: Stage)
    requires EvaluatedAt(p, now, CellStateFromGate)
    requires p.app.stagesKnown && stage in p.app.hasStage && stage !in p.app.records
    requires stage == SecretScan ==> !p.app.secretPolicyOff
    ensures p.rank <= UNDETERMINED && IsProblemRank(p.rank) && Unit(p).undetermined == 1 && Unit(p).problems == 1
  {
    CellIff(p.app, stage, now);
    hide CellFor, CellStateFromGate;
    assert p.cells.At(stage).state == Unrecorded;
  }

  /** A result is stale when it is not that of the latest run, and its database when that is unknown or more than
      thirty days old. */
  lemma StaleIff(app: App, stage: Stage, now: int)
    requires CellFor(app, stage, now, CellStateFromGate).record.Some?
    ensures var cell, record := CellFor(app, stage, now, CellStateFromGate), app.records[stage];
            && (cell.staleRun <==> app.latestRun.Some? && app.latestRun.value.0 != record.deploymentId)
            && (cell.dbStale.Some? <==> stage in {DependencyScan, ImageScan} && record.critical.Some?)
            && (cell.dbStale.Some? ==>
                  (cell.dbStale.value <==>
                   record.dbUpdatedAt.None? || now > record.dbUpdatedAt.value + 2_592_000_000_000_000))
  {
    hide CellStateFromGate;
  }

  lemma CellsByStage(a: Cells, b: Cells)
    requires forall stage :: a.At(stage) == b.At(stage)
    ensures a == b
  {
    assert a.At(SecretScan) == b.At(SecretScan) && a.At(DependencyScan) == b.At(DependencyScan)
        && a.At(SAST) == b.At(SAST) && a.At(ImageScan) == b.At(ImageScan);
  }

  // ---- counting ---------------------------------------------------------------------------------------------

  /** What one application adds to the counters. */
  datatype Tally = Tally(apps: int, blocked: int, secrets: int, critical: int, undetermined: int, problems: int) {
    function Plus(o: Tally): Tally {
      Tally(apps + o.apps, blocked + o.blocked, secrets + o.secrets, critical + o.critical,
            undetermined + o.undetermined, problems + o.problems)
    }
  }

  const NOTHING := Tally(0, 0, 0, 0, 0, 0)

  predicate HasCritical(cells: Cells) {
    CriticalIn(cells.dependency) > 0 || CriticalIn(cells.image) > 0
  }

  /** An application counts once under each heading that applies to it. */
  function Unit(p: Posture): Tally {
    Tally(1, One(SomeCell(p.cells, {Blocked})), One(LeaksSecret(p.cells)), One(HasCritical(p.cells)),
          One(SomeCell(p.cells, {Errored, Unrecorded})), One(IsProblemRank(p.rank)))
  }

  datatype Flags = Flags(applied: bool, blocked: bool, secret: bool, critical: bool, undetermined: bool)

  /** The headings an application comes under. */
  method FlagsOf(p: Posture) returns (f: Flags)
    ensures f == Flags(p.rank != NO_STAGE, SomeCell(p.cells, {Blocked}), LeaksSecret(p.cells), HasCritical(p.cells),
                       SomeCell(p.cells, {Errored, Unrecorded}))
  {
    hide CriticalIn, IsProblemRank;
    f := Flags(p.rank != NO_STAGE, false, false, false, false);
    if p.cells.secret.state == Blocked || p.cells.secret.state == Warned { f := f.(secret := true); }
    for i := 0 to |STAGES|
      invariant f.applied == (p.rank != NO_STAGE) && f.secret == LeaksSecret(p.cells)
      invariant f.blocked <==> SomeOf(p.cells, {Blocked}, i)
      invariant f.undetermined <==> SomeOf(p.cells, {Errored, Unrecorded}, i)
      invariant f.critical <==>
                  (i > 1 && CriticalIn(p.cells.dependency) > 0)
                  || (i > 3 && CriticalIn(p.cells.image) > 0)
    {
      var c := p.cells.At(STAGES[i]);
      match c.state {
        case Blocked => f := f.(blocked := true);
        case Errored => f := f.(undetermined := true);
        case Unrecorded => f := f.(undetermined := true);
        case _ =>
      }
      if STAGES[i] in {DependencyScan, ImageScan} && CriticalIn(c) > 0 { f := f.(critical := true); }
    }
    StagesCover(p.cells, {Blocked});
    StagesCover(p.cells, {Errored, Unrecorded});
  }

  /** The counters of a list, one application counting as `unit` says. */
  function Sum(ps: seq<Posture>, unit: Posture -> Tally): Tally {
    if ps == [] then NOTHING else Sum(ps[..|ps| - 1], unit).Plus(unit(ps[|ps| - 1]))
  }

  lemma SumSnoc(ps: seq<Posture>, p: Posture, unit: Posture -> Tally)
    ensures Sum(ps + [p], unit) == Sum(ps, unit).Plus(unit(p))
  {
    assert (ps + [p])[..|ps|] == ps;
  }

  /** The critical findings a stage of this application counts: none where it does not apply or counted nothing. */
  function CriticalAt(app: App, stage: Stage): nat {
    if (app.stagesKnown ==> stage in app.hasStage) && stage in app.records && app.records[stage].critical.Some?
      then app.records[stage].critical.value else 0
  }

  /** Critical findings are those of dependencies and image, and an application is counted for having any. */
  lemma CriticalIff(p: Posture, now: int)
    requires EvaluatedAt(p, now, CellStateFromGate)
    ensures p.critical == CriticalAt(p.app, DependencyScan) + CriticalAt(p.app, ImageScan)
    ensures Unit(p).critical == if p.critical > 0 then 1 else 0
  {
    assert p.cells.At(DependencyScan) == p.cells.dependency && p.cells.At(ImageScan) == p.cells.image;
    CellCritical(p.app, DependencyScan, now);
    CellCritical(p.app, ImageScan, now);
    hide CellFor, CellStateFromGate, CriticalAt, CriticalIn;
  }

  lemma CellCritical(app: App, stage: Stage, now: int)
    requires stage != SecretScan
    ensures CriticalIn(CellFor(app, stage, now, CellStateFromGate)) == CriticalAt(app, stage)
  {
    hide CellStateFromGate;
  }

  /** The ranks, the worst first: a secret found, something blocked, something unknown, a warning, all passed, nothing
      to check. */
  lemma RankIff(p: Posture)
    requires Evaluated(p)
    ensures 1 <= p.rank <= 6
    ensures p.rank == 1 <==> p.cells.secret.state == Blocked || p.cells.secret.state == Warned
    ensures p.rank <= 2 <==> p.rank == 1 || exists stage :: p.cells.At(stage).state == Blocked
    ensures p.rank <= 3 <==> p.rank <= 2 || exists stage :: p.cells.At(stage).state in {Errored, Unrecorded}
    ensures p.rank <= 4 <==> p.rank <= 3 || exists stage :: p.cells.At(stage).state == Warned
    ensures p.rank <= 5 <==> p.rank <= 4 || exists stage :: p.cells.At(stage).state != NotApplied
  {
    if stage :| p.cells.At(stage).state != NotApplied { assert Applied(p.cells); }
    if SomeCell(p.cells, {Blocked}) {
      var stage :| p.cells.At(stage).state in {Blocked};
      assert p.cells.At(stage).state == Blocked;
    }
    if SomeCell(p.cells, {Warned}) {
      var stage :| p.cells.At(stage).state in {Warned};
      assert p.cells.At(stage).state == Warned;
    }
  }

  // ---- the summary --------------------------------------------------------------------------------------------

  datatype Summary = Summary(apps: int, withStage: int, blocked: int, secrets: int, critical: int, undetermined: int)

  /** Applications per stage that it applies to. */
  datatype Coverage = Coverage(secretScan: int, dependencyScan: int, sast: int, imageScan: int)

  function Covers(stage: Stage): Posture -> int {
    (p: Posture) => One(p.cells.At(stage).state != NotApplied)
  }

  function HasStage(): Posture -> int {
    (p: Posture) => One(p.rank != NO_STAGE)
  }

  function SummaryBy(t: Tally, withStage: int): Summary {
    Summary(t.apps, withStage, t.blocked, t.secrets, t.critical, t.undetermined)
  }

  function SummaryOf(ps: seq<Posture>): Summary {
    SummaryBy(Sum(ps, Unit), SumBy(ps, HasStage()))
  }

  function CoverageOf(ps: seq<Posture>): Coverage {
    Coverage(SumBy(ps, Covers(SecretScan)), SumBy(ps, Covers(DependencyScan)), SumBy(ps, Covers(SAST)),
             SumBy(ps, Covers(ImageScan)))
  }

  lemma CoverageSnoc(ps: seq<Posture>, p: Posture)
    ensures var c := CoverageOf(ps);
            CoverageOf(ps + [p]) ==
              Coverage(c.secretScan + Covers(SecretScan)(p), c.dependencyScan + Covers(DependencyScan)(p),
                                             c.sast + Covers(SAST)(p), c.imageScan + Covers(ImageScan)(p))
  {
    Sums.SumSnoc(ps, p, Covers(SecretScan));
    Sums.SumSnoc(ps, p, Covers(DependencyScan));
    Sums.SumSnoc(ps, p, Covers(SAST));
    Sums.SumSnoc(ps, p, Covers(ImageScan));
  }

  method CountApp(p: Posture, was: Summary, ghost t: Tally, ghost withStage: int) returns (sum: Summary)
    requires was == SummaryBy(t, withStage)
    ensures sum == SummaryBy(t.Plus(Unit(p)), withStage + One(p.rank != NO_STAGE))
  {
    sum := was.(apps := was.apps + 1);
    var f := FlagsOf(p);
    if f.applied { sum := sum.(withStage := sum.withStage + 1); }
    if f.blocked { sum := sum.(blocked := sum.blocked + 1); }
    if f.secret { sum := sum.(secrets := sum.secrets + 1); }
    if f.critical { sum := sum.(critical := sum.critical + 1); }
    if f.undetermined { sum := sum.(undetermined := sum.undetermined + 1); }
  }

  method CoverApp(p: Posture, was: Coverage) returns (cov: Coverage)
    ensures cov == Coverage(was.secretScan + Covers(SecretScan)(p), was.dependencyScan + Covers(DependencyScan)(p),
                            was.sast + Covers(SAST)(p), was.imageScan + Covers(ImageScan)(p))
  {
    cov := was;
    if p.cells.secret.state != NotApplied { cov := cov.(secretScan := cov.secretScan + 1); }
    if p.cells.dependency.state != NotApplied { cov := cov.(dependencyScan := cov.dependencyScan + 1); }
    if p.cells.sast.state != NotApplied { cov := cov.(sast := cov.sast + 1); }
    if p.cells.image.state != NotApplied { cov := cov.(imageScan := cov.imageScan + 1); }
  }

  method SummarizeApps(ps: seq<Posture>) returns (sum: Summary, cov: Coverage)
    ensures sum == SummaryOf(ps) && cov == CoverageOf(ps)
  {
    sum, cov := Summary(0, 0, 0, 0, 0, 0), Coverage(0, 0, 0, 0);
    for i := 0 to |ps|
      invariant sum == SummaryOf(ps[..i]) && cov == CoverageOf(ps[..i])
    {
      assert ps[..i + 1] == ps[..i] + [ps[i]];
      SumSnoc(ps[..i], ps[i], Unit);
      Sums.SumSnoc(ps[..i], ps[i], HasStage());
      CoverageSnoc(ps[..i], ps[i]);
      sum := CountApp(ps[i], sum, Sum(ps[..i], Unit), SumBy(ps[..i], HasStage()));
      cov := CoverApp(ps[i], cov);
    }
    assert ps[..|ps|] == ps;
  }

  /** At least as many applications have a stage as any one stage covers, and at most as many as all stages cover
      together. */
  lemma CoverageBounds(ps: seq<Posture>)
    requires forall p | p in ps :: Evaluated(p)
    ensures var w, c := SummaryOf(ps).withStage, CoverageOf(ps);
            && w >= c.secretScan && w >= c.dependencyScan && w >= c.sast && w >= c.imageScan
            && w <= c.secretScan + c.dependencyScan + c.sast + c.imageScan
  {
    forall stage: Stage
      ensures SumBy(ps, Covers(stage)) <= SumBy(ps, HasStage()) { SumMonotone(ps, Covers(stage), HasStage()); }
    var two: Posture -> int := p => Covers(SecretScan)(p) + Covers(DependencyScan)(p);
    var three: Posture -> int := p => two(p) + Covers(SAST)(p);
    var four: Posture -> int := p => three(p) + Covers(ImageScan)(p);
    SumAdds(ps, Covers(SecretScan), Covers(DependencyScan), two);
    SumAdds(ps, two, Covers(SAST), three);
    SumAdds(ps, three, Covers(ImageScan), four);
    forall p | p in ps ensures HasStage()(p) <= four(p) { AppliedSomewhere(p); }
    SumMonotone(ps, HasStage(), four);
  }

  lemma AppliedSomewhere(p: Posture)
    requires Evaluated(p)
    ensures p.rank != NO_STAGE <==> p.cells.secret.state != NotApplied || p.cells.dependency.state != NotApplied
                                    || p.cells.sast.state != NotApplied || p.cells.image.state != NotApplied
  {
    if stage :| p.cells.At(stage).state in {Passed, Warned, Blocked, Errored, Unrecorded} {
      match stage { case SecretScan => case DependencyScan => case SAST => case ImageScan => }
    }
    assert p.cells.At(SecretScan) == p.cells.secret && p.cells.At(DependencyScan) == p.cells.dependency
        && p.cells.At(SAST) == p.cells.sast && p.cells.At(ImageScan) == p.cells.image;
  }
}
