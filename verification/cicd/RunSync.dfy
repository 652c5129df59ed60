/** Importing build history as deployment records (`internal/cicd/usecase/sync_pipeline_runs.go`). */
module RunSync {
  import opened Wrappers
  import opened GoStrings
  import opened Decimals

  datatype Status = Running | Success | Failed

  datatype Stage = Stage(name: string, status: string, startedAt: int)

  datatype Build = Build(number: int, result: string, building: bool, startedAt: int, duration: int, stages: seq<Stage>)

  datatype Deployment = Deployment(id: string, pipelineId: string, version: string, status: Status, steps: seq<Stage>,
                                   startedAt: int, completedAt: Option<int>, deployedBy: string)

  type Records = map<string, Deployment>

  // ---- a build as a record --------------------------------------------------------------------------------

  /** The record of a build; None: nothing ran, and there should be no record. */
  datatype Import = Import(id: string, run: Option<Deployment>)

  const PREFIX := "dep_ci_"

  function Join(pipeline: string, number: string): string {
    PREFIX + pipeline + "_" + number
  }

  function RunDeploymentId(pipelineId: string, number: int): string {
    Join(TrimSpace(pipelineId), Itoa(number))
  }

  function Version(number: int): string {
    "#" + Itoa(number)
  }

  predicate IsSkippedBuild(b: Build) {
    !b.building && ToUpper(TrimSpace(b.result)) in ["SKIPPED", "NOT_BUILT"]
  }

  function StatusFromBuild(b: Build): Status {
    if b.building then Running
    else
      match ToUpper(TrimSpace(b.result))
      case "SUCCESS" => Success
      case "" => Running
      case _ => Failed
  }

  function DeploymentFromBuild(pipelineId: string, b: Build): Deployment {
    Deployment(RunDeploymentId(pipelineId, b.number), pipelineId, Version(b.number), StatusFromBuild(b), b.stages,
               b.startedAt,
               if !b.building && b.duration > 0 then Some(b.startedAt + b.duration) else None, "ci")
  }

  function ImportOf(pipelineId: string, b: Build): Import {
    Import(RunDeploymentId(pipelineId, b.number),
           if IsSkippedBuild(b) then None else Some(DeploymentFromBuild(pipelineId, b)))
  }

  function Imports(pipelineId: string, builds: seq<Build>, read: (string, Build) -> Import): seq<Import> {
    seq(|builds|, i requires 0 <= i < |builds| => read(pipelineId, builds[i]))
  }

  // ---- one step ---------------------------------------------------------------------------------------------

  /** A record is left alone if it has the build's status and as many steps. */
  predicate Same(d: Deployment, e: Deployment) {
    d.status == e.status && |d.steps| == |e.steps|
  }

  predicate Settled(records: Records, a: Import) {
    match a.run
    case None => a.id !in records
    case Some(d) => a.id in records && Same(records[a.id], d)
  }

  function Step(records: Records, a: Import): Records {
    if Settled(records, a) then records
    else match a.run case None => records - {a.id} case Some(d) => records[a.id := d]
  }

  function SyncAll(records: Records, imports: seq<Import>): Records {
    if imports == [] then records else Step(SyncAll(records, imports[..|imports| - 1]), imports[|imports| - 1])
  }

  /** How many records a pass creates, updates or deletes. */
  function Changes(records: Records, imports: seq<Import>): nat {
    if imports == [] then 0
    else
      var init := imports[..|imports| - 1];
      Changes(records, init) + if Settled(SyncAll(records, init), imports[|imports| - 1]) then 0 else 1
  }

  // ---- the pass ----------------------------------------------------------------------------------------------

  /** The store of records. A call may fail, without effect. */
  class DeploymentStore {
    var records: Records
    var answers: seq<bool>

    constructor (records: Records, answers: seq<bool>)
      ensures this.records == records && this.answers == answers
    {
      this.records, this.answers := records, answers;
    }

    ghost predicate Reliable()
      reads this
    {
      answers == []
    }

    method Answers() returns (ok: bool)
      modifies `answers
      ensures old(Reliable()) ==> Reliable() && ok
    {
      if answers == [] { return true; }
      ok, answers := answers[0], answers[1..];
    }

    method GetById(id: string) returns (found: Option<Deployment>)
      modifies `answers
      ensures old(Reliable()) ==> Reliable() && found == if id in records then Some(records[id]) else None
      ensures found.Some? ==> id in records && found.value == records[id]
    {
      var ok := Answers();
      found := if ok && id in records then Some(records[id]) else None;
    }

    method Create(d: Deployment) returns (ok: bool)
      modifies this
      ensures old(Reliable()) ==> Reliable() && (ok <==> d.id !in old(records))
      ensures records == if ok then old(records)[d.id := d] else old(records)
    {
      ok := Answers();
      ok := ok && d.id !in records;
      if ok { records := records[d.id := d]; }
    }

    method Update(d: Deployment) returns (ok: bool)
      modifies this
      ensures old(Reliable()) ==> Reliable() && (ok <==> d.id in old(records))
      ensures records == if ok then old(records)[d.id := d] else old(records)
    {
      ok := Answers();
      ok := ok && d.id in records;
      if ok { records := records[d.id := d]; }
    }

    method Delete(id: string) returns (ok: bool)
      modifies this
      ensures old(Reliable()) ==> Reliable() && ok
      ensures records == if ok then old(records) - {id} else old(records)
    {
      ok := Answers();
      if ok { records := records - {id}; }
    }
  }

  /** Only the record of this build may have changed. */
  ghost predicate Touches(before: Records, after: Records, id: string) {
    forall k | k != id :: (k in before <==> k in after) && (k in before ==> before[k] == after[k])
  }

  /** Brings the record of one build up to date. */
  method SyncOne(store: DeploymentStore, a: Import) returns (ok: bool, changed: bool)
    requires a.run.Some? ==> a.run.value.id == a.id
    modifies store
    ensures old(store.Reliable()) ==>
              store.Reliable() && ok && store.records == Step(old(store.records), a)
              && changed == !Settled(old(store.records), a)
    ensures Touches(old(store.records), store.records, a.id)
  {
    ok, changed := true, false;
    var existing := store.GetById(a.id);
    match a.run {
      case None =>
        if existing.Some? {
          ok := store.Delete(a.id);
          changed := ok;
        }
      case Some(d) =>
        if existing.Some? {
          if !Same(existing.value, d) {
            ok := store.Update(d);
            changed := ok;
          }
        } else {
          ok := store.Create(d);
          changed := ok;
        }
    }
  }

  /** A record changed only if it is that of a build in the list. */
  ghost predicate TouchesOnly(before: Records, after: Records, imports: seq<Import>) {
    forall k | (forall i | 0 <= i < |imports| :: imports[i].id != k) :: (k in before <==> k in after)
      && (k in before ==> before[k] == after[k])
  }

  lemma TouchesMore(r: Records, s: Records, t: Records, imports: seq<Import>, a: Import)
    requires TouchesOnly(r, s, imports) && Touches(s, t, a.id)
    ensures TouchesOnly(r, t, imports + [a])
  {
    var more := imports + [a];
    forall k | forall i | 0 <= i < |more| :: more[i].id != k ensures (k in r <==> k in t) && (k in r ==> r[k] == t[k]) {
      forall i | 0 <= i < |imports| ensures imports[i].id != k { assert more[i] == imports[i]; }
      assert more[|imports|].id != k;
    }
  }

  ghost predicate Identified(imports: seq<Import>) {
    forall i | 0 <= i < |imports| && imports[i].run.Some? :: imports[i].run.value.id == imports[i].id
  }

  /** Goes through the builds; stops at the first failing write. */
  method SyncBuilds(store: DeploymentStore, imports: seq<Import>) returns (synced: nat, ok: bool)
    requires Identified(imports)
    modifies store
    ensures old(store.Reliable()) ==>
              && ok && store.Reliable()
              && store.records == SyncAll(old(store.records), imports) && synced == Changes(old(store.records), imports)
    ensures TouchesOnly(old(store.records), store.records, imports)
  {
    synced, ok := 0, true;
    for n := 0 to |imports|
      invariant ok && (old(store.Reliable()) ==> store.Reliable())
      invariant old(store.Reliable()) ==>
                  store.records == SyncAll(old(store.records), imports[..n])
                  && synced == Changes(old(store.records), imports[..n])
      invariant TouchesOnly(old(store.records), store.records, imports[..n])
    {
      ghost var before := store.records;
      var changed;
      ok, changed := SyncOne(store, imports[n]);
      TouchesMore(old(store.records), before, store.records, imports[..n], imports[n]);
      assert imports[..n + 1] == imports[..n] + [imports[n]] && imports[..n + 1][..n] == imports[..n];
      if changed { synced := synced + 1; }
      if !ok {
        TouchesRest(old(store.records), store.records, imports, n + 1);
        return;
      }
    }
    assert imports[..|imports|] == imports;
  }

  lemma TouchesRest(r: Records, s: Records, imports: seq<Import>, n: nat)
    requires n <= |imports| && TouchesOnly(r, s, imports[..n])
    ensures TouchesOnly(r, s, imports)
  {
    forall k | forall i | 0 <= i < |imports| :: imports[i].id != k
      ensures (k in r <==> k in s) && (k in r ==> r[k] == s[k]) {
      forall i | 0 <= i < n ensures imports[..n][i].id != k { assert imports[..n][i] == imports[i]; }
    }
  }

  lemma ImportsIdentified(pipelineId: string, builds: seq<Build>)
    ensures Identified(Imports(pipelineId, builds, ImportOf))
  {
    var imports := Imports(pipelineId, builds, ImportOf);
    forall i | 0 <= i < |imports| && imports[i].run.Some? ensures imports[i].run.value.id == imports[i].id {
      assert imports[i] == ImportOf(pipelineId, builds[i]);
    }
  }

  /** One synchronisation of a pipeline; `builds` is None when the history could not be listed. */
  method Execute(store: DeploymentStore, pipelineId: string, builds: Option<seq<Build>>) returns (synced: nat, ok: bool)
    modifies store
    ensures Blank(pipelineId) || builds == None ==> !ok && synced == 0 && store.records == old(store.records)
    ensures var imports := if builds == None then [] else Imports(TrimSpace(pipelineId), builds.value, ImportOf);
            && (old(store.Reliable()) && !Blank(pipelineId) && builds.Some? ==>
                  && ok && store.Reliable()
                  && store.records == SyncAll(old(store.records), imports)
                    && synced == Changes(old(store.records), imports))
            && TouchesOnly(old(store.records), store.records, imports)
  {
    hide ImportOf, Identified, SyncAll, Changes, TrimSpace, Blank;
    synced, ok := 0, false;
    if Blank(pipelineId) || builds == None { return; }
    ImportsIdentified(TrimSpace(pipelineId), builds.value);
    synced, ok := SyncBuilds(store, Imports(TrimSpace(pipelineId), builds.value, ImportOf));
  }

  // ---- convergence --------------------------------------------------------------------------------------------

  lemma StepSettles(records: Records, a: Import)
    ensures Settled(Step(records, a), a)
    ensures Touches(records, Step(records, a), a.id)
  {
  }

  /** Two builds that want the same of one record. */
  predicate Agree(a: Import, b: Import) {
    match (a.run, b.run)
    case (None, None) => true
    case (Some(d), Some(e)) => Same(d, e)
    case _ => false
  }

  ghost predicate AllAgree(imports: seq<Import>) {
    forall i, j | 0 <= i < |imports| && 0 <= j < |imports|
      && imports[i].id == imports[j].id :: Agree(imports[i], imports[j])
  }

  ghost predicate AllSettled(records: Records, imports: seq<Import>) {
    forall i | 0 <= i < |imports| :: Settled(records, imports[i])
  }

  lemma StepKeepsSettled(records: Records, a: Import, b: Import)
    requires Settled(records, b) && (a.id == b.id ==> Agree(a, b))
    ensures Settled(Step(records, a), b)
  {
    StepSettles(records, a);
  }

  /** After a pass over builds that agree, every build's record is as the build wants it. */
  lemma {:induction false} PassSettles(records: Records, imports: seq<Import>)
    requires AllAgree(imports)
    ensures AllSettled(SyncAll(records, imports), imports)
  {
    if imports != [] {
      var init, last := imports[..|imports| - 1], imports[|imports| - 1];
      PassSettles(records, init);
      StepSettles(SyncAll(records, init), last);
      forall i | 0 <= i < |init| ensures Settled(SyncAll(records, imports), imports[i]) {
        StepKeepsSettled(SyncAll(records, init), last, init[i]);
      }
    }
  }

  /** A pass with nothing to do changes nothing, and says so; and the other way round. */
  lemma {:induction false} SettledIff(records: Records, imports: seq<Import>)
    ensures Changes(records, imports) == 0 <==> AllSettled(records, imports)
    ensures AllSettled(records, imports) ==> SyncAll(records, imports) == records
  {
    if imports != [] {
      var init := imports[..|imports| - 1];
      SettledIff(records, init);
      if AllSettled(records, imports) { assert AllSettled(records, init); }
      if Changes(records, imports) == 0 {
        forall i | 0 <= i < |imports| ensures Settled(records, imports[i]) {
          if i < |init| { assert Settled(records, init[i]); }
        }
      }
    }
  }

  /** Builds on which the records are settled agree. */
  lemma SettledAgree(records: Records, imports: seq<Import>)
    requires AllSettled(records, imports)
    ensures AllAgree(imports)
  {
    forall i, j | 0 <= i < |imports| && 0 <= j < |imports| && imports[i].id == imports[j].id
      ensures Agree(imports[i], imports[j]) {
      assert Settled(records, imports[i]) && Settled(records, imports[j]);
    }
  }

  /** A second pass over the same builds reports nothing exactly if builds of the same number agree on whether they ran,
      with which status and how many stages; and then it changes nothing. */
  lemma SecondPassIdle(records: Records, imports: seq<Import>)
    ensures var once := SyncAll(records, imports);
            && (Changes(once, imports) == 0 <==> AllAgree(imports))
            && (AllAgree(imports) ==> SyncAll(once, imports) == once)
  {
    var once := SyncAll(records, imports);
    SettledIff(once, imports);
    if AllAgree(imports) { PassSettles(records, imports); }
    if AllSettled(once, imports) { SettledAgree(once, imports); }
  }

  ghost predicate DistinctIds(imports: seq<Import>) {
    forall i, j | 0 <= i < j < |imports| :: imports[i].id != imports[j].id
  }

  lemma AgreeSelf(a: Import)
    ensures Agree(a, a)
  {
  }

  /** With distinct builds, one pass converges and the second is idle. */
  lemma DistinctConverge(records: Records, imports: seq<Import>)
    requires DistinctIds(imports)
    ensures var once := SyncAll(records, imports);
              AllSettled(once, imports) && Changes(once, imports) == 0
              && SyncAll(once, imports) == once
  {
    forall i, j | 0 <= i < |imports| && 0 <= j < |imports| && imports[i].id == imports[j].id
      ensures Agree(imports[i], imports[j]) {
      AgreeSelf(imports[i]);
    }
    PassSettles(records, imports);
    SecondPassIdle(records, imports);
  }

  // ---- what a settled record may still differ in ----------------------------------------------------------------

  lemma {:induction false} OneRecord(records: Records, imports: seq<Import>, i: nat)
    requires DistinctIds(imports) && i < |imports|
    ensures var once, a := SyncAll(records, imports), imports[i];
            && (a.id in once <==> a.id in Step(records, a))
            && (a.id in once ==> once[a.id] == Step(records, a)[a.id])
  {
    var init, last, a := imports[..|imports| - 1], imports[|imports| - 1], imports[i];
    StepSettles(SyncAll(records, init), last);
    if i == |imports| - 1 {
      UntouchedBefore(records, init, a.id);
    } else {
      OneRecord(records, init, i);
      assert a.id != last.id;
    }
  }

  lemma {:induction false} UntouchedBefore(records: Records, imports: seq<Import>, id: string)
    requires forall i | 0 <= i < |imports| :: imports[i].id != id
    ensures var once := SyncAll(records, imports);
              (id in once <==> id in records)
              && (id in records ==> once[id] == records[id])
  {
    if imports != [] {
      UntouchedBefore(records, imports[..|imports| - 1], id);
      StepSettles(SyncAll(records, imports[..|imports| - 1]), imports[|imports| - 1]);
    }
  }

  /** After a pass a record is exactly its build's, unless it was there before with the same status and as many steps
      but something else different; then it stays stale. */
  lemma ExactIff(records: Records, imports: seq<Import>, i: nat)
    requires DistinctIds(imports) && i < |imports| && imports[i].run.Some?
    ensures var once, a := SyncAll(records, imports), imports[i];
            a.id in once && (once[a.id] == a.run.value <==>
                             !(a.id in records && Same(records[a.id], a.run.value) && records[a.id] != a.run.value))
  {
    OneRecord(records, imports, i);
  }

  /** A running build whose first stage finishes: the step is still shown as running. */
  lemma StageProgressIsMissed(d: Deployment, name: string) returns (was: Deployment, now: Deployment)
    ensures was.steps == [Stage(name, "running", 0)] && now.steps == [Stage(name, "success", 0)]
            && was.id == now.id == d.id
    ensures SyncAll(map[d.id := was], [Import(d.id, Some(now))]) == map[d.id := was]
  {
    was, now := d.(steps := [Stage(name, "running", 0)]), d.(steps := [Stage(name, "success", 0)]);
    var records, a := map[d.id := was], Import(d.id, Some(now));
    assert Settled(records, a);
    assert [a][..0] == [];
    assert SyncAll(records, [a]) == Step(SyncAll(records, []), a);
  }
}
