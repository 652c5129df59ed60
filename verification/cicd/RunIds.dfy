/** Identifiers of imported runs: made from pipeline and build number (`internal/cicd/usecase/sync_pipeline_runs.go`),
    and read back (`internal/cicd/usecase/list_pipeline_security.go`). */
module RunIds {
  import opened Wrappers
  import opened GoStrings
  import opened Decimals
  import opened RunSync

  /** Where the last underscore is; -1 if there is none. */
  function LastAt(s: string): int {
    if s == "" then -1 else if s[|s| - 1] == '_' then |s| - 1 else LastAt(s[..|s| - 1])
  }

  lemma {:induction false} LastAtJoin(a: string, x: string)
    requires '_' !in x
    ensures LastAt(a + "_" + x) == |a|
  {
    if x != "" {
      var init := x[..|x| - 1];
      assert x == init + [x[|x| - 1]];
      assert (a + "_" + x)[..|a + "_" + x| - 1] == a + "_" + init;
      LastAtJoin(a, init);
    }
  }

  /** Without an underscore in it, what follows the last underscore is determined, and so is what stands before. */
  lemma LastUnderscore(a: string, x: string, b: string, y: string)
    requires a + "_" + x == b + "_" + y && '_' !in x && '_' !in y
    ensures a == b && x == y
  {
    LastAtJoin(a, x);
    LastAtJoin(b, y);
    var s := a + "_" + x;
    assert s[..|a|] == a && s[..|a|] == b;
    assert s[|a| + 1..] == x && s[|a| + 1..] == y;
  }

  lemma ItoaNoUnderscore(n: int)
    ensures '_' !in Itoa(n)
  {
  }

  lemma JoinInjective(a: string, x: string, b: string, y: string)
    requires Join(a, x) == Join(b, y) && '_' !in x && '_' !in y
    ensures a == b && x == y
  {
    LastUnderscore(PREFIX + a, x, PREFIX + b, y);
    assert (PREFIX + a)[|PREFIX|..] == a && (PREFIX + b)[|PREFIX|..] == b;
  }

  /** Different builds have different records: an identifier determines the trimmed pipeline and the number. */
  lemma IdInjective(p: string, n: int, q: string, m: int)
    requires RunDeploymentId(p, n) == RunDeploymentId(q, m)
    ensures TrimSpace(p) == TrimSpace(q) && n == m
  {
    ItoaNoUnderscore(n);
    ItoaNoUnderscore(m);
    JoinInjective(TrimSpace(p), Itoa(n), TrimSpace(q), Itoa(m));
    ItoaInjective(n, m);
  }

  // ---- reading an identifier back ---------------------------------------------------------------------------

  function CutPrefix(s: string, prefix: string): Option<string> {
    if prefix <= s then Some(s[|prefix|..]) else None
  }

  function ReadBack(pipeline: string, id: string): string {
    match CutPrefix(id, "dep_ci_" + pipeline + "_")
    case None => ""
    case Some(rest) =>
      match Atoi(rest)
      case None => ""
      case Some(n) => "#" + Itoa(n)
  }

  /** The number of the run an identifier stands for; empty if it is not one of this pipeline's. */
  function RunVersionOf(pipelineId: string, deploymentId: string): string {
    ReadBack(TrimSpace(pipelineId), TrimSpace(deploymentId))
  }

  lemma TrimmedId(pipeline: string, number: string)
    requires number != "" && IsDigit(number[|number| - 1])
    ensures TrimSpace(Join(pipeline, number)) == Join(pipeline, number)
  {
    var id := Join(pipeline, number);
    assert id[0] == 'd' && id[|id| - 1] == number[|number| - 1];
    TrimmedStays(id);
  }

  lemma IdTrimmed(pipelineId: string, n: int, number: string)
    requires number == Itoa(n)
    ensures TrimSpace(Join(TrimSpace(pipelineId), number)) == Join(TrimSpace(pipelineId), number)
  {
    TrimmedId(TrimSpace(pipelineId), number);
  }

  lemma VersionOfTrimmed(pipelineId: string, deploymentId: string, id: string)
    requires TrimSpace(deploymentId) == id
    ensures RunVersionOf(pipelineId, deploymentId) == ReadBack(TrimSpace(pipelineId), id)
  {
  }

  lemma RunVersionIs(other: string, pipelineId: string, n: int)
    ensures RunVersionOf(other, RunDeploymentId(pipelineId, n)) ==
            ReadBack(TrimSpace(other), Join(TrimSpace(pipelineId), Itoa(n)))
  {
    IdTrimmed(pipelineId, n, Itoa(n));
    VersionOfTrimmed(other, RunDeploymentId(pipelineId, n), Join(TrimSpace(pipelineId), Itoa(n)));
  }

  lemma PrefixOfJoin(pipeline: string, number: string)
    ensures CutPrefix(Join(pipeline, number), PREFIX + pipeline + "_") == Some(number)
  {
  }

  lemma ReadBackOwn(pipeline: string, number: string, n: int)
    requires Atoi(number) == Some(n)
    ensures ReadBack(pipeline, Join(pipeline, number)) == Version(n)
  {
    PrefixOfJoin(pipeline, number);
  }

  lemma OtherRest(p: string, x: string, q: string, rest: string)
    requires CutPrefix(Join(p, x), PREFIX + q + "_") == Some(rest) && '_' !in x && '_' !in rest
    ensures p == q
  {
    assert Join(p, x) == PREFIX + q + "_" + rest;
    JoinInjective(p, x, q, rest);
  }

  lemma AtoiNoUnderscore(s: string)
    requires Atoi(s).Some?
    ensures '_' !in s
  {
    AtoiReads(s);
  }

  lemma ReadBackOther(p: string, x: string, q: string)
    requires p != q && '_' !in x
    ensures ReadBack(q, Join(p, x)) == ""
  {
    match CutPrefix(Join(p, x), PREFIX + q + "_")
    case None =>
    case Some(rest) =>
      if Atoi(rest).Some? {
        AtoiNoUnderscore(rest);
        OtherRest(p, x, q, rest);
      }
  }

  /** The number of every imported run is recovered, as it stands on the record. */
  lemma VersionRecovered(pipelineId: string, n: int)
    requires MIN_INT <= n <= MAX_INT
    ensures RunVersionOf(pipelineId, RunDeploymentId(pipelineId, n)) == "#" + Itoa(n) == Version(n)
  {
    RunVersionIs(pipelineId, pipelineId, n);
    AtoiItoa(n);
    ReadBackOwn(TrimSpace(pipelineId), Itoa(n), n);
  }

  /** An imported run is read as one of a pipeline exactly if it is one of that pipeline, even where one pipeline's name
      begins with another's. */
  lemma VersionOnlyOfOwn(pipelineId: string, n: int, other: string)
    requires MIN_INT <= n <= MAX_INT
    ensures RunVersionOf(other, RunDeploymentId(pipelineId, n)) != "" <==> TrimSpace(other) == TrimSpace(pipelineId)
  {
    RunVersionIs(other, pipelineId, n);
    if TrimSpace(other) == TrimSpace(pipelineId) {
      AtoiItoa(n);
      ReadBackOwn(TrimSpace(pipelineId), Itoa(n), n);
    } else {
      ItoaNoUnderscore(n);
      ReadBackOther(TrimSpace(pipelineId), Itoa(n), TrimSpace(other));
    }
  }

  // ---- whole passes -------------------------------------------------------------------------------------------

  /** How a pipeline's builds are numbered and identified. */
  function IdOf(pipelineId: string): int -> string {
    n => RunDeploymentId(pipelineId, n)
  }

  ghost predicate Injective(id: int -> string) {
    forall n, m :: id(n) == id(m) ==> n == m
  }

  lemma IdsInjective(pipelineId: string)
    ensures Injective(IdOf(pipelineId))
  {
    forall n, m | IdOf(pipelineId)(n) == IdOf(pipelineId)(m)
      ensures n == m { IdInjective(pipelineId, n, pipelineId, m); }
  }

  lemma ImportsDistinct(pipelineId: string, builds: seq<Build>, read: (string, Build) -> Import, id: int -> string)
    requires forall i, j | 0 <= i < j < |builds| :: builds[i].number != builds[j].number
    requires Injective(id) && forall i | 0 <= i < |builds| :: read(pipelineId, builds[i]).id == id(builds[i].number)
    ensures DistinctIds(Imports(pipelineId, builds, read))
  {
  }

  lemma SettledAt(records: Records, pipelineId: string, builds: seq<Build>, read: (string, Build) -> Import, i: nat)
    requires AllSettled(records, Imports(pipelineId, builds, read)) && i < |builds|
    ensures Settled(records, read(pipelineId, builds[i]))
  {
    assert Imports(pipelineId, builds, read)[i] == read(pipelineId, builds[i]);
  }

  /** Builds with distinct numbers have distinct records, and after one pass each is as its build wants it: the record
      of a build that ran has its status and as many steps as it has stages; one that did not run has none. A second
      pass is idle. */
  lemma BuildsConverge(records: Records, pipelineId: string, builds: seq<Build>, read: (string, Build) -> Import)
    requires forall i, j | 0 <= i < j < |builds| :: builds[i].number != builds[j].number
    requires forall i | 0 <= i < |builds| :: read(pipelineId, builds[i]).id == IdOf(pipelineId)(builds[i].number)
    ensures var imports := Imports(pipelineId, builds, read); var once := SyncAll(records, imports);
            && (forall i | 0 <= i < |builds| :: Settled(once, read(pipelineId, builds[i])))
            && Changes(once, imports) == 0 && SyncAll(once, imports) == once
  {
    IdsInjective(pipelineId);
    ImportsDistinct(pipelineId, builds, read, IdOf(pipelineId));
    DistinctConverge(records, Imports(pipelineId, builds, read));
    forall i | 0 <= i < |builds|
      ensures Settled(SyncAll(records, Imports(pipelineId, builds, read)), read(pipelineId, builds[i])) {
      SettledAt(SyncAll(records, Imports(pipelineId, builds, read)), pipelineId, builds, read, i);
    }
  }

  /** The result of a build, trimmed, spells this word of capitals, in whatever case. */
  ghost predicate Says(b: Build, word: string) {
    Spells(TrimSpace(b.result), word, ReadsUpper)
  }

  lemma CapitalWords()
    ensures forall word, c | word in ["SUCCESS", "SKIPPED", "NOT_BUILT"] && c in word ::
              !('a' <= c <= 'z') && c != '\U{131}' && c != '\U{17f}'
  {
  }

  lemma StatusOfWord(b: Build, word: string)
    requires ToUpper(TrimSpace(b.result)) == word
    ensures StatusFromBuild(b) == Success <==> !b.building && word == "SUCCESS"
    ensures StatusFromBuild(b) == Running <==> b.building || word == ""
    ensures IsSkippedBuild(b) <==> !b.building && (word == "SKIPPED" || word == "NOT_BUILT")
  {
    hide ToUpper, TrimSpace;
    assert |"SUCCESS"| == 7 && |""| == 0;
  }

  /** Success is what says so, running what is under way or has no result, and all else failed. */
  lemma StatusIff(b: Build)
    ensures StatusFromBuild(b) == Success <==> !b.building && Says(b, "SUCCESS")
    ensures StatusFromBuild(b) == Running <==> b.building || AllSpace(b.result)
    ensures IsSkippedBuild(b) <==> !b.building && (Says(b, "SKIPPED") || Says(b, "NOT_BUILT"))
  {
    hide StatusFromBuild, IsSkippedBuild, TrimSpace, Spells, AllSpace;
    var result := TrimSpace(b.result);
    StatusOfWord(b, ToUpper(result));
    CapitalWords();
    UpperSpells(result, "SUCCESS");
    UpperSpells(result, "SKIPPED");
    UpperSpells(result, "NOT_BUILT");
    BlankIff(b.result);
    assert ToUpper(result) == "" <==> result == "";
  }

  /** That is how a build is read. */
  lemma ReadsAsRecord(pipelineId: string, b: Build)
    ensures var a := ImportOf(pipelineId, b);
            && a.id == RunDeploymentId(pipelineId, b.number)
            && (a.run == None <==> IsSkippedBuild(b))
            && (a.run.Some? ==>
                 a.run.value.id == a.id && a.run.value.status == StatusFromBuild(b)
                 && a.run.value.steps == b.stages)
  {
  }

  /** What a record shows as its version is what its identifier reads as. */
  lemma VersionShown(pipelineId: string, b: Build)
    requires MIN_INT <= b.number <= MAX_INT && ImportOf(pipelineId, b).run.Some?
    ensures var d := ImportOf(pipelineId, b).run.value; RunVersionOf(pipelineId, d.id) == d.version
  {
    VersionRecovered(pipelineId, b.number);
    hide RunVersionOf, RunDeploymentId, Version;
  }

  /** When a run began and, if it is over and took any time, when it ended. */
  lemma TimesOfRun(pipelineId: string, b: Build)
    requires ImportOf(pipelineId, b).run.Some?
    ensures var d := ImportOf(pipelineId, b).run.value;
            && d.pipelineId == pipelineId && d.startedAt == b.startedAt
            && (d.completedAt.Some? <==> !b.building && b.duration > 0)
            && (d.completedAt.Some? ==> d.completedAt.value - d.startedAt == b.duration)
  {
  }

  /** The records say of a build what it says of itself; a build that did not run has no record. */
  ghost predicate Reflects(records: Records, pipelineId: string, b: Build) {
    var id := RunDeploymentId(pipelineId, b.number);
    if !b.building && (Says(b, "SKIPPED") || Says(b, "NOT_BUILT")) then id !in records
    else
      && id in records && |records[id].steps| == |b.stages|
      && (records[id].status == Success <==> !b.building && Says(b, "SUCCESS"))
      && (records[id].status == Running <==> b.building || AllSpace(b.result))
  }

  lemma SettledReflects(records: Records, pipelineId: string, b: Build)
    requires Settled(records, ImportOf(pipelineId, b))
    ensures Reflects(records, pipelineId, b)
  {
    ReadsAsRecord(pipelineId, b);
    StatusIff(b);
    hide ImportOf, RunDeploymentId, IsSkippedBuild, StatusFromBuild, Says, AllSpace;
  }

  /** Run on builds with distinct numbers and a store that does not fail, a synchronisation leaves records that reflect
      every build, and the same synchronisation once more reports nothing and changes nothing. */
  lemma SyncConverges(records: Records, pipelineId: string, builds: seq<Build>)
    requires forall i, j | 0 <= i < j < |builds| :: builds[i].number != builds[j].number
    ensures var imports := Imports(TrimSpace(pipelineId), builds, ImportOf); var once := SyncAll(records, imports);
            && (forall i | 0 <= i < |builds| :: Reflects(once, TrimSpace(pipelineId), builds[i]))
            && Changes(once, imports) == 0 && SyncAll(once, imports) == once
  {
    var p := TrimSpace(pipelineId);
    var once := SyncAll(records, Imports(p, builds, ImportOf));
    forall i | 0 <= i < |builds|
      ensures ImportOf(p, builds[i]).id == IdOf(p)(builds[i].number) { ReadsAsRecord(p, builds[i]); }
    hide ImportOf, RunDeploymentId, IdOf, Reflects, Settled, SyncAll, Changes;
    BuildsConverge(records, p, builds, ImportOf);
    forall i | 0 <= i < |builds| ensures Reflects(once, p, builds[i]) { SettledReflects(once, p, builds[i]); }
  }
}
