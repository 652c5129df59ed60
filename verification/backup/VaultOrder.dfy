/** The vault and the platform database in a restore: `restorePlatform` in `internal/backup/usecase/run_restore.go` goes
    through the artifacts in the order in which `execute` in `internal/backup/usecase/run_backup.go` stored them. */
module VaultOrder {
  import opened World
  import opened BackupRuns
  import opened RestorePlan
  import BackupTrace
  import RunBackup

  predicate RestoresPlatformDB(s: Step) {
    s.effect.RestoreDB? && s.effect.artifact.component == PlatformDB
  }

  ghost predicate HasVault(plan: seq<Step>) {
    exists i :: 0 <= i < |plan| && plan[i].effect.ImportVault?
  }

  ghost predicate HasDatabase(plan: seq<Step>) {
    exists j :: 0 <= j < |plan| && RestoresPlatformDB(plan[j])
  }

  /** The vault is imported before the platform database it was exported with is back. */
  ghost predicate VaultEarly(plan: seq<Step>) {
    exists i, j :: 0 <= i < j < |plan| && plan[i].effect.ImportVault? && RestoresPlatformDB(plan[j])
  }

  ghost predicate Stores(artifacts: seq<Artifact>, c: Component) {
    exists i :: 0 <= i < |artifacts| && artifacts[i].component == c
  }

  /** The vault was stored before the platform database. */
  ghost predicate VaultStoredFirst(artifacts: seq<Artifact>) {
    exists i, j ::
      0 <= i < j < |artifacts| && artifacts[i].component == OpenBaoKV && artifacts[j].component == PlatformDB
  }

  lemma HasJoin(p: seq<Step>, q: seq<Step>)
    ensures HasVault(p + q) <==> HasVault(p) || HasVault(q)
    ensures HasDatabase(p + q) <==> HasDatabase(p) || HasDatabase(q)
  {
    var all := p + q;
    assert forall k | 0 <= k < |q| :: all[|p| + k] == q[k];
    if i :| 0 <= i < |p| && p[i].effect.ImportVault? { assert all[i].effect.ImportVault?; }
    if i :| 0 <= i < |p| && RestoresPlatformDB(p[i]) { assert RestoresPlatformDB(all[i]); }
    if HasVault(q) {
      var k :| 0 <= k < |q| && q[k].effect.ImportVault?;
      assert all[|p| + k].effect.ImportVault?;
    }
    if HasDatabase(q) {
      var k :| 0 <= k < |q| && RestoresPlatformDB(q[k]);
      assert RestoresPlatformDB(all[|p| + k]);
    }
    if HasVault(all) {
      var k :| 0 <= k < |all| && all[k].effect.ImportVault?;
      assert k >= |p| ==> q[k - |p|].effect.ImportVault?;
    }
    if HasDatabase(all) {
      var k :| 0 <= k < |all| && RestoresPlatformDB(all[k]);
      assert k >= |p| ==> RestoresPlatformDB(q[k - |p|]);
    }
  }

  /** Two parts, the second of which has no vault before its database. */
  lemma EarlyJoin(p: seq<Step>, q: seq<Step>)
    requires !VaultEarly(q)
    ensures VaultEarly(p + q) <==> VaultEarly(p) || (HasVault(p) && HasDatabase(q))
  {
    var all := p + q;
    assert forall k | 0 <= k < |q| :: all[|p| + k] == q[k];
    if VaultEarly(p) {
      var i, j :| 0 <= i < j < |p| && p[i].effect.ImportVault? && RestoresPlatformDB(p[j]);
      assert all[i] == p[i] && all[j] == p[j];
    }
    if HasVault(p) && HasDatabase(q) {
      var i :| 0 <= i < |p| && p[i].effect.ImportVault?;
      var k :| 0 <= k < |q| && RestoresPlatformDB(q[k]);
      assert all[i] == p[i] && all[|p| + k] == q[k];
    }
    if VaultEarly(all) {
      var i, j :| 0 <= i < j < |all| && all[i].effect.ImportVault? && RestoresPlatformDB(all[j]);
      assert i < |p| ==> p[i] == all[i];
      assert i >= |p| ==> q[i - |p|] == all[i];
      assert if j < |p| then p[j] == all[j] else q[j - |p|] == all[j];
    }
  }

  /** What one artifact adds to the platform's part. */
  lemma PlatformStep(connections: bool, vault: bool, a: Artifact)
    ensures var steps := StepsOf(Platform(connections, vault), a);
            && !VaultEarly(steps)
            && (HasVault(steps) <==> vault && a.component == OpenBaoKV)
            && (HasDatabase(steps) <==> a.component == PlatformDB)
  {
    var steps := StepsOf(Platform(connections, vault), a);
    if a.component == PlatformDB { assert RestoresPlatformDB(steps[0]); }
    if vault && a.component == OpenBaoKV { assert steps[0].effect.ImportVault?; }
  }

  lemma StoredSnoc(init: seq<Artifact>, a: Artifact, c: Component)
    ensures Stores(init + [a], c) <==> Stores(init, c) || a.component == c
    ensures VaultStoredFirst(init + [a]) <==>
            VaultStoredFirst(init) || (Stores(init, OpenBaoKV) && a.component == PlatformDB)
  {
    var all := init + [a];
    assert all[|init|] == a && forall k | 0 <= k < |init| :: all[k] == init[k];
    if Stores(init, c) {
      var k :| 0 <= k < |init| && init[k].component == c;
      assert all[k].component == c;
    }
    if VaultStoredFirst(init) {
      var i, j :| 0 <= i < j < |init| && init[i].component == OpenBaoKV && init[j].component == PlatformDB;
      assert all[i] == init[i] && all[j] == init[j];
    }
    if Stores(init, OpenBaoKV) && a.component == PlatformDB {
      var k :| 0 <= k < |init| && init[k].component == OpenBaoKV;
      assert all[k] == init[k] && all[|init|] == a;
    }
  }

  lemma {:induction false} LoopVaultEarly(connections: bool, artifacts: seq<Artifact>)
    ensures var plan := Loop(Platform(connections, true), artifacts);
            && (HasVault(plan) <==> Stores(artifacts, OpenBaoKV))
            && (VaultEarly(plan) <==> VaultStoredFirst(artifacts))
  {
    if artifacts != [] {
      var init, a := artifacts[..|artifacts| - 1], artifacts[|artifacts| - 1];
      assert artifacts == init + [a];
      var before, steps := Loop(Platform(connections, true), init), StepsOf(Platform(connections, true), a);
      LoopVaultEarly(connections, init);
      PlatformStep(connections, true, a);
      HasJoin(before, steps);
      EarlyJoin(before, steps);
      StoredSnoc(init, a, OpenBaoKV);
      hide HasVault, HasDatabase, VaultEarly, Stores, VaultStoredFirst, StepsOf;
    }
  }

  lemma {:induction false} LoopWithoutVault(connections: bool, artifacts: seq<Artifact>)
    ensures !HasVault(Loop(Platform(connections, false), artifacts))
  {
    if artifacts != [] {
      LoopWithoutVault(connections, artifacts[..|artifacts| - 1]);
      PlatformStep(connections, false, artifacts[|artifacts| - 1]);
      HasJoin(Loop(Platform(connections, false), artifacts[..|artifacts| - 1]),
              StepsOf(Platform(connections, false), artifacts[|artifacts| - 1]));
    }
  }

  /** The database comes before the vault in a restore of the platform exactly if the vault is left for later, or no
      vault was stored before a platform database. */
  lemma VaultEarlyIff(job: RestoreJob)
    requires job.TouchesPlatform()
    ensures VaultEarly(PlatformPlan(job)) <==> !job.DefersVault() && VaultStoredFirst(job.artifacts)
    ensures job.DefersVault() ==> !HasVault(PlatformPlan(job))
  {
    if job.DefersVault() {
      LoopWithoutVault(job.connections, job.artifacts);
      assert VaultEarly(PlatformPlan(job)) ==> HasVault(PlatformPlan(job));
    } else {
      LoopVaultEarly(job.connections, job.artifacts);
    }
  }

  /** A restore of the platform alone, from a vault and then a database. */
  lemma VaultBeforeDatabase(job: RestoreJob, vault: Artifact, db: Artifact)
    requires job.mode == PlatformOnly && job.artifacts == [vault, db]
    requires vault.component == OpenBaoKV && db.component == PlatformDB
    ensures |PlatformPlan(job)| >= 2
    ensures PlatformPlan(job)[0].effect == ImportVault(vault) && PlatformPlan(job)[1].effect == RestoreDB(db)
  {
    var phase := Platform(job.connections, true);
    assert job.artifacts[..1] == [vault] && [vault][..0] == [];
    assert Loop(phase, [vault]) == Loop(phase, []) + StepsOf(phase, vault);
    assert Loop(phase, job.artifacts) == Loop(phase, [vault]) + StepsOf(phase, db);
  }

  /** What a backup exports of both, it stores vault first. */
  lemma BackupStoresVaultFirst(backup: RunBackup.Job, x: RunBackup.Execution)
    requires RunBackup.Complete(backup, x)
    ensures VaultStoredFirst(x.artifacts) <==> Stores(x.artifacts, OpenBaoKV) && Stores(x.artifacts, PlatformDB)
    ensures forall i, j | 0 <= i < |x.artifacts| && 0 <= j < |x.artifacts| ::
              x.artifacts[i].component == OpenBaoKV && x.artifacts[j].component == PlatformDB ==> i < j
  {
    var a := x.artifacts;
    forall i, j | 0 <= i < |a| && 0 <= j < |a| && a[i].component == OpenBaoKV && a[j].component == PlatformDB
      ensures i < j
    {
      assert RunBackup.StageOf(a[i]) < RunBackup.StageOf(a[j]);
    }
    if Stores(a, OpenBaoKV) && Stores(a, PlatformDB) {
      var i :| 0 <= i < |a| && a[i].component == OpenBaoKV;
      var j :| 0 <= j < |a| && a[j].component == PlatformDB;
      assert i < j;
    }
  }

  /** So where the vault is not left for later, a backup that holds both is always restored vault first. */
  lemma BackupRestoresVaultFirst(backup: RunBackup.Job, x: RunBackup.Execution, job: RestoreJob)
    requires RunBackup.Complete(backup, x) && job.artifacts == x.artifacts
    requires job.TouchesPlatform() && !job.DefersVault()
    ensures VaultEarly(PlatformPlan(job)) <==> Stores(x.artifacts, OpenBaoKV) && Stores(x.artifacts, PlatformDB)
  {
    BackupStoresVaultFirst(backup, x);
    VaultEarlyIff(job);
    hide VaultEarly, VaultStoredFirst, PlatformPlan, RunBackup.Complete;
  }
}
