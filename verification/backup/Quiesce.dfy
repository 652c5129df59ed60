/** Stopping and resuming workloads for a cold backup (`internal/backup/domain/quiesce.go`), and the manifest
    that carries the plan to a restore (`internal/backup/domain/manifest.go`). */
module Quiesce {
  import opened Sequences
  import opened World

  datatype Workload = Workload(id: WorkloadId, replicas: int, ownerManaged: bool)

  datatype QuiesceTarget = QuiesceTarget(id: WorkloadId, originalReplicas: int, scaleDownTo: int, ownerManaged: bool)

  datatype WorkloadSpec = WorkloadSpec(id: WorkloadId, originalReplicas: int, ownerManaged: bool)

  datatype ComponentEntry = ComponentEntry(component: Component, resourceName: string, location: string,
                                           sizeBytes: nat, checksum: string)

  datatype Manifest = Manifest(namespace: string, workloads: seq<WorkloadSpec>, volumes: seq<VolumeSpec>,
                               components: seq<ComponentEntry>)

  function TargetOf(w: Workload): QuiesceTarget {
    QuiesceTarget(w.id, w.replicas, 0, w.ownerManaged)
  }

  /** One target per running workload, in listing order. */
  function PlanOf(workloads: seq<Workload>): (plan: seq<QuiesceTarget>)
    ensures forall t | t in plan :: t.originalReplicas > 0 && t.scaleDownTo == 0
  {
    if workloads == [] then []
    else
      var w := workloads[|workloads| - 1];
      PlanOf(workloads[..|workloads| - 1]) + if w.replicas <= 0 then [] else [TargetOf(w)]
  }

  /** Targets are exactly the running workloads, with what to put back; what was at zero is not in the plan. */
  lemma {:induction false} PlanCovers(workloads: seq<Workload>, t: QuiesceTarget)
    ensures t in PlanOf(workloads) <==>
            exists w :: w in workloads && w.replicas > 0
                        && t == QuiesceTarget(w.id, w.replicas, 0, w.ownerManaged)
  {
    if workloads != [] {
      var init, w := workloads[..|workloads| - 1], workloads[|workloads| - 1];
      PlanCovers(init, t);
      assert workloads == init + [w];
      assert forall v :: v in workloads <==> v in init || v == w;
    }
  }

  method NewQuiescePlan(workloads: seq<Workload>) returns (targets: seq<QuiesceTarget>)
    ensures targets == PlanOf(workloads)
  {
    targets := [];
    for n := 0 to |workloads|
      invariant targets == PlanOf(workloads[..n])
    {
      var w := workloads[n];
      assert workloads[..n + 1][..n] == workloads[..n];
      if w.replicas <= 0 { continue; }
      targets := targets + [TargetOf(w)];
    }
    assert workloads[..|workloads|] == workloads;
  }

  /** Resuming goes the other way round. */
  method ResumeOrder(targets: seq<QuiesceTarget>) returns (out: seq<QuiesceTarget>)
    ensures out == Reversed(targets)
  {
    var filled := new QuiesceTarget[|targets|](i requires 0 <= i < |targets| => targets[i]);
    for i := 0 to |targets|
      invariant forall j | |targets| - i <= j < |targets| :: filled[j] == targets[|targets| - 1 - j]
    {
      filled[|targets| - 1 - i] := targets[i];
    }
    out := filled[..];
  }

  // ---- the manifest ----------------------------------------------------------------------------------

  function SpecsOf(plan: seq<QuiesceTarget>): seq<WorkloadSpec> {
    seq(|plan|, i requires 0 <= i < |plan| => WorkloadSpec(plan[i].id, plan[i].originalReplicas, plan[i].ownerManaged))
  }

  function EntriesOf(artifacts: seq<Artifact>): seq<ComponentEntry> {
    seq(|artifacts|, i requires 0 <= i < |artifacts| =>
      var a := artifacts[i]; ComponentEntry(a.component, a.resourceName, a.location, a.sizeBytes, a.checksum))
  }

  method BuildManifest(namespace: string, plan: seq<QuiesceTarget>, volumes: seq<VolumeSpec>, artifacts: seq<Artifact>)
    returns (m: Manifest)
    ensures m == Manifest(namespace, SpecsOf(plan), volumes, EntriesOf(artifacts))
  {
    var workloads: seq<WorkloadSpec> := [];
    for n := 0 to |plan|
      invariant workloads == SpecsOf(plan[..n])
    {
      workloads := workloads + [WorkloadSpec(plan[n].id, plan[n].originalReplicas, plan[n].ownerManaged)];
    }
    var components: seq<ComponentEntry> := [];
    for n := 0 to |artifacts|
      invariant components == EntriesOf(artifacts[..n])
    {
      var a := artifacts[n];
      components := components + [ComponentEntry(a.component, a.resourceName, a.location, a.sizeBytes, a.checksum)];
    }
    assert plan[..|plan|] == plan && artifacts[..|artifacts|] == artifacts;
    m := Manifest(namespace, workloads, volumes, components);
  }
}
