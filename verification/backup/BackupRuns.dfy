/** The backup run aggregate (`internal/backup/domain/backup_run.go`). */
module BackupRuns {
  import opened World

  datatype Status = Pending | Running | Succeeded | Partial | Failed

  datatype Mode = Full | PlatformOnly | StackOnly | UnknownMode(name: string)

  function ModeComponents(mode: Mode): seq<Component> {
    match mode
    case PlatformOnly => [PlatformDB, KeycloakDB, OpenBaoKV]
    case StackOnly => [SharedResources, NamespaceResources, Volume]
    case _ => [PlatformDB, KeycloakDB, OpenBaoKV, SharedResources, NamespaceResources, Volume]
  }

  /** The status a run ends with, given which components were tried and which of them succeeded. */
  ghost predicate Verdict(results: map<Component, bool>, status: Status) {
    match status
    case Succeeded => results != map[] && forall c | c in results :: results[c]
    case Partial => (exists c :: c in results && results[c]) && (exists c :: c in results && !results[c])
    case Failed => forall c | c in results :: !results[c]
    case _ => false
  }

  /** Only volumes need the workloads stopped. */
  predicate RequiresQuiesce(scope: seq<Component>) {
    Volume in scope
  }

  class BackupRun {
    const scope: seq<Component>
    var status: Status

    constructor (scope: seq<Component>)
      ensures this.scope == scope && status == Pending
    {
      this.scope, status := scope, Pending;
    }

    method Start() returns (ok: bool)
      modifies this
      ensures ok == (old(status) == Pending) && status == if ok then Running else old(status)
    {
      ok := status == Pending;
      if ok { status := Running; }
    }

    /** Counts the failures and successes in whatever order the results come. */
    method Complete(results: map<Component, bool>)
      modifies this
      ensures Verdict(results, status)
    {
      if results == map[] {
        status := Failed;
        return;
      }
      var left, failed, succeeded := results.Keys, 0, 0;
      while left != {}
        invariant left <= results.Keys
        invariant failed >= 0 && succeeded >= 0
        invariant failed > 0 <==> exists c :: c in results && c !in left && !results[c]
        invariant succeeded > 0 <==> exists c :: c in results && c !in left && results[c]
        decreases left
      {
        var c :| c in left;
        left := left - {c};
        if results[c] { succeeded := succeeded + 1; } else { failed := failed + 1; }
      }
      status := if failed == 0 then Succeeded else if succeeded == 0 then Failed else Partial;
    }

    method Fail()
      modifies this
      ensures status == Failed
    {
      status := Failed;
    }
  }
}
