/** The outside a backup or restore acts on: a cluster, a request that may be cancelled at any moment, and
    external calls any of which may fail. Everything that happened is in the trace. */
module World {
  datatype Component = PlatformDB | KeycloakDB | OpenBaoKV | NamespaceResources | SharedResources | Volume

  datatype WorkloadId = WorkloadId(kind: string, namespace: string, name: string)

  type Cluster = map<WorkloadId, int>

  datatype VolumeSpec = VolumeSpec(name: string, sizeBytes: nat, checksum: string)

  datatype Artifact = Artifact(component: Component, resourceName: string, location: string, sizeBytes: nat,
                               checksum: string)

  /** The external calls of the two use cases. */
  datatype Effect =
    // backup
    | ListReleases | ListPVCs | Preflight(required: nat) | Put(component: Component, resourceName: string)
    | DumpShared | ListWorkloads | PauseRotation | WaitStopped | ResumeRotation
    | CreateRun | SaveRun(final: bool) | Notify | ServerVersion
    // restore
    | CreateRestore | GetRun | ListArtifacts | Stat(artifact: Artifact) | SaveRestore | EnsureNamespace
    | ApplySecrets(artifact: Artifact) | EnsureControllers | ApplyShared(artifact: Artifact)
    | EnsurePVC(volume: VolumeSpec) | RestoreVolume(artifact: Artifact) | ApplyResources(artifact: Artifact)
    | RestoreDB(artifact: Artifact) | ResetConnections | ImportVault(artifact: Artifact)
    | CheckReferences | RepinGateway
    // both
    | SchemaState | Scale(id: WorkloadId, replicas: int)

  /** How the outside answers a call: it may fail, with or without having taken effect, and the request may be
      cancelled meanwhile; the rest describes what was stored or read, and how long it took. */
  datatype Answer = Answer(fails: bool, lost: bool, cancels: bool, sum: string, location: string, bytes: nat, took: nat)

  /** A call that happened: whether it succeeded, if not, whether it took effect all the same, the checksum it reported,
      whether it was detached from the request, whether the request was over when it was made, and the answers that were
      still to come. */
  datatype Event = Event(effect: Effect, ok: bool, lost: bool, sum: string, detached: bool, gone: bool,
                         ahead: seq<Answer>)

  function Apply(c: Cluster, e: Event): Cluster {
    if e.effect.Scale? && (e.ok || e.lost) then c[e.effect.id := e.effect.replicas] else c
  }

  /** The cluster after the first n events. */
  function After(c: Cluster, trace: seq<Event>, n: nat): Cluster
    requires n <= |trace|
  {
    if n == 0 then c else Apply(After(c, trace, n - 1), trace[n - 1])
  }

  function Replay(c: Cluster, trace: seq<Event>): Cluster {
    After(c, trace, |trace|)
  }

  lemma {:induction false} AfterPrefix(c: Cluster, trace: seq<Event>, more: seq<Event>, n: nat)
    requires n <= |trace|
    ensures After(c, trace + more, n) == After(c, trace, n)
  {
    if n > 0 { AfterPrefix(c, trace, more, n - 1); }
  }

  lemma ReplaySnoc(c: Cluster, trace: seq<Event>, e: Event)
    ensures Replay(c, trace + [e]) == Apply(Replay(c, trace), e)
  {
    AfterPrefix(c, trace, [e], |trace|);
  }

  lemma ReplayLast(c: Cluster, trace: seq<Event>)
    requires trace != []
    ensures Replay(c, trace) == Apply(Replay(c, trace[..|trace| - 1]), trace[|trace| - 1])
  {
    assert trace == trace[..|trace| - 1] + [trace[|trace| - 1]];
    ReplaySnoc(c, trace[..|trace| - 1], trace[|trace| - 1]);
  }

  lemma {:induction false} ReplayConcat(c: Cluster, a: seq<Event>, b: seq<Event>)
    ensures Replay(c, a + b) == Replay(Replay(c, a), b)
  {
    if b == [] {
      assert a + b == a;
    } else {
      var init, e := b[..|b| - 1], b[|b| - 1];
      ReplayConcat(c, a, init);
      ReplaySnoc(c, a + init, e);
      ReplaySnoc(Replay(c, a), init, e);
      assert a + b == (a + init) + [e] && b == init + [e];
    }
  }

  ghost predicate AllOk(trace: seq<Event>) {
    forall i | 0 <= i < |trace| :: trace[i].ok
  }

  /** Nothing fails of itself; the request may still be cancelled. */
  predicate NeverFails(answers: seq<Answer>) {
    answers == [] || (!answers[0].fails && NeverFails(answers[1..]))
  }

  lemma AllOkSnoc(trace: seq<Event>, e: Event)
    ensures AllOk(trace + [e]) <==> AllOk(trace) && e.ok
  {
    if AllOk(trace + [e]) {
      assert (trace + [e])[|trace|] == e;
      forall i | 0 <= i < |trace| ensures trace[i].ok { assert (trace + [e])[i] == trace[i]; }
    }
  }

  /** Under the request's own context a call does nothing once the request is over; and over is over. */
  ghost predicate Ceases(trace: seq<Event>) {
    && (forall i {:trigger trace[i].gone} | 0 <= i < |trace| && trace[i].gone && !trace[i].detached ::
          !trace[i].ok && !trace[i].lost)
    && (forall i, j {:trigger trace[i].gone, trace[j].gone} | 0 <= i < j < |trace| && trace[i].gone :: trace[j].gone)
  }

  /** No call fails of itself from one on for which no failure lay ahead. */
  ghost predicate Answered(trace: seq<Event>) {
    forall i, j {:trigger trace[i].ahead, trace[j].gone} |
      0 <= i <= j < |trace| && NeverFails(trace[i].ahead) && (trace[j].detached || !trace[j].gone) :: trace[j].ok
  }

  /** What holds of everything that ever happened outside: `cancelled` now, and with these answers still to come. */
  ghost predicate Lawful(trace: seq<Event>, cancelled: bool, answers: seq<Answer>) {
    && Ceases(trace) && Answered(trace)
    && (forall i {:trigger trace[i].gone} | 0 <= i < |trace| && trace[i].gone :: cancelled)
    && (forall i {:trigger trace[i].ahead} | 0 <= i < |trace| && NeverFails(trace[i].ahead) :: NeverFails(answers))
  }

  lemma LawfulSnoc(trace: seq<Event>, was: bool, e: Event, now: bool, answers: seq<Answer>)
    requires Lawful(trace, was, e.ahead) && e.gone == was && (was ==> now)
    requires was && !e.detached ==> !e.ok && !e.lost
    requires NeverFails(e.ahead) ==> NeverFails(answers) && (e.detached || !was ==> e.ok)
    ensures Lawful(trace + [e], now, answers)
  {
    var all, n := trace + [e], |trace|;
    assert all[n] == e && forall i | 0 <= i < n :: all[i] == trace[i];
    forall i | 0 <= i < |all| && NeverFails(all[i].ahead) ensures NeverFails(e.ahead) {
      if i < n { assert NeverFails(trace[i].ahead); }
    }
    forall i, j | 0 <= i <= j < |all| && NeverFails(all[i].ahead) && (all[j].detached || !all[j].gone)
      ensures all[j].ok
    {
      if j < n { assert NeverFails(trace[i].ahead) && trace[j].gone == all[j].gone; }
    }
    forall i | 0 <= i < |all| && all[i].gone ensures was {
      if i < n { assert trace[i].gone; }
    }
  }

  lemma PartAt(before: seq<Event>, seg: seq<Event>, i: nat)
    requires i < |seg|
    ensures (before + seg)[|before| + i] == seg[i]
  {
  }

  lemma LawfulShift(all: seq<Event>, seg: seq<Event>, n: nat)
    requires Ceases(all) && Answered(all) && |all| == n + |seg|
    requires forall i {:trigger seg[i]} | 0 <= i < |seg| :: seg[i] == all[n + i]
    ensures Ceases(seg) && Answered(seg)
  {
    forall i | 0 <= i < |seg| && seg[i].gone && !seg[i].detached ensures !seg[i].ok && !seg[i].lost {
      assert all[n + i].gone;
    }
    forall i, j | 0 <= i < j < |seg| && seg[i].gone ensures seg[j].gone {
      assert all[n + i].gone && all[n + j].gone;
    }
    forall i, j | 0 <= i <= j < |seg| && NeverFails(seg[i].ahead) && (seg[j].detached || !seg[j].gone)
      ensures seg[j].ok
    {
      assert NeverFails(all[n + i].ahead) && (all[n + j].detached || !all[n + j].gone);
    }
  }

  /** So it is of every part of what happened. */
  lemma LawfulPart(before: seq<Event>, seg: seq<Event>)
    requires Ceases(before + seg) && Answered(before + seg)
    ensures Ceases(seg) && Answered(seg)
  {
    hide Ceases, Answered;
    forall i | 0 <= i < |seg| ensures seg[i] == (before + seg)[|before| + i] { PartAt(before, seg, i); }
    LawfulShift(before + seg, seg, |before|);
  }

  lemma Joined(head: seq<Event>, a: seq<Event>, b: seq<Event>)
    ensures head + a + b == head + (a + b)
  {
  }

  class Outside {
    var cluster: Cluster
    var cancelled: bool
    var answers: seq<Answer>
    ghost var trace: seq<Event>
    ghost const start: Cluster

    /** The cluster is what the trace made of it, and what happened could happen. */
    ghost predicate Valid()
      reads this
    {
      cluster == Replay(start, trace) && Lawful(trace, cancelled, answers)
    }

    constructor (cluster: Cluster, answers: seq<Answer>)
      ensures Valid() && this.cluster == cluster && start == cluster && this.answers == answers
              && !cancelled && trace == []
    {
      this.cluster, this.answers, cancelled := cluster, answers, false;
      trace, start := [], cluster;
    }

    method NextAnswer() returns (answer: Answer)
      modifies this`answers
      ensures NeverFails(old(answers)) ==> NeverFails(answers) && !answer.fails
    {
      if answers == [] { return Answer(false, false, false, "", "", 1, 0); }
      answer := answers[0];
      answers := answers[1..];
    }

    /** One external call. Under the request's own context it fails once the request is cancelled; a detached
        call does not look at the request. */
    method Call(effect: Effect, detached: bool) returns (ok: bool, answer: Answer, ghost e: Event)
      requires Valid()
      modifies this
      ensures Valid() && trace == old(trace) + [e] && e.effect == effect && e.ok == ok && e.sum == answer.sum
      ensures e.detached == detached && e.gone == old(cancelled) && e.ahead == old(answers)
    {
      hide Lawful, Replay;
      answer := NextAnswer();
      var reached := detached || !cancelled;
      ok := reached && !answer.fails;
      var lost := reached && !ok && answer.lost;
      if effect.Scale? && (ok || lost) {
        cluster := cluster[effect.id := effect.replicas];
      }
      cancelled := cancelled || answer.cancels;
      e := Event(effect, ok, lost, answer.sum, detached, old(cancelled), old(answers));
      ReplaySnoc(start, trace, e);
      LawfulSnoc(trace, old(cancelled), e, cancelled, answers);
      trace := trace + [e];
    }

    /** Waits before another try. Giving up means the request was cancelled; a cancellation may also go unnoticed
        until the next call. */
    method Sleep() returns (gaveUp: bool, took: nat)
      requires Valid()
      modifies this
      ensures Valid() && trace == old(trace) && (gaveUp || old(cancelled) ==> cancelled)
    {
      var answer := NextAnswer();
      cancelled := cancelled || answer.cancels;
      gaveUp, took := cancelled && answer.fails, answer.took;
    }
  }
}
