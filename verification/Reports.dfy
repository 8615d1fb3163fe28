/** How a reconcile ends: the Ready condition and the status write, as all three controllers do it. */
module Reports {
  import opened Resources
  import opened Conditions
  import opened Builders
  import opened Protocol
  import opened Invariants
  import opened Safety
  import opened Clusters
  import opened Objects

  /** The current version is `o` with this status, but for the conditions; Ready is found there with this
      verdict for the generation of `o`. */
  ghost predicate Committed(cluster: Cluster, ctx: Key, o: Object, status: Status, ready: ConditionStatus, reason: string,
                            text: string)
    reads cluster
  {
    var last := Last(cluster.state.Versions(ctx));
    last.Present? &&
    var now := last.Value().status;
    && last.Value() == o.(status := now) && now == status.(conditions := now.conditions)
    && var found := FindStatusCondition(now.conditions, "Ready");
       && found.Some? && found.value.status == ready && found.value.reason == reason && found.value.message == text
       && found.value.observedGeneration == o.generation
  }

  /** A failure: the Ready condition turns False, and whether the status write succeeds is ignored. */
  method ReportFailure(cluster: Cluster, ctx: Key, resource: Resource, reason: string, text: string,
                       ghost o: Object, ghost ver: nat)
    returns (ghost err: bool)
    requires cluster.Valid() && resource.Value() == o.(status := o.status.(id := resource.id))
    requires cluster.At(ctx, o, Reporting(ver, Failure(o, reason, text, resource.id)))
    modifies cluster, resource
    ensures cluster.Valid() && Extends(old(cluster.trace), cluster.trace, ctx)
    ensures !err ==> Committed(cluster, ctx, o, o.status.(id := old(resource.id)), False, reason, text)
    ensures cluster.Returns(ctx, ResultOf(ctx.kind, Failure(o, reason, text, old(resource.id)), false))
  {
    hide SetStatusCondition;
    var now: int := *;
    resource.SetReadyCondition(False, reason, text, now);
    assert resource.StatusValue() == StatusOf(o, Failure(o, reason, text, resource.id), now);
    var failed := cluster.UpdateStatus(ctx, resource.StatusValue(), now);
    err := failed;
    FailuresAlike(ctx.kind, o, reason, text, resource.id, err);
  }

  lemma FailuresAlike(kind: Kind, o: Object, reason: string, text: string, id: string, accepted: bool)
    ensures ResultOf(kind, Failure(o, reason, text, id), accepted) == ResultOf(kind, Failure(o, reason, text, id), false)
  {
  }

  /** What a failure tells the work queue. */
  lemma FailureResults(kind: Kind, o: Object, text: string, id: string)
    ensures ResultOf(kind, Failure(o, DEPENDENCY, text, id), false) == Result(10, false)
    ensures ResultOf(kind, Failure(o, UNSUPPORTED, text, id), false) == Result(0, false)
    ensures ResultOf(kind, Failure(o, SECRET, text, id), false) == Result(30, false)
    ensures ResultOf(kind, Failure(o, SYNC_FAILED, text, id), false) == Result(30, false)
    ensures ResultOf(kind, Failure(o, CONFIG_FAILED, text, id), false) == Result(30, false)
    ensures ResultOf(kind, Failure(o, PROBE_FAILED, text, id), false) == Result(30, false)
  {
    var reasons := [SECRET, SYNC_FAILED, CONFIG_FAILED, PROBE_FAILED];
    forall i | 0 <= i < 4 ensures reasons[i] != DEPENDENCY && reasons[i] != UNSUPPORTED {
      assert reasons[i][0] != DEPENDENCY[0] && reasons[i][0] != UNSUPPORTED[0];
    }
    assert DEPENDENCY[0] != UNSUPPORTED[0];
    assert reasons[0] == SECRET && reasons[1] == SYNC_FAILED && reasons[2] == CONFIG_FAILED && reasons[3] == PROBE_FAILED;
  }

  /** What a success tells it. */
  lemma SuccessResults(kind: Kind, id: string, vitals: Vitals)
    ensures ResultOf(kind, Success(kind, id, vitals), false) == Result(0, true)
    ensures ResultOf(kind, Success(kind, id, vitals), true) == Result(if kind == BackupKind then 60 else 0, false)
  {
  }

  /** A success: the observed generation moves up and the Ready condition turns True. If the write goes
      through, the object is Ready at its current generation, under this ID. */
  method ReportSuccess(cluster: Cluster, ctx: Key, resource: Resource, ghost o: Object, ghost ver: nat, ghost vitals: Vitals)
    returns (err: bool)
    requires cluster.Valid()
    requires resource.Value() == o.(status := Status(resource.id, o.status.observedGeneration, o.status.conditions, vitals))
    requires cluster.At(ctx, o, Reporting(ver, Success(ctx.kind, resource.id, vitals)))
    modifies cluster, resource
    ensures cluster.Valid() && Extends(old(cluster.trace), cluster.trace, ctx)
    ensures cluster.Returns(ctx, ResultOf(ctx.kind, Success(ctx.kind, old(resource.id), vitals), !err))
    ensures !err ==> Committed(cluster, ctx, o, Status(old(resource.id), o.generation, o.status.conditions, vitals), True,
                               "Synced", SyncedMessage(ctx.kind))
    ensures !err ==> var last := Last(cluster.state.Versions(ctx));
                     last.Present? && ReadyAtItsGeneration(last.Value()) && last.Value().status.id == old(resource.id)
  {
    hide SetStatusCondition, SyncedMessage, ResultOf, IsReady;
    var now: int := *;
    resource.observedGeneration := resource.generation;
    resource.SetReadyCondition(True, SYNCED, SyncedMessage(ctx.kind), now);
    assert resource.StatusValue() == StatusOf(o, Success(ctx.kind, resource.id, vitals), now);
    ReportedTwice(ctx.kind, o, resource.id, vitals, now, now);
    err := cluster.UpdateStatus(ctx, resource.StatusValue(), now);
  }
}
