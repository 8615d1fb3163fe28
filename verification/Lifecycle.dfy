/** The opening that the three reconcilers share: read the object, see a deletion through, put the
finalizer on.
*/
module Lifecycle {
  import opened Resources
  import opened Builders
  import opened Protocol
  import opened Invariants
  import opened Outcomes
  import opened Calls
  import opened Clusters
  import opened Objects
  import opened DatabasusApi

  /** Either the reconcile ends here, with this result, or the object is to be synchronised. */
  method Open(databasus: DatabasusClient, ctx: Key) returns (done: Option<Result>, resource: Resource?, ghost ver: nat)
    requires databasus.Valid() && databasus.cluster.state.FlightOf(ctx).Idle? && ctx in databasus.cluster.state.queued
    modifies databasus.cluster
    ensures databasus.Valid() && Extends(old(databasus.cluster.trace), databasus.cluster.trace, ctx)
    ensures done.Some? ==> databasus.cluster.Returns(ctx, done.value) && done.value.requeueAfter <= 10
    ensures done.None? ==>
              && resource != null && fresh(resource) && resource.spec.Kind() == ctx.kind
              && !resource.deleting && Guarded(ctx.kind, resource.finalizers)
              && databasus.cluster.At(ctx, resource.Value(), Gathering(ver, []))
  {
    hide Plan, Finalizer, Guarded, Run;
    var cluster := databasus.cluster;
    var err, got := cluster.Get(ctx);
    if err { return Some(Result(0, true)), null, 0; }
    if got.None? { return Some(Result(0, false)), null, 0; }
    resource := new Resource(got.value);
    ver := cluster.state.FlightOf(ctx).Ver();

    if resource.deleting {
      if Finalizer(ctx.kind) in resource.finalizers {
        var result := Finalize(databasus, ctx, resource, ver);
        return Some(result), null, 0;
      }
      return Some(Result(0, false)), null, 0;
    }

    if Finalizer(ctx.kind) !in resource.finalizers {
      resource.finalizers := AddFinalizer(resource.finalizers, Finalizer(ctx.kind));
      err := cluster.Update(ctx, resource.Value());
      return Some(Result(0, err)), null, 0;
    }
    GuardedIff(ctx.kind, resource.finalizers);
    return None, resource, ver;
  }

  /** Deletion: the remote record first, then the finalizer. */
  method Finalize(databasus: DatabasusClient, ctx: Key, resource: Resource, ghost ver: nat) returns (result: Result)
    requires databasus.Valid()
    requires databasus.cluster.At(ctx, resource.Value(), if resource.id != "" then Removing(ver) else Detaching(ver))
    modifies databasus.cluster, resource
    ensures databasus.Valid() && Extends(old(databasus.cluster.trace), databasus.cluster.trace, ctx)
    ensures databasus.cluster.Returns(ctx, result) && result.requeueAfter <= 10
  {
    hide Finalizer, Plan, Run;
    var err;
    if resource.id != "" {
      ghost var x, present;
      err, x, present := databasus.Delete(ctx, resource.id);
      if err { return Result(10, false); }
    }
    resource.finalizers := RemoveFinalizer(resource.finalizers, Finalizer(ctx.kind));
    err := databasus.cluster.Update(ctx, resource.Value());
    return Result(0, err);
  }
}
