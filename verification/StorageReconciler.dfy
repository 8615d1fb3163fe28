/** The controller of Storages. */
module StorageController {
  import opened Resources
  import opened Conditions
  import opened Builders
  import opened Protocol
  import opened Invariants
  import opened Calls
  import opened Clusters
  import opened Objects
  import opened Pointers
  import opened Lifecycle
  import opened Secrets
  import opened Reports
  import opened DatabasusApi

  lemma S3Plan(spec: StorageSpec)
    requires spec.storageType == STORAGE_S3
    ensures spec.s3.None? ==> Plan(ForStorage(spec)) == [Reject(SECRET)]
    ensures spec.s3.Some? ==>
              var s3 := spec.s3.value;
              Plan(ForStorage(spec)) == [Value(s3.accessKeySecretRef), Value(s3.secretKeySecretRef)]
  {
  }

  /** Where the plan of an SFTP storage reads what. */
  lemma SftpPlan(spec: StorageSpec)
    requires spec.storageType == STORAGE_SFTP
    ensures spec.sftp.None? ==> Plan(ForStorage(spec)) == [Reject(SECRET)]
    ensures spec.sftp.Some? ==>
              var sftp := spec.sftp.value;
              var plan := Plan(ForStorage(spec));
              var second := if sftp.passwordSecretRef.Some? then 1 else 0;
              && (sftp.passwordSecretRef.Some? ==> 0 < |plan| && plan[0] == Value(sftp.passwordSecretRef.value))
              && (sftp.privateKeySecretRef.Some? ==> second < |plan| && plan[second] == Value(sftp.privateKeySecretRef.value))
  {
  }

  lemma SftpComplete(workspace: string, spec: StorageSpec, password: string, privateKey: string)
    requires spec.storageType == STORAGE_SFTP && spec.sftp.Some?
    requires spec.sftp.value.passwordSecretRef.None? ==> password == ""
    requires spec.sftp.value.privateKeySecretRef.None? ==> privateKey == ""
    ensures var sftp := spec.sftp.value;
            var got := (if sftp.passwordSecretRef.Some? then [password] else []) +
                       (if sftp.privateKeySecretRef.Some? then [privateKey] else []);
            && Complete(ForStorage(spec), got)
            && StorageRequestOf(workspace, spec, got) ==
               StorageRequest("", workspace, STORAGE_SFTP, spec.name, None,
                 Some(SftpRequest(sftp.host, sftp.port, sftp.username, password, privateKey, sftp.path, sftp.isSkipHostKeyVerify)))
  {
    SftpPlan(spec);
  }

  class StorageReconciler {
    const cluster: Cluster
    const databasus: DatabasusClient

    ghost predicate Valid()
      reads cluster
    {
      databasus.cluster == cluster && databasus.Valid()
    }

    constructor (databasus: DatabasusClient)
      requires databasus.Valid()
      ensures Valid() && this.databasus == databasus
    {
      this.databasus := databasus;
      this.cluster := databasus.cluster;
    }

    /** The request has been built from what was read, or the first failed read is to be reported. */
    ghost predicate Built(ctx: Key, o: Object, ver: nat, req: Option<StorageRequest>, text: string)
      requires o.spec.ForStorage?
      reads cluster
    {
      if req.None? then cluster.At(ctx, o, Reporting(ver, Failure(o, SECRET, text, o.status.id)))
      else
        exists got: seq<string> ::
          && cluster.At(ctx, o, Gathering(ver, got)) && Complete(o.spec, got)
          && req.value == StorageRequestOf(cluster.workspace, o.spec.storage, got)
    }

    method BuildS3(ctx: Key, spec: StorageSpec, req: Pointer<StorageRequest>, ghost o: Object, ghost ver: nat)
      returns (err: bool, text: string)
      requires Valid() && o.spec == ForStorage(spec) && spec.storageType == STORAGE_S3
      requires cluster.At(ctx, o, Gathering(ver, []))
      requires req.value == StorageRequest("", cluster.workspace, spec.storageType, spec.name, None, None)
      modifies cluster, req
      ensures Valid() && Extends(old(cluster.trace), cluster.trace, ctx)
      ensures Built(ctx, o, ver, if err then None else Some(req.value), text)
    {
      hide Failure, Built, Cluster.Valid, Cluster.At, Run;
      S3Plan(spec);
      if spec.s3.None? {
        text := Refuse(cluster, ctx, o, ver, []);
        NotBuilt(ctx, o, ver, text);
        return true, text;
      }
      var s3 := spec.s3.value;
      var accessKey, secretKey;
      accessKey, text := ResolveSecretRef(cluster, ctx, ctx.namespace, s3.accessKeySecretRef, o, ver, []);
      NotBuilt(ctx, o, ver, text);
      if accessKey.None? { return true, text; }
      assert [] + [accessKey.value] == [accessKey.value];
      secretKey, text := ResolveSecretRef(cluster, ctx, ctx.namespace, s3.secretKeySecretRef, o, ver, [accessKey.value]);
      NotBuilt(ctx, o, ver, text);
      if secretKey.None? { return true, text; }
      req.value := req.value.(s3 := Some(S3Request(
        s3.bucket, s3.region, accessKey.value, secretKey.value, s3.endpoint, s3.prefix,
        s3.isUseVirtualHostedStyle, s3.isSkipTLSVerify, s3.storageClass)));
      assert [accessKey.value] + [secretKey.value] == [accessKey.value, secretKey.value];
      BuiltFrom(ctx, o, ver, [accessKey.value, secretKey.value], req.value);
      return false, "";
    }

    method BuildSftp(ctx: Key, spec: StorageSpec, req: Pointer<StorageRequest>, ghost o: Object, ghost ver: nat)
      returns (err: bool, text: string)
      requires Valid() && o.spec == ForStorage(spec) && spec.storageType == STORAGE_SFTP
      requires cluster.At(ctx, o, Gathering(ver, []))
      requires req.value == StorageRequest("", cluster.workspace, spec.storageType, spec.name, None, None)
      modifies cluster, req
      ensures Valid() && Extends(old(cluster.trace), cluster.trace, ctx)
      ensures Built(ctx, o, ver, if err then None else Some(req.value), text)
    {
      hide Plan, Complete, StorageRequestOf, Failure, Built, Cluster.Valid, Cluster.At, Run;
      SftpPlan(spec);
      if spec.sftp.None? {
        text := Refuse(cluster, ctx, o, ver, []);
        NotBuilt(ctx, o, ver, text);
        return true, text;
      }
      var sftp := spec.sftp.value;
      var sftpReq := SftpRequest(sftp.host, sftp.port, sftp.username, "", "", sftp.path, sftp.isSkipHostKeyVerify);
      var password, privateKey;
      err, password, text := ResolveOptional(cluster, ctx, ctx.namespace, sftp.passwordSecretRef, o, ver, []);
      NotBuilt(ctx, o, ver, text);
      if err { return true, text; }
      sftpReq := sftpReq.(password := password);
      ghost var first := if sftp.passwordSecretRef.Some? then [password] else [];
      assert [] + first == first;
      err, privateKey, text := ResolveOptional(cluster, ctx, ctx.namespace, sftp.privateKeySecretRef, o, ver, first);
      NotBuilt(ctx, o, ver, text);
      if err { return true, text; }
      sftpReq := sftpReq.(privateKey := privateKey);
      req.value := req.value.(sftp := Some(sftpReq));
      SftpComplete(cluster.workspace, spec, password, privateKey);
      BuiltFrom(ctx, o, ver, first + if sftp.privateKeySecretRef.Some? then [privateKey] else [], req.value);
      return false, "";
    }

    lemma NotBuilt(ctx: Key, o: Object, ver: nat, text: string)
      requires o.spec.ForStorage?
      ensures Built(ctx, o, ver, None, text) <==> cluster.At(ctx, o, Reporting(ver, Failure(o, SECRET, text, o.status.id)))
    {
    }

    lemma BuiltFrom(ctx: Key, o: Object, ver: nat, got: seq<string>, req: StorageRequest)
      requires o.spec.ForStorage? && cluster.At(ctx, o, Gathering(ver, got)) && Complete(o.spec, got)
      requires req == StorageRequestOf(cluster.workspace, o.spec.storage, got)
      ensures Built(ctx, o, ver, Some(req), "")
    {
    }

    method BuildStorageRequest(ctx: Key, storage: Resource, ghost ver: nat)
      returns (err: bool, req: Pointer<StorageRequest>, text: string)
      requires Valid() && storage.spec.ForStorage? && cluster.At(ctx, storage.Value(), Gathering(ver, []))
      modifies cluster
      ensures Valid() && Extends(old(cluster.trace), cluster.trace, ctx) && fresh(req)
      ensures Built(ctx, storage.Value(), ver, if err then None else Some(req.value), text)
    {
      hide Built, Plan, Complete;
      var spec := storage.spec.storage;
      ghost var o := storage.Value();
      req := new Pointer(StorageRequest("", databasus.workspaceID, spec.storageType, spec.name, None, None));
      if spec.storageType == STORAGE_S3 {
        err, text := BuildS3(ctx, spec, req, o, ver);
      } else if spec.storageType == STORAGE_SFTP {
        err, text := BuildSftp(ctx, spec, req, o, ver);
      } else {
        err, text := false, "";
        BuiltAtOnce(ctx, o, ver, req.value);
      }
    }

    /** Storages of other types are sent without reading anything. */
    lemma BuiltAtOnce(ctx: Key, o: Object, ver: nat, req: StorageRequest)
      requires o.spec.ForStorage? && o.spec.storage.storageType !in {STORAGE_S3, STORAGE_SFTP} &&
        cluster.At(ctx, o, Gathering(ver, []))
      requires req == StorageRequest("", cluster.workspace, o.spec.storage.storageType, o.spec.storage.name, None, None)
      ensures Built(ctx, o, ver, Some(req), "")
    {
      assert cluster.At(ctx, o, Gathering(ver, [])) && Complete(o.spec, []);
    }

    /** The request that was built, with the ID of the status, is what the protocol sends. */
    lemma BuiltSends(ctx: Key, o: Object, ver: nat, req: StorageRequest, text: string)
      requires Valid() && o.spec.ForStorage? && Built(ctx, o, ver, Some(req), text)
      ensures cluster.state.FlightOf(ctx).Gathering? && cluster.state.FlightOf(ctx).Ver() == ver
      ensures cluster.At(ctx, o, cluster.state.FlightOf(ctx))
      ensures var stamped := if req.workspaceID == "" then req.(id := o.status.id, workspaceID := databasus.workspaceID)
                             else req.(id := o.status.id);
              cluster.Sends(ctx, SaveStorageCall(stamped))
    {
      hide Plan;
      var got :| cluster.At(ctx, o, Gathering(ver, got)) && Complete(o.spec, got) &&
                 req == StorageRequestOf(cluster.workspace, o.spec.storage, got);
    }

    /** One reconcile of a Storage: it makes the calls of the protocol's worker and returns what that
        returns. */
    method Reconcile(ctx: Key) returns (result: Result)
      requires Valid() && ctx.kind == StorageKind && cluster.state.FlightOf(ctx).Idle? && ctx in cluster.state.queued
      modifies cluster
      ensures Valid() && Extends(old(cluster.trace), cluster.trace, ctx) && cluster.Returns(ctx, result)
    {
      hide Plan, Run;
      var done, storage;
      ghost var ver;
      done, storage, ver := Open(databasus, ctx);
      if done.Some? { return done.value; }
      result := Synchronise(ctx, storage, ver);
    }

    /** The rest of a reconcile: build the request, save it, write the status. */
    method Synchronise(ctx: Key, storage: Resource, ghost ver: nat) returns (result: Result)
      requires Valid() && ctx.kind == StorageKind && storage.spec.ForStorage?
      requires cluster.At(ctx, storage.Value(), Gathering(ver, []))
      modifies cluster, storage
      ensures Valid() && Extends(old(cluster.trace), cluster.trace, ctx) && cluster.Returns(ctx, result)
      ensures result == Result(0, false) ==>
                var last := Last(cluster.state.Versions(ctx));
                last.Present? && ReadyAtItsGeneration(last.Value()) && last.Value().status.id != ""
    {
      hide Plan, Complete, Finalizer, StatusOf, ResultOf, Failure, Success, RequestOf, StorageRequestOf, IsReady, Cluster.Sends,
           Cluster.Valid, Cluster.Returns, Built, Run;
      ghost var o := storage.Value();
      var err, req, text := BuildStorageRequest(ctx, storage, ver);
      NotBuilt(ctx, o, ver, text);
      if err {
        FailureResults(ctx.kind, o, text, storage.id);
        ghost var failed := ReportFailure(cluster, ctx, storage, SECRET, text, o, ver);
        return Result(30, false);
      }

      BuiltSends(ctx, o, ver, req.value, text);
      req.value := req.value.(id := storage.id);
      var resp;
      ghost var x;
      resp, text, x := databasus.SaveStorage(ctx, req);
      if resp.None? {
        FailureResults(ctx.kind, o, text, storage.id);
        ghost var failed := ReportFailure(cluster, ctx, storage, SYNC_FAILED, text, o, ver);
        return Result(30, false);
      }

      storage.id := resp.value;
      SuccessResults(ctx.kind, storage.id, o.status.vitals);
      err := ReportSuccess(cluster, ctx, storage, o, ver, o.status.vitals);
      return Result(0, err);
    }
  }
}
