/** The client of the databasus API: one method per endpoint that the reconcilers use, each turning the
answer into a result or an error.
*/
module DatabasusApi {
  import opened Resources
  import opened Builders
  import opened Client
  import opened Protocol
  import opened Safety
  import opened Calls
  import opened Clusters
  import opened Objects
  import opened Pointers

  class DatabasusClient {
    const cluster: Cluster
    const workspaceID: string

    ghost predicate Valid()
      reads cluster
    {
      cluster.Valid() && workspaceID == cluster.workspace
    }

    constructor (cluster: Cluster)
      requires cluster.Valid()
      ensures Valid() && this.cluster == cluster
    {
      this.cluster := cluster;
      this.workspaceID := cluster.workspace;
    }

    /** The flight of the caller after it sent a record and got this ID or this error. */
    twostate predicate Sent(ctx: Key, new resp: Option<string>, new text: string)
      requires !old(cluster.state.FlightOf(ctx).Idle?) && old(cluster.state.Holds(ctx, cluster.state.FlightOf(ctx).Ver()))
      requires old(cluster.state.FlightOf(ctx).Gathering?)
      reads cluster
    {
      && Valid() && Extends(old(cluster.trace), cluster.trace, ctx)
      && var o := old(cluster.Worked(ctx));
         && (resp.Some? ==> resp.value != "" && (o.status.id != "" ==> resp.value == o.status.id))
         && cluster.At(ctx, o, AfterRecord(ctx, o, old(cluster.state.FlightOf(ctx).Ver()), old(cluster.state.FlightOf(ctx).Got()),
                                           resp, text))
    }

    /** Success or error, by what databasus did and answered: a save succeeds if and only if it was made and the
        answer came back, and then the ID is the one under which databasus holds this very request. */
    ghost predicate Answered(ctx: Key, request: Request, resp: Option<string>, x: Saving)
      reads cluster
    {
      && (resp.Some? <==> x.saved && x.reply.Answer?)
      && (resp.Some? ==> x.reply.body.Json? && resp.value == x.reply.body.id && cluster.Stored(ctx, request, resp.value))
    }

    /** Post a record and read the answer. */
    method Post(ctx: Key, request: Request, alsoCreated: bool) returns (resp: Option<string>, text: string, ghost x: Saving)
      requires Valid() && cluster.Sends(ctx, request)
      requires alsoCreated <==> ctx.kind == BackupKind && request.Id() == ""
      modifies cluster
      ensures Sent(ctx, resp, text)
      ensures TruthfulSave(if alsoCreated then {200, 201} else {200}, x) && Answered(ctx, request, resp, x)
    {
      SentId(ctx, request);
      hide RequestOf;
      var reply;
      reply, x := cluster.PostRecord(ctx, request);
      if reply.NoAnswer? { return None, reply.text, x; }
      if reply.status != 200 && !(alsoCreated && reply.status == 201) {
        return None, ParseError(reply.status, reply.body).message, x;
      }
      if reply.body.Garbled? { return None, reply.body.text, x; }
      return Some(reply.body.id), "", x;
    }

    lemma SentId(ctx: Key, request: Request)
      requires cluster.Sends(ctx, request)
      ensures request.Id() == cluster.Worked(ctx).status.id
    {
    }

    method SaveStorage(ctx: Key, req: Pointer<StorageRequest>) returns (resp: Option<string>, text: string, ghost x: Saving)
      requires Valid() && ctx.kind == StorageKind
      requires cluster.Sends(ctx, SaveStorageCall(if req.value.workspaceID == "" then req.value.(workspaceID := workspaceID)
                                              else req.value))
      modifies req, cluster
      ensures Sent(ctx, resp, text)
      ensures req.value == old(req.value).(workspaceID := if old(req.value).workspaceID == "" then workspaceID
                                                          else old(req.value).workspaceID)
      ensures TruthfulSave({200}, x) && Answered(ctx, SaveStorageCall(req.value), resp, x)
    {
      if req.value.workspaceID == "" { req.value := req.value.(workspaceID := workspaceID); }
      resp, text, x := Post(ctx, SaveStorageCall(req.value), false);
    }

    method SaveNotifier(ctx: Key, req: Pointer<NotifierRequest>) returns (resp: Option<string>, text: string, ghost x: Saving)
      requires Valid() && ctx.kind == NotifierKind
      requires cluster.Sends(ctx, SaveNotifierCall(if req.value.workspaceID == "" then req.value.(workspaceID := workspaceID)
                                              else req.value))
      modifies req, cluster
      ensures Sent(ctx, resp, text)
      ensures req.value == old(req.value).(workspaceID := if old(req.value).workspaceID == "" then workspaceID
                                                          else old(req.value).workspaceID)
      ensures TruthfulSave({200}, x) && Answered(ctx, SaveNotifierCall(req.value), resp, x)
    {
      if req.value.workspaceID == "" { req.value := req.value.(workspaceID := workspaceID); }
      resp, text, x := Post(ctx, SaveNotifierCall(req.value), false);
    }

    method CreateDatabase(ctx: Key, req: Pointer<DatabaseRequest>) returns (resp: Option<string>, text: string, ghost x: Saving)
      requires Valid() && ctx.kind == BackupKind && req.value.id == ""
      requires cluster.Sends(ctx, SaveDatabaseCall(if req.value.workspaceID == "" then req.value.(workspaceID := workspaceID)
                                              else req.value))
      modifies req, cluster
      ensures Sent(ctx, resp, text)
      ensures req.value == old(req.value).(workspaceID := if old(req.value).workspaceID == "" then workspaceID
                                                          else old(req.value).workspaceID)
      ensures TruthfulSave({200, 201}, x) && Answered(ctx, SaveDatabaseCall(req.value), resp, x)
    {
      if req.value.workspaceID == "" { req.value := req.value.(workspaceID := workspaceID); }
      resp, text, x := Post(ctx, SaveDatabaseCall(req.value), true);
    }

    method UpdateDatabase(ctx: Key, req: Pointer<DatabaseRequest>) returns (resp: Option<string>, text: string, ghost x: Saving)
      requires Valid() && ctx.kind == BackupKind && req.value.id != ""
      requires cluster.Sends(ctx, SaveDatabaseCall(if req.value.workspaceID == "" then req.value.(workspaceID := workspaceID)
                                              else req.value))
      modifies req, cluster
      ensures Sent(ctx, resp, text)
      ensures req.value == old(req.value).(workspaceID := if old(req.value).workspaceID == "" then workspaceID
                                                          else old(req.value).workspaceID)
      ensures TruthfulSave({200}, x) && Answered(ctx, SaveDatabaseCall(req.value), resp, x)
    {
      if req.value.workspaceID == "" { req.value := req.value.(workspaceID := workspaceID); }
      resp, text, x := Post(ctx, SaveDatabaseCall(req.value), false);
    }

    /** The report of a database that is there, nothing for one that is missing, and an error if the exchange
        failed. */
    method GetDatabase(ctx: Key, id: string) returns (err: bool, resp: Option<Report>, ghost x: Reading, ghost present: bool)
      requires Valid() && cluster.state.FlightOf(ctx).Refreshing?
      requires cluster.state.Holds(ctx, cluster.state.FlightOf(ctx).Ver()) && id == cluster.state.FlightOf(ctx).id
      modifies cluster
      ensures Valid() && Extends(old(cluster.trace), cluster.trace, ctx)
      ensures (present <==> Ref(BackupKind, id) in cluster.state.records)
              && TruthfulGet(present, cluster.state.ReportOf(id), x)
      ensures err <==> !(x.reached && x.reply.Answer?)
      ensures resp == if !err && present then Some(cluster.state.ReportOf(id)) else None
      ensures cluster.At(ctx, old(cluster.Worked(ctx)),
                         AfterRefresh(ctx, old(cluster.Worked(ctx)), old(cluster.state.FlightOf(ctx).Ver()), id, resp))
    {
      hide IsNotFound, SaysMissing, AfterRefresh;
      var reply;
      ghost var report;
      reply, x, present, report := cluster.FetchDatabase(ctx, id);
      if reply.NoAnswer? { return true, None, x, present; }
      NotFoundIff(reply.status, reply.body);
      NotBoth(reply.body);
      if IsNotFound(reply.status, reply.body) { return false, None, x, present; }
      if reply.status != 200 { return true, None, x, present; }
      if reply.body.Garbled? { return true, None, x, present; }
      return false, Some(reply.body.report), x, present;
    }

    lemma NotBoth(body: Body)
      ensures !SaysMissing(200, body)
    {
    }

    /** DeleteStorage, DeleteNotifier and DeleteDatabase: a record that is missing counts as deleted. It is an
        error if and only if the request did not reach databasus or its answer did not come back. */
    method Delete(ctx: Key, id: string) returns (err: bool, ghost x: Deletion, ghost present: bool)
      requires Valid() && cluster.state.FlightOf(ctx).Removing?
      requires cluster.state.Holds(ctx, cluster.state.FlightOf(ctx).Ver()) && id == cluster.Worked(ctx).status.id
      modifies cluster
      ensures Valid() && Extends(old(cluster.trace), cluster.trace, ctx)
      ensures Truthful(present, x) && (err <==> !(x.reached && x.reply.Answer?))
      ensures if err then cluster.Returns(ctx, Result(10, false))
              else cluster.At(ctx, old(cluster.Worked(ctx)), Detaching(old(cluster.state.FlightOf(ctx).Ver())))
                   && Ref(ctx.kind, id) !in cluster.state.records
    {
      hide IsNotFound, SaysMissing;
      var reply;
      reply, x, present := cluster.DeleteRecord(ctx, id);
      if reply.NoAnswer? { return true, x, present; }
      NotFoundIff(reply.status, reply.body);
      if reply.status != 200 && reply.status != 204 && !IsNotFound(reply.status, reply.body) { return true, x, present; }
      return false, x, present;
    }

    method SaveBackupConfig(ctx: Key, req: BackupConfigRequest) returns (err: bool, text: string, ghost x: Saving)
      requires Valid() && cluster.state.FlightOf(ctx).Configuring?
      requires cluster.state.Holds(ctx, cluster.state.FlightOf(ctx).Ver())
      requires cluster.Worked(ctx).spec.ForBackup? && |cluster.state.FlightOf(ctx).Got()| > 0
      requires req == BackupConfigOf(cluster.Worked(ctx).spec.databaseBackup, cluster.state.FlightOf(ctx).id,
                                     cluster.state.FlightOf(ctx).Got()[0])
      modifies cluster
      ensures Valid() && Extends(old(cluster.trace), cluster.trace, ctx)
      ensures TruthfulSave({200}, x) && (err <==> !(x.saved && x.reply.Answer?))
      ensures var f := old(cluster.state.FlightOf(ctx));
              var o := old(cluster.Worked(ctx));
              && cluster.At(ctx, o, AfterConfig(o, f.Ver(), f.Got(), f.id, !err, text))
              && (!err ==> f.id in cluster.state.backupConfigs && cluster.state.backupConfigs[f.id] == req)
    {
      hide BackupConfigOf, AfterConfig;
      var reply;
      reply, x := cluster.PostBackupConfig(ctx, req);
      if reply.NoAnswer? { return true, reply.text, x; }
      if reply.status != 200 { return true, ParseError(reply.status, reply.body).message, x; }
      if reply.body.Garbled? { return true, reply.body.text, x; }
      SavedConfig(old(cluster.Worked(ctx)), old(cluster.state.FlightOf(ctx)), ErrorText(reply));
      return false, "", x;
    }

    /** The text plays no part in a success. */
    lemma SavedConfig(o: Object, f: Flight, text: string)
      ensures AfterConfig(o, f.Ver(), f.Got(), if f.Configuring? then f.id else "", true, text) ==
              AfterConfig(o, f.Ver(), f.Got(), if f.Configuring? then f.id else "", true, "")
    {
    }

    method SaveHealthcheckConfig(ctx: Key, req: HealthcheckRequest) returns (err: bool, text: string, ghost x: Saving)
      requires Valid() && cluster.state.FlightOf(ctx).Probing?
      requires cluster.state.Holds(ctx, cluster.state.FlightOf(ctx).Ver())
      requires cluster.Worked(ctx).spec.ForBackup? && cluster.Worked(ctx).spec.databaseBackup.healthcheck.Some?
      requires req == HealthcheckOf(cluster.Worked(ctx).spec.databaseBackup.healthcheck.value, cluster.state.FlightOf(ctx).id)
      modifies cluster
      ensures Valid() && Extends(old(cluster.trace), cluster.trace, ctx)
      ensures TruthfulSave({200}, x) && (err <==> !(x.saved && x.reply.Answer?))
      ensures var f := old(cluster.state.FlightOf(ctx));
              var o := old(cluster.Worked(ctx));
              && cluster.At(ctx, o, AfterCheck(o, f.Ver(), f.id, !err, text))
              && (!err ==> f.id in cluster.state.healthchecks && cluster.state.healthchecks[f.id] == req)
    {
      hide HealthcheckOf, Failure;
      var reply;
      reply, x := cluster.PostHealthcheckConfig(ctx, req);
      if reply.NoAnswer? { return true, reply.text, x; }
      if reply.status != 200 { return true, ParseError(reply.status, reply.body).message, x; }
      if reply.body.Garbled? { return true, reply.body.text, x; }
      return false, "", x;
    }
  }
}
