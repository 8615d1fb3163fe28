/** The controller of DatabaseBackups. */
module DatabaseBackupController {
  import opened Resources
  import opened Conditions
  import opened Builders
  import opened Requests
  import opened Protocol
  import opened Invariants
  import opened Client
  import opened Calls
  import opened Clusters
  import opened Objects
  import opened Pointers
  import opened Lifecycle
  import opened Secrets
  import opened Reports
  import opened DatabasusApi

  // ------------------------------------------------- the plan, place by place

  lemma BackupPlanPlaces(spec: DatabaseBackupSpec)
    ensures var plan := Plan(ForBackup(spec));
            var n := |spec.database.notifierRefs|;
            && |plan| >= 2 + n && plan[0] == Reference(StorageKind, spec.backup.storageRef)
            && (forall i :: 0 <= i < n ==> plan[1 + i] == Reference(NotifierKind, spec.database.notifierRefs[i]))
            && (WantsPhysicalBackups(spec.database) ==> plan[1 + n] == Reject(UNSUPPORTED))
            && (!WantsPhysicalBackups(spec.database) ==>
                  && plan[1 + n] == PasswordPlan(spec.database)[0]
                  && |plan| == 2 + n + |SslPlan(spec.database)|
                  && plan[2 + n..] == SslPlan(spec.database))
  {
    hide PasswordPlan, SslPlan, WantsPhysicalBackups;
    var n := |spec.database.notifierRefs|;
    var plan := Plan(ForBackup(spec));
    var head := [Reference(StorageKind, spec.backup.storageRef)] + NotifierNeeds(spec.database.notifierRefs);
    var physical := if WantsPhysicalBackups(spec.database) then [Reject(UNSUPPORTED)] else [];
    assert plan == head + physical + PasswordPlan(spec.database) + SslPlan(spec.database);
    forall i | 0 <= i < n ensures plan[1 + i] == Reference(NotifierKind, spec.database.notifierRefs[i]) {
      assert plan[1 + i] == head[1 + i];
    }
  }

  lemma ReadsComplete(spec: DatabaseBackupSpec, got: seq<string>)
    requires !WantsPhysicalBackups(spec.database) && !PasswordPlan(spec.database)[0].Reject?
    requires |got| == 2 + |spec.database.notifierRefs| + |SslPlan(spec.database)|
    ensures Complete(ForBackup(spec), got)
  {
    var n := |spec.database.notifierRefs|;
    BackupPlanPlaces(spec);
    assert forall j :: 0 <= j < |SslPlan(spec.database)| ==> SslPlan(spec.database)[j].Value?;
    hide Plan, PasswordPlan, SslPlan, WantsPhysicalBackups;
    var plan := Plan(ForBackup(spec));
    forall i | 0 <= i < |got| ensures !plan[i].Reject? {
      if 0 < i < 1 + n { assert plan[1 + (i - 1)].Reference?; }
      else if i >= 2 + n { assert plan[i] == plan[2 + n..][i - (2 + n)]; }
    }
  }

  /** What was read, in the order of the plan, makes a complete resolution, and this its request. */
  lemma Resolved(workspace: string, spec: DatabaseBackupSpec, storageID: string, notifierIDs: seq<string>, password: string,
                 certs: seq<string>)
    requires !WantsPhysicalBackups(spec.database) && !PasswordPlan(spec.database)[0].Reject?
    requires |notifierIDs| == |spec.database.notifierRefs| && |certs| == |SslPlan(spec.database)|
    ensures var got := [storageID] + notifierIDs + [password] + certs;
            && Complete(ForBackup(spec), got) && HasSection(spec.database)
            && RequestOf(workspace, ForBackup(spec), got) ==
               SaveDatabaseCall(DatabaseRequestOf(workspace, spec.database, password, SslOf(spec.database, certs), notifierIDs))
  {
    var got := [storageID] + notifierIDs + [password] + certs;
    var n := |notifierIDs|;
    ReadsComplete(spec, got);
    CompleteBackup(spec, got);
    hide Complete, Plan, PasswordPlan, SslPlan, SslOf, DatabaseRequestOf, HasSection, WantsPhysicalBackups;
    Places(storageID, notifierIDs, password, certs);
  }

  lemma Places(first: string, some: seq<string>, next: string, rest: seq<string>)
    ensures var all := [first] + some + [next] + rest;
            && |all| == 2 + |some| + |rest|
            && all[1 + |some|] == next && all[2 + |some|..] == rest && all[1..1 + |some|] == some
  {
  }

  class DatabaseBackupReconciler {
    const cluster: Cluster
    const databasus: DatabasusClient

    ghost predicate Valid()
      reads cluster
    {
      databasus.cluster == cluster && databasus.Valid()
    }

    constructor (databasus: DatabasusClient)
      requires databasus.Valid()
      ensures Valid() && this.databasus == databasus
    {
      this.databasus := databasus;
      this.cluster := databasus.cluster;
    }

    // ------------------------------------------------------------- resolution

    /** The cache shows an object of this key that has this ID and is Ready. */
    ghost predicate ShowsReady(k: Key, id: string)
      reads cluster
    {
      var seen := cluster.state.TrackOf(k).seen;
      cluster.state.Holds(k, seen) &&
      var status := cluster.state.Obj(k, seen).status;
      && status.id == id && id != ""
      && var ready := FindStatusCondition(status.conditions, "Ready"); ready.Some? && ready.value.status == True
    }

    /** The ID of a Storage or Notifier, if the cache shows one with an ID that is Ready. */
    method ResolveRef(ctx: Key, kind: Kind, namespace: string, name: string, ghost o: Object, ghost ver: nat,
                      ghost got: seq<string>)
      returns (id: Option<string>, text: string)
      requires Valid() && Next(cluster, ctx, o, ver, got, Reference(kind, name)) && namespace == ctx.namespace
      modifies cluster
      ensures Valid() && Extends(old(cluster.trace), cluster.trace, ctx)
      ensures cluster.At(ctx, o, if id.Some? then Gathering(ver, got + [id.value])
                                 else Reporting(ver, Failure(o, DEPENDENCY, text, o.status.id)))
      ensures id.Some? ==> ShowsReady(Key(kind, namespace, name), id.value)
    {
      hide Plan, Failure, FindStatusCondition, Run;
      var err, obj;
      err, obj, text := cluster.GetReferenced(ctx, kind, namespace, name);
      if err { return None, text; }
      if obj.status.id == "" { return None, text; }
      var ready := FindStatusCondition(obj.status.conditions, "Ready");
      if ready.None? || ready.value.status != True { return None, text; }
      return Some(obj.status.id), text;
    }

    /** All notifiers in order, or the first that cannot be resolved ends it. */
    method ResolveNotifierRefs(ctx: Key, namespace: string, names: seq<string>, ghost o: Object, ghost ver: nat,
                               ghost first: string)
      returns (err: bool, ids: seq<string>, text: string)
      requires Valid() && o.spec.ForBackup? && names == o.spec.databaseBackup.database.notifierRefs &&
        namespace == ctx.namespace
      requires cluster.At(ctx, o, Gathering(ver, [first]))
      modifies cluster
      ensures Valid() && Extends(old(cluster.trace), cluster.trace, ctx)
      ensures if err then cluster.At(ctx, o, Reporting(ver, Failure(o, DEPENDENCY, text, o.status.id)))
              else |ids| == |names| && cluster.At(ctx, o, Gathering(ver, [first] + ids))
    {
      hide Plan, Failure, Cluster.Valid, Cluster.At, Run;
      BackupPlanPlaces(o.spec.databaseBackup);
      ids, text := [], "";
      assert [first] + [] == [first];
      var i := 0;
      while i < |names|
        invariant 0 <= i <= |names| && |ids| == i
        invariant Valid() && Extends(old(cluster.trace), cluster.trace, ctx)
        invariant cluster.At(ctx, o, Gathering(ver, [first] + ids))
      {
        var id;
        id, text := ResolveRef(ctx, NotifierKind, namespace, names[i], o, ver, [first] + ids);
        if id.None? { return true, [], text; }
        assert [first] + ids + [id.value] == [first] + (ids + [id.value]);
        ids := ids + [id.value];
        i := i + 1;
      }
      return false, ids, text;
    }

    /** The password that the section of the database type refers to. */
    method ResolveDatabasePassword(ctx: Key, spec: DatabaseSpec, ghost o: Object, ghost ver: nat, ghost got: seq<string>)
      returns (password: Option<string>, text: string)
      requires Valid() && Next(cluster, ctx, o, ver, got, PasswordPlan(spec)[0])
      modifies cluster
      ensures Valid() && Extends(old(cluster.trace), cluster.trace, ctx)
      ensures cluster.At(ctx, o, if password.Some? then Gathering(ver, got + [password.value])
                                 else Reporting(ver, Failure(o, SECRET, text, o.status.id)))
      ensures password.Some? ==> !PasswordPlan(spec)[0].Reject? && spec.databaseType in {"POSTGRES", "MYSQL", "MARIADB", "MONGODB"}
      ensures password.Some? && spec.databaseType == "POSTGRES" ==>
                spec.postgresql.Some? && Shows(cluster, ctx.namespace, spec.postgresql.value.passwordSecretRef, password.value)
      ensures password.Some? && spec.databaseType == "MYSQL" ==>
                spec.mysql.Some? && Shows(cluster, ctx.namespace, spec.mysql.value.passwordSecretRef, password.value)
      ensures password.Some? && spec.databaseType == "MARIADB" ==>
                spec.mariadb.Some? && Shows(cluster, ctx.namespace, spec.mariadb.value.passwordSecretRef, password.value)
      ensures password.Some? && spec.databaseType == "MONGODB" ==>
                spec.mongodb.Some? && Shows(cluster, ctx.namespace, spec.mongodb.value.passwordSecretRef, password.value)
    {
      DatabaseTypes(spec.databaseType);
      hide Plan, Failure, Cluster.Valid, Cluster.At, Run, Shows;
      var ref;
      if spec.databaseType == DATABASE_POSTGRES && spec.postgresql.Some? {
        ref := spec.postgresql.value.passwordSecretRef;
      } else if spec.databaseType == DATABASE_MYSQL && spec.mysql.Some? {
        ref := spec.mysql.value.passwordSecretRef;
      } else if spec.databaseType == DATABASE_MARIADB && spec.mariadb.Some? {
        ref := spec.mariadb.value.passwordSecretRef;
      } else if spec.databaseType == DATABASE_MONGODB && spec.mongodb.Some? {
        ref := spec.mongodb.value.passwordSecretRef;
      } else {
        text := Refuse(cluster, ctx, o, ver, got);
        return None, text;
      }
      password, text := ResolveSecretRef(cluster, ctx, ctx.namespace, ref, o, ver, got);
    }

    /** The TLS material of a postgres database, empty where nothing is referred to. */
    method ResolvePostgresSsl(ctx: Key, spec: DatabaseSpec, ghost o: Object, ghost ver: nat, ghost got: seq<string>)
      returns (err: bool, ssl: SslMaterial, text: string, ghost certs: seq<string>)
      requires Valid() && cluster.At(ctx, o, Gathering(ver, got))
      requires |Plan(o.spec)| == |got| + |SslPlan(spec)| && Plan(o.spec)[|got|..] == SslPlan(spec)
      modifies cluster
      ensures Valid() && Extends(old(cluster.trace), cluster.trace, ctx)
      ensures if err then cluster.At(ctx, o, Reporting(ver, Failure(o, SECRET, text, o.status.id)))
              else cluster.At(ctx, o, Gathering(ver, got + certs)) && |certs| == |SslPlan(spec)| && ssl == SslOf(spec, certs)
    {
      hide Plan, Failure, Cluster.Valid, Cluster.At, Run;
      ssl, certs := SslMaterial("", "", ""), [];
      assert got + [] == got;
      if spec.databaseType != DATABASE_POSTGRES || spec.postgresql.None? { return false, ssl, "", []; }
      var pg := spec.postgresql.value;
      var a, b, c := Optional(pg.sslClientCertSecretRef), Optional(pg.sslClientKeySecretRef), Optional(pg.sslRootCertSecretRef);
      assert SslPlan(spec) == a + b + c;
      assert forall j :: 0 <= j < |SslPlan(spec)| ==> Plan(o.spec)[|got| + j] == SslPlan(spec)[j];
      var cert, key, root;
      err, cert, text := ResolveOptional(cluster, ctx, ctx.namespace, pg.sslClientCertSecretRef, o, ver, got);
      if err { return true, ssl, text, []; }
      ghost var first := if pg.sslClientCertSecretRef.Some? then [cert] else [];
      err, key, text := ResolveOptional(cluster, ctx, ctx.namespace, pg.sslClientKeySecretRef, o, ver, got + first);
      if err { return true, ssl, text, []; }
      ghost var second := if pg.sslClientKeySecretRef.Some? then [key] else [];
      err, root, text := ResolveOptional(cluster, ctx, ctx.namespace, pg.sslRootCertSecretRef, o, ver, got + first + second);
      if err { return true, ssl, text, []; }
      ghost var third := if pg.sslRootCertSecretRef.Some? then [root] else [];
      certs := first + second + third;
      assert got + first + second + third == got + certs;
      ssl := SslMaterial(cert, key, root);
    }

    /** The code refuses physical backups by itself. */
    method RefusePhysical(ctx: Key, ghost o: Object, ghost ver: nat, ghost got: seq<string>)
      requires Valid() && Next(cluster, ctx, o, ver, got, Reject(UNSUPPORTED))
      modifies cluster
      ensures Valid() && Extends(old(cluster.trace), cluster.trace, ctx)
      ensures cluster.At(ctx, o, Reporting(ver, Failure(o, UNSUPPORTED, UNSUPPORTED_MESSAGE, o.status.id)))
    {
      hide Plan, Failure, Run;
      var _ := cluster.Refuse(ctx, UNSUPPORTED);
    }

    // --------------------------------------------------------------- building

    method BuildDatabaseRequest(spec: DatabaseSpec, password: string, ssl: SslMaterial, notifierIDs: seq<string>)
      returns (req: Pointer<DatabaseRequest>)
      requires HasSection(spec)
      ensures fresh(req) && req.value == DatabaseRequestOf(databasus.workspaceID, spec, password, ssl, notifierIDs)
    {
      req := new Pointer(DatabaseRequest(
        "", databasus.workspaceID, spec.name, spec.databaseType, None, None, None, None, []));
      var i := 0;
      while i < |notifierIDs|
        invariant 0 <= i <= |notifierIDs|
        invariant req.value == DatabaseRequest("", databasus.workspaceID, spec.name, spec.databaseType, None, None, None, None,
                                               LinksOf(databasus.workspaceID, notifierIDs)[..i])
      {
        req.value := req.value.(notifiers := req.value.notifiers + [NotifierLink(notifierIDs[i], databasus.workspaceID)]);
        i := i + 1;
      }
      if spec.databaseType == DATABASE_POSTGRES {
        var pg := spec.postgresql.value;
        req.value := req.value.(databaseType := "POSTGRES_LOGICAL");
        var pgReq := new Pointer(PostgresqlRequest(
          pg.version, pg.host, pg.port, pg.username, password, None, pg.sslMode, ssl.clientCert, ssl.clientKey, ssl.rootCert,
          pg.includeSchemas, pg.excludeTables, pg.cpuCount, pg.isSkipUserMappings));
        if pg.database != "" { pgReq.value := pgReq.value.(database := Some(pg.database)); }
        if pgReq.value.cpuCount == 0 { pgReq.value := pgReq.value.(cpuCount := 1); }
        req.value := req.value.(postgresqlLogical := Some(pgReq.value));
      } else if spec.databaseType == DATABASE_MYSQL {
        var my := spec.mysql.value;
        req.value := req.value.(mysql := Some(SqlRequest(
          my.version, my.host, my.port, my.username, password, my.database, my.isHttps)));
      } else if spec.databaseType == DATABASE_MARIADB {
        var maria := spec.mariadb.value;
        req.value := req.value.(mariadb := Some(SqlRequest(
          maria.version, maria.host, maria.port, maria.username, password, maria.database, maria.isHttps)));
      } else if spec.databaseType == DATABASE_MONGODB {
        var mongo := spec.mongodb.value;
        var mongoReq := new Pointer(MongodbRequest(
          mongo.version, mongo.host, mongo.port, mongo.username, password, mongo.database, mongo.authDatabase,
          mongo.isHttps, mongo.isSrv, mongo.isDirectConnection, mongo.cpuCount));
        if mongoReq.value.cpuCount == 0 { mongoReq.value := mongoReq.value.(cpuCount := 1); }
        req.value := req.value.(mongodb := Some(mongoReq.value));
      }
    }

    method BuildBackupConfigRequest(spec: DatabaseBackupSpec, databaseID: string, storageID: string)
      returns (req: BackupConfigRequest)
      ensures req == BackupConfigOf(spec, databaseID, storageID)
    {
      var backup := spec.backup;
      var notificationTypes := new string[|backup.sendNotificationsOn|];
      var i := 0;
      while i < |backup.sendNotificationsOn|
        invariant 0 <= i <= |backup.sendNotificationsOn|
        invariant notificationTypes[..i] == backup.sendNotificationsOn[..i]
      {
        notificationTypes[i] := backup.sendNotificationsOn[i];
        i := i + 1;
      }
      var encryption := backup.encryption;
      if encryption == "" { encryption := "NONE"; }
      var keep, interval := backup.retentionPolicy, backup.interval;
      return BackupConfigRequest(
        databaseID, backup.isEnabled, keep.policyType, keep.timePeriod, keep.count,
        keep.gfsHours, keep.gfsDays, keep.gfsWeeks, keep.gfsMonths, keep.gfsYears, storageID,
        IntervalRequest(interval.intervalType, interval.timeOfDay, interval.weekday, interval.dayOfMonth,
                        interval.cronExpression),
        notificationTypes[..], backup.isRetryIfFailed, backup.maxFailedTriesCount, encryption);
    }

    // -------------------------------------------------------------- the pipeline

    /** What a success leaves behind. */
    ghost predicate SyncedBy(ctx: Key, result: Result)
      reads cluster
    {
      result == Result(60, false) ==>
        var last := Last(cluster.state.Versions(ctx));
        last.Present? && ReadyAtItsGeneration(last.Value()) && last.Value().status.id != ""
    }

    /** One reconcile of a DatabaseBackup: it makes the calls of the protocol's worker and returns what that
        returns. When it asks to be called again in a minute, the object is Ready at its generation. */
    method Reconcile(ctx: Key) returns (result: Result)
      requires Valid() && ctx.kind == BackupKind && cluster.state.FlightOf(ctx).Idle? && ctx in cluster.state.queued
      modifies cluster
      ensures Valid() && Extends(old(cluster.trace), cluster.trace, ctx) && cluster.Returns(ctx, result)
      ensures SyncedBy(ctx, result)
    {
      hide Plan, Run;
      var done, backup;
      ghost var ver;
      done, backup, ver := Open(databasus, ctx);
      if done.Some? { return done.value; }
      result := Synchronise(ctx, backup, ver);
    }

    method Fail(ctx: Key, backup: Resource, reason: string, text: string, ghost o: Object, ghost ver: nat)
      requires Valid() && ctx.kind == BackupKind && backup.Value() == o.(status := o.status.(id := backup.id))
      requires cluster.At(ctx, o, Reporting(ver, Failure(o, reason, text, backup.id)))
      modifies cluster, backup
      ensures Valid() && Extends(old(cluster.trace), cluster.trace, ctx)
      ensures reason == DEPENDENCY ==> cluster.Returns(ctx, Result(10, false))
      ensures reason == UNSUPPORTED ==> cluster.Returns(ctx, Result(0, false))
      ensures reason in {SECRET, SYNC_FAILED, CONFIG_FAILED, PROBE_FAILED} ==> cluster.Returns(ctx, Result(30, false))
    {
      hide ResultOf, Cluster.Valid, Cluster.At, Run;
      FailureResults(ctx.kind, o, text, backup.id);
      ghost var failed := ReportFailure(cluster, ctx, backup, reason, text, o, ver);
    }

    /** Resolution: the storage, the notifiers, the refusal of physical backups, the secrets. */
    method Synchronise(ctx: Key, backup: Resource, ghost ver: nat) returns (result: Result)
      requires Valid() && ctx.kind == BackupKind && backup.spec.ForBackup?
      requires cluster.At(ctx, backup.Value(), Gathering(ver, []))
      modifies cluster, backup
      ensures Valid() && Extends(old(cluster.trace), cluster.trace, ctx) && cluster.Returns(ctx, result)
      ensures SyncedBy(ctx, result)
    {
      hide Plan, Failure, PasswordPlan, SslPlan, SslOf, Cluster.Valid, Cluster.At, Cluster.Returns, Run;
      hide Shows, ShowsReady, Complete, RequestOf, DatabaseRequestOf, HasSection;
      var spec := backup.spec.databaseBackup;
      ghost var o := backup.Value();
      BackupPlanPlaces(spec);

      var storageID, text := ResolveRef(ctx, StorageKind, ctx.namespace, spec.backup.storageRef, o, ver, []);
      if storageID.None? {
        Fail(ctx, backup, DEPENDENCY, text, o, ver);
        return Result(10, false);
      }
      ghost var first := [storageID.value];
      assert [] + first == first;

      var err, notifierIDs;
      err, notifierIDs, text := ResolveNotifierRefs(ctx, ctx.namespace, spec.database.notifierRefs, o, ver, storageID.value);
      if err {
        Fail(ctx, backup, DEPENDENCY, text, o, ver);
        return Result(10, false);
      }

      var pg := spec.database.postgresql;
      if pg.Some? && pg.value.backupType == "WAL_V1" {
        RefusePhysical(ctx, o, ver, first + notifierIDs);
        Fail(ctx, backup, UNSUPPORTED, UNSUPPORTED_MESSAGE, o, ver);
        return Result(0, false);
      }

      var password;
      password, text := ResolveDatabasePassword(ctx, spec.database, o, ver, first + notifierIDs);
      if password.None? {
        Fail(ctx, backup, SECRET, text, o, ver);
        return Result(30, false);
      }

      var ssl;
      ghost var certs;
      err, ssl, text, certs := ResolvePostgresSsl(ctx, spec.database, o, ver, first + notifierIDs + [password.value]);
      if err {
        Fail(ctx, backup, SECRET, text, o, ver);
        return Result(30, false);
      }
      Resolved(cluster.workspace, spec, storageID.value, notifierIDs, password.value, certs);
      result := Send(ctx, backup, storageID.value, notifierIDs, password.value, ssl, o, ver,
                     first + notifierIDs + [password.value] + certs);
    }

    /** The three saves, the refresh, and the status. */
    method Send(ctx: Key, backup: Resource, storageID: string, notifierIDs: seq<string>, password: string, ssl: SslMaterial,
                ghost o: Object, ghost ver: nat, ghost got: seq<string>)
      returns (result: Result)
      requires Valid() && ctx.kind == BackupKind && backup.spec.ForBackup? && backup.Value() == o
      requires cluster.At(ctx, o, Gathering(ver, got)) && Complete(o.spec, got) && |got| > 0 && got[0] == storageID
      requires HasSection(o.spec.databaseBackup.database)
      requires RequestOf(cluster.workspace, o.spec, got) ==
               SaveDatabaseCall(DatabaseRequestOf(cluster.workspace, o.spec.databaseBackup.database, password, ssl, notifierIDs))
      modifies cluster, backup
      ensures Valid() && Extends(old(cluster.trace), cluster.trace, ctx) && cluster.Returns(ctx, result)
      ensures SyncedBy(ctx, result)
    {
      hide Plan, Complete, RequestOf, DatabaseRequestOf, HasSection, Failure, Cluster.Sends, Cluster.Returns, Run,
           DatabasusClient.Answered, TruthfulSave;
      var spec := backup.spec.databaseBackup;
      var dbReq := BuildDatabaseRequest(spec.database, password, ssl, notifierIDs);
      BuiltSends(ctx, o, ver, got, dbReq.value);
      var dbResp, text;
      ghost var x;
      if backup.id == "" {
        dbResp, text, x := databasus.CreateDatabase(ctx, dbReq);
      } else {
        dbReq.value := dbReq.value.(id := backup.id);
        dbResp, text, x := databasus.UpdateDatabase(ctx, dbReq);
      }
      if dbResp.None? {
        Fail(ctx, backup, SYNC_FAILED, text, o, ver);
        return Result(30, false);
      }
      backup.id := dbResp.value;
      result := SendConfigs(ctx, backup, storageID, o, ver, got);
    }

    lemma BuiltSends(ctx: Key, o: Object, ver: nat, got: seq<string>, req: DatabaseRequest)
      requires Valid() && cluster.At(ctx, o, Gathering(ver, got)) && Complete(o.spec, got)
      requires RequestOf(cluster.workspace, o.spec, got) == SaveDatabaseCall(req)
      ensures var stamped := if req.workspaceID == "" then req.(id := o.status.id, workspaceID := databasus.workspaceID)
                             else req.(id := o.status.id);
              cluster.Sends(ctx, SaveDatabaseCall(stamped))
      ensures req.id == ""
    {
    }

    /** The database is saved, under the ID the status now names; its configs come next. */
    method SendConfigs(ctx: Key, backup: Resource, storageID: string, ghost o: Object, ghost ver: nat, ghost got: seq<string>)
      returns (result: Result)
      requires Valid() && ctx.kind == BackupKind && backup.spec.ForBackup? && |got| > 0 && got[0] == storageID
      requires backup.Value() == o.(status := o.status.(id := backup.id)) && backup.id != ""
      requires cluster.At(ctx, o, Configuring(ver, got, backup.id))
      modifies cluster, backup
      ensures Valid() && Extends(old(cluster.trace), cluster.trace, ctx) && cluster.Returns(ctx, result)
      ensures SyncedBy(ctx, result)
    {
      hide Failure, Cluster.Returns, Cluster.Valid, BackupConfigOf, HealthcheckOf, Merge, Run;
      var spec := backup.spec.databaseBackup;
      var backupReq := BuildBackupConfigRequest(spec, backup.id, storageID);
      var err, text;
      ghost var x;
      err, text, x := databasus.SaveBackupConfig(ctx, backupReq);
      if err {
        Fail(ctx, backup, CONFIG_FAILED, text, o, ver);
        return Result(30, false);
      }

      if spec.healthcheck.Some? {
        var hcReq := HealthcheckOf(spec.healthcheck.value, backup.id);
        err, text, x := databasus.SaveHealthcheckConfig(ctx, hcReq);
        if err {
          Fail(ctx, backup, PROBE_FAILED, text, o, ver);
          return Result(30, false);
        }
      }
      ghost var heard, present, told;
      result, heard, present, told := FinishSync(ctx, backup, o, ver);
    }

    /** The status shows, member by member, what databasus told, and what it showed before where databasus told
        nothing or was not heard. */
    ghost predicate Refreshed(ctx: Key, before: Vitals, found: bool, told: Report)
      reads cluster
    {
      var last := Last(cluster.state.Versions(ctx));
      last.Present? &&
      var vitals := last.Value().status.vitals;
      && vitals.healthStatus == (if found && told.healthStatus.Some? then told.healthStatus.value else before.healthStatus)
      && vitals.lastBackupTime == (if found && told.lastBackupTime.Some? then told.lastBackupTime else before.lastBackupTime)
      && vitals.lastBackupErrorMessage ==
         (if found && told.lastBackupErrorMessage.Some? then told.lastBackupErrorMessage.value else before.lastBackupErrorMessage)
    }

    /** What databasus reports about the database goes into the status, which then says Ready. */
    method FinishSync(ctx: Key, backup: Resource, ghost o: Object, ghost ver: nat)
      returns (result: Result, ghost x: Reading, ghost present: bool, ghost told: Report)
      requires Valid() && ctx.kind == BackupKind
      requires backup.Value() == o.(status := o.status.(id := backup.id)) && backup.id != ""
      requires cluster.At(ctx, o, Refreshing(ver, backup.id))
      modifies cluster, backup
      ensures Valid() && Extends(old(cluster.trace), cluster.trace, ctx) && cluster.Returns(ctx, result)
      ensures SyncedBy(ctx, result) && TruthfulGet(present, told, x)
      ensures result == Result(60, false) ==> Refreshed(ctx, o.status.vitals, x.reached && x.reply.Answer? && present, told)
    {
      hide Cluster.Returns, Cluster.Valid, Run, ResultOf, IsReady, TruthfulGet;
      var err, refreshed;
      err, refreshed, x, present := databasus.GetDatabase(ctx, backup.id);
      told := cluster.state.ReportOf(backup.id);
      if !err && refreshed.Some? {
        if refreshed.value.healthStatus.Some? { backup.healthStatus := refreshed.value.healthStatus.value; }
        if refreshed.value.lastBackupTime.Some? { backup.lastBackupTime := refreshed.value.lastBackupTime; }
        if refreshed.value.lastBackupErrorMessage.Some? {
          backup.lastBackupErrorMessage := refreshed.value.lastBackupErrorMessage.value;
        }
      }
      ghost var vitals := if refreshed.Some? then Merge(o.status.vitals, refreshed.value) else o.status.vitals;
      assert backup.StatusValue().vitals == vitals;
      SuccessResults(ctx.kind, backup.id, vitals);
      hide Success;
      err := ReportSuccess(cluster, ctx, backup, o, ver, vitals);
      if err { return Result(0, true), x, present, told; }
      return Result(60, false), x, present, told;
    }
  }
}
