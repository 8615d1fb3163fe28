/** What databasus holds for an object that says Ready, told in the terms of the object's own spec: every member of
every request, and for every secret and reference the value that the cache showed for exactly this secret or
reference at some earlier point of the run.
*/
module Delivery {
  import opened Resources
  import opened Conditions
  import opened Builders
  import opened Requests
  import opened Protocol
  import opened Invariants
  import opened Inductive
  import opened Safety
  import opened Outcomes
  import opened Wire

  // ------------------------------------------------------- values that were read

  /** In this state or an earlier one of the run, the cache showed this value for this secret or reference. */
  ghost predicate OnceShown(workspace: string, events: seq<Event>, namespace: string, need: Need, value: string) {
    exists n :: 0 <= n <= |events| && Shown(Run(Empty(workspace), events[..n]), namespace, need, value)
  }

  lemma ReadingsShown(workspace: string, events: seq<Event>, r: Read)
    requires r in Run(Empty(workspace), events).readings
    ensures OnceShown(workspace, events, r.owner.key.namespace, r.need, r.value)
  {
    hide Run, Lookup, Shown;
    ReadingsAreReal(workspace, events, r);
    var n :| 0 <= n < |events| && Lookup(Run(Empty(workspace), events[..n]), r.owner.key.namespace, r.need) == Some(r.value);
    ShownIff(Run(Empty(workspace), events[..n]), r.owner.key.namespace, r.need);
  }

  /** The member holds a value of the secret that it is for, and is empty if there is none. */
  ghost predicate Holds(workspace: string, events: seq<Event>, k: Key, secret: Option<SecretKeyRef>, value: string) {
    if secret.None? then value == "" else OnceShown(workspace, events, k.namespace, Value(secret.value), value)
  }

  lemma CarriedHolds(workspace: string, events: seq<Event>, k: Key, o: Object, got: seq<string>, i: nat,
                     secret: Option<SecretKeyRef>, value: string)
    requires ReadBy(Run(Empty(workspace), events), k, o, got) && Carries(o.spec, got, i, secret, value)
    ensures Holds(workspace, events, k, secret, value)
  {
    hide Run, Plan, OnceShown;
    if secret.Some? {
      ReadingsShown(workspace, events, Read(Owner(k, o.uid), o.generation, i, Plan(o.spec)[i], got[i]));
    }
  }

  // ------------------------------------------------------------------ storages

  ghost predicate S3Holds(workspace: string, events: seq<Event>, k: Key, spec: StorageSpec, r: S3Request) {
    spec.s3.Some? &&
    var s3 := spec.s3.value;
    && S3SpecOf(r) == s3.(accessKeySecretRef := NO_SECRET, secretKeySecretRef := NO_SECRET)
    && Holds(workspace, events, k, Some(s3.accessKeySecretRef), r.accessKey)
    && Holds(workspace, events, k, Some(s3.secretKeySecretRef), r.secretKey)
  }

  ghost predicate SftpHolds(workspace: string, events: seq<Event>, k: Key, spec: StorageSpec, r: SftpRequest) {
    spec.sftp.Some? &&
    var sftp := spec.sftp.value;
    && SftpSpecOf(r) == sftp.(passwordSecretRef := None, privateKeySecretRef := None)
    && Holds(workspace, events, k, sftp.passwordSecretRef, r.password)
    && Holds(workspace, events, k, sftp.privateKeySecretRef, r.privateKey)
  }

  ghost predicate StorageHolds(workspace: string, events: seq<Event>, k: Key, spec: StorageSpec, r: StorageRequest) {
    && r.workspaceID == workspace && r.name == spec.name && r.storageType == spec.storageType
    && (r.s3.Some? <==> spec.storageType == "S3") && (r.s3.Some? ==> S3Holds(workspace, events, k, spec, r.s3.value))
    && (r.sftp.Some? <==> spec.storageType == "SFTP") && (r.sftp.Some? ==> SftpHolds(workspace, events, k, spec, r.sftp.value))
  }

  /** For a Storage that is Ready for its current generation, databasus holds, under the ID of the status, the
      storage that the spec describes. */
  lemma StorageDelivered(workspace: string, events: seq<Event>, k: Key)
    requires k.kind == StorageKind && ReadyNow(Run(Empty(workspace), events), k)
    ensures var s := Run(Empty(workspace), events);
            var o := Last(s.Versions(k)).Value();
            var ref := Ref(StorageKind, o.status.id);
            && o.spec.ForStorage? && ref in s.records && s.records[ref].SaveStorageCall?
            && s.records[ref].storage.id == o.status.id
            && StorageHolds(workspace, events, k, o.spec.storage, s.records[ref].storage)
  {
    hide Run, ReadyNow, ReadBy, Complete, Plan, Holds, Carries, StorageRequestOf;
    var s := Run(Empty(workspace), events);
    var o := Last(s.Versions(k)).Value();
    var got := ReadyMeansSaved(workspace, events, k);
    assert o.spec.Kind() == StorageKind by {
      Reachable(workspace, events);
      hide Inv;
      ReadyMatches(s, k);
    }
    StorageSent(workspace, o.spec.storage, got);
    var r := s.records[Ref(StorageKind, o.status.id)].storage;
    if r.s3.Some? {
      var s3 := o.spec.storage.s3.value;
      CarriedHolds(workspace, events, k, o, got, 0, Some(s3.accessKeySecretRef), r.s3.value.accessKey);
      CarriedHolds(workspace, events, k, o, got, 1, Some(s3.secretKeySecretRef), r.s3.value.secretKey);
    }
    if r.sftp.Some? {
      var sftp := o.spec.storage.sftp.value;
      CarriedHolds(workspace, events, k, o, got, 0, sftp.passwordSecretRef, r.sftp.value.password);
      CarriedHolds(workspace, events, k, o, got, Taken(sftp.passwordSecretRef), sftp.privateKeySecretRef, r.sftp.value.privateKey);
    }
  }

  // ----------------------------------------------------------------- notifiers

  ghost predicate HeadersHold(workspace: string, events: seq<Event>, k: Key, headers: seq<WebhookHeader>, sent: seq<HeaderRequest>) {
    && |sent| == |headers|
    && forall i :: 0 <= i < |headers| ==>
         && sent[i].key == headers[i].key
         && if headers[i].valueSecretRef.None? then sent[i].value == headers[i].value
            else Holds(workspace, events, k, headers[i].valueSecretRef, sent[i].value)
  }

  ghost predicate NotifierHolds(workspace: string, events: seq<Event>, k: Key, spec: NotifierSpec, r: NotifierRequest) {
    && r.workspaceID == workspace && r.name == spec.name && r.notifierType == spec.notifierType
    && (r.discord.Some? <==> spec.notifierType == "DISCORD") && (r.telegram.Some? <==> spec.notifierType == "TELEGRAM")
    && (r.slack.Some? <==> spec.notifierType == "SLACK") && (r.email.Some? <==> spec.notifierType == "EMAIL")
    && (r.webhook.Some? <==> spec.notifierType == "WEBHOOK") && (r.teams.Some? <==> spec.notifierType == "TEAMS")
    && PayloadHolds(workspace, events, k, spec, r)
  }

  ghost predicate PayloadHolds(workspace: string, events: seq<Event>, k: Key, spec: NotifierSpec, r: NotifierRequest) {
    && (r.discord.Some? ==>
          spec.discord.Some? &&
          Holds(workspace, events, k, Some(spec.discord.value.webhookURLSecretRef), r.discord.value.channelWebhookURL))
    && (r.telegram.Some? ==>
          spec.telegram.Some? &&
          var telegram := spec.telegram.value;
          && Holds(workspace, events, k, Some(telegram.botTokenSecretRef), r.telegram.value.botToken)
          && r.telegram.value.targetChatID == telegram.targetChatID && r.telegram.value.threadID == telegram.threadID)
    && (r.slack.Some? ==>
          spec.slack.Some? &&
          Holds(workspace, events, k, Some(spec.slack.value.botTokenSecretRef), r.slack.value.botToken) &&
          r.slack.value.targetChatID == spec.slack.value.targetChatID)
    && (r.email.Some? ==>
          spec.email.Some? &&
          EmailSpecOf(r.email.value) == spec.email.value.(smtpPasswordSecretRef := None) &&
          Holds(workspace, events, k, spec.email.value.smtpPasswordSecretRef, r.email.value.smtpPassword))
    && (r.webhook.Some? ==>
          spec.webhook.Some? &&
          var webhook := spec.webhook.value;
          && r.webhook.value.webhookURL == webhook.webhookURL && r.webhook.value.webhookMethod == webhook.webhookMethod
          && r.webhook.value.bodyTemplate == webhook.bodyTemplate
          && HeadersHold(workspace, events, k, webhook.headers, r.webhook.value.headers))
    && (r.teams.Some? ==>
          spec.teams.Some? &&
          Holds(workspace, events, k, Some(spec.teams.value.webhookURLSecretRef), r.teams.value.channelWebhookURL))
  }

  /** The same for a Notifier. */
  lemma NotifierDelivered(workspace: string, events: seq<Event>, k: Key)
    requires k.kind == NotifierKind && ReadyNow(Run(Empty(workspace), events), k)
    ensures var s := Run(Empty(workspace), events);
            var o := Last(s.Versions(k)).Value();
            var ref := Ref(NotifierKind, o.status.id);
            && o.spec.ForNotifier? && ref in s.records && s.records[ref].SaveNotifierCall?
            && s.records[ref].notifier.id == o.status.id
            && NotifierHolds(workspace, events, k, o.spec.notifier, s.records[ref].notifier)
  {
    hide Run, ReadyNow, ReadBy, Complete, Plan, PayloadHolds, PayloadSent, NotifierRequestOf;
    var s := Run(Empty(workspace), events);
    var o := Last(s.Versions(k)).Value();
    var got := ReadyMeansSaved(workspace, events, k);
    assert o.spec.Kind() == NotifierKind by {
      Reachable(workspace, events);
      hide Inv;
      ReadyMatches(s, k);
    }
    NotifierSent(workspace, o.spec.notifier, got);
    var sent := RequestOf(workspace, o.spec, got).notifier;
    PayloadsHold(workspace, events, k, o, got, sent);
    PayloadAside(workspace, events, k, o.spec.notifier, sent, o.status.id);
  }

  lemma PayloadAside(workspace: string, events: seq<Event>, k: Key, spec: NotifierSpec, r: NotifierRequest, id: string)
    requires PayloadHolds(workspace, events, k, spec, r)
    ensures PayloadHolds(workspace, events, k, spec, r.(id := id))
  {
    hide Holds, HeadersHold;
  }

  lemma PayloadsHold(workspace: string, events: seq<Event>, k: Key, o: Object, got: seq<string>, r: NotifierRequest)
    requires o.spec.ForNotifier? && ReadBy(Run(Empty(workspace), events), k, o, got) && PayloadSent(o.spec.notifier, got, r)
    ensures PayloadHolds(workspace, events, k, o.spec.notifier, r)
  {
    hide Run, ReadBy, Holds, Carries, HeadersSent, HeadersHold;
    var spec := o.spec.notifier;
    if r.discord.Some? {
      CarriedHolds(workspace, events, k, o, got, 0, Some(spec.discord.value.webhookURLSecretRef), r.discord.value.channelWebhookURL);
    }
    if r.telegram.Some? {
      CarriedHolds(workspace, events, k, o, got, 0, Some(spec.telegram.value.botTokenSecretRef), r.telegram.value.botToken);
    }
    if r.slack.Some? {
      CarriedHolds(workspace, events, k, o, got, 0, Some(spec.slack.value.botTokenSecretRef), r.slack.value.botToken);
    }
    if r.email.Some? {
      CarriedHolds(workspace, events, k, o, got, 0, spec.email.value.smtpPasswordSecretRef, r.email.value.smtpPassword);
    }
    if r.webhook.Some? {
      AllHeadersHold(workspace, events, k, o, got, spec.webhook.value.headers, r.webhook.value.headers);
    }
    if r.teams.Some? {
      CarriedHolds(workspace, events, k, o, got, 0, Some(spec.teams.value.webhookURLSecretRef), r.teams.value.channelWebhookURL);
    }
  }

  lemma AllHeadersHold(workspace: string, events: seq<Event>, k: Key, o: Object, got: seq<string>, headers: seq<WebhookHeader>,
                       sent: seq<HeaderRequest>)
    requires o.spec.ForNotifier? && ReadBy(Run(Empty(workspace), events), k, o, got)
    requires HeadersSent(o.spec.notifier, headers, got, sent)
    ensures HeadersHold(workspace, events, k, headers, sent)
  {
    hide Run, ReadBy, Holds, Carries, HeaderPlan;
    forall i | 0 <= i < |headers| && headers[i].valueSecretRef.Some?
      ensures Holds(workspace, events, k, headers[i].valueSecretRef, sent[i].value)
    {
      CarriedHolds(workspace, events, k, o, got, |HeaderPlan(headers[..i])|, headers[i].valueSecretRef, sent[i].value);
    }
  }

  // ----------------------------------------------------------------- databases

  ghost predicate SecretsHold(workspace: string, events: seq<Event>, k: Key, db: DatabaseSpec, r: DatabaseRequest) {
    && (r.postgresqlLogical.Some? ==>
          db.postgresql.Some? &&
          var pg, sent := db.postgresql.value, r.postgresqlLogical.value;
          && Holds(workspace, events, k, Some(pg.passwordSecretRef), sent.password)
          && Holds(workspace, events, k, pg.sslClientCertSecretRef, sent.sslClientCert)
          && Holds(workspace, events, k, pg.sslClientKeySecretRef, sent.sslClientKey)
          && Holds(workspace, events, k, pg.sslRootCertSecretRef, sent.sslRootCert))
    && (r.mysql.Some? ==>
          db.mysql.Some? && Holds(workspace, events, k, Some(db.mysql.value.passwordSecretRef), r.mysql.value.password))
    && (r.mariadb.Some? ==>
          db.mariadb.Some? && Holds(workspace, events, k, Some(db.mariadb.value.passwordSecretRef), r.mariadb.value.password))
    && (r.mongodb.Some? ==>
          db.mongodb.Some? && Holds(workspace, events, k, Some(db.mongodb.value.passwordSecretRef), r.mongodb.value.password))
  }

  /** Link i has the ID that the cache once showed for notifier i of the spec. */
  ghost predicate LinksHold(workspace: string, events: seq<Event>, k: Key, names: seq<string>, links: seq<NotifierLink>) {
    && |links| == |names|
    && forall i :: 0 <= i < |names| ==>
         && links[i].workspaceID == workspace
         && OnceShown(workspace, events, k.namespace, Reference(NotifierKind, names[i]), links[i].id)
  }

  ghost predicate DatabaseHolds(workspace: string, events: seq<Event>, k: Key, db: DatabaseSpec, r: DatabaseRequest) {
    && r.workspaceID == workspace && EssenceOf(r) == Essence(db)
    && SecretsHold(workspace, events, k, db, r) && LinksHold(workspace, events, k, db.notifierRefs, r.notifiers)
  }

  /** The same for the database of a DatabaseBackup, whose spec, moreover, asks for no physical backups. */
  lemma DatabaseDelivered(workspace: string, events: seq<Event>, k: Key)
    requires k.kind == BackupKind && ReadyNow(Run(Empty(workspace), events), k)
    ensures var s := Run(Empty(workspace), events);
            var o := Last(s.Versions(k)).Value();
            var ref := Ref(BackupKind, o.status.id);
            && o.spec.ForBackup? && !AsksForWal(o.spec.databaseBackup.database)
            && ref in s.records && s.records[ref].SaveDatabaseCall? && s.records[ref].database.id == o.status.id
            && DatabaseHolds(workspace, events, k, o.spec.databaseBackup.database, s.records[ref].database)
  {
    hide Run, ReadyNow, ReadBy, Complete, Plan, DatabaseHolds, DatabaseRequestOf, BackupConfigOf, HealthcheckOf;
    var s := Run(Empty(workspace), events);
    var o := Last(s.Versions(k)).Value();
    var got, storageID := ReadyMeansSynced(workspace, events, k);
    CompleteBackup(o.spec.databaseBackup, got);
    var sent := RequestOf(workspace, o.spec, got).database;
    RequestHolds(workspace, events, k, o, got);
    IdAside(workspace, events, k, o.spec.databaseBackup.database, sent, o.status.id);
  }

  lemma IdAside(workspace: string, events: seq<Event>, k: Key, db: DatabaseSpec, r: DatabaseRequest, id: string)
    requires DatabaseHolds(workspace, events, k, db, r)
    ensures DatabaseHolds(workspace, events, k, db, r.(id := id))
  {
    hide Holds, OnceShown, LinksHold, Essence;
  }

  lemma RequestHolds(workspace: string, events: seq<Event>, k: Key, o: Object, got: seq<string>)
    requires o.spec.ForBackup? && Complete(o.spec, got) && ReadBy(Run(Empty(workspace), events), k, o, got)
    ensures DatabaseHolds(workspace, events, k, o.spec.databaseBackup.database, RequestOf(workspace, o.spec, got).database)
  {
    hide Run, ReadBy, Complete, Plan, SecretsHold, LinksHold, PasswordSent, TlsSent, Essence, EssenceOf, LinksOf;
    var spec := o.spec.databaseBackup;
    var r := RequestOf(workspace, o.spec, got).database;
    DatabaseLossless(workspace, spec, got);
    DatabaseBack(r);
    hide RequestOf, ReadDatabase, WriteDatabase;
    CompleteBackup(spec, got);
    SecretsSent(workspace, spec, got);
    AllSecretsHold(workspace, events, k, o, got, r);
    AllLinksHold(workspace, events, k, o, got, r.notifiers);
  }

  lemma AllSecretsHold(workspace: string, events: seq<Event>, k: Key, o: Object, got: seq<string>, r: DatabaseRequest)
    requires o.spec.ForBackup? && ReadBy(Run(Empty(workspace), events), k, o, got)
    requires PasswordSent(o.spec.databaseBackup, got, r) && TlsSent(o.spec.databaseBackup, got, r)
    ensures SecretsHold(workspace, events, k, o.spec.databaseBackup.database, r)
  {
    hide Run, ReadBy, Holds, Carries;
    var db := o.spec.databaseBackup.database;
    var at := 1 + |db.notifierRefs|;
    if r.postgresqlLogical.Some? {
      var pg, sent := db.postgresql.value, r.postgresqlLogical.value;
      var cert, key := Taken(pg.sslClientCertSecretRef), Taken(pg.sslClientKeySecretRef);
      hide Taken;
      CarriedHolds(workspace, events, k, o, got, at, Some(pg.passwordSecretRef), sent.password);
      CarriedHolds(workspace, events, k, o, got, at + 1, pg.sslClientCertSecretRef, sent.sslClientCert);
      CarriedHolds(workspace, events, k, o, got, at + 1 + cert, pg.sslClientKeySecretRef, sent.sslClientKey);
      CarriedHolds(workspace, events, k, o, got, at + 1 + cert + key, pg.sslRootCertSecretRef, sent.sslRootCert);
    }
    if r.mysql.Some? {
      CarriedHolds(workspace, events, k, o, got, at, Some(db.mysql.value.passwordSecretRef), r.mysql.value.password);
    }
    if r.mariadb.Some? {
      CarriedHolds(workspace, events, k, o, got, at, Some(db.mariadb.value.passwordSecretRef), r.mariadb.value.password);
    }
    if r.mongodb.Some? {
      CarriedHolds(workspace, events, k, o, got, at, Some(db.mongodb.value.passwordSecretRef), r.mongodb.value.password);
    }
  }

  lemma AllLinksHold(workspace: string, events: seq<Event>, k: Key, o: Object, got: seq<string>, links: seq<NotifierLink>)
    requires o.spec.ForBackup? && Complete(o.spec, got) && ReadBy(Run(Empty(workspace), events), k, o, got)
    requires 1 + |o.spec.databaseBackup.database.notifierRefs| <= |got|
    requires links == LinksOf(workspace, got[1..1 + |o.spec.databaseBackup.database.notifierRefs|])
    ensures LinksHold(workspace, events, k, o.spec.databaseBackup.database.notifierRefs, links)
  {
    hide Run, OnceShown, Plan, Complete;
    var names := o.spec.databaseBackup.database.notifierRefs;
    ResolutionOrder(o.spec.databaseBackup);
    forall i | 0 <= i < |names|
      ensures links[i].workspaceID == workspace &&
              OnceShown(workspace, events, k.namespace, Reference(NotifierKind, names[i]), links[i].id)
    {
      ReadingsShown(workspace, events, Read(Owner(k, o.uid), o.generation, 1 + i, Plan(o.spec)[1 + i], got[1 + i]));
    }
  }

  // ------------------------------------------------------------------- configs

  /** The section of the spec that a backup config tells of; the storage by its name again. */
  function BackupSpecOf(r: BackupConfigRequest, storageRef: string): BackupSpec {
    BackupSpec(
      r.isBackupsEnabled,
      IntervalSpec(r.backupInterval.intervalType, r.backupInterval.timeOfDay, r.backupInterval.weekday,
                   r.backupInterval.dayOfMonth, r.backupInterval.cronExpression),
      RetentionSpec(r.retentionPolicyType, r.retentionTimePeriod, r.retentionCount, r.retentionGfsHours, r.retentionGfsDays,
                    r.retentionGfsWeeks, r.retentionGfsMonths, r.retentionGfsYears),
      storageRef, r.sendNotificationsOn, r.isRetryIfFailed, r.maxFailedTriesCount, r.encryption)
  }

  function HealthcheckSpecOf(r: HealthcheckRequest): HealthcheckSpec {
    HealthcheckSpec(r.isHealthcheckEnabled, r.isSentNotificationWhenUnavailable, r.intervalMinutes,
                    r.attemptsBeforeConsideredAsDown, r.storeAttemptsDays)
  }

  /** And for its configs: the backup section with the ID that the cache once showed for its storage, and the
      healthcheck section if there is one. */
  lemma ConfigsDelivered(workspace: string, events: seq<Event>, k: Key)
    requires k.kind == BackupKind && ReadyNow(Run(Empty(workspace), events), k)
    ensures var s := Run(Empty(workspace), events);
            var o := Last(s.Versions(k)).Value();
            o.spec.ForBackup? &&
            var spec, id := o.spec.databaseBackup, o.status.id;
            && id in s.backupConfigs && s.backupConfigs[id].databaseID == id
            && BackupSpecOf(s.backupConfigs[id], spec.backup.storageRef) ==
               spec.backup.(encryption := if spec.backup.encryption == "" then "NONE" else spec.backup.encryption)
            && OnceShown(workspace, events, k.namespace, Reference(StorageKind, spec.backup.storageRef),
                         s.backupConfigs[id].storageID)
            && (spec.healthcheck.Some? ==>
                  && id in s.healthchecks && s.healthchecks[id].databaseID == id
                  && HealthcheckSpecOf(s.healthchecks[id]) == spec.healthcheck.value)
  {
    hide Run, ReadyNow, ReadBy, Complete, Plan, RequestOf, OnceShown;
    var s := Run(Empty(workspace), events);
    var o := Last(s.Versions(k)).Value();
    var got, storageID := ReadyMeansSynced(workspace, events, k);
    ReadingsShown(workspace, events,
                  Read(Owner(k, o.uid), o.generation, 0, Reference(StorageKind, o.spec.databaseBackup.backup.storageRef), storageID));
  }
}
