/** The translation from specs to requests.

A reconcile first reads what its spec refers to, one external read after another, and
then builds requests from the strings it read. `Plan` lists those reads in the order
of the code (`Reject` marks the place where the code gives up without reading), and
the `...Of` functions say which request results from the values read. The methods of
the reconcilers are proved against these functions.
*/
module Builders {
  import opened Resources

  const DEPENDENCY := "DependencyNotReady"
  const UNSUPPORTED := "UnsupportedBackupType"
  const SECRET := "SecretResolutionFailed"
  const UNSUPPORTED_MESSAGE := "backupType WAL_V1 (physical backups) is not supported yet; use PG_DUMP"

  /** One step of resolution. */
  datatype Need =
    | Reference(kind: Kind, name: string)  // the ID of a Ready Storage or Notifier
    | Value(secret: SecretKeyRef)          // the value of a secret key
    | Reject(reason: string)               // the spec itself is refused here
  {
    // The reason of the Ready condition when this step fails.
    function Reason(): string {
      match this
      case Reference(_, _) => DEPENDENCY
      case Value(_) => SECRET
      case Reject(reason) => reason
    }
  }

  // ------------------------------------------------------------- the reads

  function Optional(secret: Option<SecretKeyRef>): seq<Need> {
    match secret
    case None => []
    case Some(ref) => [Value(ref)]
  }

  function StoragePlan(spec: StorageSpec): seq<Need> {
    if spec.storageType == STORAGE_S3 then
      match spec.s3
      case None => [Reject(SECRET)]
      case Some(s3) => [Value(s3.accessKeySecretRef), Value(s3.secretKeySecretRef)]
    else if spec.storageType == STORAGE_SFTP then
      match spec.sftp
      case None => [Reject(SECRET)]
      case Some(sftp) => Optional(sftp.passwordSecretRef) + Optional(sftp.privateKeySecretRef)
    else []
  }

  function HeaderPlan(headers: seq<WebhookHeader>): seq<Need> {
    if headers == [] then []
    else HeaderPlan(headers[..|headers| - 1]) + Optional(headers[|headers| - 1].valueSecretRef)
  }

  function NotifierPlan(spec: NotifierSpec): seq<Need> {
    if spec.notifierType == NOTIFIER_DISCORD then
      if spec.discord.None? then [Reject(SECRET)] else [Value(spec.discord.value.webhookURLSecretRef)]
    else if spec.notifierType == NOTIFIER_TELEGRAM then
      if spec.telegram.None? then [Reject(SECRET)] else [Value(spec.telegram.value.botTokenSecretRef)]
    else if spec.notifierType == NOTIFIER_SLACK then
      if spec.slack.None? then [Reject(SECRET)] else [Value(spec.slack.value.botTokenSecretRef)]
    else if spec.notifierType == NOTIFIER_EMAIL then
      if spec.email.None? then [Reject(SECRET)] else Optional(spec.email.value.smtpPasswordSecretRef)
    else if spec.notifierType == NOTIFIER_WEBHOOK then
      if spec.webhook.None? then [Reject(SECRET)] else HeaderPlan(spec.webhook.value.headers)
    else if spec.notifierType == NOTIFIER_TEAMS then
      if spec.teams.None? then [Reject(SECRET)] else [Value(spec.teams.value.webhookURLSecretRef)]
    else []
  }

  function NotifierNeeds(names: seq<string>): (needs: seq<Need>)
    ensures |needs| == |names|
    ensures forall i :: 0 <= i < |names| ==> needs[i] == Reference(NotifierKind, names[i])
  {
    seq(|names|, i requires 0 <= i < |names| => Reference(NotifierKind, names[i]))
  }

  predicate WantsPhysicalBackups(spec: DatabaseSpec) {
    spec.postgresql.Some? && spec.postgresql.value.backupType == "WAL_V1"
  }

  function PasswordPlan(spec: DatabaseSpec): (needs: seq<Need>)
    ensures |needs| == 1 && !needs[0].Reference?
  {
    if spec.databaseType == DATABASE_POSTGRES then
      if spec.postgresql.None? then [Reject(SECRET)] else [Value(spec.postgresql.value.passwordSecretRef)]
    else if spec.databaseType == DATABASE_MYSQL then
      if spec.mysql.None? then [Reject(SECRET)] else [Value(spec.mysql.value.passwordSecretRef)]
    else if spec.databaseType == DATABASE_MARIADB then
      if spec.mariadb.None? then [Reject(SECRET)] else [Value(spec.mariadb.value.passwordSecretRef)]
    else if spec.databaseType == DATABASE_MONGODB then
      if spec.mongodb.None? then [Reject(SECRET)] else [Value(spec.mongodb.value.passwordSecretRef)]
    else [Reject(SECRET)]
  }

  function SslPlan(spec: DatabaseSpec): seq<Need> {
    if spec.databaseType != DATABASE_POSTGRES || spec.postgresql.None? then []
    else
      var pg := spec.postgresql.value;
      Optional(pg.sslClientCertSecretRef) + Optional(pg.sslClientKeySecretRef) + Optional(pg.sslRootCertSecretRef)
  }

  function BackupPlan(spec: DatabaseBackupSpec): seq<Need> {
    [Reference(StorageKind, spec.backup.storageRef)] + NotifierNeeds(spec.database.notifierRefs) +
    (if WantsPhysicalBackups(spec.database) then [Reject(UNSUPPORTED)] else []) +
    PasswordPlan(spec.database) + SslPlan(spec.database)
  }

  function Plan(spec: Spec): seq<Need> {
    match spec
    case ForStorage(storage) => StoragePlan(storage)
    case ForNotifier(notifier) => NotifierPlan(notifier)
    case ForBackup(backup) => BackupPlan(backup)
  }

  /** The step at this place of the plan. */
  function NeedAt(spec: Spec, i: nat): Need { if i < |Plan(spec)| then Plan(spec)[i] else Reject("") }

  /** The reads of a reconcile of `spec` all succeeded, with these values. */
  predicate Complete(spec: Spec, got: seq<string>) {
    |got| == |Plan(spec)| && forall i :: 0 <= i < |got| ==> !Plan(spec)[i].Reject?
  }

  // ---------------------------------------------------------- the requests

  function OrEmpty(secret: Option<SecretKeyRef>, got: seq<string>, i: nat): string
    requires secret.Some? ==> i < |got|
  {
    if secret.Some? then got[i] else ""
  }

  function StorageRequestOf(workspace: string, spec: StorageSpec, got: seq<string>): StorageRequest
    requires Complete(ForStorage(spec), got)
  {
    var needs := Plan(ForStorage(spec));
    assert |needs| > 0 ==> !needs[0].Reject?;
    var empty := StorageRequest("", workspace, spec.storageType, spec.name, None, None);
    if spec.storageType == STORAGE_S3 then
      var s3 := spec.s3.value;
      empty.(s3 := Some(S3Request(
        s3.bucket, s3.region, got[0], got[1], s3.endpoint, s3.prefix,
        s3.isUseVirtualHostedStyle, s3.isSkipTLSVerify, s3.storageClass)))
    else if spec.storageType == STORAGE_SFTP then
      var sftp := spec.sftp.value;
      empty.(sftp := Some(SftpRequest(
        sftp.host, sftp.port, sftp.username,
        OrEmpty(sftp.passwordSecretRef, got, 0),
        OrEmpty(sftp.privateKeySecretRef, got, |Optional(sftp.passwordSecretRef)|),
        sftp.path, sftp.isSkipHostKeyVerify)))
    else empty
  }

  /** The headers sent, in order: a header with a secret reference carries the next value read. */
  function HeadersOf(headers: seq<WebhookHeader>, got: seq<string>): (sent: seq<HeaderRequest>)
    requires |got| == |HeaderPlan(headers)|
    ensures |sent| == |headers|
  {
    if headers == [] then []
    else
      var init, last := headers[..|headers| - 1], headers[|headers| - 1];
      var used := |HeaderPlan(init)|;
      HeadersOf(init, got[..used]) +
      [HeaderRequest(last.key, if last.valueSecretRef.Some? then got[used] else last.value)]
  }

  function NotifierRequestOf(workspace: string, spec: NotifierSpec, got: seq<string>): NotifierRequest
    requires Complete(ForNotifier(spec), got)
  {
    var needs := Plan(ForNotifier(spec));
    assert |needs| > 0 ==> !needs[0].Reject?;
    var empty := NotifierRequest("", workspace, spec.name, spec.notifierType, None, None, None, None, None, None);
    if spec.notifierType == NOTIFIER_DISCORD then
      empty.(discord := Some(DiscordRequest(got[0])))
    else if spec.notifierType == NOTIFIER_TELEGRAM then
      empty.(telegram := Some(TelegramRequest(got[0], spec.telegram.value.targetChatID, spec.telegram.value.threadID)))
    else if spec.notifierType == NOTIFIER_SLACK then
      empty.(slack := Some(SlackRequest(got[0], spec.slack.value.targetChatID)))
    else if spec.notifierType == NOTIFIER_EMAIL then
      var email := spec.email.value;
      empty.(email := Some(EmailRequest(
        email.targetEmail, email.smtpHost, email.smtpPort, email.smtpUser,
        OrEmpty(email.smtpPasswordSecretRef, got, 0), email.from, email.isInsecureSkipVerify)))
    else if spec.notifierType == NOTIFIER_WEBHOOK then
      var webhook := spec.webhook.value;
      empty.(webhook := Some(WebhookRequest(
        webhook.webhookURL, webhook.webhookMethod, webhook.bodyTemplate, HeadersOf(webhook.headers, got))))
    else if spec.notifierType == NOTIFIER_TEAMS then
      empty.(teams := Some(TeamsRequest(got[0])))
    else empty
  }

  datatype SslMaterial = SslMaterial(clientCert: string, clientKey: string, rootCert: string)

  function SslOf(spec: DatabaseSpec, got: seq<string>): SslMaterial
    requires |got| == |SslPlan(spec)|
  {
    if spec.databaseType != DATABASE_POSTGRES || spec.postgresql.None? then SslMaterial("", "", "")
    else
      var pg := spec.postgresql.value;
      var certs := |Optional(pg.sslClientCertSecretRef)|;
      var keys := |Optional(pg.sslClientKeySecretRef)|;
      SslMaterial(
        OrEmpty(pg.sslClientCertSecretRef, got, 0),
        OrEmpty(pg.sslClientKeySecretRef, got, certs),
        OrEmpty(pg.sslRootCertSecretRef, got, certs + keys))
  }

  function LinksOf(workspace: string, notifierIDs: seq<string>): (links: seq<NotifierLink>)
    ensures |links| == |notifierIDs|
    ensures forall i :: 0 <= i < |links| ==> links[i] == NotifierLink(notifierIDs[i], workspace)
  {
    seq(|notifierIDs|, i requires 0 <= i < |notifierIDs| => NotifierLink(notifierIDs[i], workspace))
  }

  function AtLeastOneCpu(cpuCount: int): int { if cpuCount == 0 then 1 else cpuCount }

  /** The section that the code dereferences for the database type is there. */
  predicate HasSection(spec: DatabaseSpec) {
    && (spec.databaseType == DATABASE_POSTGRES ==> spec.postgresql.Some?)
    && (spec.databaseType == DATABASE_MYSQL ==> spec.mysql.Some?)
    && (spec.databaseType == DATABASE_MARIADB ==> spec.mariadb.Some?)
    && (spec.databaseType == DATABASE_MONGODB ==> spec.mongodb.Some?)
  }

  function SqlRequestOf(sql: SqlSpec, password: string): SqlRequest {
    SqlRequest(sql.version, sql.host, sql.port, sql.username, password, sql.database, sql.isHttps)
  }

  function PostgresqlRequestOf(pg: PostgresqlSpec, password: string, ssl: SslMaterial): PostgresqlRequest {
    PostgresqlRequest(
      pg.version, pg.host, pg.port, pg.username, password,
      if pg.database != "" then Some(pg.database) else None,
      pg.sslMode, ssl.clientCert, ssl.clientKey, ssl.rootCert,
      pg.includeSchemas, pg.excludeTables, AtLeastOneCpu(pg.cpuCount), pg.isSkipUserMappings)
  }

  function MongodbRequestOf(mongo: MongodbSpec, password: string): MongodbRequest {
    MongodbRequest(
      mongo.version, mongo.host, mongo.port, mongo.username, password, mongo.database, mongo.authDatabase,
      mongo.isHttps, mongo.isSrv, mongo.isDirectConnection, AtLeastOneCpu(mongo.cpuCount))
  }

  function DatabaseRequestOf(workspace: string, spec: DatabaseSpec, password: string, ssl: SslMaterial,
                             notifierIDs: seq<string>): DatabaseRequest
    requires HasSection(spec)
  {
    var empty := DatabaseRequest(
      "", workspace, spec.name, spec.databaseType, None, None, None, None, LinksOf(workspace, notifierIDs));
    if spec.databaseType == DATABASE_POSTGRES then
      empty.(databaseType := "POSTGRES_LOGICAL",
             postgresqlLogical := Some(PostgresqlRequestOf(spec.postgresql.value, password, ssl)))
    else if spec.databaseType == DATABASE_MYSQL then
      empty.(mysql := Some(SqlRequestOf(spec.mysql.value, password)))
    else if spec.databaseType == DATABASE_MARIADB then
      empty.(mariadb := Some(SqlRequestOf(spec.mariadb.value, password)))
    else if spec.databaseType == DATABASE_MONGODB then
      empty.(mongodb := Some(MongodbRequestOf(spec.mongodb.value, password)))
    else empty
  }

  function BackupConfigOf(spec: DatabaseBackupSpec, databaseID: string, storageID: string): BackupConfigRequest {
    var backup := spec.backup;
    var keep := backup.retentionPolicy;
    var interval := backup.interval;
    BackupConfigRequest(
      databaseID, backup.isEnabled, keep.policyType, keep.timePeriod, keep.count,
      keep.gfsHours, keep.gfsDays, keep.gfsWeeks, keep.gfsMonths, keep.gfsYears, storageID,
      IntervalRequest(interval.intervalType, interval.timeOfDay, interval.weekday, interval.dayOfMonth,
                      interval.cronExpression),
      backup.sendNotificationsOn, backup.isRetryIfFailed, backup.maxFailedTriesCount,
      if backup.encryption == "" then "NONE" else backup.encryption)
  }

  function HealthcheckOf(check: HealthcheckSpec, databaseID: string): HealthcheckRequest {
    HealthcheckRequest(
      databaseID, check.isEnabled, check.isSentNotificationWhenUnavailable, check.intervalMinutes,
      check.attemptsBeforeConsideredAsDown, check.storeAttemptsDays)
  }

  /** What a completed resolution of a DatabaseBackup knows about its spec: no physical
      backups, whatever its type, the section of its type is there, and the type is one of the four supported. */
  lemma CompleteBackup(spec: DatabaseBackupSpec, got: seq<string>)
    requires Complete(ForBackup(spec), got)
    ensures !WantsPhysicalBackups(spec.database) && HasSection(spec.database)
    ensures spec.database.postgresql.Some? ==> spec.database.postgresql.value.backupType != "WAL_V1"
    ensures spec.database.databaseType in {"POSTGRES", "MYSQL", "MARIADB", "MONGODB"}
    ensures |got| == 2 + |spec.database.notifierRefs| + |SslPlan(spec.database)|
  {
    var needs := Plan(ForBackup(spec));
    var n := 1 + |spec.database.notifierRefs|;
    assert needs[n] ==
           if WantsPhysicalBackups(spec.database) then Reject(UNSUPPORTED) else PasswordPlan(spec.database)[0];
  }

  /** The request a complete resolution leads to. For a DatabaseBackup the values read are,
      in order: the storage ID, the notifier IDs, the password, the TLS material. */
  function RequestOf(workspace: string, spec: Spec, got: seq<string>): (r: Request)
    requires Complete(spec, got)
    ensures r.Kind() == spec.Kind()
  {
    match spec
    case ForStorage(storage) => SaveStorageCall(StorageRequestOf(workspace, storage, got))
    case ForNotifier(notifier) => SaveNotifierCall(NotifierRequestOf(workspace, notifier, got))
    case ForBackup(backup) =>
      CompleteBackup(backup, got);
      var n := |backup.database.notifierRefs|;
      SaveDatabaseCall(DatabaseRequestOf(
        workspace, backup.database, got[1 + n], SslOf(backup.database, got[2 + n..]), got[1..1 + n]))
  }

  // ----------------------------------------------------- what is guaranteed

  function Count(present: bool): nat { if present then 1 else 0 }

  /** Every database request that a completed resolution sends carries exactly one engine
      payload, the one its wire type names, and never comes from a spec that asks for
      physical backups. */
  lemma OneEnginePayload(workspace: string, spec: DatabaseBackupSpec, got: seq<string>)
    requires Complete(ForBackup(spec), got)
    ensures var r := RequestOf(workspace, ForBackup(spec), got).database;
            && (spec.database.postgresql.Some? ==> spec.database.postgresql.value.backupType != "WAL_V1")
            && Count(r.postgresqlLogical.Some?) + Count(r.mysql.Some?) + Count(r.mariadb.Some?) +
               Count(r.mongodb.Some?) == 1
            && (r.postgresqlLogical.Some? <==> r.databaseType == "POSTGRES_LOGICAL")
            && (r.mysql.Some? <==> r.databaseType == "MYSQL")
            && (r.mariadb.Some? <==> r.databaseType == "MARIADB")
            && (r.mongodb.Some? <==> r.databaseType == "MONGODB")
            && r.databaseType == if spec.database.databaseType == "POSTGRES" then "POSTGRES_LOGICAL" else spec.database.databaseType
  {
    CompleteBackup(spec, got);
  }

  /** A notifier request carries exactly the payload of its type, or none for an unknown type. */
  lemma OneNotifierPayload(workspace: string, spec: NotifierSpec, got: seq<string>)
    requires Complete(ForNotifier(spec), got)
    ensures var r := NotifierRequestOf(workspace, spec, got);
            && Count(r.discord.Some?) + Count(r.telegram.Some?) + Count(r.slack.Some?) + Count(r.email.Some?) +
               Count(r.webhook.Some?) + Count(r.teams.Some?) ==
               Count(spec.notifierType in {NOTIFIER_DISCORD, NOTIFIER_TELEGRAM, NOTIFIER_SLACK, NOTIFIER_EMAIL, NOTIFIER_WEBHOOK, NOTIFIER_TEAMS})
            && (r.discord.Some? <==> spec.notifierType == NOTIFIER_DISCORD) &&
               (r.telegram.Some? <==> spec.notifierType == NOTIFIER_TELEGRAM)
            && (r.slack.Some? <==> spec.notifierType == NOTIFIER_SLACK) &&
               (r.email.Some? <==> spec.notifierType == NOTIFIER_EMAIL)
            && (r.webhook.Some? <==> spec.notifierType == NOTIFIER_WEBHOOK) &&
               (r.teams.Some? <==> spec.notifierType == NOTIFIER_TEAMS)
            && (r.webhook.Some? ==> spec.webhook.Some? && |r.webhook.value.headers| == |spec.webhook.value.headers|)
  {
    var needs := Plan(ForNotifier(spec));
    assert |needs| > 0 ==> !needs[0].Reject?;
  }

  /** Position k of the sent headers is header k resolved: same key, the literal value when
      there is no reference, otherwise the value read at the place of its reference. */
  lemma {:induction false} HeadersKeepOrder(headers: seq<WebhookHeader>, got: seq<string>, k: nat)
    requires |got| == |HeaderPlan(headers)| && k < |headers|
    ensures |HeaderPlan(headers[..k])| <= |HeaderPlan(headers)|
    ensures var sent := HeadersOf(headers, got)[k];
            var at := |HeaderPlan(headers[..k])|;
            && sent.key == headers[k].key
            && (headers[k].valueSecretRef.None? ==> sent.value == headers[k].value)
            && (headers[k].valueSecretRef.Some? ==>
                  && at < |got| && sent.value == got[at]
                  && HeaderPlan(headers)[at] == Value(headers[k].valueSecretRef.value))
  {
    var init := headers[..|headers| - 1];
    if k < |headers| - 1 {
      HeadersKeepOrder(init, got[..|HeaderPlan(init)|], k);
      assert init[..k] == headers[..k];
    }
  }

  /** The links of a database request are the notifiers of the spec in order, duplicates kept:
      link k carries what the read of reference k returned. */
  lemma LinksKeepOrder(workspace: string, spec: DatabaseBackupSpec, got: seq<string>, k: nat)
    requires Complete(ForBackup(spec), got) && k < |spec.database.notifierRefs|
    ensures var links := RequestOf(workspace, ForBackup(spec), got).database.notifiers;
            && |links| == |spec.database.notifierRefs|
            && links[k] == NotifierLink(got[1 + k], workspace)
            && Plan(ForBackup(spec))[1 + k] == Reference(NotifierKind, spec.database.notifierRefs[k])
  {
    ReferencesComeSecond(spec, k);
    CompleteBackup(spec, got);
    var n := |spec.database.notifierRefs|;
    assert RequestOf(workspace, ForBackup(spec), got).database.notifiers == LinksOf(workspace, got[1..1 + n]) by {
      hide Complete, LinksOf, SslOf, PostgresqlRequestOf, MongodbRequestOf, SqlRequestOf;
    }
    hide RequestOf, Complete, Plan;
  }

  lemma ReferencesComeSecond(spec: DatabaseBackupSpec, k: nat)
    requires k < |spec.database.notifierRefs|
    ensures 1 + k < |Plan(ForBackup(spec))| &&
            Plan(ForBackup(spec))[1 + k] == Reference(NotifierKind, spec.database.notifierRefs[k])
  {
    hide PasswordPlan, SslPlan, WantsPhysicalBackups;
  }

  /** An S3 or SFTP section without the names of its secrets, whose values are sent instead. */
  function S3Essence(s3: S3Spec): S3Spec {
    s3.(accessKeySecretRef := SecretKeyRef("", ""), secretKeySecretRef := SecretKeyRef("", ""))
  }

  function SftpEssence(sftp: SftpSpec): SftpSpec { sftp.(passwordSecretRef := None, privateKeySecretRef := None) }

  /** The secret values that an SFTP request carries; a secret that the section does not name goes as "". */
  datatype SftpSecrets = SftpSecrets(password: string, privateKey: string)

  function SftpSecretsOf(spec: StorageSpec, got: seq<string>): SftpSecrets
    requires spec.sftp.Some? && |got| == |StoragePlan(spec.(storageType := STORAGE_SFTP))|
  {
    var sftp := spec.sftp.value;
    SftpSecrets(OrEmpty(sftp.passwordSecretRef, got, 0),
                OrEmpty(sftp.privateKeySecretRef, got, |Optional(sftp.passwordSecretRef)|))
  }

  /** What the requests of two storages with these names, types, sections and secret values have to agree in. */
  ghost predicate SamePayload(a: StorageSpec, gotA: seq<string>, b: StorageSpec, gotB: seq<string>)
    requires Complete(ForStorage(a), gotA) && Complete(ForStorage(b), gotB)
  {
    && a.name == b.name && a.storageType == b.storageType
    && (a.storageType == STORAGE_S3 ==>
          a.s3.Some? && b.s3.Some? && S3Essence(a.s3.value) == S3Essence(b.s3.value) && gotA == gotB)
    && (a.storageType == STORAGE_SFTP ==>
          && a.sftp.Some? && b.sftp.Some? && SftpEssence(a.sftp.value) == SftpEssence(b.sftp.value)
          && SftpSecretsOf(a, gotA) == SftpSecretsOf(b, gotB))
  }

  lemma SectionThere(spec: StorageSpec, got: seq<string>)
    requires Complete(ForStorage(spec), got)
    ensures spec.storageType == STORAGE_S3 ==> spec.s3.Some? && |got| == 2
    ensures spec.storageType == STORAGE_SFTP ==> spec.sftp.Some? && |got| == |StoragePlan(spec)|
  {
    assert STORAGE_S3[1] != STORAGE_SFTP[1];
    if |got| > 0 { assert !Plan(ForStorage(spec))[0].Reject?; }
  }

  /** Exactly what a storage request carries. For S3: the whole section and both secret values. For SFTP: the
      whole section and the secret values, where a secret that is not named is sent like an empty one. For
      every other type: nothing but name and type. */
  lemma StoragePayloadCarried(workspace: string, a: StorageSpec, gotA: seq<string>, b: StorageSpec, gotB: seq<string>)
    requires Complete(ForStorage(a), gotA) && Complete(ForStorage(b), gotB)
    ensures StorageRequestOf(workspace, a, gotA) == StorageRequestOf(workspace, b, gotB) <==> SamePayload(a, gotA, b, gotB)
    ensures var r := StorageRequestOf(workspace, a, gotA);
            (r.s3.Some? <==> a.storageType == STORAGE_S3) && (r.sftp.Some? <==> a.storageType == STORAGE_SFTP)
  {
    assert STORAGE_S3[1] != STORAGE_SFTP[1];
    SectionThere(a, gotA);
    SectionThere(b, gotB);
  }

  /** The settings of storages of this type get lost: whatever their sections and secrets, those of one name
      are all sent as the same request. */
  ghost predicate SettingsLost(storageType: string) {
    forall workspace, a, gotA, b, gotB ::
      Complete(ForStorage(a), gotA) && Complete(ForStorage(b), gotB) &&
      a.storageType == storageType && b.storageType == storageType && a.name == b.name ==>
        StorageRequestOf(workspace, a, gotA) == StorageRequestOf(workspace, b, gotB)
  }

  /** They get lost exactly for the types other than S3 and SFTP. */
  lemma StoragePayloadLost(storageType: string)
    ensures SettingsLost(storageType) <==> storageType !in {STORAGE_S3, STORAGE_SFTP}
  {
    if storageType in {STORAGE_S3, STORAGE_SFTP} {
      var a, gotA, b, gotB := TwoStorages(storageType);
      assert StorageRequestOf("", a, gotA) != StorageRequestOf("", b, gotB);
    } else {
      forall workspace, a, gotA, b, gotB |
        Complete(ForStorage(a), gotA) && Complete(ForStorage(b), gotB) &&
        a.storageType == storageType && b.storageType == storageType && a.name == b.name
        ensures StorageRequestOf(workspace, a, gotA) == StorageRequestOf(workspace, b, gotB)
      {
        StoragePayloadCarried(workspace, a, gotA, b, gotB);
      }
    }
  }

  lemma TwoStorages(storageType: string)
    returns (a: StorageSpec, gotA: seq<string>, b: StorageSpec, gotB: seq<string>)
    requires storageType in {STORAGE_S3, STORAGE_SFTP}
    ensures a.storageType == storageType && b.storageType == storageType && a.name == b.name
    ensures Complete(ForStorage(a), gotA) && Complete(ForStorage(b), gotB)
    ensures StorageRequestOf("", a, gotA) != StorageRequestOf("", b, gotB)
  {
    assert STORAGE_S3[1] != STORAGE_SFTP[1];
    var s3 := S3Spec("a", "", "", "", SecretKeyRef("", ""), SecretKeyRef("", ""), false, false, "");
    var sftp := SftpSpec("a", 22, "", None, None, "", false);
    var got: seq<string> := if storageType == STORAGE_S3 then ["", ""] else [];
    gotA, gotB := got, got;
    a := StorageSpec("x", storageType, Some(s3), Some(sftp), None, None, None, None, None, None);
    b := a.(s3 := Some(s3.(bucket := "b")), sftp := Some(sftp.(host := "b")));
    assert "a"[0] != "b"[0];
  }
}
