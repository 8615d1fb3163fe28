/** What the requests carry, in the terms of the specs: which member of a request comes from which member of the
spec, and which secret or reference every value that was read stands for. Types, reasons and wire
values are written out here, so that these laws do not depend on how the builders spell them.
*/
module Requests {
  import opened Resources
  import opened Builders

  /** The value was read at this place of a plan, for this secret; without a secret it is empty. */
  ghost predicate InPlace(plan: seq<Need>, got: seq<string>, i: nat, secret: Option<SecretKeyRef>, value: string) {
    if secret.None? then value == "" else i < |plan| && i < |got| && plan[i] == Value(secret.value) && got[i] == value
  }

  ghost predicate Carries(spec: Spec, got: seq<string>, i: nat, secret: Option<SecretKeyRef>, value: string) {
    InPlace(Plan(spec), got, i, secret, value)
  }

  function Taken(secret: Option<SecretKeyRef>): nat { if secret.Some? then 1 else 0 }

  // ---------------------------------------------------- resolution, in order

  /** The spec asks for physical backups. */
  predicate AsksForWal(spec: DatabaseSpec) {
    spec.postgresql.Some? && spec.postgresql.value.backupType == "WAL_V1"
  }

  /** The order of resolution: the storage, the notifiers, the refusal of physical backups, and the password of
      the section that the type names. */
  lemma ResolutionOrder(spec: DatabaseBackupSpec)
    ensures var plan := Plan(ForBackup(spec));
            var db := spec.database;
            var n := |db.notifierRefs|;
            && |plan| >= 2 + n && plan[0] == Reference(StorageKind, spec.backup.storageRef)
            && (forall i :: 0 <= i < n ==> plan[1 + i] == Reference(NotifierKind, db.notifierRefs[i]))
            && (if AsksForWal(db) then plan[1 + n] == Reject("UnsupportedBackupType")
                else if db.databaseType == "POSTGRES" && db.postgresql.Some? then
                  plan[1 + n] == Value(db.postgresql.value.passwordSecretRef)
                else if db.databaseType == "MYSQL" && db.mysql.Some? then plan[1 + n] == Value(db.mysql.value.passwordSecretRef)
                else if db.databaseType == "MARIADB" && db.mariadb.Some? then
                  plan[1 + n] == Value(db.mariadb.value.passwordSecretRef)
                else if db.databaseType == "MONGODB" && db.mongodb.Some? then
                  plan[1 + n] == Value(db.mongodb.value.passwordSecretRef)
                else plan[1 + n] == Reject("SecretResolutionFailed"))
  {
    hide SslPlan;
    DatabaseTypes(spec.database.databaseType);
    var plan := Plan(ForBackup(spec));
    var n := |spec.database.notifierRefs|;
    var head := [Reference(StorageKind, spec.backup.storageRef)] + NotifierNeeds(spec.database.notifierRefs);
    var physical := if WantsPhysicalBackups(spec.database) then [Reject(UNSUPPORTED)] else [];
    assert plan == head + (physical + PasswordPlan(spec.database) + SslPlan(spec.database));
    forall i | 0 <= i < n ensures plan[1 + i] == Reference(NotifierKind, spec.database.notifierRefs[i]) {
      assert plan[1 + i] == head[1 + i];
    }
  }

  /** What follows the storage and the notifiers in a plan. */
  function Tail(spec: DatabaseSpec): seq<Need> {
    (if WantsPhysicalBackups(spec) then [Reject(UNSUPPORTED)] else []) + PasswordPlan(spec) + SslPlan(spec)
  }

  lemma PlanSplits(spec: DatabaseBackupSpec)
    ensures |Plan(ForBackup(spec))| >= 1 + |spec.database.notifierRefs|
    ensures Plan(ForBackup(spec))[1 + |spec.database.notifierRefs|..] == Tail(spec.database)
  {
    Splits([Reference(StorageKind, spec.backup.storageRef)], NotifierNeeds(spec.database.notifierRefs),
           if WantsPhysicalBackups(spec.database) then [Reject(UNSUPPORTED)] else [], PasswordPlan(spec.database),
           SslPlan(spec.database));
    hide SslPlan, PasswordPlan, WantsPhysicalBackups;
  }

  lemma Splits(a: seq<Need>, b: seq<Need>, c: seq<Need>, d: seq<Need>, e: seq<Need>)
    ensures (a + b + c + d + e)[|a| + |b|..] == c + d + e
  {
    assert a + b + c + d + e == (a + b) + (c + d + e);
  }

  lemma TailReads(spec: DatabaseSpec, i: nat)
    requires i < |Tail(spec)|
    ensures !Tail(spec)[i].Reference?
  {
    var password, ssl := PasswordPlan(spec), SslPlan(spec);
    assert forall j :: 0 <= j < |ssl| ==> ssl[j].Value?;
    hide PasswordPlan, SslPlan, WantsPhysicalBackups;
  }

  /** After the notifiers nothing is referred to but secrets. */
  lemma NoReferenceAfter(spec: DatabaseBackupSpec, i: nat)
    requires |spec.database.notifierRefs| < i < |Plan(ForBackup(spec))|
    ensures !Plan(ForBackup(spec))[i].Reference?
  {
    hide Plan, Tail;
    PlanSplits(spec);
    var n := 1 + |spec.database.notifierRefs|;
    assert Plan(ForBackup(spec))[i] == Plan(ForBackup(spec))[n..][i - n];
    TailReads(spec.database, i - n);
  }

  /** The four types are different. */
  lemma DatabaseTypes(databaseType: string)
    ensures Count(databaseType == "POSTGRES") + Count(databaseType == "MYSQL") + Count(databaseType == "MARIADB") +
            Count(databaseType == "MONGODB") <= 1
  {
    assert "POSTGRES"[0] != "MYSQL"[0] && "MYSQL"[1] != "MARIADB"[1] && "MYSQL"[1] != "MONGODB"[1] && "MARIADB"[1] != "MONGODB"[1];
  }

  /** A spec is refused as unsupported if and only if it has a postgres section that asks for WAL_V1, whatever
      its database type. */
  lemma RefusedIff(spec: DatabaseBackupSpec)
    ensures Reject("UnsupportedBackupType") in Plan(ForBackup(spec)) <==>
              spec.database.postgresql.Some? && spec.database.postgresql.value.backupType == "WAL_V1"
  {
    assert "UnsupportedBackupType"[0] != "SecretResolutionFailed"[0];
    var refused := Reject("UnsupportedBackupType");
    assert refused !in NotifierNeeds(spec.database.notifierRefs) + PasswordPlan(spec.database) + SslPlan(spec.database);
    if AsksForWal(spec.database) { ResolutionOrder(spec); }
  }

  // ---------------------------------------------------------------- storages

  const NO_SECRET := SecretKeyRef("", "")

  /** The section of which this is the request, but for the secrets. */
  function S3SpecOf(r: S3Request): S3Spec {
    S3Spec(r.bucket, r.region, r.endpoint, r.prefix, NO_SECRET, NO_SECRET, r.useVirtualHostedStyle, r.skipTLSVerify,
           r.storageClass)
  }

  function SftpSpecOf(r: SftpRequest): SftpSpec {
    SftpSpec(r.host, r.port, r.username, None, None, r.path, r.isSkipHostKeyVerify)
  }

  ghost predicate S3Sent(spec: StorageSpec, got: seq<string>, r: S3Request) {
    spec.s3.Some? &&
    var s3 := spec.s3.value;
    && S3SpecOf(r) == s3.(accessKeySecretRef := NO_SECRET, secretKeySecretRef := NO_SECRET)
    && Carries(ForStorage(spec), got, 0, Some(s3.accessKeySecretRef), r.accessKey)
    && Carries(ForStorage(spec), got, 1, Some(s3.secretKeySecretRef), r.secretKey)
  }

  ghost predicate SftpSent(spec: StorageSpec, got: seq<string>, r: SftpRequest) {
    spec.sftp.Some? &&
    var sftp := spec.sftp.value;
    && SftpSpecOf(r) == sftp.(passwordSecretRef := None, privateKeySecretRef := None)
    && Carries(ForStorage(spec), got, 0, sftp.passwordSecretRef, r.password)
    && Carries(ForStorage(spec), got, Taken(sftp.passwordSecretRef), sftp.privateKeySecretRef, r.privateKey)
  }

  /** A storage request says whose storage it is, of which name and type; for S3 and SFTP its members are those of
      the section, and every secret goes into the member that its reference is for. */
  lemma StorageSent(workspace: string, spec: StorageSpec, got: seq<string>)
    requires Complete(ForStorage(spec), got)
    ensures var r := RequestOf(workspace, ForStorage(spec), got).storage;
            && r.id == "" && r.workspaceID == workspace && r.name == spec.name && r.storageType == spec.storageType
            && (r.s3.Some? <==> spec.storageType == "S3") && (r.s3.Some? ==> S3Sent(spec, got, r.s3.value))
            && (r.sftp.Some? <==> spec.storageType == "SFTP") && (r.sftp.Some? ==> SftpSent(spec, got, r.sftp.value))
  {
    assert "S3"[1] != "SFTP"[1];
    SectionThere(spec, got);
  }

  // --------------------------------------------------------------- notifiers

  function EmailSpecOf(r: EmailRequest): EmailSpec {
    EmailSpec(r.targetEmail, r.smtpHost, r.smtpPort, r.smtpUser, None, r.from, r.isInsecureSkipVerify)
  }

  /** Header k is sent at place k, with its literal value or that of its secret. */
  ghost predicate HeadersSent(spec: NotifierSpec, headers: seq<WebhookHeader>, got: seq<string>, sent: seq<HeaderRequest>) {
    && |sent| == |headers|
    && forall k :: 0 <= k < |headers| ==>
         && sent[k].key == headers[k].key
         && if headers[k].valueSecretRef.None? then sent[k].value == headers[k].value
            else Carries(ForNotifier(spec), got, |HeaderPlan(headers[..k])|, headers[k].valueSecretRef, sent[k].value)
  }

  /** The payload of each type, member by member. */
  ghost predicate PayloadSent(spec: NotifierSpec, got: seq<string>, r: NotifierRequest) {
    var all := ForNotifier(spec);
    && (r.discord.Some? ==>
          spec.discord.Some? &&
          Carries(all, got, 0, Some(spec.discord.value.webhookURLSecretRef), r.discord.value.channelWebhookURL))
    && (r.telegram.Some? ==>
          spec.telegram.Some? &&
          var telegram := spec.telegram.value;
          && Carries(all, got, 0, Some(telegram.botTokenSecretRef), r.telegram.value.botToken)
          && r.telegram.value.targetChatID == telegram.targetChatID && r.telegram.value.threadID == telegram.threadID)
    && (r.slack.Some? ==>
          spec.slack.Some? &&
          Carries(all, got, 0, Some(spec.slack.value.botTokenSecretRef), r.slack.value.botToken) &&
          r.slack.value.targetChatID == spec.slack.value.targetChatID)
    && (r.email.Some? ==>
          spec.email.Some? &&
          EmailSpecOf(r.email.value) == spec.email.value.(smtpPasswordSecretRef := None) &&
          Carries(all, got, 0, spec.email.value.smtpPasswordSecretRef, r.email.value.smtpPassword))
    && (r.webhook.Some? ==>
          spec.webhook.Some? &&
          var webhook := spec.webhook.value;
          && r.webhook.value.webhookURL == webhook.webhookURL && r.webhook.value.webhookMethod == webhook.webhookMethod
          && r.webhook.value.bodyTemplate == webhook.bodyTemplate
          && HeadersSent(spec, webhook.headers, got, r.webhook.value.headers))
    && (r.teams.Some? ==>
          spec.teams.Some? &&
          Carries(all, got, 0, Some(spec.teams.value.webhookURLSecretRef), r.teams.value.channelWebhookURL))
  }

  /** A notifier request says whose notifier it is, of which name and type, and carries the payload of this type
      and no other; its members are those of the section, with the secrets in their places. */
  lemma NotifierSent(workspace: string, spec: NotifierSpec, got: seq<string>)
    requires Complete(ForNotifier(spec), got)
    ensures var r := RequestOf(workspace, ForNotifier(spec), got).notifier;
            && r.id == "" && r.workspaceID == workspace && r.name == spec.name && r.notifierType == spec.notifierType
            && (r.discord.Some? <==> spec.notifierType == "DISCORD") && (r.telegram.Some? <==> spec.notifierType == "TELEGRAM")
            && (r.slack.Some? <==> spec.notifierType == "SLACK") && (r.email.Some? <==> spec.notifierType == "EMAIL")
            && (r.webhook.Some? <==> spec.notifierType == "WEBHOOK") && (r.teams.Some? <==> spec.notifierType == "TEAMS")
            && PayloadSent(spec, got, r)
  {
    OneNotifierPayload(workspace, spec, got);
    var needs := Plan(ForNotifier(spec));
    assert |needs| > 0 ==> !needs[0].Reject?;
    hide HeadersOf, HeaderPlan, HeadersSent;
    if spec.notifierType == "WEBHOOK" && spec.webhook.Some? { AllHeadersSent(spec, got); }
  }

  lemma AllHeadersSent(spec: NotifierSpec, got: seq<string>)
    requires spec.webhook.Some? && Plan(ForNotifier(spec)) == HeaderPlan(spec.webhook.value.headers)
    requires |got| == |HeaderPlan(spec.webhook.value.headers)|
    ensures HeadersSent(spec, spec.webhook.value.headers, got, HeadersOf(spec.webhook.value.headers, got))
  {
    hide Plan;
    var headers := spec.webhook.value.headers;
    forall k | 0 <= k < |headers|
      ensures var sent := HeadersOf(headers, got)[k];
              && sent.key == headers[k].key
              && if headers[k].valueSecretRef.None? then sent.value == headers[k].value
                 else Carries(ForNotifier(spec), got, |HeaderPlan(headers[..k])|, headers[k].valueSecretRef, sent.value)
    {
      HeadersKeepOrder(headers, got, k);
      hide HeadersOf, HeaderPlan;
    }
  }

  // --------------------------------------------------------------- databases

  /** The password of each payload comes from the section of its own type. */
  ghost predicate PasswordSent(spec: DatabaseBackupSpec, got: seq<string>, r: DatabaseRequest) {
    var all, db := ForBackup(spec), spec.database;
    var at := 1 + |db.notifierRefs|;
    && (r.postgresqlLogical.Some? ==>
          db.postgresql.Some? &&
          Carries(all, got, at, Some(db.postgresql.value.passwordSecretRef), r.postgresqlLogical.value.password))
    && (r.mysql.Some? ==>
          db.mysql.Some? && Carries(all, got, at, Some(db.mysql.value.passwordSecretRef), r.mysql.value.password))
    && (r.mariadb.Some? ==>
          db.mariadb.Some? && Carries(all, got, at, Some(db.mariadb.value.passwordSecretRef), r.mariadb.value.password))
    && (r.mongodb.Some? ==>
          db.mongodb.Some? && Carries(all, got, at, Some(db.mongodb.value.passwordSecretRef), r.mongodb.value.password))
  }

  /** The TLS material of a postgres payload: certificate, key and root each from their own reference. */
  ghost predicate TlsSent(spec: DatabaseBackupSpec, got: seq<string>, r: DatabaseRequest) {
    r.postgresqlLogical.Some? ==>
      spec.database.postgresql.Some? &&
      var all, pg, sent := ForBackup(spec), spec.database.postgresql.value, r.postgresqlLogical.value;
      var at := 2 + |spec.database.notifierRefs|;
      && Carries(all, got, at, pg.sslClientCertSecretRef, sent.sslClientCert)
      && Carries(all, got, at + Taken(pg.sslClientCertSecretRef), pg.sslClientKeySecretRef, sent.sslClientKey)
      && Carries(all, got, at + Taken(pg.sslClientCertSecretRef) + Taken(pg.sslClientKeySecretRef), pg.sslRootCertSecretRef,
                 sent.sslRootCert)
  }

  /** The secrets of a database request. */
  lemma SecretsSent(workspace: string, spec: DatabaseBackupSpec, got: seq<string>)
    requires Complete(ForBackup(spec), got)
    ensures var r := RequestOf(workspace, ForBackup(spec), got).database;
            && r.id == "" && r.workspaceID == workspace && r.name == spec.database.name
            && PasswordSent(spec, got, r) && TlsSent(spec, got, r)
  {
    hide PasswordSent, TlsSent, SslOf, SslPlan, PasswordPlan, LinksOf, Complete, Plan, HasSection;
    CompleteBackup(spec, got);
    var n := |spec.database.notifierRefs|;
    PasswordInPlace(workspace, spec, got, got[1 + n], SslOf(spec.database, got[2 + n..]), got[1..1 + n]);
    TlsInPlace(workspace, spec, got, got[1 + n], got[1..1 + n]);
  }

  lemma PasswordInPlace(workspace: string, spec: DatabaseBackupSpec, got: seq<string>, password: string, ssl: SslMaterial,
                        notifierIDs: seq<string>)
    requires Complete(ForBackup(spec), got) && HasSection(spec.database)
    requires 1 + |spec.database.notifierRefs| < |got| && password == got[1 + |spec.database.notifierRefs|]
    ensures PasswordSent(spec, got, DatabaseRequestOf(workspace, spec.database, password, ssl, notifierIDs))
  {
    CompleteBackup(spec, got);
    ResolutionOrder(spec);
    hide Plan, PasswordPlan, SslPlan, LinksOf, PostgresqlRequestOf, MongodbRequestOf;
    PayloadPassword(spec.database, password, ssl);
  }

  lemma PayloadPassword(spec: DatabaseSpec, password: string, ssl: SslMaterial)
    ensures spec.postgresql.Some? ==> PostgresqlRequestOf(spec.postgresql.value, password, ssl).password == password
    ensures spec.mongodb.Some? ==> MongodbRequestOf(spec.mongodb.value, password).password == password
  {
  }

  lemma TlsInPlace(workspace: string, spec: DatabaseBackupSpec, got: seq<string>, password: string, notifierIDs: seq<string>)
    requires Complete(ForBackup(spec), got) && HasSection(spec.database)
    requires |got| == 2 + |spec.database.notifierRefs| + |SslPlan(spec.database)|
    ensures TlsSent(spec, got, DatabaseRequestOf(workspace, spec.database, password,
                                                 SslOf(spec.database, got[2 + |spec.database.notifierRefs|..]), notifierIDs))
  {
    CompleteBackup(spec, got);
    TlsPlaces(spec);
    if spec.database.databaseType == DATABASE_POSTGRES {
      var at := 2 + |spec.database.notifierRefs|;
      var plan := Plan(ForBackup(spec));
      var pg := spec.database.postgresql.value;
      var ssl := SslOf(spec.database, got[at..]);
      Certificates(spec.database, got[at..]);
      var cert, key := Taken(pg.sslClientCertSecretRef), Taken(pg.sslClientKeySecretRef);
      Further(plan, got, at, 0, pg.sslClientCertSecretRef, ssl.clientCert);
      Further(plan, got, at, cert, pg.sslClientKeySecretRef, ssl.clientKey);
      Further(plan, got, at, cert + key, pg.sslRootCertSecretRef, ssl.rootCert);
    }
    hide Plan, PasswordPlan, SslPlan, SslOf, LinksOf, Complete, MongodbRequestOf, SqlRequestOf, InPlace, Taken;
    DatabaseTypes(spec.database.databaseType);
  }

  lemma Certificates(spec: DatabaseSpec, certs: seq<string>)
    requires spec.databaseType == DATABASE_POSTGRES && spec.postgresql.Some? && |certs| == |SslPlan(spec)|
    ensures var pg, ssl, plan := spec.postgresql.value, SslOf(spec, certs), SslPlan(spec);
            var cert, key := Taken(pg.sslClientCertSecretRef), Taken(pg.sslClientKeySecretRef);
            && InPlace(plan, certs, 0, pg.sslClientCertSecretRef, ssl.clientCert)
            && InPlace(plan, certs, cert, pg.sslClientKeySecretRef, ssl.clientKey)
            && InPlace(plan, certs, cert + key, pg.sslRootCertSecretRef, ssl.rootCert)
  {
  }

  lemma Further(plan: seq<Need>, got: seq<string>, at: nat, i: nat, secret: Option<SecretKeyRef>, value: string)
    requires at <= |plan| && at <= |got| && InPlace(plan[at..], got[at..], i, secret, value)
    ensures InPlace(plan, got, at + i, secret, value)
  {
  }

  lemma TlsPlaces(spec: DatabaseBackupSpec)
    requires !AsksForWal(spec.database)
    ensures var n := |spec.database.notifierRefs|;
            |Plan(ForBackup(spec))| == 2 + n + |SslPlan(spec.database)| && Plan(ForBackup(spec))[2 + n..] == SslPlan(spec.database)
  {
    hide SslPlan, PasswordPlan;
  }
}
