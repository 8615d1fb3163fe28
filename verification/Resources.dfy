/** The custom resources of the operator and the requests it sends, as values.

Pointers of the Go types that only mean "maybe absent" are `Option`s; Go slices
are sequences (a nil slice and an empty one are the same value here, which is
also what the JSON rules of the requests make of them). Enumerations that the Go
code keeps as strings stay strings, because its switches have default branches.
*/
module Resources {

  datatype Option<+T> = None | Some(value: T)

  datatype SecretKeyRef = SecretKeyRef(name: string, key: string)

  // ---------------------------------------------------------------- Storage

  datatype S3Spec = S3Spec(
    bucket: string, region: string, endpoint: string, prefix: string,
    accessKeySecretRef: SecretKeyRef, secretKeySecretRef: SecretKeyRef,
    isUseVirtualHostedStyle: bool, isSkipTLSVerify: bool, storageClass: string)

  datatype SftpSpec = SftpSpec(
    host: string, port: int, username: string,
    passwordSecretRef: Option<SecretKeyRef>, privateKeySecretRef: Option<SecretKeyRef>,
    path: string, isSkipHostKeyVerify: bool)

  datatype AzureBlobSpec = AzureBlobSpec(
    authMethod: string, connectionStringSecretRef: Option<SecretKeyRef>, accountName: string,
    accountKeySecretRef: Option<SecretKeyRef>, containerName: string, endpoint: string, prefix: string)

  datatype LocalSpec = LocalSpec(path: string)

  datatype FtpSpec = FtpSpec(
    host: string, port: int, username: string, passwordSecretRef: SecretKeyRef, path: string,
    isUseSSL: bool, isSkipTLSVerify: bool)

  datatype RcloneSpec = RcloneSpec(configContentSecretRef: SecretKeyRef, remotePath: string)

  datatype NasSpec = NasSpec(
    host: string, port: int, share: string, username: string, passwordSecretRef: SecretKeyRef,
    isUseSSL: bool, domain: string, path: string)

  datatype GoogleDriveSpec = GoogleDriveSpec(
    clientIDSecretRef: SecretKeyRef, clientSecretSecretRef: SecretKeyRef, tokenJSONSecretRef: SecretKeyRef)

  datatype StorageSpec = StorageSpec(
    name: string, storageType: string,
    s3: Option<S3Spec>, sftp: Option<SftpSpec>, azureBlob: Option<AzureBlobSpec>, local: Option<LocalSpec>,
    ftp: Option<FtpSpec>, rclone: Option<RcloneSpec>, nas: Option<NasSpec>, googleDrive: Option<GoogleDriveSpec>)

  // --------------------------------------------------------------- Notifier

  datatype DiscordSpec = DiscordSpec(webhookURLSecretRef: SecretKeyRef)
  datatype SlackSpec = SlackSpec(botTokenSecretRef: SecretKeyRef, targetChatID: string)
  datatype TelegramSpec = TelegramSpec(botTokenSecretRef: SecretKeyRef, targetChatID: string, threadID: Option<int>)
  datatype EmailSpec = EmailSpec(
    targetEmail: string, smtpHost: string, smtpPort: int, smtpUser: string,
    smtpPasswordSecretRef: Option<SecretKeyRef>, from: string, isInsecureSkipVerify: bool)
  datatype WebhookHeader = WebhookHeader(key: string, valueSecretRef: Option<SecretKeyRef>, value: string)
  datatype WebhookSpec = WebhookSpec(
    webhookURL: string, webhookMethod: string, bodyTemplate: string, headers: seq<WebhookHeader>)
  datatype TeamsSpec = TeamsSpec(webhookURLSecretRef: SecretKeyRef)

  datatype NotifierSpec = NotifierSpec(
    name: string, notifierType: string,
    discord: Option<DiscordSpec>, slack: Option<SlackSpec>, telegram: Option<TelegramSpec>,
    email: Option<EmailSpec>, webhook: Option<WebhookSpec>, teams: Option<TeamsSpec>)

  // --------------------------------------------------------- DatabaseBackup

  datatype PostgresqlSpec = PostgresqlSpec(
    version: string, host: string, port: int, username: string, passwordSecretRef: SecretKeyRef,
    database: string, sslMode: string,
    sslClientCertSecretRef: Option<SecretKeyRef>, sslClientKeySecretRef: Option<SecretKeyRef>,
    sslRootCertSecretRef: Option<SecretKeyRef>,
    backupType: string, includeSchemas: seq<string>, excludeTables: seq<string>,
    isSkipUserMappings: bool, cpuCount: int)

  // MySQL and MariaDB have specs, and requests, with the same fields.
  datatype SqlSpec = SqlSpec(
    version: string, host: string, port: int, username: string, passwordSecretRef: SecretKeyRef,
    database: string, isHttps: bool)

  datatype MongodbSpec = MongodbSpec(
    version: string, host: string, port: Option<int>, username: string, passwordSecretRef: SecretKeyRef,
    database: string, authDatabase: string, isHttps: bool, isSrv: bool, isDirectConnection: bool, cpuCount: int)

  datatype DatabaseSpec = DatabaseSpec(
    name: string, databaseType: string,
    postgresql: Option<PostgresqlSpec>, mysql: Option<SqlSpec>, mariadb: Option<SqlSpec>, mongodb: Option<MongodbSpec>,
    notifierRefs: seq<string>)

  datatype IntervalSpec = IntervalSpec(
    intervalType: string, timeOfDay: Option<string>, weekday: Option<int>, dayOfMonth: Option<int>,
    cronExpression: Option<string>)

  datatype RetentionSpec = RetentionSpec(
    policyType: string, timePeriod: string, count: int,
    gfsHours: int, gfsDays: int, gfsWeeks: int, gfsMonths: int, gfsYears: int)

  datatype BackupSpec = BackupSpec(
    isEnabled: bool, interval: IntervalSpec, retentionPolicy: RetentionSpec, storageRef: string,
    sendNotificationsOn: seq<string>, isRetryIfFailed: bool, maxFailedTriesCount: int, encryption: string)

  datatype HealthcheckSpec = HealthcheckSpec(
    isEnabled: bool, isSentNotificationWhenUnavailable: bool, intervalMinutes: int,
    attemptsBeforeConsideredAsDown: int, storeAttemptsDays: int)

  datatype DatabaseBackupSpec = DatabaseBackupSpec(
    database: DatabaseSpec, backup: BackupSpec, healthcheck: Option<HealthcheckSpec>)

  // ------------------------------------------------------- Stored objects

  datatype Kind = StorageKind | NotifierKind | BackupKind

  datatype Spec =
    | ForStorage(storage: StorageSpec)
    | ForNotifier(notifier: NotifierSpec)
    | ForBackup(databaseBackup: DatabaseBackupSpec)
  {
    function Kind(): Kind {
      match this
      case ForStorage(_) => StorageKind
      case ForNotifier(_) => NotifierKind
      case ForBackup(_) => BackupKind
    }
  }

  datatype ConditionStatus = True | False | Unknown

  datatype Condition = Condition(
    conditionType: string, status: ConditionStatus, observedGeneration: nat, lastTransitionTime: int,
    reason: string, message: string)

  // What databasus reports about a database; stays empty on a Storage or Notifier.
  datatype Vitals = Vitals(healthStatus: string, lastBackupTime: Option<int>, lastBackupErrorMessage: string)

  // `id` is Status.ID of a Storage or Notifier and Status.DatabaseID of a DatabaseBackup.
  datatype Status = Status(id: string, observedGeneration: nat, conditions: seq<Condition>, vitals: Vitals)

  const EMPTY_STATUS := Status("", 0, [], Vitals("", None, ""))

  datatype Object = Object(
    uid: nat, generation: nat, deleting: bool, finalizers: seq<string>, spec: Spec, status: Status)

  // ---------------------------------------------------------------- the types by name

  const STORAGE_S3 := "S3"
  const STORAGE_SFTP := "SFTP"
  const NOTIFIER_DISCORD := "DISCORD"
  const NOTIFIER_TELEGRAM := "TELEGRAM"
  const NOTIFIER_SLACK := "SLACK"
  const NOTIFIER_EMAIL := "EMAIL"
  const NOTIFIER_WEBHOOK := "WEBHOOK"
  const NOTIFIER_TEAMS := "TEAMS"
  const DATABASE_POSTGRES := "POSTGRES"
  const DATABASE_MYSQL := "MYSQL"
  const DATABASE_MARIADB := "MARIADB"
  const DATABASE_MONGODB := "MONGODB"

  // ------------------------------------------------------------- finalizers

  function AddFinalizer(finalizers: seq<string>, finalizer: string): (after: seq<string>)
    ensures finalizer in after
    ensures forall f :: f in finalizers ==> f in after
  {
    if finalizer in finalizers then finalizers else finalizers + [finalizer]
  }

  /** The new one comes last. */
  lemma AddsAtEnd(finalizers: seq<string>, finalizer: string)
    ensures var after := AddFinalizer(finalizers, finalizer);
            && finalizers <= after && |after| <= |finalizers| + 1
            && forall f :: f in after ==> f in finalizers || f == finalizer
  {
  }

  function RemoveFinalizer(finalizers: seq<string>, finalizer: string): (after: seq<string>)
    ensures finalizer !in after
    ensures forall f :: f in after ==> f in finalizers
    ensures forall f :: f in finalizers && f != finalizer ==> f in after
  {
    if finalizers == [] then []
    else
      var rest := RemoveFinalizer(finalizers[1..], finalizer);
      assert forall f :: f in finalizers <==> f == finalizers[0] || f in finalizers[1..];
      if finalizers[0] == finalizer then rest else [finalizers[0]] + rest
  }

  // --------------------------------------------------------- Wire requests

  datatype S3Request = S3Request(
    bucket: string, region: string, accessKey: string, secretKey: string, endpoint: string, prefix: string,
    useVirtualHostedStyle: bool, skipTLSVerify: bool, storageClass: string)

  datatype SftpRequest = SftpRequest(
    host: string, port: int, username: string, password: string, privateKey: string, path: string,
    isSkipHostKeyVerify: bool)

  datatype StorageRequest = StorageRequest(
    id: string, workspaceID: string, storageType: string, name: string,
    s3: Option<S3Request>, sftp: Option<SftpRequest>)

  datatype DiscordRequest = DiscordRequest(channelWebhookURL: string)
  datatype TelegramRequest = TelegramRequest(botToken: string, targetChatID: string, threadID: Option<int>)
  datatype SlackRequest = SlackRequest(botToken: string, targetChatID: string)
  datatype EmailRequest = EmailRequest(
    targetEmail: string, smtpHost: string, smtpPort: int, smtpUser: string, smtpPassword: string, from: string,
    isInsecureSkipVerify: bool)
  datatype HeaderRequest = HeaderRequest(key: string, value: string)
  datatype WebhookRequest = WebhookRequest(
    webhookURL: string, webhookMethod: string, bodyTemplate: string, headers: seq<HeaderRequest>)
  datatype TeamsRequest = TeamsRequest(channelWebhookURL: string)

  datatype NotifierRequest = NotifierRequest(
    id: string, workspaceID: string, name: string, notifierType: string,
    discord: Option<DiscordRequest>, telegram: Option<TelegramRequest>, slack: Option<SlackRequest>,
    email: Option<EmailRequest>, webhook: Option<WebhookRequest>, teams: Option<TeamsRequest>)

  datatype PostgresqlRequest = PostgresqlRequest(
    version: string, host: string, port: int, username: string, password: string, database: Option<string>,
    sslMode: string, sslClientCert: string, sslClientKey: string, sslRootCert: string,
    includeSchemas: seq<string>, excludeTables: seq<string>, cpuCount: int, isSkipUserMappings: bool)

  datatype SqlRequest = SqlRequest(
    version: string, host: string, port: int, username: string, password: string, database: string, isHttps: bool)

  datatype MongodbRequest = MongodbRequest(
    version: string, host: string, port: Option<int>, username: string, password: string, database: string,
    authDatabase: string, isHttps: bool, isSrv: bool, isDirectConnection: bool, cpuCount: int)

  datatype NotifierLink = NotifierLink(id: string, workspaceID: string)

  datatype DatabaseRequest = DatabaseRequest(
    id: string, workspaceID: string, name: string, databaseType: string,
    postgresqlLogical: Option<PostgresqlRequest>, mysql: Option<SqlRequest>, mariadb: Option<SqlRequest>,
    mongodb: Option<MongodbRequest>, notifiers: seq<NotifierLink>)

  datatype IntervalRequest = IntervalRequest(
    intervalType: string, timeOfDay: Option<string>, weekday: Option<int>, dayOfMonth: Option<int>,
    cronExpression: Option<string>)

  datatype BackupConfigRequest = BackupConfigRequest(
    databaseID: string, isBackupsEnabled: bool, retentionPolicyType: string, retentionTimePeriod: string,
    retentionCount: int, retentionGfsHours: int, retentionGfsDays: int, retentionGfsWeeks: int,
    retentionGfsMonths: int, retentionGfsYears: int, storageID: string, backupInterval: IntervalRequest,
    sendNotificationsOn: seq<string>, isRetryIfFailed: bool, maxFailedTriesCount: int, encryption: string)

  datatype HealthcheckRequest = HealthcheckRequest(
    databaseID: string, isHealthcheckEnabled: bool, isSentNotificationWhenUnavailable: bool,
    intervalMinutes: int, attemptsBeforeConsideredAsDown: int, storeAttemptsDays: int)

  datatype Request =
    | SaveStorageCall(storage: StorageRequest)
    | SaveNotifierCall(notifier: NotifierRequest)
    | SaveDatabaseCall(database: DatabaseRequest)
  {
    function Kind(): Kind {
      match this
      case SaveStorageCall(_) => StorageKind
      case SaveNotifierCall(_) => NotifierKind
      case SaveDatabaseCall(_) => BackupKind
    }

    function Id(): string {
      match this
      case SaveStorageCall(r) => r.id
      case SaveNotifierCall(r) => r.id
      case SaveDatabaseCall(r) => r.id
    }

    function WithId(id: string): (r: Request)
      ensures r.Kind() == Kind() && r.Id() == id
    {
      match this
      case SaveStorageCall(r) => SaveStorageCall(r.(id := id))
      case SaveNotifierCall(r) => SaveNotifierCall(r.(id := id))
      case SaveDatabaseCall(r) => SaveDatabaseCall(r.(id := id))
    }
  }
}
