/** Deep copies. A Go struct is a value here whose pointer fields are `Pointer`s (or null) and whose
slices are arrays (or null), so that copying the value shares what it points to. `Reach` is the
memory that a struct can get at, `View` its contents, and a deep copy has the same contents in
memory that is all new.
*/
module DeepCopies {
  import opened Resources
  import opened Pointers

  // ------------------------------------------------------------ cells and slices

  function CellOf<T>(p: Pointer?<T>): set<object> { if p == null then {} else {p} }

  function SliceCell<T>(a: array?<T>): set<object> { if a == null then {} else {a} }

  function Held<T>(p: Pointer?<T>): Option<T>
    reads p
  {
    if p == null then None else Some(p.value)
  }

  function Elements<T>(a: array?<T>): seq<T>
    reads a
  {
    if a == null then [] else a[..]
  }

  method CopyCell<T>(in_: Pointer?<T>) returns (out: Pointer?<T>)
    ensures Held(out) == Held(in_) && fresh(CellOf(out))
  {
    out := null;
    if in_ != null { out := new Pointer(in_.value); }
  }

  /** make and copy; a nil slice stays nil. */
  method CopySlice<T(0)>(in_: array?<T>) returns (out: array?<T>)
    ensures Elements(out) == Elements(in_) && fresh(SliceCell(out)) && (out == null <==> in_ == null)
  {
    out := null;
    if in_ != null {
      out := new T[in_.Length];
      var i := 0;
      while i < in_.Length
        invariant 0 <= i <= in_.Length && out[..i] == in_[..i]
      {
        out[i] := in_[i];
        i := i + 1;
      }
    }
  }

  // ------------------------------------------------------------- DatabaseBackup

  datatype Interval = Interval(
    intervalType: string, timeOfDay: Pointer?<string>, weekday: Pointer?<int>, dayOfMonth: Pointer?<int>,
    cronExpression: Pointer?<string>)
  {
    function Reach(): set<object> { CellOf(timeOfDay) + CellOf(weekday) + CellOf(dayOfMonth) + CellOf(cronExpression) }

    function View(): IntervalSpec
      reads Reach()
    {
      IntervalSpec(intervalType, Held(timeOfDay), Held(weekday), Held(dayOfMonth), Held(cronExpression))
    }

    method DeepCopy() returns (out: Interval)
      ensures out.View() == View() && fresh(out.Reach())
    {
      out := this;
      var timeOfDay' := CopyCell(timeOfDay);
      var weekday' := CopyCell(weekday);
      var dayOfMonth' := CopyCell(dayOfMonth);
      var cronExpression' := CopyCell(cronExpression);
      out := out.(timeOfDay := timeOfDay', weekday := weekday', dayOfMonth := dayOfMonth', cronExpression := cronExpression');
    }
  }

  datatype Backup = Backup(
    isEnabled: bool, interval: Interval, retentionPolicy: RetentionSpec, storageRef: string,
    sendNotificationsOn: array?<string>, isRetryIfFailed: bool, maxFailedTriesCount: int, encryption: string)
  {
    function Reach(): set<object> { interval.Reach() + SliceCell(sendNotificationsOn) }

    function View(): BackupSpec
      reads Reach()
    {
      BackupSpec(isEnabled, interval.View(), retentionPolicy, storageRef, Elements(sendNotificationsOn), isRetryIfFailed,
                 maxFailedTriesCount, encryption)
    }

    method DeepCopy() returns (out: Backup)
      ensures out.View() == View() && fresh(out.Reach())
    {
      out := this;
      var interval' := interval.DeepCopy();
      var sendNotificationsOn' := CopySlice(sendNotificationsOn);
      out := out.(interval := interval', sendNotificationsOn := sendNotificationsOn');
    }
  }

  datatype Postgresql = Postgresql(
    version: string, host: string, port: int, username: string, passwordSecretRef: SecretKeyRef,
    database: string, sslMode: string,
    sslClientCertSecretRef: Pointer?<SecretKeyRef>, sslClientKeySecretRef: Pointer?<SecretKeyRef>,
    sslRootCertSecretRef: Pointer?<SecretKeyRef>,
    backupType: string, includeSchemas: array?<string>, excludeTables: array?<string>,
    isSkipUserMappings: bool, cpuCount: int)
  {
    function Reach(): set<object> {
      CellOf(sslClientCertSecretRef) + CellOf(sslClientKeySecretRef) + CellOf(sslRootCertSecretRef) +
      SliceCell(includeSchemas) + SliceCell(excludeTables)
    }

    function View(): PostgresqlSpec
      reads Reach()
    {
      PostgresqlSpec(version, host, port, username, passwordSecretRef, database, sslMode,
                     Held(sslClientCertSecretRef), Held(sslClientKeySecretRef), Held(sslRootCertSecretRef),
                     backupType, Elements(includeSchemas), Elements(excludeTables), isSkipUserMappings, cpuCount)
    }

    method DeepCopy() returns (out: Postgresql)
      ensures out.View() == View() && fresh(out.Reach())
    {
      out := this;
      var cert := CopyCell(sslClientCertSecretRef);
      var key := CopyCell(sslClientKeySecretRef);
      var root := CopyCell(sslRootCertSecretRef);
      var schemas := CopySlice(includeSchemas);
      var tables := CopySlice(excludeTables);
      out := out.(sslClientCertSecretRef := cert, sslClientKeySecretRef := key, sslRootCertSecretRef := root,
                  includeSchemas := schemas, excludeTables := tables);
    }
  }

  datatype Mongodb = Mongodb(
    version: string, host: string, port: Pointer?<int>, username: string, passwordSecretRef: SecretKeyRef,
    database: string, authDatabase: string, isHttps: bool, isSrv: bool, isDirectConnection: bool, cpuCount: int)
  {
    function Reach(): set<object> { CellOf(port) }

    function View(): MongodbSpec
      reads Reach()
    {
      MongodbSpec(version, host, Held(port), username, passwordSecretRef, database, authDatabase, isHttps, isSrv,
                  isDirectConnection, cpuCount)
    }

    method DeepCopy() returns (out: Mongodb)
      ensures out.View() == View() && fresh(out.Reach())
    {
      out := this;
      var port' := CopyCell(port);
      out := out.(port := port');
    }
  }

  datatype Database = Database(
    name: string, databaseType: string,
    postgresql: Pointer?<Postgresql>, mysql: Pointer?<SqlSpec>, mariadb: Pointer?<SqlSpec>, mongodb: Pointer?<Mongodb>,
    notifierRefs: array?<string>)
  {
    function Reach(): set<object>
      reads postgresql, mongodb
    {
      CellOf(postgresql) + CellOf(mysql) + CellOf(mariadb) + CellOf(mongodb) + SliceCell(notifierRefs) +
      (if postgresql == null then {} else postgresql.value.Reach()) + (if mongodb == null then {} else mongodb.value.Reach())
    }

    function View(): DatabaseSpec
      reads postgresql, mongodb, Reach()
    {
      DatabaseSpec(name, databaseType,
                   if postgresql == null then None else Some(postgresql.value.View()), Held(mysql), Held(mariadb),
                   if mongodb == null then None else Some(mongodb.value.View()), Elements(notifierRefs))
    }

    method DeepCopy() returns (out: Database)
      ensures out.View() == View() && fresh(out.Reach())
    {
      hide Postgresql.View, Mongodb.View;
      out := this;
      var mysql' := CopyCell(mysql);
      var mariadb' := CopyCell(mariadb);
      var notifierRefs' := CopySlice(notifierRefs);
      var postgresql', mongodb' := CopyEngines(postgresql, mongodb);
      out := out.(postgresql := postgresql', mysql := mysql', mariadb := mariadb', mongodb := mongodb',
                  notifierRefs := notifierRefs');
    }
  }

  /** The two engine sections that point further. */
  method CopyEngines(postgresql: Pointer?<Postgresql>, mongodb: Pointer?<Mongodb>)
    returns (postgresql': Pointer?<Postgresql>, mongodb': Pointer?<Mongodb>)
    ensures (postgresql' == null <==> postgresql == null) && fresh(CellOf(postgresql'))
    ensures postgresql != null ==> postgresql'.value.View() == postgresql.value.View() && fresh(postgresql'.value.Reach())
    ensures (mongodb' == null <==> mongodb == null) && fresh(CellOf(mongodb'))
    ensures mongodb != null ==> mongodb'.value.View() == mongodb.value.View() && fresh(mongodb'.value.Reach())
  {
    hide Postgresql.View;
    mongodb' := CopyMongodb(mongodb);
    postgresql' := CopyPostgresql(postgresql);
  }

  method CopyPostgresql(in_: Pointer?<Postgresql>) returns (out: Pointer?<Postgresql>)
    ensures (out == null <==> in_ == null) && fresh(CellOf(out))
    ensures in_ != null ==> out.value.View() == in_.value.View() && fresh(out.value.Reach())
  {
    out := null;
    if in_ != null {
      var copied := in_.value.DeepCopy();
      out := new Pointer(copied);
    }
  }

  method CopyMongodb(in_: Pointer?<Mongodb>) returns (out: Pointer?<Mongodb>)
    ensures (out == null <==> in_ == null) && fresh(CellOf(out))
    ensures in_ != null ==> out.value.View() == in_.value.View() && fresh(out.value.Reach())
  {
    out := null;
    if in_ != null {
      var copied := in_.value.DeepCopy();
      out := new Pointer(copied);
    }
  }

  datatype BackupResourceSpec = BackupResourceSpec(
    database: Database, backup: Backup, healthcheck: Pointer?<HealthcheckSpec>)
  {
    function Reach(): set<object>
      reads database.postgresql, database.mongodb
    {
      database.Reach() + backup.Reach() + CellOf(healthcheck)
    }

    function View(): DatabaseBackupSpec
      reads database.postgresql, database.mongodb, Reach()
    {
      DatabaseBackupSpec(database.View(), backup.View(), Held(healthcheck))
    }

    method DeepCopy() returns (out: BackupResourceSpec)
      ensures out.View() == View() && fresh(out.Reach())
    {
      hide Database.View, Database.Reach;
      out := this;
      var healthcheck' := CopyCell(healthcheck);
      var backup' := backup.DeepCopy();
      var database' := database.DeepCopy();
      out := out.(database := database', backup := backup', healthcheck := healthcheck');
    }
  }

  /** The status of all three resources; a Storage or Notifier has no backup time. */
  datatype ResourceStatus = ResourceStatus(
    id: string, observedGeneration: nat, healthStatus: string, lastBackupTime: Pointer?<int>,
    lastBackupErrorMessage: string, conditions: array?<Condition>)
  {
    function Reach(): set<object> { CellOf(lastBackupTime) + SliceCell(conditions) }

    function View(): Status
      reads Reach()
    {
      Status(id, observedGeneration, Elements(conditions), Vitals(healthStatus, Held(lastBackupTime), lastBackupErrorMessage))
    }

    method DeepCopy() returns (out: ResourceStatus)
      ensures out.View() == View() && fresh(out.Reach()) && (out.conditions == null <==> conditions == null)
    {
      out := this;
      var lastBackupTime' := CopyCell(lastBackupTime);
      var conditions' := CopySlice(conditions);
      out := out.(lastBackupTime := lastBackupTime', conditions := conditions');
    }
  }

  // --------------------------------------------------------------------- Storage

  datatype Sftp = Sftp(
    host: string, port: int, username: string,
    passwordSecretRef: Pointer?<SecretKeyRef>, privateKeySecretRef: Pointer?<SecretKeyRef>,
    path: string, isSkipHostKeyVerify: bool)
  {
    function Reach(): set<object> { CellOf(passwordSecretRef) + CellOf(privateKeySecretRef) }

    function View(): SftpSpec
      reads Reach()
    {
      SftpSpec(host, port, username, Held(passwordSecretRef), Held(privateKeySecretRef), path, isSkipHostKeyVerify)
    }

    method DeepCopy() returns (out: Sftp)
      ensures out.View() == View() && fresh(out.Reach())
    {
      out := this;
      var password := CopyCell(passwordSecretRef);
      var privateKey := CopyCell(privateKeySecretRef);
      out := out.(passwordSecretRef := password, privateKeySecretRef := privateKey);
    }
  }

  datatype AzureBlob = AzureBlob(
    authMethod: string, connectionStringSecretRef: Pointer?<SecretKeyRef>, accountName: string,
    accountKeySecretRef: Pointer?<SecretKeyRef>, containerName: string, endpoint: string, prefix: string)
  {
    function Reach(): set<object> { CellOf(connectionStringSecretRef) + CellOf(accountKeySecretRef) }

    function View(): AzureBlobSpec
      reads Reach()
    {
      AzureBlobSpec(authMethod, Held(connectionStringSecretRef), accountName, Held(accountKeySecretRef), containerName,
                    endpoint, prefix)
    }

    method DeepCopy() returns (out: AzureBlob)
      ensures out.View() == View() && fresh(out.Reach())
    {
      out := this;
      var connection := CopyCell(connectionStringSecretRef);
      var accountKey := CopyCell(accountKeySecretRef);
      out := out.(connectionStringSecretRef := connection, accountKeySecretRef := accountKey);
    }
  }

  datatype StorageResourceSpec = StorageResourceSpec(
    name: string, storageType: string,
    s3: Pointer?<S3Spec>, sftp: Pointer?<Sftp>, azureBlob: Pointer?<AzureBlob>, local: Pointer?<LocalSpec>,
    ftp: Pointer?<FtpSpec>, rclone: Pointer?<RcloneSpec>, nas: Pointer?<NasSpec>, googleDrive: Pointer?<GoogleDriveSpec>)
  {
    function Reach(): set<object>
      reads sftp, azureBlob
    {
      CellOf(s3) + CellOf(sftp) + CellOf(azureBlob) + CellOf(local) + CellOf(ftp) + CellOf(rclone) + CellOf(nas) +
      CellOf(googleDrive) +
      (if sftp == null then {} else sftp.value.Reach()) + (if azureBlob == null then {} else azureBlob.value.Reach())
    }

    function View(): StorageSpec
      reads sftp, azureBlob, Reach()
    {
      StorageSpec(name, storageType, Held(s3), if sftp == null then None else Some(sftp.value.View()),
                  if azureBlob == null then None else Some(azureBlob.value.View()),
                  Held(local), Held(ftp), Held(rclone), Held(nas), Held(googleDrive))
    }

    method DeepCopy() returns (out: StorageResourceSpec)
      ensures out.View() == View() && fresh(out.Reach())
    {
      hide Sftp.View, AzureBlob.View, Sftp.Reach, AzureBlob.Reach, StorageResourceSpec.View, CellOf;
      out := this;
      var s3', local', ftp' := CopyThree(s3, local, ftp);
      var rclone', nas', googleDrive' := CopyThree(rclone, nas, googleDrive);
      var sftp', azureBlob' := CopyKeyed(sftp, azureBlob);
      out := out.(s3 := s3', sftp := sftp', azureBlob := azureBlob', local := local', ftp := ftp', rclone := rclone',
                  nas := nas', googleDrive := googleDrive');
      SameSections(out);
    }

    lemma SameSections(other: StorageResourceSpec)
      requires other.name == name && other.storageType == storageType
      requires Held(other.s3) == Held(s3) && Held(other.local) == Held(local) && Held(other.ftp) == Held(ftp)
      requires Held(other.rclone) == Held(rclone) && Held(other.nas) == Held(nas) &&
        Held(other.googleDrive) == Held(googleDrive)
      requires (other.sftp == null <==> sftp == null) && (sftp != null ==> other.sftp.value.View() == sftp.value.View())
      requires (other.azureBlob == null <==> azureBlob == null)
      requires azureBlob != null ==> other.azureBlob.value.View() == azureBlob.value.View()
      ensures other.View() == View()
    {
    }
  }

  method CopyThree<A, B, C>(a: Pointer?<A>, b: Pointer?<B>, c: Pointer?<C>)
    returns (a': Pointer?<A>, b': Pointer?<B>, c': Pointer?<C>)
    ensures Held(a') == Held(a) && Held(b') == Held(b) && Held(c') == Held(c)
    ensures fresh(CellOf(a')) && fresh(CellOf(b')) && fresh(CellOf(c'))
  {
    a' := CopyCell(a);
    b' := CopyCell(b);
    c' := CopyCell(c);
  }

  /** The two storage sections that point further. */
  method CopyKeyed(sftp: Pointer?<Sftp>, azureBlob: Pointer?<AzureBlob>)
    returns (sftp': Pointer?<Sftp>, azureBlob': Pointer?<AzureBlob>)
    ensures (sftp' == null <==> sftp == null) && fresh(CellOf(sftp'))
    ensures sftp != null ==> sftp'.value.View() == sftp.value.View() && fresh(sftp'.value.Reach())
    ensures (azureBlob' == null <==> azureBlob == null) && fresh(CellOf(azureBlob'))
    ensures azureBlob != null ==> azureBlob'.value.View() == azureBlob.value.View() && fresh(azureBlob'.value.Reach())
  {
    sftp', azureBlob' := null, null;
    if sftp != null {
      var copied := sftp.value.DeepCopy();
      sftp' := new Pointer(copied);
    }
    if azureBlob != null {
      var copied := azureBlob.value.DeepCopy();
      azureBlob' := new Pointer(copied);
    }
  }

  // -------------------------------------------------------------------- Notifier

  datatype Telegram = Telegram(botTokenSecretRef: SecretKeyRef, targetChatID: string, threadID: Pointer?<int>) {
    function Reach(): set<object> { CellOf(threadID) }

    function View(): TelegramSpec
      reads Reach()
    {
      TelegramSpec(botTokenSecretRef, targetChatID, Held(threadID))
    }

    method DeepCopy() returns (out: Telegram)
      ensures out.View() == View() && fresh(out.Reach())
    {
      out := this;
      var threadID' := CopyCell(threadID);
      out := out.(threadID := threadID');
    }
  }

  datatype Email = Email(
    targetEmail: string, smtpHost: string, smtpPort: int, smtpUser: string,
    smtpPasswordSecretRef: Pointer?<SecretKeyRef>, from: string, isInsecureSkipVerify: bool)
  {
    function Reach(): set<object> { CellOf(smtpPasswordSecretRef) }

    function View(): EmailSpec
      reads Reach()
    {
      EmailSpec(targetEmail, smtpHost, smtpPort, smtpUser, Held(smtpPasswordSecretRef), from, isInsecureSkipVerify)
    }

    method DeepCopy() returns (out: Email)
      ensures out.View() == View() && fresh(out.Reach())
    {
      out := this;
      var password := CopyCell(smtpPasswordSecretRef);
      out := out.(smtpPasswordSecretRef := password);
    }
  }

  datatype Header = Header(key: string, valueSecretRef: Pointer?<SecretKeyRef>, value: string) {
    function Reach(): set<object> { CellOf(valueSecretRef) }

    function View(): WebhookHeader
      reads Reach()
    {
      WebhookHeader(key, Held(valueSecretRef), value)
    }

    method DeepCopy() returns (out: Header)
      ensures out.View() == View() && fresh(out.Reach())
    {
      out := this;
      var secret := CopyCell(valueSecretRef);
      out := out.(valueSecretRef := secret);
    }
  }

  function HeaderCells(headers: seq<Header>): set<object> {
    set i, cell | 0 <= i < |headers| && cell in headers[i].Reach() :: cell
  }

  function HeaderViews(headers: seq<Header>): seq<WebhookHeader>
    reads HeaderCells(headers)
  {
    if headers == [] then []
    else
      var init, last := headers[..|headers| - 1], headers[|headers| - 1];
      assert HeaderCells(init) <= HeaderCells(headers) && last.Reach() <= HeaderCells(headers);
      HeaderViews(init) + [last.View()]
  }

  lemma OneMoreHeader(init: seq<Header>, last: Header)
    ensures HeaderCells(init + [last]) == HeaderCells(init) + last.Reach()
    ensures HeaderViews(init + [last]) == HeaderViews(init) + [last.View()]
  {
    var all := init + [last];
    assert all[..|all| - 1] == init;
    forall cell
      ensures cell in HeaderCells(all) <==> cell in HeaderCells(init) + last.Reach()
    {
      if cell in last.Reach() { assert cell in all[|init|].Reach(); }
      if cell in HeaderCells(init) {
        var i :| 0 <= i < |init| && cell in init[i].Reach();
        assert cell in all[i].Reach();
      }
    }
  }

  /** The slice and everything its elements point to, element by element. */
  method CopyHeaders(in_: array?<Header>) returns (out: array?<Header>)
    ensures (out == null <==> in_ == null) && fresh(SliceCell(out)) && fresh(HeaderCells(Elements(out)))
    ensures HeaderViews(Elements(out)) == HeaderViews(Elements(in_))
  {
    hide HeaderViews, Header.View;
    out := null;
    if in_ != null {
      out := new Header[in_.Length];
      NoHeaders();
      ghost var copied: seq<Header> := [];
      var i := 0;
      while i < in_.Length
        invariant 0 <= i <= in_.Length && fresh(out) && out.Length == in_.Length && out[..i] == copied
        invariant fresh(HeaderCells(copied)) && HeaderViews(copied) == HeaderViews(in_[..i])
      {
        var header := in_[i].DeepCopy();
        OneMoreHeader(copied, header);
        OneMoreHeader(in_[..i], in_[i]);
        copied := copied + [header];
        assert out !in HeaderCells(copied);
        assert in_[..i + 1] == in_[..i] + [in_[i]];
        hide Header.Reach, HeaderCells;
        out[i] := header;
        i := i + 1;
      }
      assert out[..i] == out[..] && in_[..i] == in_[..];
    }
  }

  lemma NoHeaders()
    ensures HeaderViews([]) == [] && HeaderCells([]) == {}
  {
  }

  datatype Webhook = Webhook(webhookURL: string, webhookMethod: string, bodyTemplate: string, headers: array?<Header>) {
    function Reach(): set<object>
      reads headers
    {
      SliceCell(headers) + HeaderCells(Elements(headers))
    }

    function View(): WebhookSpec
      reads headers, Reach()
    {
      WebhookSpec(webhookURL, webhookMethod, bodyTemplate, HeaderViews(Elements(headers)))
    }

    method DeepCopy() returns (out: Webhook)
      ensures out.View() == View() && fresh(out.Reach())
    {
      hide HeaderViews, HeaderCells;
      out := this;
      var headers' := CopyHeaders(headers);
      out := out.(headers := headers');
    }
  }

  datatype NotifierResourceSpec = NotifierResourceSpec(
    name: string, notifierType: string,
    discord: Pointer?<DiscordSpec>, slack: Pointer?<SlackSpec>, telegram: Pointer?<Telegram>,
    email: Pointer?<Email>, webhook: Pointer?<Webhook>, teams: Pointer?<TeamsSpec>)
  {
    function Direct(): set<object> {
      CellOf(discord) + CellOf(slack) + CellOf(telegram) + CellOf(email) + CellOf(webhook) + CellOf(teams)
    }

    function Reach(): set<object>
      reads telegram, email, webhook, if webhook == null then null else webhook.value.headers
    {
      Direct() +
      (if telegram == null then {} else telegram.value.Reach()) + (if email == null then {} else email.value.Reach()) +
      (if webhook == null then {} else webhook.value.Reach())
    }

    function View(): NotifierSpec
      reads telegram, email, webhook, if webhook == null then null else webhook.value.headers, Reach()
    {
      NotifierSpec(name, notifierType, Held(discord), Held(slack),
                   if telegram == null then None else Some(telegram.value.View()),
                   if email == null then None else Some(email.value.View()),
                   if webhook == null then None else Some(webhook.value.View()), Held(teams))
    }

    lemma SameSections(other: NotifierResourceSpec)
      requires other.name == name && other.notifierType == notifierType
      requires Held(other.discord) == Held(discord) && Held(other.slack) == Held(slack) && Held(other.teams) == Held(teams)
      requires (other.telegram == null <==> telegram == null) && (other.email == null <==> email == null)
      requires other.webhook == null <==> webhook == null
      requires telegram != null ==> other.telegram.value.View() == telegram.value.View()
      requires email != null ==> other.email.value.View() == email.value.View()
      requires webhook != null ==> other.webhook.value.View() == webhook.value.View()
      ensures other.View() == View()
    {
    }

    method DeepCopy() returns (out: NotifierResourceSpec)
      ensures out.View() == View() && fresh(out.Reach())
    {
      hide NotifierResourceSpec.View, CellOf, Telegram.View, Email.View, Webhook.View, Webhook.Reach, Telegram.Reach,
           Email.Reach;
      out := this;
      var discord', slack', teams' := CopyThree(discord, slack, teams);
      var telegram', email', webhook' := CopyChannels(telegram, email, webhook);
      out := out.(discord := discord', slack := slack', telegram := telegram', email := email', webhook := webhook',
                  teams := teams');
      SameSections(out);
    }
  }

  /** The three notifier sections that point further. */
  method CopyChannels(telegram: Pointer?<Telegram>, email: Pointer?<Email>, webhook: Pointer?<Webhook>)
    returns (telegram': Pointer?<Telegram>, email': Pointer?<Email>, webhook': Pointer?<Webhook>)
    ensures (telegram' == null <==> telegram == null) && fresh(CellOf(telegram'))
    ensures telegram != null ==> telegram'.value.View() == telegram.value.View() && fresh(telegram'.value.Reach())
    ensures (email' == null <==> email == null) && fresh(CellOf(email'))
    ensures email != null ==> email'.value.View() == email.value.View() && fresh(email'.value.Reach())
    ensures (webhook' == null <==> webhook == null) && fresh(CellOf(webhook'))
    ensures webhook != null ==> webhook'.value.View() == webhook.value.View() && fresh(webhook'.value.Reach())
  {
    hide Webhook.View, Webhook.Reach;
    telegram', email' := null, null;
    if telegram != null {
      var copied := telegram.value.DeepCopy();
      telegram' := new Pointer(copied);
    }
    if email != null {
      var copied := email.value.DeepCopy();
      email' := new Pointer(copied);
    }
    webhook' := CopyWebhook(webhook);
  }

  method CopyWebhook(in_: Pointer?<Webhook>) returns (out: Pointer?<Webhook>)
    ensures (out == null <==> in_ == null) && fresh(CellOf(out))
    ensures in_ != null ==> out.value.View() == in_.value.View() && fresh(out.value.Reach())
  {
    out := null;
    if in_ != null {
      var copied := in_.value.DeepCopy();
      label L:
      ghost var originals := Elements(in_.value.headers);
      assert forall cell :: cell in HeaderCells(originals) ==> allocated(cell);
      out := new Pointer(copied);
      assert Elements(in_.value.headers) == originals && HeaderViews(originals) == old@L(HeaderViews(originals));
    }
  }

  // -------------------------------------------------------------- status changes

  datatype StatusChange =
    | SetId(id: string)
    | SetObserved(generation: nat)
    | SetCondition(index: nat, condition: Condition)  // in place, or appended
    | SetBackupTime(time: int)                        // through the pointer, if there is one
    | SetHealth(healthStatus: string)
    | SetBackupError(message: string)

  function ChangedOnce(status: Status, change: StatusChange): Status {
    match change
    case SetId(id) => status.(id := id)
    case SetObserved(generation) => status.(observedGeneration := generation)
    case SetCondition(i, c) =>
      status.(conditions := if i < |status.conditions| then status.conditions[i := c] else status.conditions + [c])
    case SetBackupTime(time) => status.(vitals := status.vitals.(lastBackupTime := Some(time)))
    case SetHealth(healthStatus) => status.(vitals := status.vitals.(healthStatus := healthStatus))
    case SetBackupError(message) => status.(vitals := status.vitals.(lastBackupErrorMessage := message))
  }

  function Changed(status: Status, changes: seq<StatusChange>): Status {
    if changes == [] then status
    else ChangedOnce(Changed(status, changes[..|changes| - 1]), changes[|changes| - 1])
  }

  /** Changes in place where the memory is there, and in new memory where it is not. */
  method ChangeStatus(status: ResourceStatus, changes: seq<StatusChange>) returns (out: ResourceStatus)
    modifies status.Reach()
    ensures out.View() == Changed(old(status.View()), changes)
    ensures fresh(out.Reach() - status.Reach())
  {
    out := status;
    var i := 0;
    while i < |changes|
      invariant 0 <= i <= |changes|
      invariant out.View() == Changed(old(status.View()), changes[..i])
      invariant fresh(out.Reach() - status.Reach())
    {
      hide Changed;
      ghost var before := out.View();
      out := ChangeOnce(out, changes[i]);
      assert out.View() == ChangedOnce(before, changes[i]);
      OneMoreChange(old(status.View()), changes, i);
      i := i + 1;
    }
    assert changes[..i] == changes;
  }

  lemma OneMoreChange(status: Status, changes: seq<StatusChange>, i: nat)
    requires i < |changes|
    ensures Changed(status, changes[..i + 1]) == ChangedOnce(Changed(status, changes[..i]), changes[i])
  {
    hide ChangedOnce;
    assert changes[..i + 1][..i] == changes[..i];
  }

  method ChangeOnce(status: ResourceStatus, change: StatusChange) returns (out: ResourceStatus)
    modifies status.Reach()
    ensures out.View() == ChangedOnce(old(status.View()), change)
    ensures fresh(out.Reach() - status.Reach())
  {
    out := status;
    match change
    case SetId(id) => out := out.(id := id);
    case SetObserved(generation) => out := out.(observedGeneration := generation);
    case SetCondition(index, condition) =>
      if status.conditions != null && index < status.conditions.Length {
        status.conditions[index] := condition;
      } else {
        var more := Append(status.conditions, condition);
        out := out.(conditions := more);
      }
    case SetBackupTime(time) =>
      if status.lastBackupTime != null {
        status.lastBackupTime.value := time;
      } else {
        var cell := new Pointer(time);
        out := out.(lastBackupTime := cell);
      }
    case SetHealth(healthStatus) => out := out.(healthStatus := healthStatus);
    case SetBackupError(message) => out := out.(lastBackupErrorMessage := message);
  }

  /** append, into a new array. */
  method Append<T(0)>(slice: array?<T>, last: T) returns (out: array<T>)
    ensures fresh(out) && out[..] == Elements(slice) + [last]
  {
    var n := if slice == null then 0 else slice.Length;
    out := new T[n + 1];
    var i := 0;
    while i < n
      invariant 0 <= i <= n && out.Length == n + 1 && out[..i] == Elements(slice)[..i]
    {
      out[i] := slice[i];
      i := i + 1;
    }
    out[n] := last;
  }

  // ----------------------------------------------------------- finalizer changes

  datatype FinalizerChange = Attach(finalizer: string) | Detach(finalizer: string)

  function FinalizersOnce(finalizers: seq<string>, change: FinalizerChange): seq<string> {
    match change
    case Attach(finalizer) => AddFinalizer(finalizers, finalizer)
    case Detach(finalizer) => RemoveFinalizer(finalizers, finalizer)
  }

  function Finalizers(finalizers: seq<string>, changes: seq<FinalizerChange>): seq<string> {
    if changes == [] then finalizers
    else FinalizersOnce(Finalizers(finalizers, changes[..|changes| - 1]), changes[|changes| - 1])
  }

  lemma {:induction false} RemoveAppends(finalizers: seq<string>, last: string, finalizer: string)
    ensures RemoveFinalizer(finalizers + [last], finalizer) ==
            RemoveFinalizer(finalizers, finalizer) + if last == finalizer then [] else [last]
  {
    if finalizers == [] {
    } else {
      RemoveAppends(finalizers[1..], last, finalizer);
      assert (finalizers + [last])[1..] == finalizers[1..] + [last];
    }
  }

  method Contains(slice: array?<string>, finalizer: string) returns (found: bool)
    ensures found <==> finalizer in Elements(slice)
  {
    var n := if slice == null then 0 else slice.Length;
    var i := 0;
    while i < n
      invariant 0 <= i <= n && finalizer !in Elements(slice)[..i]
    {
      if slice[i] == finalizer { return true; }
      i := i + 1;
    }
    found := false;
  }

  /** Moves what stays to the front, in place, and returns how much that is. */
  method Compact(slice: array<string>, finalizer: string) returns (kept: nat)
    modifies slice
    ensures kept <= slice.Length && slice[..kept] == RemoveFinalizer(old(slice[..]), finalizer)
  {
    kept := 0;
    var i := 0;
    while i < slice.Length
      invariant 0 <= kept <= i <= slice.Length
      invariant slice[..kept] == RemoveFinalizer(old(slice[..i]), finalizer)
      invariant forall j :: i <= j < slice.Length ==> slice[j] == old(slice[j])
    {
      hide RemoveFinalizer;
      RemoveAppends(old(slice[..i]), old(slice[i]), finalizer);
      assert old(slice[..i + 1]) == old(slice[..i]) + [old(slice[i])];
      if slice[i] != finalizer {
        ghost var before := slice[..kept];
        slice[kept] := slice[i];
        kept := kept + 1;
        assert slice[..kept] == before + [slice[i]];
      } else {
        assert slice[..kept] == slice[..kept] + [];
      }
      i := i + 1;
    }
    assert old(slice[..i]) == old(slice[..]);
  }

  method ChangeFinalizer(slice: array?<string>, change: FinalizerChange) returns (out: array?<string>)
    modifies SliceCell(slice)
    ensures Elements(out) == FinalizersOnce(old(Elements(slice)), change) && fresh(SliceCell(out) - SliceCell(slice))
  {
    out := slice;
    match change
    case Attach(finalizer) =>
      var there := Contains(slice, finalizer);
      if !there { out := Append(slice, finalizer); }
    case Detach(finalizer) =>
      if slice != null {
        var kept := Compact(slice, finalizer);
        out := Prefix(slice, kept);
      }
  }

  /** The slice up to here. */
  method Prefix(slice: array<string>, n: nat) returns (out: array<string>)
    requires n <= slice.Length
    ensures fresh(out) && out[..] == slice[..n]
  {
    out := new string[n];
    var i := 0;
    while i < n
      invariant 0 <= i <= n && out[..i] == slice[..i]
    {
      out[i] := slice[i];
      i := i + 1;
    }
  }

  method ChangeFinalizers(slice: array?<string>, changes: seq<FinalizerChange>) returns (out: array?<string>)
    modifies SliceCell(slice)
    ensures Elements(out) == Finalizers(old(Elements(slice)), changes) && fresh(SliceCell(out) - SliceCell(slice))
  {
    out := slice;
    var i := 0;
    while i < |changes|
      invariant 0 <= i <= |changes|
      invariant Elements(out) == Finalizers(old(Elements(slice)), changes[..i])
      invariant fresh(SliceCell(out) - SliceCell(slice))
    {
      hide FinalizersOnce;
      out := ChangeFinalizer(out, changes[i]);
      assert changes[..i + 1][..i] == changes[..i];
      i := i + 1;
    }
    assert changes[..i] == changes;
  }

  // ------------------------------------------------------------- whole resources

  /** The part of the metadata that the controllers use; copying the rest is a library's. */
  datatype Meta = Meta(uid: nat, generation: nat, deleting: bool, finalizers: array?<string>) {
    function Reach(): set<object> { SliceCell(finalizers) }

    method DeepCopy() returns (out: Meta)
      ensures out.(finalizers := finalizers) == this
      ensures Elements(out.finalizers) == Elements(finalizers) && fresh(out.Reach())
    {
      out := this;
      var finalizers' := CopySlice(finalizers);
      out := out.(finalizers := finalizers');
    }
  }

  /** Status and finalizers of one object, changed in place. */
  method ChangeInPlace(meta: Meta, status: ResourceStatus, changes: seq<StatusChange>, finalizers: seq<FinalizerChange>)
    returns (meta': Meta, status': ResourceStatus)
    requires meta.Reach() !! status.Reach()
    modifies meta.Reach(), status.Reach()
    ensures status'.View() == Changed(old(status.View()), changes) && fresh(status'.Reach() - status.Reach())
    ensures Elements(meta'.finalizers) == Finalizers(old(Elements(meta.finalizers)), finalizers)
    ensures meta' == meta.(finalizers := meta'.finalizers) && fresh(meta'.Reach() - meta.Reach())
  {
    hide Changed, Finalizers;
    var finalizers' := ChangeFinalizers(meta.finalizers, finalizers);
    meta' := meta.(finalizers := finalizers');
    status' := ChangeStatus(status, changes);
  }

  datatype StorageResource = StorageResource(meta: Meta, spec: StorageResourceSpec, status: ResourceStatus) {
    function Reach(): set<object>
      reads spec.sftp, spec.azureBlob
    {
      meta.Reach() + spec.Reach() + status.Reach()
    }

    function View(): Object
      reads spec.sftp, spec.azureBlob, Reach()
    {
      Object(meta.uid, meta.generation, meta.deleting, Elements(meta.finalizers), ForStorage(spec.View()), status.View())
    }

    /** An equal Storage in memory that is all new. */
    method DeepCopy() returns (out: StorageResource)
      ensures out.View() == View() && fresh(out.Reach())
      ensures out.spec.Reach() !! out.status.Reach() && out.meta.Reach() !! out.status.Reach()
    {
      hide StorageResourceSpec.View, StorageResourceSpec.Reach;
      var meta' := meta.DeepCopy();
      var status' := status.DeepCopy();
      var spec' := spec.DeepCopy();
      out := StorageResource(meta', spec', status');
    }

    lemma Parts()
      ensures spec.Reach() <= Reach() && status.Reach() <= Reach() && meta.Reach() <= Reach()
      ensures View().status == status.View() && View().spec == ForStorage(spec.View())
      ensures View().finalizers == Elements(meta.finalizers)
    {
    }

    twostate lemma Kept(cells: set<object>)
      requires old(Reach()) <= cells && unchanged(cells)
      ensures View() == old(View())
    {
    }

    /** A reconciler changes its copy as it likes; the original, in the cache, does not notice. There is no
        `modifies` clause: nothing that existed before is written. `cells` is any memory that covers the
        original. */
    method ChangeCopy(changes: seq<StatusChange>, finalizers: seq<FinalizerChange>, ghost cells: set<object>)
      returns (copied: StorageResource)
      requires Reach() <= cells
      ensures View() == old(View()) && fresh(copied.status.Reach()) && fresh(copied.meta.Reach())
      ensures copied.status.View() == Changed(status.View(), changes)
      ensures Elements(copied.meta.finalizers) == Finalizers(Elements(meta.finalizers), finalizers)
    {
      hide StorageResource.Reach, StorageResource.View, StorageResourceSpec.Reach, StorageResourceSpec.View, Changed,
           Finalizers;
      var copy := DeepCopy();
      copy.Parts();
      Parts();
      var meta', status' := ChangeInPlace(copy.meta, copy.status, changes, finalizers);
      copied := copy.(meta := meta', status := status');
      Kept(cells);
      Parts();
    }
  }

  datatype NotifierResource = NotifierResource(meta: Meta, spec: NotifierResourceSpec, status: ResourceStatus) {
    function Reach(): set<object>
      reads spec.telegram, spec.email, spec.webhook, if spec.webhook == null then null else spec.webhook.value.headers
    {
      meta.Reach() + spec.Reach() + status.Reach()
    }

    function View(): Object
      reads spec.telegram, spec.email, spec.webhook, if spec.webhook == null then null else spec.webhook.value.headers, Reach()
    {
      Object(meta.uid, meta.generation, meta.deleting, Elements(meta.finalizers), ForNotifier(spec.View()), status.View())
    }

    /** An equal Notifier in memory that is all new. */
    method DeepCopy() returns (out: NotifierResource)
      ensures out.View() == View() && fresh(out.Reach())
      ensures out.spec.Reach() !! out.status.Reach() && out.meta.Reach() !! out.status.Reach()
    {
      hide NotifierResourceSpec.View, NotifierResourceSpec.Reach;
      var meta' := meta.DeepCopy();
      var status' := status.DeepCopy();
      var spec' := spec.DeepCopy();
      out := NotifierResource(meta', spec', status');
    }

    lemma Parts()
      ensures spec.Reach() <= Reach() && status.Reach() <= Reach() && meta.Reach() <= Reach()
      ensures View().status == status.View() && View().spec == ForNotifier(spec.View())
      ensures View().finalizers == Elements(meta.finalizers)
    {
    }

    twostate lemma Kept(cells: set<object>)
      requires old(Reach()) <= cells && unchanged(cells)
      ensures View() == old(View())
    {
    }

    /** A reconciler changes its copy as it likes; the original, in the cache, does not notice. There is no
        `modifies` clause: nothing that existed before is written. `cells` is any memory that covers the
        original. */
    method ChangeCopy(changes: seq<StatusChange>, finalizers: seq<FinalizerChange>, ghost cells: set<object>)
      returns (copied: NotifierResource)
      requires Reach() <= cells
      ensures View() == old(View()) && fresh(copied.status.Reach()) && fresh(copied.meta.Reach())
      ensures copied.status.View() == Changed(status.View(), changes)
      ensures Elements(copied.meta.finalizers) == Finalizers(Elements(meta.finalizers), finalizers)
    {
      hide NotifierResource.Reach, NotifierResource.View, NotifierResourceSpec.Reach, NotifierResourceSpec.View,
           Changed, Finalizers;
      var copy := DeepCopy();
      copy.Parts();
      Parts();
      var meta', status' := ChangeInPlace(copy.meta, copy.status, changes, finalizers);
      copied := copy.(meta := meta', status := status');
      Kept(cells);
      Parts();
    }
  }

  datatype DatabaseBackupResource = DatabaseBackupResource(meta: Meta, spec: BackupResourceSpec, status: ResourceStatus) {
    function Reach(): set<object>
      reads spec.database.postgresql, spec.database.mongodb
    {
      meta.Reach() + spec.Reach() + status.Reach()
    }

    function View(): Object
      reads spec.database.postgresql, spec.database.mongodb, Reach()
    {
      Object(meta.uid, meta.generation, meta.deleting, Elements(meta.finalizers), ForBackup(spec.View()), status.View())
    }

    /** An equal DatabaseBackup in memory that is all new. */
    method DeepCopy() returns (out: DatabaseBackupResource)
      ensures out.View() == View() && fresh(out.Reach())
      ensures out.spec.Reach() !! out.status.Reach() && out.meta.Reach() !! out.status.Reach()
    {
      hide BackupResourceSpec.View, BackupResourceSpec.Reach;
      var meta' := meta.DeepCopy();
      var status' := status.DeepCopy();
      var spec' := spec.DeepCopy();
      out := DatabaseBackupResource(meta', spec', status');
    }

    lemma Parts()
      ensures spec.Reach() <= Reach() && status.Reach() <= Reach() && meta.Reach() <= Reach()
      ensures View().status == status.View() && View().spec == ForBackup(spec.View())
      ensures View().finalizers == Elements(meta.finalizers)
    {
    }

    twostate lemma Kept(cells: set<object>)
      requires old(Reach()) <= cells && unchanged(cells)
      ensures View() == old(View())
    {
    }

    /** A reconciler changes its copy as it likes; the original, in the cache, does not notice. There is no
        `modifies` clause: nothing that existed before is written. `cells` is any memory that covers the
        original. */
    method ChangeCopy(changes: seq<StatusChange>, finalizers: seq<FinalizerChange>, ghost cells: set<object>)
      returns (copied: DatabaseBackupResource)
      requires Reach() <= cells
      ensures View() == old(View()) && fresh(copied.status.Reach()) && fresh(copied.meta.Reach())
      ensures copied.status.View() == Changed(status.View(), changes)
      ensures Elements(copied.meta.finalizers) == Finalizers(Elements(meta.finalizers), finalizers)
    {
      hide DatabaseBackupResource.Reach, DatabaseBackupResource.View, BackupResourceSpec.Reach, BackupResourceSpec.View,
           Changed, Finalizers;
      var copy := DeepCopy();
      copy.Parts();
      Parts();
      var meta', status' := ChangeInPlace(copy.meta, copy.status, changes, finalizers);
      copied := copy.(meta := meta', status := status');
      Kept(cells);
      Parts();
    }
  }
}
