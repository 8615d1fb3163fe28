/** The JSON form of the three requests of a DatabaseBackup: which members appear, given the rules that
omit empty ones, and what a reader that fills absent members with zero values gets back.

The names of members are an enumeration here; the text of JSON is not part of this model.
*/
module Wire {
  import opened Resources
  import opened Builders
  import opened Requests

  datatype Member =
    | Id | WorkspaceId | Name | Type
    | PostgresqlLogical | Mysql | Mariadb | Mongodb | Notifiers
    | Version | Host | Port | Username | Password | Database | AuthDatabase
    | SslMode | SslClientCert | SslClientKey | SslRootCert
    | IncludeSchemas | ExcludeTables | CpuCount | IsSkipUserMappings
    | IsHttps | IsSrv | IsDirectConnection
    | DatabaseId | IsBackupsEnabled | RetentionPolicyType | RetentionTimePeriod | RetentionCount
    | RetentionGfsHours | RetentionGfsDays | RetentionGfsWeeks | RetentionGfsMonths | RetentionGfsYears
    | Storage | BackupInterval | SendNotificationsOn | IsRetryIfFailed | MaxFailedTriesCount | Encryption
    | TimeOfDay | Weekday | DayOfMonth | CronExpression
    | IsHealthcheckEnabled | IsSentNotificationWhenUnavailable | IntervalMinutes
    | AttemptsBeforeConcideredAsDown | StoreAttemptsDays

  datatype Json =
    | Text(text: string)
    | Number(number: int)
    | Flag(flag: bool)
    | Array(items: seq<Json>)
    | Record(members: map<Member, Json>)

  // --------------------------------------------------- writing: `omitempty` or not

  // A member of a Go struct: its value, or nothing when it is omitted.
  function Always(value: Json): Option<Json> { Some(value) }
  function NonEmpty(text: string): Option<Json> { if text == "" then None else Some(Text(text)) }
  function NonZero(number: int): Option<Json> { if number == 0 then None else Some(Number(number)) }
  function Texts(texts: seq<string>): Json { Array(seq(|texts|, i requires 0 <= i < |texts| => Text(texts[i]))) }
  function NonEmptyTexts(texts: seq<string>): Option<Json> { if texts == [] then None else Some(Texts(texts)) }
  function TextIf(text: Option<string>): Option<Json> { if text.Some? then Some(Text(text.value)) else None }
  function NumberIf(number: Option<int>): Option<Json> { if number.Some? then Some(Number(number.value)) else None }

  function Write(members: Member -> Option<Json>): Json {
    Record(map m: Member | members(m).Some? :: members(m).value)
  }

  // ------------------------------------------------ reading: zero values for absent members

  function Get(json: Json, m: Member): Option<Json> {
    if json.Record? && m in json.members then Some(json.members[m]) else None
  }

  function GetText(json: Json, m: Member): string {
    var v := Get(json, m); if v.Some? && v.value.Text? then v.value.text else ""
  }

  function GetNumber(json: Json, m: Member): int {
    var v := Get(json, m); if v.Some? && v.value.Number? then v.value.number else 0
  }

  function GetFlag(json: Json, m: Member): bool {
    var v := Get(json, m); v.Some? && v.value.Flag? && v.value.flag
  }

  function GetTextIf(json: Json, m: Member): Option<string> {
    var v := Get(json, m); if v.Some? && v.value.Text? then Some(v.value.text) else None
  }

  function GetNumberIf(json: Json, m: Member): Option<int> {
    var v := Get(json, m); if v.Some? && v.value.Number? then Some(v.value.number) else None
  }

  function GetItems(json: Json, m: Member): seq<Json> {
    var v := Get(json, m); if v.Some? && v.value.Array? then v.value.items else []
  }

  function GetTexts(json: Json, m: Member): seq<string> {
    var items := GetItems(json, m);
    seq(|items|, i requires 0 <= i < |items| => if items[i].Text? then items[i].text else "")
  }

  /** A written member is what a reader gets. */
  lemma Written(members: Member -> Option<Json>, m: Member)
    ensures Get(Write(members), m) == members(m)
  {
  }

  lemma TextsBack(texts: seq<string>, json: Json, m: Member)
    requires Get(json, m) == NonEmptyTexts(texts) || Get(json, m) == Some(Texts(texts))
    ensures GetTexts(json, m) == texts
  {
  }

  // ----------------------------------------------------------- the structs

  function PostgresqlMember(r: PostgresqlRequest, m: Member): Option<Json> {
    match m
    case Version => Always(Text(r.version))
    case Host => Always(Text(r.host))
    case Port => Always(Number(r.port))
    case Username => Always(Text(r.username))
    case Password => Always(Text(r.password))
    case Database => TextIf(r.database)
    case SslMode => NonEmpty(r.sslMode)
    case SslClientCert => NonEmpty(r.sslClientCert)
    case SslClientKey => NonEmpty(r.sslClientKey)
    case SslRootCert => NonEmpty(r.sslRootCert)
    case IncludeSchemas => NonEmptyTexts(r.includeSchemas)
    case ExcludeTables => NonEmptyTexts(r.excludeTables)
    case CpuCount => Always(Number(r.cpuCount))
    case IsSkipUserMappings => Always(Flag(r.isSkipUserMappings))
    case _ => None
  }

  lemma PostgresqlWritten(r: PostgresqlRequest, m: Member)
    ensures Get(WritePostgresql(r), m) == PostgresqlMember(r, m)
  {
    hide PostgresqlMember;
    Written(m => PostgresqlMember(r, m), m);
  }

  function WritePostgresql(r: PostgresqlRequest): Json { Write(m => PostgresqlMember(r, m)) }

  function ReadPostgresql(json: Json): PostgresqlRequest {
    PostgresqlRequest(
      GetText(json, Version), GetText(json, Host), GetNumber(json, Port), GetText(json, Username), GetText(json, Password),
      GetTextIf(json, Database), GetText(json, SslMode), GetText(json, SslClientCert), GetText(json, SslClientKey),
      GetText(json, SslRootCert), GetTexts(json, IncludeSchemas), GetTexts(json, ExcludeTables), GetNumber(json, CpuCount),
      GetFlag(json, IsSkipUserMappings))
  }

  lemma PostgresqlAddress(r: PostgresqlRequest)
    ensures var json := WritePostgresql(r);
            && GetText(json, Version) == r.version && GetText(json, Host) == r.host && GetNumber(json, Port) == r.port
            && GetText(json, Username) == r.username && GetText(json, Password) == r.password
            && GetTextIf(json, Database) == r.database
  {
    hide WritePostgresql, Write, Get;
    PostgresqlWritten(r, Version);
    PostgresqlWritten(r, Host);
    PostgresqlWritten(r, Port);
    PostgresqlWritten(r, Username);
    PostgresqlWritten(r, Password);
    PostgresqlWritten(r, Database);
  }

  lemma PostgresqlTls(r: PostgresqlRequest)
    ensures var json := WritePostgresql(r);
            && GetText(json, SslMode) == r.sslMode && GetText(json, SslClientCert) == r.sslClientCert
            && GetText(json, SslClientKey) == r.sslClientKey && GetText(json, SslRootCert) == r.sslRootCert
  {
    hide WritePostgresql, Write, Get;
    PostgresqlWritten(r, SslMode);
    PostgresqlWritten(r, SslClientCert);
    PostgresqlWritten(r, SslClientKey);
    PostgresqlWritten(r, SslRootCert);
  }

  lemma PostgresqlBack(r: PostgresqlRequest)
    ensures ReadPostgresql(WritePostgresql(r)) == r
  {
    hide WritePostgresql, Write, Get, GetText, GetTextIf, GetTexts, Texts;
    var json := WritePostgresql(r);
    PostgresqlAddress(r);
    PostgresqlTls(r);
    PostgresqlWritten(r, IncludeSchemas);
    PostgresqlWritten(r, ExcludeTables);
    PostgresqlWritten(r, CpuCount);
    PostgresqlWritten(r, IsSkipUserMappings);
    TextsBack(r.includeSchemas, json, IncludeSchemas);
    TextsBack(r.excludeTables, json, ExcludeTables);
    assert GetNumber(json, Port) == r.port;
  }

  function SqlMember(r: SqlRequest, m: Member): Option<Json> {
    match m
    case Version => Always(Text(r.version))
    case Host => Always(Text(r.host))
    case Port => Always(Number(r.port))
    case Username => Always(Text(r.username))
    case Password => Always(Text(r.password))
    case Database => NonEmpty(r.database)
    case IsHttps => Always(Flag(r.isHttps))
    case _ => None
  }

  lemma SqlWritten(r: SqlRequest, m: Member)
    ensures Get(WriteSql(r), m) == SqlMember(r, m)
  {
    hide SqlMember;
    Written(m => SqlMember(r, m), m);
  }

  function WriteSql(r: SqlRequest): Json { Write(m => SqlMember(r, m)) }

  function ReadSql(json: Json): SqlRequest {
    SqlRequest(GetText(json, Version), GetText(json, Host), GetNumber(json, Port), GetText(json, Username),
               GetText(json, Password), GetText(json, Database), GetFlag(json, IsHttps))
  }

  lemma SqlBack(r: SqlRequest)
    ensures ReadSql(WriteSql(r)) == r
  {
    hide WriteSql, Write, Get;
    var json := WriteSql(r);
    SqlWritten(r, Version);
    SqlWritten(r, Host);
    SqlWritten(r, Port);
    SqlWritten(r, Username);
    SqlWritten(r, Password);
    SqlWritten(r, Database);
    SqlWritten(r, IsHttps);
  }

  function MongodbMember(r: MongodbRequest, m: Member): Option<Json> {
    match m
    case Version => Always(Text(r.version))
    case Host => Always(Text(r.host))
    case Port => NumberIf(r.port)
    case Username => Always(Text(r.username))
    case Password => Always(Text(r.password))
    case Database => Always(Text(r.database))
    case AuthDatabase => NonEmpty(r.authDatabase)
    case IsHttps => Always(Flag(r.isHttps))
    case IsSrv => Always(Flag(r.isSrv))
    case IsDirectConnection => Always(Flag(r.isDirectConnection))
    case CpuCount => Always(Number(r.cpuCount))
    case _ => None
  }

  lemma MongodbWritten(r: MongodbRequest, m: Member)
    ensures Get(WriteMongodb(r), m) == MongodbMember(r, m)
  {
    hide MongodbMember;
    Written(m => MongodbMember(r, m), m);
  }

  function WriteMongodb(r: MongodbRequest): Json { Write(m => MongodbMember(r, m)) }

  function ReadMongodb(json: Json): MongodbRequest {
    MongodbRequest(
      GetText(json, Version), GetText(json, Host), GetNumberIf(json, Port), GetText(json, Username), GetText(json, Password),
      GetText(json, Database), GetText(json, AuthDatabase), GetFlag(json, IsHttps), GetFlag(json, IsSrv),
      GetFlag(json, IsDirectConnection), GetNumber(json, CpuCount))
  }

  lemma MongodbAddress(r: MongodbRequest)
    ensures var json := WriteMongodb(r);
            && GetText(json, Version) == r.version && GetText(json, Host) == r.host && GetText(json, Username) == r.username
            && GetText(json, Password) == r.password && GetText(json, Database) == r.database
            && GetText(json, AuthDatabase) == r.authDatabase
  {
    hide WriteMongodb, Write, Get;
    MongodbWritten(r, Version);
    MongodbWritten(r, Host);
    MongodbWritten(r, Username);
    MongodbWritten(r, Password);
    MongodbWritten(r, Database);
    MongodbWritten(r, AuthDatabase);
  }

  lemma MongodbBack(r: MongodbRequest)
    ensures ReadMongodb(WriteMongodb(r)) == r
  {
    hide WriteMongodb, Write, Get, GetText;
    MongodbAddress(r);
    MongodbWritten(r, Port);
    MongodbWritten(r, IsHttps);
    MongodbWritten(r, IsSrv);
    MongodbWritten(r, IsDirectConnection);
    MongodbWritten(r, CpuCount);
  }

  function LinkMember(link: NotifierLink, m: Member): Option<Json> {
    match m
    case Id => Always(Text(link.id))
    case WorkspaceId => Always(Text(link.workspaceID))
    case _ => None
  }

  function WriteLink(link: NotifierLink): Json { Write(m => LinkMember(link, m)) }

  function ReadLink(json: Json): NotifierLink { NotifierLink(GetText(json, Id), GetText(json, WorkspaceId)) }

  function DatabaseMember(r: DatabaseRequest, m: Member): Option<Json> {
    match m
    case Id => NonEmpty(r.id)
    case WorkspaceId => Always(Text(r.workspaceID))
    case Name => Always(Text(r.name))
    case Type => Always(Text(r.databaseType))
    case PostgresqlLogical => if r.postgresqlLogical.Some? then Some(WritePostgresql(r.postgresqlLogical.value)) else None
    case Mysql => if r.mysql.Some? then Some(WriteSql(r.mysql.value)) else None
    case Mariadb => if r.mariadb.Some? then Some(WriteSql(r.mariadb.value)) else None
    case Mongodb => if r.mongodb.Some? then Some(WriteMongodb(r.mongodb.value)) else None
    case Notifiers =>
      if r.notifiers == [] then None
      else Some(Array(seq(|r.notifiers|, i requires 0 <= i < |r.notifiers| => WriteLink(r.notifiers[i]))))
    case _ => None
  }

  lemma DatabaseWritten(r: DatabaseRequest, m: Member)
    ensures Get(WriteDatabase(r), m) == DatabaseMember(r, m)
  {
    hide DatabaseMember;
    Written(m => DatabaseMember(r, m), m);
  }

  function WriteDatabase(r: DatabaseRequest): Json { Write(m => DatabaseMember(r, m)) }

  function ReadDatabase(json: Json): DatabaseRequest {
    var pg, my, maria, mongo := Get(json, PostgresqlLogical), Get(json, Mysql), Get(json, Mariadb), Get(json, Mongodb);
    var items := GetItems(json, Notifiers);
    DatabaseRequest(
      GetText(json, Id), GetText(json, WorkspaceId), GetText(json, Name), GetText(json, Type),
      if pg.Some? then Some(ReadPostgresql(pg.value)) else None,
      if my.Some? then Some(ReadSql(my.value)) else None,
      if maria.Some? then Some(ReadSql(maria.value)) else None,
      if mongo.Some? then Some(ReadMongodb(mongo.value)) else None,
      seq(|items|, i requires 0 <= i < |items| => ReadLink(items[i])))
  }

  lemma DatabaseTexts(r: DatabaseRequest)
    ensures var json := WriteDatabase(r);
            && GetText(json, Id) == r.id && GetText(json, WorkspaceId) == r.workspaceID
            && GetText(json, Name) == r.name && GetText(json, Type) == r.databaseType
  {
    hide WriteDatabase, Get;
    DatabaseWritten(r, Id);
    DatabaseWritten(r, WorkspaceId);
    DatabaseWritten(r, Name);
    DatabaseWritten(r, Type);
  }

  /** What databasus reads is the database request that was built, whatever members were omitted. */
  lemma DatabaseBack(r: DatabaseRequest)
    ensures ReadDatabase(WriteDatabase(r)) == r
  {
    hide WritePostgresql, ReadPostgresql, WriteSql, ReadSql, WriteMongodb, ReadMongodb, ReadLink, WriteLink, WriteDatabase, Get;
    DatabaseTexts(r);
    DatabaseWritten(r, PostgresqlLogical);
    DatabaseWritten(r, Mysql);
    DatabaseWritten(r, Mariadb);
    DatabaseWritten(r, Mongodb);
    DatabaseWritten(r, Notifiers);
    hide GetText;
    if r.postgresqlLogical.Some? { PostgresqlBack(r.postgresqlLogical.value); }
    if r.mysql.Some? { SqlBack(r.mysql.value); }
    if r.mariadb.Some? { SqlBack(r.mariadb.value); }
    if r.mongodb.Some? { MongodbBack(r.mongodb.value); }
    forall i | 0 <= i < |r.notifiers| ensures ReadLink(WriteLink(r.notifiers[i])) == r.notifiers[i] {
      LinkBack(r.notifiers[i]);
    }
  }

  lemma LinkBack(link: NotifierLink)
    ensures ReadLink(WriteLink(link)) == link
  {
  }

  function IntervalMember(r: IntervalRequest, m: Member): Option<Json> {
    match m
    case Type => Always(Text(r.intervalType))
    case TimeOfDay => TextIf(r.timeOfDay)
    case Weekday => NumberIf(r.weekday)
    case DayOfMonth => NumberIf(r.dayOfMonth)
    case CronExpression => TextIf(r.cronExpression)
    case _ => None
  }

  lemma IntervalWritten(r: IntervalRequest, m: Member)
    ensures Get(WriteInterval(r), m) == IntervalMember(r, m)
  {
    hide IntervalMember;
    Written(m => IntervalMember(r, m), m);
  }

  function WriteInterval(r: IntervalRequest): Json { Write(m => IntervalMember(r, m)) }

  function ReadInterval(json: Json): IntervalRequest {
    IntervalRequest(GetText(json, Type), GetTextIf(json, TimeOfDay), GetNumberIf(json, Weekday), GetNumberIf(json, DayOfMonth),
                    GetTextIf(json, CronExpression))
  }

  lemma WeekdayKept(r: IntervalRequest)
    ensures Get(WriteInterval(r), Weekday) == NumberIf(r.weekday)
    ensures WriteInterval(r.(weekday := None)) != WriteInterval(r.(weekday := Some(0)))
  {
    forall x: IntervalRequest, m: Member ensures Get(WriteInterval(x), m) == IntervalMember(x, m) {
      Written(m => IntervalMember(x, m), m);
    }
    hide WriteInterval, Get;
    assert Get(WriteInterval(r.(weekday := None)), Weekday) == None;
    assert Get(WriteInterval(r.(weekday := Some(0))), Weekday) == Some(Number(0));
  }

  /** Nothing that may be absent is mixed up with its zero value: no weekday is not Sunday. */
  lemma IntervalBack(r: IntervalRequest)
    ensures ReadInterval(WriteInterval(r)) == r
    ensures Get(WriteInterval(r), Weekday) == NumberIf(r.weekday)
    ensures WriteInterval(r.(weekday := None)) != WriteInterval(r.(weekday := Some(0)))
  {
    WeekdayKept(r);
    hide WriteInterval, Write, Get;
    var json := WriteInterval(r);
    IntervalWritten(r, Type);
    IntervalWritten(r, TimeOfDay);
    IntervalWritten(r, Weekday);
    IntervalWritten(r, DayOfMonth);
    IntervalWritten(r, CronExpression);
  }

  function BackupConfigMember(r: BackupConfigRequest, m: Member): Option<Json> {
    match m
    case DatabaseId => Always(Text(r.databaseID))
    case IsBackupsEnabled => Always(Flag(r.isBackupsEnabled))
    case RetentionPolicyType => Always(Text(r.retentionPolicyType))
    case RetentionTimePeriod => NonEmpty(r.retentionTimePeriod)
    case RetentionCount => NonZero(r.retentionCount)
    case RetentionGfsHours => NonZero(r.retentionGfsHours)
    case RetentionGfsDays => NonZero(r.retentionGfsDays)
    case RetentionGfsWeeks => NonZero(r.retentionGfsWeeks)
    case RetentionGfsMonths => NonZero(r.retentionGfsMonths)
    case RetentionGfsYears => NonZero(r.retentionGfsYears)
    case Storage => Always(Record(map[Id := Text(r.storageID)]))
    case BackupInterval => Always(WriteInterval(r.backupInterval))
    case SendNotificationsOn => Always(Texts(r.sendNotificationsOn))
    case IsRetryIfFailed => Always(Flag(r.isRetryIfFailed))
    case MaxFailedTriesCount => Always(Number(r.maxFailedTriesCount))
    case Encryption => Always(Text(r.encryption))
    case _ => None
  }

  lemma BackupConfigWritten(r: BackupConfigRequest, m: Member)
    ensures Get(WriteBackupConfig(r), m) == BackupConfigMember(r, m)
  {
    hide BackupConfigMember;
    Written(m => BackupConfigMember(r, m), m);
  }

  function WriteBackupConfig(r: BackupConfigRequest): Json { Write(m => BackupConfigMember(r, m)) }

  function ReadBackupConfig(json: Json): BackupConfigRequest {
    var storage, interval := Get(json, Storage), Get(json, BackupInterval);
    BackupConfigRequest(
      GetText(json, DatabaseId), GetFlag(json, IsBackupsEnabled), GetText(json, RetentionPolicyType),
      GetText(json, RetentionTimePeriod), GetNumber(json, RetentionCount), GetNumber(json, RetentionGfsHours),
      GetNumber(json, RetentionGfsDays), GetNumber(json, RetentionGfsWeeks), GetNumber(json, RetentionGfsMonths),
      GetNumber(json, RetentionGfsYears), if storage.Some? then GetText(storage.value, Id) else "",
      ReadInterval(if interval.Some? then interval.value else Record(map[])),
      GetTexts(json, SendNotificationsOn), GetFlag(json, IsRetryIfFailed), GetNumber(json, MaxFailedTriesCount),
      GetText(json, Encryption))
  }

  lemma RetentionKept(r: BackupConfigRequest)
    ensures var json := WriteBackupConfig(r);
            && GetText(json, RetentionPolicyType) == r.retentionPolicyType
            && GetText(json, RetentionTimePeriod) == r.retentionTimePeriod
            && GetNumber(json, RetentionCount) == r.retentionCount && GetNumber(json, RetentionGfsHours) == r.retentionGfsHours
  {
    hide WriteBackupConfig, Write, Get;
    BackupConfigWritten(r, RetentionPolicyType);
    BackupConfigWritten(r, RetentionTimePeriod);
    BackupConfigWritten(r, RetentionCount);
    BackupConfigWritten(r, RetentionGfsHours);
  }

  lemma LongRetentionKept(r: BackupConfigRequest)
    ensures var json := WriteBackupConfig(r);
            && GetNumber(json, RetentionGfsDays) == r.retentionGfsDays &&
               GetNumber(json, RetentionGfsWeeks) == r.retentionGfsWeeks
            && GetNumber(json, RetentionGfsMonths) == r.retentionGfsMonths
            && GetNumber(json, RetentionGfsYears) == r.retentionGfsYears
  {
    hide WriteBackupConfig, Write, Get;
    BackupConfigWritten(r, RetentionGfsDays);
    BackupConfigWritten(r, RetentionGfsWeeks);
    BackupConfigWritten(r, RetentionGfsMonths);
    BackupConfigWritten(r, RetentionGfsYears);
  }

  lemma SettingsKept(r: BackupConfigRequest)
    ensures var json := WriteBackupConfig(r);
            && GetText(json, DatabaseId) == r.databaseID && GetFlag(json, IsBackupsEnabled) == r.isBackupsEnabled
            && GetFlag(json, IsRetryIfFailed) == r.isRetryIfFailed
            && GetNumber(json, MaxFailedTriesCount) == r.maxFailedTriesCount && GetText(json, Encryption) == r.encryption
  {
    hide WriteBackupConfig, Write, Get;
    BackupConfigWritten(r, DatabaseId);
    BackupConfigWritten(r, IsBackupsEnabled);
    BackupConfigWritten(r, IsRetryIfFailed);
    BackupConfigWritten(r, MaxFailedTriesCount);
    BackupConfigWritten(r, Encryption);
  }

  lemma PartsKept(r: BackupConfigRequest)
    ensures var json := WriteBackupConfig(r);
            && Get(json, Storage) == Some(Record(map[Id := Text(r.storageID)]))
            && Get(json, BackupInterval) == Some(WriteInterval(r.backupInterval))
            && GetTexts(json, SendNotificationsOn) == r.sendNotificationsOn
  {
    hide WriteBackupConfig, Write, Get, WriteInterval, GetTexts, Texts;
    BackupConfigWritten(r, Storage);
    BackupConfigWritten(r, BackupInterval);
    BackupConfigWritten(r, SendNotificationsOn);
    TextsBack(r.sendNotificationsOn, WriteBackupConfig(r), SendNotificationsOn);
  }

  /** What databasus reads is the backup config that was built: an omitted count is a count of zero. */
  lemma BackupConfigBack(r: BackupConfigRequest)
    ensures ReadBackupConfig(WriteBackupConfig(r)) == r
  {
    hide WriteBackupConfig, Get, GetText, GetNumber, GetFlag, GetTexts, WriteInterval, ReadInterval;
    RetentionKept(r);
    LongRetentionKept(r);
    SettingsKept(r);
    PartsKept(r);
    IntervalBack(r.backupInterval);
    StorageIdKept(r.storageID);
  }

  lemma StorageIdKept(id: string)
    ensures GetText(Record(map[Id := Text(id)]), Id) == id
  {
  }

  function HealthcheckMember(r: HealthcheckRequest, m: Member): Option<Json> {
    match m
    case DatabaseId => Always(Text(r.databaseID))
    case IsHealthcheckEnabled => Always(Flag(r.isHealthcheckEnabled))
    case IsSentNotificationWhenUnavailable => Always(Flag(r.isSentNotificationWhenUnavailable))
    case IntervalMinutes => Always(Number(r.intervalMinutes))
    case AttemptsBeforeConcideredAsDown => Always(Number(r.attemptsBeforeConsideredAsDown))
    case StoreAttemptsDays => Always(Number(r.storeAttemptsDays))
    case _ => None
  }

  lemma HealthcheckWritten(r: HealthcheckRequest, m: Member)
    ensures Get(WriteHealthcheck(r), m) == HealthcheckMember(r, m)
  {
    hide HealthcheckMember;
    Written(m => HealthcheckMember(r, m), m);
  }

  function WriteHealthcheck(r: HealthcheckRequest): Json { Write(m => HealthcheckMember(r, m)) }

  function ReadHealthcheck(json: Json): HealthcheckRequest {
    HealthcheckRequest(GetText(json, DatabaseId), GetFlag(json, IsHealthcheckEnabled),
                       GetFlag(json, IsSentNotificationWhenUnavailable), GetNumber(json, IntervalMinutes),
                       GetNumber(json, AttemptsBeforeConcideredAsDown), GetNumber(json, StoreAttemptsDays))
  }

  lemma HealthcheckBack(r: HealthcheckRequest)
    ensures ReadHealthcheck(WriteHealthcheck(r)) == r
  {
    hide WriteHealthcheck, Write, Get;
    var json := WriteHealthcheck(r);
    HealthcheckWritten(r, DatabaseId);
    HealthcheckWritten(r, IsHealthcheckEnabled);
    HealthcheckWritten(r, IsSentNotificationWhenUnavailable);
    HealthcheckWritten(r, IntervalMinutes);
    HealthcheckWritten(r, AttemptsBeforeConcideredAsDown);
    HealthcheckWritten(r, StoreAttemptsDays);
  }

  // ------------------------------------------------------- what is omitted

  function Keys(json: Json): set<Member> { if json.Record? then json.members.Keys else {} }

  function When(present: bool, m: Member): set<Member> { if present then {m} else {} }

  lemma KeysAre(members: Member -> Option<Json>, keys: set<Member>)
    requires forall m: Member :: members(m).Some? <==> m in keys
    ensures Keys(Write(members)) == keys
  {
  }

  /** Exactly these members of a database request appear: the ones that are always there, and of the others those
      that are not empty. */
  lemma DatabaseMembers(r: DatabaseRequest)
    ensures Keys(WriteDatabase(r)) ==
            {WorkspaceId, Name, Type} + When(r.id != "", Id) + When(r.postgresqlLogical.Some?, PostgresqlLogical) +
            When(r.mysql.Some?, Mysql) + When(r.mariadb.Some?, Mariadb) + When(r.mongodb.Some?, Mongodb) +
            When(r.notifiers != [], Notifiers)
  {
    hide WritePostgresql, WriteSql, WriteMongodb, WriteLink;
    KeysAre(m => DatabaseMember(r, m),
            {WorkspaceId, Name, Type} + When(r.id != "", Id) + When(r.postgresqlLogical.Some?, PostgresqlLogical) +
            When(r.mysql.Some?, Mysql) + When(r.mariadb.Some?, Mariadb) + When(r.mongodb.Some?, Mongodb) +
            When(r.notifiers != [], Notifiers));
  }

  /** Of a postgres payload an absent database, an empty TLS member and an empty list are omitted. */
  lemma PostgresqlMembers(r: PostgresqlRequest)
    ensures var json := WritePostgresql(r);
            && (Get(json, Database).None? <==> r.database.None?) && (Get(json, SslMode).None? <==> r.sslMode == "")
            && (Get(json, SslClientCert).None? <==> r.sslClientCert == "")
            && (Get(json, SslClientKey).None? <==> r.sslClientKey == "")
            && (Get(json, SslRootCert).None? <==> r.sslRootCert == "")
            && (Get(json, IncludeSchemas).None? <==> r.includeSchemas == [])
            && (Get(json, ExcludeTables).None? <==> r.excludeTables == [])
  {
    hide WritePostgresql, Write, Get, Texts;
    PostgresqlWritten(r, Database);
    PostgresqlWritten(r, SslMode);
    PostgresqlWritten(r, SslClientCert);
    PostgresqlWritten(r, SslClientKey);
    PostgresqlWritten(r, SslRootCert);
    PostgresqlWritten(r, IncludeSchemas);
    PostgresqlWritten(r, ExcludeTables);
  }

  /** Of a backup config an empty retention period and the counts of zero are omitted; the list of notifications is
      there even when it is empty. */
  lemma BackupConfigMembers(r: BackupConfigRequest)
    ensures var json := WriteBackupConfig(r);
            && (Get(json, RetentionTimePeriod).None? <==> r.retentionTimePeriod == "")
            && (Get(json, RetentionCount).None? <==> r.retentionCount == 0)
            && (Get(json, RetentionGfsHours).None? <==> r.retentionGfsHours == 0)
            && (Get(json, RetentionGfsDays).None? <==> r.retentionGfsDays == 0)
            && (Get(json, RetentionGfsWeeks).None? <==> r.retentionGfsWeeks == 0)
            && (Get(json, RetentionGfsMonths).None? <==> r.retentionGfsMonths == 0)
            && (Get(json, RetentionGfsYears).None? <==> r.retentionGfsYears == 0)
            && Get(json, SendNotificationsOn).Some?
  {
    hide WriteBackupConfig, Write, Get, Texts;
    LongCountsOmitted(r);
    BackupConfigWritten(r, RetentionTimePeriod);
    BackupConfigWritten(r, RetentionCount);
    BackupConfigWritten(r, RetentionGfsHours);
    BackupConfigWritten(r, SendNotificationsOn);
  }

  lemma LongCountsOmitted(r: BackupConfigRequest)
    ensures var json := WriteBackupConfig(r);
            && (Get(json, RetentionGfsDays).None? <==> r.retentionGfsDays == 0)
            && (Get(json, RetentionGfsWeeks).None? <==> r.retentionGfsWeeks == 0)
            && (Get(json, RetentionGfsMonths).None? <==> r.retentionGfsMonths == 0)
            && (Get(json, RetentionGfsYears).None? <==> r.retentionGfsYears == 0)
  {
    hide WriteBackupConfig, Write, Get;
    BackupConfigWritten(r, RetentionGfsDays);
    BackupConfigWritten(r, RetentionGfsWeeks);
    BackupConfigWritten(r, RetentionGfsMonths);
    BackupConfigWritten(r, RetentionGfsYears);
  }

  // ---------------------------------------------------- back to the spec

  /** A spec without what the wire does not carry: names of secrets and notifiers (their values are sent
      instead), the backup type, and the sections that the type does not choose; defaults filled in. */
  function Essence(spec: DatabaseSpec): DatabaseSpec {
    DatabaseSpec(
      spec.name, spec.databaseType,
      if spec.databaseType == "POSTGRES" && spec.postgresql.Some? then
        Some(spec.postgresql.value.(
          passwordSecretRef := NO_SECRET, sslClientCertSecretRef := None, sslClientKeySecretRef := None,
          sslRootCertSecretRef := None, backupType := "",
          cpuCount := if spec.postgresql.value.cpuCount == 0 then 1 else spec.postgresql.value.cpuCount))
      else None,
      if spec.databaseType == "MYSQL" && spec.mysql.Some? then Some(spec.mysql.value.(passwordSecretRef := NO_SECRET)) else None,
      if spec.databaseType == "MARIADB" && spec.mariadb.Some? then Some(spec.mariadb.value.(passwordSecretRef := NO_SECRET)) else None,
      if spec.databaseType == "MONGODB" && spec.mongodb.Some? then
        Some(spec.mongodb.value.(
          passwordSecretRef := NO_SECRET,
          cpuCount := if spec.mongodb.value.cpuCount == 0 then 1 else spec.mongodb.value.cpuCount))
      else None,
      [])
  }

  function SqlSpecOf(r: SqlRequest): SqlSpec { SqlSpec(r.version, r.host, r.port, r.username, NO_SECRET, r.database, r.isHttps) }

  function EssenceOf(r: DatabaseRequest): DatabaseSpec {
    DatabaseSpec(
      r.name, if r.databaseType == "POSTGRES_LOGICAL" then "POSTGRES" else r.databaseType,
      if r.postgresqlLogical.None? then None
      else
        var pg := r.postgresqlLogical.value;
        Some(PostgresqlSpec(pg.version, pg.host, pg.port, pg.username, NO_SECRET,
                            if pg.database.Some? then pg.database.value else "", pg.sslMode, None, None, None, "",
                            pg.includeSchemas, pg.excludeTables, pg.isSkipUserMappings, pg.cpuCount)),
      if r.mysql.None? then None else Some(SqlSpecOf(r.mysql.value)),
      if r.mariadb.None? then None else Some(SqlSpecOf(r.mariadb.value)),
      if r.mongodb.None? then None
      else
        var mongo := r.mongodb.value;
        Some(MongodbSpec(mongo.version, mongo.host, mongo.port, mongo.username, NO_SECRET, mongo.database, mongo.authDatabase,
                         mongo.isHttps, mongo.isSrv, mongo.isDirectConnection, mongo.cpuCount)),
      [])
  }

  /** Building, omitting empty members and reading back with zero values recovers the chosen variant of
      the database spec up to its defaults (no processors become one, any other number stays), the IDs of the
      notifiers in order, and the secret values, each in the member that its reference is for. */
  lemma DatabaseLossless(workspace: string, spec: DatabaseBackupSpec, got: seq<string>)
    requires Complete(ForBackup(spec), got)
    ensures var sent := ReadDatabase(WriteDatabase(RequestOf(workspace, ForBackup(spec), got).database));
            var n := |spec.database.notifierRefs|;
            && EssenceOf(sent) == Essence(spec.database)
            && sent.notifiers == LinksOf(workspace, got[1..1 + n])
            && PasswordSent(spec, got, sent) && TlsSent(spec, got, sent)
            && (sent.postgresqlLogical.Some? ==>
                  spec.database.postgresql.Some? &&
                  (sent.postgresqlLogical.value.database.None? <==> spec.database.postgresql.value.database == ""))
            && (sent.postgresqlLogical.Some? ==> sent.postgresqlLogical.value.password == got[1 + n])
            && (sent.mysql.Some? ==> sent.mysql.value.password == got[1 + n])
            && (sent.mariadb.Some? ==> sent.mariadb.value.password == got[1 + n])
            && (sent.mongodb.Some? ==> sent.mongodb.value.password == got[1 + n])
  {
    hide WriteDatabase, ReadDatabase;
    CompleteBackup(spec, got);
    SecretsSent(workspace, spec, got);
    hide PasswordSent, TlsSent;
    DatabaseBack(RequestOf(workspace, ForBackup(spec), got).database);
    hide Complete, LinksOf;
    TypesDiffer(spec.database.databaseType);
  }

  lemma TypesDiffer(databaseType: string)
    requires databaseType in {DATABASE_POSTGRES, DATABASE_MYSQL, DATABASE_MARIADB, DATABASE_MONGODB}
    ensures databaseType != "POSTGRES_LOGICAL"
  {
    assert |"POSTGRES_LOGICAL"| == 16;
  }

  /** The backup config recovers the whole schedule of the spec; the storage by its ID instead of its
      name, and an empty encryption as NONE. */
  lemma BackupConfigLossless(spec: DatabaseBackupSpec, databaseID: string, storageID: string)
    ensures var sent := ReadBackupConfig(WriteBackupConfig(BackupConfigOf(spec, databaseID, storageID)));
            && BackupSpec(
                 sent.isBackupsEnabled,
                 IntervalSpec(sent.backupInterval.intervalType, sent.backupInterval.timeOfDay, sent.backupInterval.weekday,
                              sent.backupInterval.dayOfMonth, sent.backupInterval.cronExpression),
                 RetentionSpec(sent.retentionPolicyType, sent.retentionTimePeriod, sent.retentionCount, sent.retentionGfsHours,
                               sent.retentionGfsDays, sent.retentionGfsWeeks, sent.retentionGfsMonths, sent.retentionGfsYears),
                 spec.backup.storageRef, sent.sendNotificationsOn, sent.isRetryIfFailed, sent.maxFailedTriesCount, sent.encryption)
               == spec.backup.(encryption := if spec.backup.encryption == "" then "NONE" else spec.backup.encryption)
            && sent.databaseID == databaseID && sent.storageID == storageID
  {
    hide WriteBackupConfig, ReadBackupConfig;
    BackupConfigBack(BackupConfigOf(spec, databaseID, storageID));
  }

  lemma HealthcheckLossless(check: HealthcheckSpec, databaseID: string)
    ensures var sent := ReadHealthcheck(WriteHealthcheck(HealthcheckOf(check, databaseID)));
            && HealthcheckSpec(sent.isHealthcheckEnabled, sent.isSentNotificationWhenUnavailable, sent.intervalMinutes,
                               sent.attemptsBeforeConsideredAsDown, sent.storeAttemptsDays) == check
            && sent.databaseID == databaseID
  {
    hide WriteHealthcheck, ReadHealthcheck;
    HealthcheckBack(HealthcheckOf(check, databaseID));
  }
}
