/** The reconciliation protocol as a state machine.

Four parties share a `State`: the Kubernetes API server (per key, every version it ever
committed, oldest first), the operator's read cache (per key, the index of the version it
shows), the databasus store, and one worker per key. `Apply` gives the effect of one event:
something a user, the cache, databasus or the environment does, or the next external call of
a worker, with the outcome the environment picked for it. A disabled event changes nothing,
so every sequence of events is a run and every reachable state is `Run(Empty(ws), events)`.

Assumptions built in here:
 A1  one worker per key; a crash abandons the flight and the restart enqueues the key again.
 A2  an update of the object writes metadata and spec, a status update writes the status, both
     only if the version read is still the current one; writing what is already there adds no version.
 A3  the cache may lag but never goes back, not even across a crash.
 A4  spec edits and delete requests bump the generation; a delete with finalizers left only marks the
     object, which disappears with its last finalizer; users neither write status nor strip the
     operator's finalizer.
 A5  databasus creates with a fresh non-empty ID, fails updates of missing records, applies a call,
     if at all, before the client sees it return, and is not edited by anybody else.
*/
module Protocol {
  import opened Resources
  import opened Conditions
  import opened Builders

  datatype Key = Key(kind: Kind, namespace: string, name: string)

  // `Value` of what is absent stands for nothing.
  datatype Version = Absent | Present(obj: Object) {
    function Value(): Object { if Present? then obj else NO_OBJECT }
  }

  datatype Track = Track(versions: seq<Version>, seen: nat)

  datatype Ref = Ref(kind: Kind, id: string)

  datatype Owner = Owner(key: Key, uid: nat)

  datatype SecretId = SecretId(namespace: string, name: string, key: string)

  // A successful read of a reconcile: step `index` of the plan of `owner` at `generation`.
  datatype Read = Read(owner: Owner, generation: nat, index: nat, need: Need, value: string)

  datatype Report = Report(healthStatus: Option<string>, lastBackupTime: Option<int>, lastBackupErrorMessage: Option<string>)

  // What Reconcile returns to the work queue: seconds until a retry (0 for none), or an error.
  datatype Result = Result(requeueAfter: int, err: bool) {
    predicate Again() { requeueAfter > 0 || err }
  }

  // The status a reconcile is about to write.
  datatype Verdict = Verdict(ok: bool, reason: string, message: string, id: string, vitals: Vitals)

  /** Where a worker is: which call it makes next. `ver` is the version its Get returned. */
  datatype Flight =
    | Idle
    | Removing(ver: nat)                                       // delete of the remote record
    | Detaching(ver: nat)                                      // update without the finalizer
    | Attaching(ver: nat)                                      // update with the finalizer
    | Gathering(ver: nat, got: seq<string>)                    // next read; after the last one, create or update
    | Configuring(ver: nat, got: seq<string>, id: string)      // save of the backup config
    | Probing(ver: nat, got: seq<string>, id: string)          // save of the healthcheck config
    | Refreshing(ver: nat, id: string)                         // get of the database
    | Reporting(ver: nat, verdict: Verdict)                    // update of the status
    | Returning(ver: nat, result: Result)                      // return to the work queue
  {
    // The version it holds and the values it has read; 0 and none when it has no such thing.
    function Ver(): nat { if Idle? then 0 else ver }

    function Got(): seq<string> { if Gathering? || Configuring? || Probing? then got else [] }
  }

  datatype State = State(
    workspace: string,
    tracks: map<Key, Track>,
    flights: map<Key, Flight>,
    queued: set<Key>,
    secrets: map<SecretId, string>,
    records: map<Ref, Request>,
    backupConfigs: map<string, BackupConfigRequest>,
    healthchecks: map<string, HealthcheckRequest>,
    reports: map<string, Report>,
    // Bookkeeping that no party reads: who each ID was issued for, which created records were
    // lost track of, and which reads succeeded.
    issued: map<Ref, Owner>,
    lost: set<Ref>,
    readings: set<Read>)
  {
    function TrackOf(k: Key): Track { if k in tracks then tracks[k] else Track([Absent], 0) }

    function Versions(k: Key): seq<Version> { TrackOf(k).versions }

    function FlightOf(k: Key): Flight { if k in flights then flights[k] else Idle }

    // The object a flight works on, when there is one.
    predicate Holds(k: Key, ver: nat) { ver < |Versions(k)| && Versions(k)[ver].Present? }

    function Obj(k: Key, ver: nat): Object {
      if Holds(k, ver) then Versions(k)[ver].Value() else NO_OBJECT
    }

    function ReportOf(id: string): Report { if id in reports then reports[id] else Report(None, None, None) }

    function Fly(k: Key, f: Flight): State { this.(flights := flights[k := f]) }

    function Push(k: Key, v: Version): State {
      this.(tracks := tracks[k := TrackOf(k).(versions := Versions(k) + [v])])
    }

    function See(k: Key, n: nat): State { this.(tracks := tracks[k := TrackOf(k).(seen := n)]) }

    function Enqueue(k: Key): State { this.(queued := queued + {k}) }
  }

  // What a lookup that finds nothing stands for.
  const NO_OBJECT := Object(0, 0, false, [], ForStorage(StorageSpec("", "", None, None, None, None, None, None, None, None)),
                            EMPTY_STATUS)

  function Empty(workspace: string): State {
    State(workspace, map[], map[], {}, map[], map[], map[], map[], map[], map[], {}, {})
  }

  // -------------------------------------------------------------- finalizers

  function Finalizer(kind: Kind): string {
    match kind
    case StorageKind => "databasus.io/storage-cleanup"
    case NotifierKind => "databasus.io/notifier-cleanup"
    case BackupKind => "databasus.io/databasebackup-cleanup"
  }

  // ------------------------------------------------------------------ events

  datatype Outcome =
    | Done    // the call took effect and the caller saw it succeed
    | Failed  // no effect, and the caller saw an error
    | Lost    // the call took effect, and the caller saw an error

  // What the environment picks for one call: its outcome, the ID a create would get,
  // the text an error would carry, and the time the worker's clock shows.
  datatype Turn = Turn(outcome: Outcome, newID: string, message: string, now: int)

  datatype Event =
    | UserCreate(key: Key, spec: Spec, finalizers: seq<string>)
    | UserEdit(key: Key, spec: Spec)
    | UserTouch(key: Key, finalizers: seq<string>)  // labels, annotations, other controllers' finalizers
    | UserDelete(key: Key)
    | SetSecret(secret: SecretId, value: string)
    | DropSecret(secret: SecretId)
    | SetReport(id: string, report: Report)
    | Observe(key: Key, upTo: nat)                  // the cache catches up and the watch enqueues the key
    | Wake(key: Key)                                // a timer or a resync enqueues the key
    | Crash(key: Key)
    | Work(key: Key, turn: Turn)

  function Last(versions: seq<Version>): Version {
    if versions == [] then Absent else versions[|versions| - 1]
  }

  /** What the server stores for an object: a marked object without finalizers is gone. */
  function Stored(obj: Object): Version {
    if obj.deleting && obj.finalizers == [] then Absent else Present(obj)
  }

  function Apply(s: State, e: Event): State {
    match e
    case UserCreate(k, spec, finalizers) =>
      if |s.Versions(k)| > 0 && Last(s.Versions(k)).Absent? && spec.Kind() == k.kind then
        s.Push(k, Present(Object(|s.Versions(k)|, 1, false, finalizers, spec, EMPTY_STATUS)))
      else s
    case UserEdit(k, spec) =>
      if |s.Versions(k)| > 0 && Last(s.Versions(k)).Present? && spec.Kind() == k.kind then
        var o := Last(s.Versions(k)).Value();
        if o.spec == spec then s else s.Push(k, Present(o.(spec := spec, generation := o.generation + 1)))
      else s
    case UserTouch(k, finalizers) =>
      if |s.Versions(k)| > 0 && Last(s.Versions(k)).Present? then
        var o := Last(s.Versions(k)).Value();
        if Finalizer(k.kind) in finalizers <==> Finalizer(k.kind) in o.finalizers then
          s.Push(k, Stored(o.(finalizers := finalizers)))
        else s
      else s
    case UserDelete(k) =>
      if |s.Versions(k)| > 0 && Last(s.Versions(k)).Present? && !Last(s.Versions(k)).Value().deleting then
        var o := Last(s.Versions(k)).Value();
        s.Push(k, Stored(o.(deleting := true, generation := o.generation + 1)))
      else s
    case SetSecret(secret, value) => s.(secrets := s.secrets[secret := value])
    case DropSecret(secret) => s.(secrets := s.secrets - {secret})
    case SetReport(id, report) => s.(reports := s.reports[id := report])
    case Observe(k, upTo) =>
      if s.TrackOf(k).seen < upTo < |s.Versions(k)| then s.See(k, upTo).Enqueue(k) else s
    case Wake(k) => s.Enqueue(k)
    case Crash(k) => if s.FlightOf(k).Idle? then s else Abandon(s, k).Fly(k, Idle).Enqueue(k)
    case Work(k, turn) => WorkOn(s, k, turn)
  }

  function Run(s: State, events: seq<Event>): State {
    if events == [] then s else Apply(Run(s, events[..|events| - 1]), events[|events| - 1])
  }

  // ------------------------------------------------------- the worker's calls

  /** The next call of the worker of `k`. Calls that the flight does not lead to have no effect. */
  function WorkOn(s: State, k: Key, t: Turn): State {
    match s.FlightOf(k)
    case Idle => if k in s.queued then Fetch(s.(queued := s.queued - {k}), k, t) else s
    case Removing(ver) => Remove(s, k, ver, t)
    case Detaching(ver) =>
      var o := s.Obj(k, ver);
      WriteObject(s, k, ver, o.(finalizers := RemoveFinalizer(o.finalizers, Finalizer(k.kind))), t)
    case Attaching(ver) =>
      var o := s.Obj(k, ver);
      WriteObject(s, k, ver, o.(finalizers := AddFinalizer(o.finalizers, Finalizer(k.kind))), t)
    case Gathering(ver, got) =>
      if |got| < |Plan(s.Obj(k, ver).spec)| then Gather(s, k, ver, got, t)
      else if s.Obj(k, ver).status.id == "" then CreateRecord(s, k, ver, got, t)
      else UpdateRecord(s, k, ver, got, t)
    case Configuring(ver, got, id) => Configure(s, k, ver, got, id, t)
    case Probing(ver, got, id) => Probe(s, k, ver, id, t)
    case Refreshing(ver, id) => Refresh(s, k, ver, id, t)
    case Reporting(ver, verdict) => WriteStatus(s, k, ver, verdict, t)
    case Returning(ver, result) =>
      var idle := s.Fly(k, Idle);
      if result.Again() then idle.Enqueue(k) else idle
  }

  // Each call is its effect on the rest of the state, and the flight it leads to.

  /** The first branch of a reconcile, by the object its Get returned. */
  function Branch(kind: Kind, o: Object, ver: nat): Flight {
    if o.deleting then
      if Finalizer(kind) !in o.finalizers then Returning(ver, Result(0, false))
      else if o.status.id != "" then Removing(ver)
      else Detaching(ver)
    else if Finalizer(kind) !in o.finalizers then Attaching(ver)
    else Gathering(ver, [])
  }

  function AfterGet(s: State, k: Key, t: Turn): Flight {
    var seen := s.TrackOf(k).seen;
    if t.outcome != Done then Returning(seen, Result(0, true))
    else if !s.Holds(k, seen) then Returning(seen, Result(0, false))
    else Branch(k.kind, s.Obj(k, seen), seen)
  }

  function Fetch(s: State, k: Key, t: Turn): State { s.Fly(k, AfterGet(s, k, t)) }

  /** Without a record and the configs that go with it. */
  function Vanished(s: State, ref: Ref): State {
    s.(records := s.records - {ref},
       backupConfigs := if ref.kind == BackupKind then s.backupConfigs - {ref.id} else s.backupConfigs,
       healthchecks := if ref.kind == BackupKind then s.healthchecks - {ref.id} else s.healthchecks)
  }

  function Remove(s: State, k: Key, ver: nat, t: Turn): State {
    if !s.Holds(k, ver) then s
    else
      (if t.outcome == Failed then s else Vanished(s, Ref(k.kind, s.Obj(k, ver).status.id)))
      .Fly(k, if t.outcome == Done then Detaching(ver) else Returning(ver, Result(10, false)))
  }

  /** The write of version `ver` is accepted: nobody wrote in between and the call got through. */
  predicate Accepted(s: State, k: Key, ver: nat, t: Turn) {
    t.outcome != Failed && ver + 1 == |s.Versions(k)|
  }

  function WriteObject(s: State, k: Key, ver: nat, o: Object, t: Turn): State {
    if !s.Holds(k, ver) then s
    else
      (if Accepted(s, k, ver, t) && o != s.Obj(k, ver) then s.Push(k, Stored(o)) else s)
      .Fly(k, Returning(ver, Result(0, !(Accepted(s, k, ver, t) && t.outcome == Done))))
  }

  // -- resolution

  function SecretOf(namespace: string, ref: SecretKeyRef): SecretId { SecretId(namespace, ref.name, ref.key) }

  /** What reading a need in the cache gives: the value of a secret key, or the ID of a
      Storage or Notifier that has one and is Ready. */
  function Lookup(s: State, namespace: string, need: Need): Option<string> {
    match need
    case Value(ref) =>
      var secret := SecretOf(namespace, ref);
      if secret in s.secrets then Some(s.secrets[secret]) else None
    case Reference(kind, name) =>
      var k := Key(kind, namespace, name);
      if s.Holds(k, s.TrackOf(k).seen) then
        var o := s.Obj(k, s.TrackOf(k).seen);
        if o.status.id != "" && IsReady(o.status.conditions) then Some(o.status.id) else None
      else None
    case Reject(_) => None
  }

  /** The flight after a read: on with the value, or to the report of its failure. */
  function AfterRead(o: Object, ver: nat, got: seq<string>, found: Option<string>, text: string): Flight {
    if found.Some? then Gathering(ver, got + [found.value])
    else
      var need := NeedAt(o.spec, |got|);
      Reporting(ver, Failure(o, need.Reason(), if need == Reject(UNSUPPORTED) then UNSUPPORTED_MESSAGE else text, o.status.id))
  }

  /** What a read in the cache gives, if it gets through. */
  function Found(s: State, k: Key, ver: nat, got: seq<string>, t: Turn): Option<string> {
    if t.outcome == Done then Lookup(s, k.namespace, NeedAt(s.Obj(k, ver).spec, |got|)) else None
  }

  function Gather(s: State, k: Key, ver: nat, got: seq<string>, t: Turn): State {
    if !s.Holds(k, ver) || |got| >= |Plan(s.Obj(k, ver).spec)| then s
    else
      var o := s.Obj(k, ver);
      var found := Found(s, k, ver, got, t);
      (if found.Some? then
         s.(readings := s.readings + {Read(Owner(k, o.uid), o.generation, |got|, NeedAt(o.spec, |got|), found.value)})
       else s)
      .Fly(k, AfterRead(o, ver, got, found, t.message))
  }

  // -- the remote stages

  const SYNC_FAILED := "APISyncFailed"
  const CONFIG_FAILED := "BackupConfigSyncFailed"
  const PROBE_FAILED := "HealthcheckSyncFailed"
  const SYNCED := "Synced"

  function SyncedMessage(kind: Kind): string {
    match kind
    case StorageKind => "Storage synced to databasus"
    case NotifierKind => "Notifier synced to databasus"
    case BackupKind => "DatabaseBackup synced to databasus"
  }

  function Failure(o: Object, reason: string, message: string, id: string): Verdict {
    Verdict(false, reason, message, id, o.status.vitals)
  }

  function Success(kind: Kind, id: string, vitals: Vitals): Verdict {
    Verdict(true, SYNCED, SyncedMessage(kind), id, vitals)
  }

  function AfterSave(k: Key, ver: nat, got: seq<string>, id: string, o: Object): Flight {
    if k.kind == BackupKind then Configuring(ver, got, id)
    else Reporting(ver, Success(k.kind, id, o.status.vitals))
  }

  predicate Unused(s: State, kind: Kind, id: string) { id != "" && Ref(kind, id) !in s.issued }

  /** The flight after a save of the record, which gave this ID if it succeeded. */
  function AfterRecord(k: Key, o: Object, ver: nat, got: seq<string>, id: Option<string>, text: string): Flight {
    if id.Some? then AfterSave(k, ver, got, id.value, o)
    else Reporting(ver, Failure(o, SYNC_FAILED, text, o.status.id))
  }

  function CreateRecord(s: State, k: Key, ver: nat, got: seq<string>, t: Turn): State {
    if !s.Holds(k, ver) || !Complete(s.Obj(k, ver).spec, got) then s
    else
      var o := s.Obj(k, ver);
      var ref := Ref(k.kind, t.newID);
      var created := t.outcome != Failed && Unused(s, k.kind, t.newID);
      (if created then
         s.(records := s.records[ref := RequestOf(s.workspace, o.spec, got).WithId(t.newID)],
            issued := s.issued[ref := Owner(k, o.uid)],
            lost := if t.outcome == Lost then s.lost + {ref} else s.lost)
       else s)
      .Fly(k, AfterRecord(k, o, ver, got, if created && t.outcome == Done then Some(t.newID) else None, t.message))
  }

  function UpdateRecord(s: State, k: Key, ver: nat, got: seq<string>, t: Turn): State {
    if !s.Holds(k, ver) || !Complete(s.Obj(k, ver).spec, got) then s
    else
      var o := s.Obj(k, ver);
      var id := o.status.id;
      var ref := Ref(k.kind, id);
      var updated := t.outcome != Failed && ref in s.records;
      (if updated then s.(records := s.records[ref := RequestOf(s.workspace, o.spec, got).WithId(id)]) else s)
      .Fly(k, AfterRecord(k, o, ver, got, if updated && t.outcome == Done then Some(id) else None, t.message))
  }

  /** The flight after the save of the backup config, and after that of the healthcheck config. */
  function AfterConfig(o: Object, ver: nat, got: seq<string>, id: string, ok: bool, text: string): Flight {
    if !ok then Reporting(ver, Failure(o, CONFIG_FAILED, text, id))
    else if o.spec.ForBackup? && o.spec.databaseBackup.healthcheck.Some? then Probing(ver, got, id)
    else Refreshing(ver, id)
  }

  function AfterCheck(o: Object, ver: nat, id: string, ok: bool, text: string): Flight {
    if ok then Refreshing(ver, id) else Reporting(ver, Failure(o, PROBE_FAILED, text, id))
  }

  function Configure(s: State, k: Key, ver: nat, got: seq<string>, id: string, t: Turn): State {
    if !s.Holds(k, ver) || !s.Obj(k, ver).spec.ForBackup? || got == [] then s
    else
      var o := s.Obj(k, ver);
      var saved := t.outcome != Failed && Ref(BackupKind, id) in s.records;
      (if saved then s.(backupConfigs := s.backupConfigs[id := BackupConfigOf(o.spec.databaseBackup, id, got[0])]) else s)
      .Fly(k, AfterConfig(o, ver, got, id, saved && t.outcome == Done, t.message))
  }

  function Probe(s: State, k: Key, ver: nat, id: string, t: Turn): State {
    if !s.Holds(k, ver) || !s.Obj(k, ver).spec.ForBackup? || s.Obj(k, ver).spec.databaseBackup.healthcheck.None? then s
    else
      var o := s.Obj(k, ver);
      var saved := t.outcome != Failed && Ref(BackupKind, id) in s.records;
      (if saved then
         s.(healthchecks := s.healthchecks[id := HealthcheckOf(o.spec.databaseBackup.healthcheck.value, id)])
       else s)
      .Fly(k, AfterCheck(o, ver, id, saved && t.outcome == Done, t.message))
  }

  /** Fields that databasus does not report keep their old value. */
  function Merge(vitals: Vitals, report: Report): Vitals {
    Vitals(
      if report.healthStatus.Some? then report.healthStatus.value else vitals.healthStatus,
      if report.lastBackupTime.Some? then report.lastBackupTime else vitals.lastBackupTime,
      if report.lastBackupErrorMessage.Some? then report.lastBackupErrorMessage.value
      else vitals.lastBackupErrorMessage)
  }

  function AfterRefresh(k: Key, o: Object, ver: nat, id: string, report: Option<Report>): Flight {
    Reporting(ver, Success(k.kind, id, if report.Some? then Merge(o.status.vitals, report.value) else o.status.vitals))
  }

  function Refresh(s: State, k: Key, ver: nat, id: string, t: Turn): State {
    if !s.Holds(k, ver) then s
    else
      var fetched := t.outcome == Done && Ref(BackupKind, id) in s.records;
      s.Fly(k, AfterRefresh(k, s.Obj(k, ver), ver, id, if fetched then Some(s.ReportOf(id)) else None))
  }

  // -- the status

  function StatusOf(o: Object, verdict: Verdict, now: int): Status {
    Status(
      verdict.id,
      if verdict.ok then o.generation else o.status.observedGeneration,
      SetStatusCondition(o.status.conditions,
                         ReadyCondition(if verdict.ok then True else False, o.generation, now,
                                        verdict.reason, verdict.message)),
      verdict.vitals)
  }

  function ResultOf(kind: Kind, verdict: Verdict, accepted: bool): Result {
    if verdict.ok then
      if !accepted then Result(0, true) else Result(if kind == BackupKind then 60 else 0, false)
    else if verdict.reason == DEPENDENCY then Result(10, false)
    else if verdict.reason == UNSUPPORTED then Result(0, false)
    else Result(30, false)
  }

  function WriteStatus(s: State, k: Key, ver: nat, verdict: Verdict, t: Turn): State {
    if !s.Holds(k, ver) then s
    else
      var o := s.Obj(k, ver);
      var status := StatusOf(o, verdict, t.now);
      var accepted := Accepted(s, k, ver, t);
      (if !accepted then Abandon(s, k) else if status != o.status then s.Push(k, Present(o.(status := status))) else s)
      .Fly(k, Returning(ver, ResultOf(k.kind, verdict, accepted && t.outcome == Done)))
  }

  // -- records created by the current flight

  /** The ID that the flight has obtained but not yet written to the status, or "". */
  function NewId(s: State, k: Key): string {
    var f := s.FlightOf(k);
    var id := match f
      case Configuring(_, _, id) => id
      case Probing(_, _, id) => id
      case Refreshing(_, id) => id
      case Reporting(_, verdict) => verdict.id
      case _ => "";
    if !f.Idle? && s.Holds(k, f.Ver()) && s.Obj(k, f.Ver()).status.id == "" then id else ""
  }

  /** The flight ends without its new ID in the status: the record is lost track of. */
  function Abandon(s: State, k: Key): State {
    if NewId(s, k) == "" then s else s.(lost := s.lost + {Ref(k.kind, NewId(s, k))})
  }
}
