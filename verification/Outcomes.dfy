/** What one call of a worker makes the status and the work queue say, with the reasons, texts and delays written
out: failed reads, failed saves, the refresh, and the status write that reports them.
*/
module Outcomes {
  import opened Resources
  import opened Conditions
  import opened Builders
  import opened Protocol
  import opened Invariants
  import opened Inductive
  import opened Safety
  import opened Calls

  /** A failure keeps the ID and the vitals, and has this reason. */
  predicate FailedWith(f: Flight, o: Object, ver: nat, id: string, reason: string) {
    f.Reporting? && f.ver == ver && !f.verdict.ok && f.verdict.reason == reason && f.verdict.id == id &&
    f.verdict.vitals == o.status.vitals
  }

  /** The reason that a failing read is reported with. */
  predicate ReasonOfRead(need: Need, reason: string) {
    match need
    case Reference(_, _) => reason == "DependencyNotReady"
    case Value(_) => reason == "SecretResolutionFailed"
    case Reject(why) => reason == why
  }

  /** What the cache shows for a read: a secret's value, or the ID of an object that has one and is Ready. */
  ghost predicate Shown(s: State, namespace: string, need: Need, value: string) {
    match need
    case Value(ref) =>
      var id := SecretId(namespace, ref.name, ref.key);
      id in s.secrets && s.secrets[id] == value
    case Reference(kind, name) =>
      var k := Key(kind, namespace, name);
      s.Holds(k, s.TrackOf(k).seen) &&
      var status := s.Obj(k, s.TrackOf(k).seen).status;
      && status.id == value && value != ""
      && var ready := FindStatusCondition(status.conditions, "Ready"); ready.Some? && ready.value.status == True
    case Reject(_) => false
  }

  /** A read goes on with what the cache shows, if it gets through and there is something; otherwise it is
      reported, with the reason of its kind; and nothing else happens. */
  lemma ReadTells(s: State, k: Key, t: Turn)
    requires var f := s.FlightOf(k);
             f.Gathering? && s.Holds(k, f.ver) && |f.got| < |Plan(s.Obj(k, f.ver).spec)|
    ensures var f, u := s.FlightOf(k), WorkOn(s, k, t);
            var o := s.Obj(k, f.ver);
            var need, g := Plan(o.spec)[|f.got|], u.FlightOf(k);
            && (forall value :: t.outcome == Done && Shown(s, k.namespace, need, value) ==> g == Gathering(f.ver, f.got + [value]))
            && ((t.outcome == Done ==> forall value :: !Shown(s, k.namespace, need, value)) ==>
                  g.Reporting? && ReasonOfRead(need, g.verdict.reason) && FailedWith(g, o, f.ver, o.status.id, g.verdict.reason))
            && (need == Reject("UnsupportedBackupType") ==>
                  g.Reporting? &&
                  g.verdict.message == "backupType WAL_V1 (physical backups) is not supported yet; use PG_DUMP")
  {
    hide WorkOn, Plan;
    var f := s.FlightOf(k);
    var o := s.Obj(k, f.ver);
    var need := Plan(o.spec)[|f.got|];
    Lands(s, k, t);
    ShownIff(s, k.namespace, need);
    hide Landing, Shown, Lookup;
    var found := Lookup(s, k.namespace, need);
    if t.outcome == Done && found.Some? { assert Shown(s, k.namespace, need, found.value); }
  }

  lemma ShownIff(s: State, namespace: string, need: Need)
    ensures forall value :: Shown(s, namespace, need, value) <==> Lookup(s, namespace, need) == Some(value)
  {
  }

  /** A create or update that fails is reported as APISyncFailed under the old ID, and a config save that fails
      with the reason of its stage, under the ID of the database. */
  lemma SaveTells(s: State, k: Key, t: Turn)
    requires t.outcome != Done
    ensures var f, g := s.FlightOf(k), WorkOn(s, k, t).FlightOf(k);
            var o := s.Obj(k, f.Ver());
            && (Saves(s, k) ==> FailedWith(g, o, f.Ver(), o.status.id, "APISyncFailed"))
            && (f.Configuring? && !Blocked(s, k) ==> FailedWith(g, o, f.ver, f.id, "BackupConfigSyncFailed"))
            && (f.Probing? && !Blocked(s, k) ==> FailedWith(g, o, f.ver, f.id, "HealthcheckSyncFailed"))
  {
    hide WorkOn, Plan, Complete;
    if Saves(s, k) {
      SaveLands(s, k, t);
    } else if s.FlightOf(k).Configuring? || s.FlightOf(k).Probing? {
      hide Blocked, Saves;
      Lands(s, k, t);
    }
  }

  /** Member by member, the status to come shows what databasus reports of the database, and what it showed before
      where databasus reports nothing, or the get failed, or there is no such database. */
  lemma RefreshTells(s: State, k: Key, t: Turn)
    requires s.FlightOf(k).Refreshing? && s.Holds(k, s.FlightOf(k).ver)
    ensures var f, g := s.FlightOf(k), WorkOn(s, k, t).FlightOf(k);
            var before, told := s.Obj(k, f.ver).status.vitals, s.ReportOf(f.id);
            var found := t.outcome == Done && Ref(BackupKind, f.id) in s.records;
            && g.Reporting? && g.ver == f.ver && g.verdict.ok && g.verdict.id == f.id
            && g.verdict.vitals.healthStatus ==
               (if found && told.healthStatus.Some? then told.healthStatus.value else before.healthStatus)
            && g.verdict.vitals.lastBackupTime ==
               (if found && told.lastBackupTime.Some? then told.lastBackupTime else before.lastBackupTime)
            && g.verdict.vitals.lastBackupErrorMessage ==
               (if found && told.lastBackupErrorMessage.Some? then told.lastBackupErrorMessage.value
                else before.lastBackupErrorMessage)
  {
    hide WorkOn;
    Lands(s, k, t);
  }

  /** The message of a success. */
  predicate SaysSynced(kind: Kind, text: string) {
    match kind
    case StorageKind => text == "Storage synced to databasus"
    case NotifierKind => text == "Notifier synced to databasus"
    case BackupKind => text == "DatabaseBackup synced to databasus"
  }

  /** A success verdict says so. */
  lemma SuccessTells(kind: Kind, id: string, vitals: Vitals)
    ensures var v := Success(kind, id, vitals);
            v.ok && v.reason == "Synced" && SaysSynced(kind, v.message) && v.id == id && v.vitals == vitals
  {
  }

  /** What the accepted status write leaves: the ID and the vitals of the verdict; the Ready condition with its
      status, reason and text, for the generation that was worked on, which becomes the observed one after a
      success and stays after a failure; and of the object nothing else changes. */
  lemma ReportTells(s: State, k: Key, t: Turn)
    requires var f := s.FlightOf(k); f.Reporting? && s.Holds(k, f.ver) && Accepted(s, k, f.ver, t)
    ensures var f, last := s.FlightOf(k), Last(WorkOn(s, k, t).Versions(k));
            var o := s.Obj(k, f.ver);
            last.Present? &&
            var now := last.Value().status;
            && last.Value() == o.(status := now) && now.id == f.verdict.id && now.vitals == f.verdict.vitals
            && now.observedGeneration == (if f.verdict.ok then o.generation else o.status.observedGeneration)
            && var ready := FindStatusCondition(now.conditions, "Ready");
               && ready.Some? && (ready.value.status == if f.verdict.ok then True else False)
               && ready.value.reason == f.verdict.reason && ready.value.message == f.verdict.message
               && ready.value.observedGeneration == o.generation
  {
    hide WorkOn;
    var f := s.FlightOf(k);
    var o := s.Obj(k, f.ver);
    StatusCommits(s, k, t);
    SetStatusConditionLaws(o.status.conditions,
                           ReadyCondition(if f.verdict.ok then True else False, o.generation, t.now, f.verdict.reason,
                                          f.verdict.message), t.now);
    hide SetStatusCondition, FindStatusCondition;
  }

  /** What is returned to the work queue: after a success a poll in a minute for a DatabaseBackup and nothing for
      the others, or the error of the status write; after a failure a retry in ten seconds for a dependency, none
      for what is unsupported, and in half a minute for everything else, whatever became of the status write. */
  lemma ReturnTells(s: State, k: Key, t: Turn)
    requires s.FlightOf(k).Reporting? && s.Holds(k, s.FlightOf(k).ver)
    ensures var f, g := s.FlightOf(k), WorkOn(s, k, t).FlightOf(k);
            var committed := Accepted(s, k, f.ver, t) && t.outcome == Done;
            g == Returning(f.ver,
              if f.verdict.ok then
                if !committed then Result(0, true) else if k.kind == BackupKind then Result(60, false) else Result(0, false)
              else if f.verdict.reason == "DependencyNotReady" then Result(10, false)
              else if f.verdict.reason == "UnsupportedBackupType" then Result(0, false)
              else Result(30, false))
  {
    hide WorkOn, Accepted;
    Lands(s, k, t);
  }

  // ---------------------------------------------------- finalizers and deletion

  /** The operator's finalizer for objects of this kind is among these. */
  predicate Guarded(kind: Kind, finalizers: seq<string>) {
    match kind
    case StorageKind => "databasus.io/storage-cleanup" in finalizers
    case NotifierKind => "databasus.io/notifier-cleanup" in finalizers
    case BackupKind => "databasus.io/databasebackup-cleanup" in finalizers
  }

  lemma GuardedIff(kind: Kind, finalizers: seq<string>)
    ensures Guarded(kind, finalizers) <==> Finalizer(kind) in finalizers
  {
  }

  /** Where a reconcile goes from its Get: an error is returned, a missing object ends it; a marked object has its
      record deleted, then its finalizer released, and without the finalizer is left alone; any other object
      gets the finalizer, and with it is synchronised. */
  lemma GetTells(s: State, k: Key, t: Turn)
    requires s.FlightOf(k).Idle? && k in s.queued
    ensures var g, seen := WorkOn(s, k, t).FlightOf(k), s.TrackOf(k).seen;
            var o := s.Obj(k, seen);
            g == if t.outcome != Done then Returning(seen, Result(0, true))
                 else if !s.Holds(k, seen) then Returning(seen, Result(0, false))
                 else if o.deleting then
                   if !Guarded(k.kind, o.finalizers) then Returning(seen, Result(0, false))
                   else if o.status.id != "" then Removing(seen) else Detaching(seen)
                 else if !Guarded(k.kind, o.finalizers) then Attaching(seen)
                 else Gathering(seen, [])
  {
    GuardedIff(k.kind, s.Obj(k, s.TrackOf(k).seen).finalizers);
    hide WorkOn, Guarded, Finalizer;
    Lands(s, k, t);
  }

  /** An accepted finalizer write puts the finalizer on, after those already there, or takes it off and leaves the
      others; of the object nothing else changes, unless it was marked and this was its last finalizer. */
  lemma GuardTells(s: State, k: Key, t: Turn)
    requires var f := s.FlightOf(k); (f.Attaching? || f.Detaching?) && s.Holds(k, f.Ver()) && Accepted(s, k, f.Ver(), t)
    ensures var f, last := s.FlightOf(k), Last(WorkOn(s, k, t).Versions(k));
            var o := s.Obj(k, f.Ver());
            && (last.Absent? ==> o.deleting && (f.Detaching? ==> forall other :: other in o.finalizers ==> Guarded(k.kind, [other])))
            && (last.Present? ==>
                  var now := last.Value().finalizers;
                  && last.Value() == o.(finalizers := now) && (Guarded(k.kind, now) <==> f.Attaching?)
                  && (f.Attaching? ==> o.finalizers <= now && |now| <= |o.finalizers| + 1)
                  && (forall other :: !Guarded(k.kind, [other]) ==> (other in now <==> other in o.finalizers)))
  {
    var f := s.FlightOf(k);
    var o := s.Obj(k, f.Ver());
    var after := Rewritten(s, k);
    GuardedIff(k.kind, after.finalizers);
    AddsAtEnd(o.finalizers, Finalizer(k.kind));
    forall other ensures Guarded(k.kind, [other]) <==> Finalizer(k.kind) == other { GuardedIff(k.kind, [other]); }
    hide WorkOn, WriteObject, Guarded, Finalizer, Local;
    ObjectIs(s, k, t);
    WriteObjectEffect(s, k, f.Ver(), after, t);
    if after == o {
    } else {
    }
  }
}
