/** What one reconcile does when its calls succeed: it stays on track, call by call, and ends with its
object synced. And what every call does, whatever its outcome: it brings the reconcile nearer to its end.
*/
module Progress {
  import opened Resources
  import opened Conditions
  import opened Builders
  import opened Requests
  import opened Protocol
  import opened Invariants
  import opened Inductive
  import opened Safety
  import opened Accounting
  import opened Locality
  import opened Calls
  import opened Stages

  // ------------------------------------------------------------------- passes

  /** How many calls, at most, the current flight still makes. */
  function Left(s: State, k: Key): nat {
    match s.FlightOf(k)
    case Idle => 0
    case Returning(_, _) => 1
    case Reporting(_, _) => 2
    case Attaching(_) => 2
    case Detaching(_) => 2
    case Removing(_) => 3
    case Refreshing(_, _) => 3
    case Probing(_, _, _) => 4
    case Configuring(_, _, _) => 5
    case Gathering(ver, got) =>
      if s.Holds(k, ver) && |got| < |Plan(s.Obj(k, ver).spec)| then 6 + |Plan(s.Obj(k, ver).spec)| - |got| else 6
  }

  // ------------------------------------------------ a flight always comes to its end

  lemma Shortens(s: State, k: Key, t: Turn)
    requires Inv(s) && !s.FlightOf(k).Idle?
    ensures Left(WorkOn(s, k, t), k) < Left(s, k)
  {
    hide WorkOn, Inv, Plan, Complete, Found, Accepted, Failure, Success;
    if !s.FlightOf(k).Returning? { FlightHolds(s, k); }
    if Saves(s, k) { CompletePlan(s.Obj(k, s.FlightOf(k).Ver()).spec, s.FlightOf(k).Got()); }
    Lands(s, k, t);
    WorkGrows(s, k, t);
  }

  /** What every call of a flight relies on. */
  lemma FlightHolds(s: State, k: Key)
    requires Inv(s) && !s.FlightOf(k).Idle? && !s.FlightOf(k).Returning?
    ensures var f := s.FlightOf(k);
            && s.Holds(k, f.Ver())
            && (f.Configuring? || f.Probing? ==> s.Obj(k, f.Ver()).spec.ForBackup? && |f.Got()| > 0)
            && (f.Probing? ==> s.Obj(k, f.Ver()).spec.databaseBackup.healthcheck.Some?)
            && (f.Gathering? && !Saves(s, k) ==> |f.Got()| < |Plan(s.Obj(k, f.Ver()).spec)|)
  {
    hide HorizonInv, RemovalInv, MatchInv, OriginInv, WakeInv, OwnInv, GlobalInv, Finalizer, Plan, Later;
    assert KeyInv(s, k);
    var f := s.FlightOf(k);
    assert GoodObject(k.kind, s.Versions(k)[f.Ver()].Value());
    if f.Configuring? || f.Probing? { CompleteBackup(s.Obj(k, f.Ver()).spec.databaseBackup, f.Got()); }
  }

  // ------------------------------------------------------ what a reconcile sees

  /** The current version can be synchronised: it is not marked, and every read of its plan succeeds. */
  ghost predicate Resolvable(s: State, k: Key) {
    var last := Last(s.Versions(k));
    && last.Present? && !last.Value().deleting && last.Value().spec.Kind() == k.kind
    && Readable(s, k.namespace, last.Value().spec)
  }

  ghost predicate Readable(s: State, namespace: string, spec: Spec) {
    forall i :: 0 <= i < |Plan(spec)| ==> Lookup(s, namespace, Plan(spec)[i]).Some?
  }

  /** What the reads of a plan return. */
  function Values(s: State, namespace: string, spec: Spec): (values: seq<string>)
    ensures |values| == |Plan(spec)|
  {
    seq(|Plan(spec)|, i requires 0 <= i < |Plan(spec)| =>
      var found := Lookup(s, namespace, Plan(spec)[i]); if found.Some? then found.value else "")
  }

  /** References go from a DatabaseBackup to a Storage or Notifier. */
  lemma ReferencesGoDown(spec: Spec, i: nat)
    requires i < |Plan(spec)| && Plan(spec)[i].Reference?
    ensures spec.ForBackup? && Plan(spec)[i].kind != BackupKind
  {
    match spec
    case ForStorage(storage) =>
    case ForNotifier(notifier) =>
      if notifier.webhook.Some? { HeadersOnlyRead(notifier.webhook.value.headers); }
    case ForBackup(backup) =>
      var n := |backup.database.notifierRefs|;
      ResolutionOrder(backup);
      if i > n { NoReferenceAfter(backup, i); }
      else if i > 0 { assert Plan(spec)[1 + (i - 1)] == Reference(NotifierKind, backup.database.notifierRefs[i - 1]); }
      hide Plan;
  }

  /** Reads do not depend on what happens to the key itself. */
  lemma SameValues(s: State, u: State, k: Key, spec: Spec)
    requires spec.Kind() == k.kind && u.secrets == s.secrets
    requires forall j :: j != k ==> u.TrackOf(j) == s.TrackOf(j)
    ensures Values(u, k.namespace, spec) == Values(s, k.namespace, spec)
    ensures Readable(s, k.namespace, spec) ==> Readable(u, k.namespace, spec)
  {
    forall i | 0 <= i < |Plan(spec)|
      ensures Lookup(u, k.namespace, Plan(spec)[i]) == Lookup(s, k.namespace, Plan(spec)[i])
    {
      if Plan(spec)[i].Reference? { ReferencesGoDown(spec, i); }
      hide Plan;
    }
    hide Plan, Lookup;
  }

  lemma ReadableIsComplete(s: State, namespace: string, spec: Spec)
    requires Readable(s, namespace, spec)
    ensures Complete(spec, Values(s, namespace, spec))
  {
    hide Plan;
    forall i | 0 <= i < |Plan(spec)| ensures !Plan(spec)[i].Reject? {
      assert Lookup(s, namespace, Plan(spec)[i]).Some?;
    }
  }

  // --------------------------------------------------- a reconcile that will succeed

  ghost predicate RecordIs(s: State, k: Key, spec: Spec, values: seq<string>, id: string) {
    && Complete(spec, values) && Ref(k.kind, id) in s.records
    && s.records[Ref(k.kind, id)] == RequestOf(s.workspace, spec, values).WithId(id)
  }

  ghost predicate ConfigIs(s: State, spec: Spec, values: seq<string>, id: string) {
    && spec.ForBackup? && |values| > 0 && id in s.backupConfigs
    && s.backupConfigs[id] == BackupConfigOf(spec.databaseBackup, id, values[0])
  }

  ghost predicate CheckIs(s: State, spec: Spec, id: string) {
    spec.ForBackup? && spec.databaseBackup.healthcheck.Some? ==>
      id in s.healthchecks && s.healthchecks[id] == HealthcheckOf(spec.databaseBackup.healthcheck.value, id)
  }

  function VitalsOf(s: State, k: Key, o: Object, id: string): Vitals {
    if k.kind == BackupKind then Merge(o.status.vitals, s.ReportOf(id)) else o.status.vitals
  }

  /** The remote side, as far as the flight has got, is what the current inputs call for. */
  ghost predicate DoneSoFar(s: State, k: Key, o: Object, values: seq<string>, f: Flight) {
    && (f.Gathering? ==> |f.Got()| <= |values| && f.Got() == values[..|f.Got()|])
    && (f.Configuring? || f.Probing? || f.Refreshing? ==> k.kind == BackupKind)
    && (f.Configuring? || f.Probing? ==> f.Got() == values)
    && (!f.Gathering? ==>
          && FlightId(f) != "" && (o.status.id != "" ==> FlightId(f) == o.status.id)
          && RecordIs(s, k, o.spec, values, FlightId(f)))
    && (f.Probing? || f.Refreshing? || (f.Reporting? && k.kind == BackupKind) ==> ConfigIs(s, o.spec, values, FlightId(f)))
    && (f.Refreshing? || (f.Reporting? && k.kind == BackupKind) ==> CheckIs(s, o.spec, FlightId(f)))
    && (f.Reporting? ==> f.verdict == Success(k.kind, f.verdict.id, VitalsOf(s, k, o, f.verdict.id)))
  }

  /** The reconcile works on the current version, and nothing has gone wrong. */
  ghost predicate OnTrack(s: State, k: Key) {
    && Resolvable(s, k)
    && Active(s.FlightOf(k)) && s.FlightOf(k).Ver() + 1 == |s.Versions(k)|
    && var o := Last(s.Versions(k)).Value();
       DoneSoFar(s, k, o, Values(s, k.namespace, o.spec), s.FlightOf(k))
  }

  /** The inputs of the key stay the same. */
  ghost predicate SameInputs(s: State, u: State, k: Key) {
    && u.workspace == s.workspace && u.secrets == s.secrets && u.reports == s.reports
    && forall j :: j != k ==> u.TrackOf(j) == s.TrackOf(j)
  }

  lemma StaysOnTrack(s: State, u: State, k: Key)
    requires OnTrack(s, k) && SameInputs(s, u, k) && u.Versions(k) == s.Versions(k)
    requires var o := Last(s.Versions(k)).Value();
             var g := u.FlightOf(k);
             Active(g) && g.Ver() == s.FlightOf(k).Ver() && DoneSoFar(u, k, o, Values(s, k.namespace, o.spec), g)
    ensures OnTrack(u, k)
  {
    hide DoneSoFar, Plan, Lookup, Values, Readable;
    SameValues(s, u, k, Last(s.Versions(k)).Value().spec);
  }

  /** Nothing that belongs to the key, here or at databasus, is changed. */
  ghost predicate Still(s: State, u: State, k: Key) {
    && u.Versions(k) == s.Versions(k) && u.records == s.records && u.backupConfigs == s.backupConfigs
    && u.healthchecks == s.healthchecks && u.issued == s.issued && u.lost == s.lost
  }

  /** The stored object is Ready at its generation, exactly as a fresh reconcile would report it, and the
      remote side is what the current inputs call for. */
  ghost predicate Synced(s: State, k: Key) {
    && Resolvable(s, k)
    && var o := Last(s.Versions(k)).Value();
       var values := Values(s, k.namespace, o.spec);
       && Attached(k.kind, o) && o.status.id != "" && RecordIs(s, k, o.spec, values, o.status.id)
       && (k.kind == BackupKind ==> ConfigIs(s, o.spec, values, o.status.id) && CheckIs(s, o.spec, o.status.id))
       && ReadyAtItsGeneration(o)
       && forall now :: StatusOf(o, Success(k.kind, o.status.id, VitalsOf(s, k, o, o.status.id)), now) == o.status
  }

  /** The object that a flight on track works on, and what it has done. */
  lemma TrackOfFlight(s: State, k: Key) returns (o: Object, values: seq<string>)
    requires OnTrack(s, k)
    ensures var f := s.FlightOf(k);
            && Last(s.Versions(k)) == Present(o) && s.Holds(k, f.Ver()) && s.Obj(k, f.Ver()) == o
            && values == Values(s, k.namespace, o.spec) && |values| == |Plan(o.spec)|
            && Readable(s, k.namespace, o.spec) && Complete(o.spec, values)
            && o.spec.Kind() == k.kind && !o.deleting && DoneSoFar(s, k, o, values, f)
  {
    hide DoneSoFar, Plan, Lookup;
    o := Last(s.Versions(k)).Value();
    values := Values(s, k.namespace, o.spec);
    ReadableIsComplete(s, k.namespace, o.spec);
  }

  lemma GatherStep(s: State, k: Key, t: Turn)
    requires OnTrack(s, k) && s.FlightOf(k).Gathering? && t.outcome == Done
    requires |s.FlightOf(k).Got()| < |Plan(Last(s.Versions(k)).Value().spec)|
    ensures var u := WorkOn(s, k, t); OnTrack(u, k) && Still(s, u, k) && SameInputs(s, u, k)
  {
    hide WorkOn, OnTrack, Plan, Complete, DoneSoFar;
    var o, values := TrackOfFlight(s, k);
    var f := s.FlightOf(k);
    var u := WorkOn(s, k, t);
    var value := NextValue(s, k.namespace, o.spec, |f.Got()|);
    hide Values, Lookup, Readable;
    GatherWorks(s, k, t, value);
    GatherDone(s, u, k, o, values, f.Ver(), f.Got());
    StaysOnTrack(s, u, k);
  }

  lemma NextValue(s: State, namespace: string, spec: Spec, i: nat) returns (value: string)
    requires i < |Plan(spec)| && Readable(s, namespace, spec)
    ensures value == Values(s, namespace, spec)[i] && Lookup(s, namespace, Plan(spec)[i]) == Some(value)
  {
    hide Plan, Lookup;
    value := Values(s, namespace, spec)[i];
  }

  lemma GatherDone(s: State, u: State, k: Key, o: Object, values: seq<string>, ver: nat, got: seq<string>)
    requires |got| < |values| && DoneSoFar(s, k, o, values, Gathering(ver, got))
    ensures DoneSoFar(u, k, o, values, Gathering(ver, got + [values[|got|]]))
  {
  }

  lemma GatherWorks(s: State, k: Key, t: Turn, value: string)
    requires var f := s.FlightOf(k); f.Gathering? && s.Holds(k, f.Ver()) && |f.Got()| < |Plan(s.Obj(k, f.Ver()).spec)|
    requires t.outcome == Done &&
             Lookup(s, k.namespace, Plan(s.Obj(k, s.FlightOf(k).Ver()).spec)[|s.FlightOf(k).Got()|]) == Some(value)
    ensures var f := s.FlightOf(k);
            var u := WorkOn(s, k, t);
            u == s.(readings := u.readings).Fly(k, Gathering(f.Ver(), f.Got() + [value]))
  {
    var f := s.FlightOf(k);
    assert WorkOn(s, k, t) == Gather(s, k, f.Ver(), f.Got(), t) by {
      hide Gather, Plan, CreateRecord, UpdateRecord, Complete;
    }
    hide WorkOn, Plan, Lookup;
  }

  lemma SaveStep(s: State, k: Key, t: Turn)
    requires Inv(s) && OnTrack(s, k) && s.FlightOf(k).Gathering? && t.outcome == Done && Unused(s, k.kind, t.newID)
    requires |s.FlightOf(k).Got()| == |Plan(Last(s.Versions(k)).Value().spec)|
    ensures var u := WorkOn(s, k, t);
            OnTrack(u, k) && SameInputs(s, u, k) && u.Versions(k) == s.Versions(k) && (Synced(s, k) ==> Still(s, u, k))
  {
    hide WorkOn, OnTrack, Plan, Complete, DoneSoFar, Readable, Inv;
    var o, values := TrackOfFlight(s, k);
    var f := s.FlightOf(k);
    assert f.Got() == values by { AllGathered(s, k, o, values, f); }
    hide Values;
    if o.status.id == "" {
      NotSynced(s, k, o);
      CreateStep(s, k, o, values, t);
    } else {
      OwnRecordLives(s, k);
      UpdateStep(s, k, o, values, t);
    }
  }

  lemma NotSynced(s: State, k: Key, o: Object)
    requires Last(s.Versions(k)) == Present(o) && o.status.id == ""
    ensures !Synced(s, k)
  {
    hide Values, RequestOf, Complete, StatusOf, Resolvable, ConfigIs, CheckIs, RecordIs;
  }

  lemma CreateStep(s: State, k: Key, o: Object, values: seq<string>, t: Turn)
    requires OnTrack(s, k) && s.FlightOf(k).Gathering? && s.FlightOf(k).Got() == values
    requires s.Holds(k, s.FlightOf(k).Ver()) && s.Obj(k, s.FlightOf(k).Ver()) == o && Last(s.Versions(k)) == Present(o)
    requires values == Values(s, k.namespace, o.spec) && Complete(o.spec, values)
    requires o.status.id == "" && t.outcome == Done && Unused(s, k.kind, t.newID)
    ensures var u := WorkOn(s, k, t); OnTrack(u, k) && SameInputs(s, u, k) && u.Versions(k) == s.Versions(k)
  {
    hide WorkOn, OnTrack, Plan, Complete, DoneSoFar, Values, RequestOf;
    var f := s.FlightOf(k);
    var u := WorkOn(s, k, t);
    CreateWorks(s, k, f.Ver(), f.Got(), t);
    SaveDone(s, u, k, o, values, f.Ver(), t.newID);
    StaysOnTrack(s, u, k);
  }

  lemma UpdateStep(s: State, k: Key, o: Object, values: seq<string>, t: Turn)
    requires OnTrack(s, k) && s.FlightOf(k).Gathering? && s.FlightOf(k).Got() == values
    requires s.Holds(k, s.FlightOf(k).Ver()) && s.Obj(k, s.FlightOf(k).Ver()) == o && Last(s.Versions(k)) == Present(o)
    requires values == Values(s, k.namespace, o.spec) && Complete(o.spec, values)
    requires o.status.id != "" && t.outcome == Done && Ref(k.kind, o.status.id) in s.records
    ensures var u := WorkOn(s, k, t);
            OnTrack(u, k) && SameInputs(s, u, k) && u.Versions(k) == s.Versions(k) && (Synced(s, k) ==> Still(s, u, k))
  {
    hide WorkOn, OnTrack, Plan, Complete, DoneSoFar, Values, RequestOf;
    var f := s.FlightOf(k);
    var u := WorkOn(s, k, t);
    UpdateWorks(s, k, f.Ver(), f.Got(), t);
    SyncedRecord(s, k, o, values);
    hide Synced;
    SaveDone(s, u, k, o, values, f.Ver(), o.status.id);
    StaysOnTrack(s, u, k);
  }

  lemma AllGathered(s: State, k: Key, o: Object, values: seq<string>, f: Flight)
    requires f.Gathering? && DoneSoFar(s, k, o, values, f) && |f.Got()| == |values|
    ensures f.Got() == values
  {
  }

  lemma OwnRecordLives(s: State, k: Key)
    requires Inv(s) && Active(s.FlightOf(k)) && s.Holds(k, s.FlightOf(k).Ver()) && s.Obj(k, s.FlightOf(k).Ver()).status.id != ""
    ensures Ref(k.kind, s.Obj(k, s.FlightOf(k).Ver()).status.id) in s.records
  {
    hide Inv, FlightMatch;
    FlightOwns(s, k);
    NotDeleted(s, k, s.Obj(k, s.FlightOf(k).Ver()).uid);
  }

  lemma CreateWorks(s: State, k: Key, ver: nat, got: seq<string>, t: Turn)
    requires s.FlightOf(k) == Gathering(ver, got) && s.Holds(k, ver) && Complete(s.Obj(k, ver).spec, got)
    requires s.Obj(k, ver).status.id == "" && t.outcome == Done && Unused(s, k.kind, t.newID)
    ensures var o := s.Obj(k, ver);
            WorkOn(s, k, t) == Created(s, k, o, t.newID, RequestOf(s.workspace, o.spec, got).WithId(t.newID), false,
                                       AfterSave(k, ver, got, t.newID, o))
  {
    hide WorkOn, Complete, RequestOf, AfterSave;
    SaveIs(s, k, t);
  }

  lemma UpdateWorks(s: State, k: Key, ver: nat, got: seq<string>, t: Turn)
    requires s.FlightOf(k) == Gathering(ver, got) && s.Holds(k, ver) && Complete(s.Obj(k, ver).spec, got)
    requires s.Obj(k, ver).status.id != "" && t.outcome == Done && Ref(k.kind, s.Obj(k, ver).status.id) in s.records
    ensures var o := s.Obj(k, ver);
            var r := RequestOf(s.workspace, o.spec, got).WithId(o.status.id);
            WorkOn(s, k, t) ==
            s.(records := s.records[Ref(k.kind, o.status.id) := r]).Fly(k, AfterSave(k, ver, got, o.status.id, o))
  {
    hide WorkOn, Complete, RequestOf, AfterSave;
    SaveIs(s, k, t);
  }

  lemma SyncedRecord(s: State, k: Key, o: Object, values: seq<string>)
    requires Complete(o.spec, values) && o.status.id != "" && Last(s.Versions(k)) == Present(o)
    requires values == Values(s, k.namespace, o.spec)
    ensures Synced(s, k) ==>
              var ref := Ref(k.kind, o.status.id);
              ref in s.records && s.records[ref := RequestOf(s.workspace, o.spec, values).WithId(o.status.id)] == s.records
  {
    hide Values, RequestOf, Complete, StatusOf, Resolvable, ConfigIs, CheckIs;
  }

  lemma SaveDone(s: State, u: State, k: Key, o: Object, values: seq<string>, ver: nat, id: string)
    requires id != "" && (o.status.id != "" ==> id == o.status.id) && Complete(o.spec, values) && u.workspace == s.workspace
    requires Ref(k.kind, id) in u.records
    requires u.records[Ref(k.kind, id)] == RequestOf(s.workspace, o.spec, values).WithId(id)
    ensures DoneSoFar(u, k, o, values, AfterSave(k, ver, values, id, o))
  {
    hide RequestOf, Complete;
  }

  lemma ConfigureStep(s: State, k: Key, t: Turn)
    requires Inv(s) && OnTrack(s, k) && s.FlightOf(k).Configuring? && t.outcome == Done
    ensures var u := WorkOn(s, k, t);
            OnTrack(u, k) && SameInputs(s, u, k) && u.Versions(k) == s.Versions(k) && (Synced(s, k) ==> Still(s, u, k))
  {
    hide WorkOn, OnTrack, Plan, Complete, Readable, DoneSoFar, Inv, BackupConfigOf;
    var o, values := TrackOfFlight(s, k);
    var f := s.FlightOf(k);
    FlightHolds(s, k);
    ConfiguringFacts(s, k, o, values, f);
    var u := WorkOn(s, k, t);
    hide Values;
    ConfigureWorks(s, k, f.Ver(), f.Got(), f.id, t);
    SyncedConfig(s, k, o, values, f.id);
    hide Synced;
    ConfigureDone(s, u, k, o, values, f, u.FlightOf(k));
    StaysOnTrack(s, u, k);
  }

  lemma ConfiguringFacts(s: State, k: Key, o: Object, values: seq<string>, f: Flight)
    requires (f.Configuring? || f.Probing? || f.Refreshing?) && DoneSoFar(s, k, o, values, f)
    ensures k.kind == BackupKind && f.id != "" && Ref(BackupKind, f.id) in s.records
    ensures f.Configuring? || f.Probing? ==> f.Got() == values
    ensures o.status.id != "" ==> f.id == o.status.id
  {
  }

  lemma ConfigureWorks(s: State, k: Key, ver: nat, got: seq<string>, id: string, t: Turn)
    requires s.FlightOf(k) == Configuring(ver, got, id) && s.Holds(k, ver) && s.Obj(k, ver).spec.ForBackup? && |got| > 0
    requires t.outcome == Done && Ref(BackupKind, id) in s.records
    ensures var spec := s.Obj(k, ver).spec.databaseBackup;
            WorkOn(s, k, t) ==
            s.(backupConfigs := s.backupConfigs[id := BackupConfigOf(spec, id, got[0])])
             .Fly(k, if spec.healthcheck.Some? then Probing(ver, got, id) else Refreshing(ver, id))
  {
    WorkIs(s, k, t);
    hide WorkOn, BackupConfigOf;
  }

  lemma SyncedConfig(s: State, k: Key, o: Object, values: seq<string>, id: string)
    requires k.kind == BackupKind && o.spec.ForBackup? && |values| > 0 && Last(s.Versions(k)) == Present(o)
    requires values == Values(s, k.namespace, o.spec) && (o.status.id != "" ==> id == o.status.id)
    ensures Synced(s, k) ==>
              var spec := o.spec.databaseBackup;
              && s.backupConfigs[id := BackupConfigOf(spec, id, values[0])] == s.backupConfigs
              && (spec.healthcheck.Some? ==>
                    s.healthchecks[id := HealthcheckOf(spec.healthcheck.value, id)] == s.healthchecks)
  {
    hide Values, RecordIs, StatusOf, Resolvable, BackupConfigOf, HealthcheckOf;
  }

  lemma ConfigureDone(s: State, u: State, k: Key, o: Object, values: seq<string>, f: Flight, g: Flight)
    requires f.Configuring? && DoneSoFar(s, k, o, values, f) && o.spec.ForBackup? && |values| > 0
    requires u.workspace == s.workspace && u.records == s.records && k.kind == BackupKind
    requires f.id in u.backupConfigs && u.backupConfigs[f.id] == BackupConfigOf(o.spec.databaseBackup, f.id, values[0])
    requires g == if o.spec.databaseBackup.healthcheck.Some? then Probing(f.Ver(), f.Got(), f.id) else Refreshing(f.Ver(), f.id)
    ensures DoneSoFar(u, k, o, values, g)
  {
    hide RequestOf, Complete, BackupConfigOf;
  }

  lemma ProbeStep(s: State, k: Key, t: Turn)
    requires Inv(s) && OnTrack(s, k) && s.FlightOf(k).Probing? && t.outcome == Done
    ensures var u := WorkOn(s, k, t);
            OnTrack(u, k) && SameInputs(s, u, k) && u.Versions(k) == s.Versions(k) && (Synced(s, k) ==> Still(s, u, k))
  {
    hide WorkOn, OnTrack, Plan, Complete, Readable, DoneSoFar, Inv, HealthcheckOf;
    var o, values := TrackOfFlight(s, k);
    var f := s.FlightOf(k);
    FlightHolds(s, k);
    ConfiguringFacts(s, k, o, values, f);
    var u := WorkOn(s, k, t);
    hide Values;
    ProbeWorks(s, k, f.Ver(), f.Got(), f.id, t);
    SyncedConfig(s, k, o, values, f.id);
    hide Synced;
    ProbeDone(s, u, k, o, values, f);
    StaysOnTrack(s, u, k);
  }

  lemma ProbeWorks(s: State, k: Key, ver: nat, got: seq<string>, id: string, t: Turn)
    requires s.FlightOf(k) == Probing(ver, got, id) && s.Holds(k, ver) && s.Obj(k, ver).spec.ForBackup?
    requires s.Obj(k, ver).spec.databaseBackup.healthcheck.Some?
    requires t.outcome == Done && Ref(BackupKind, id) in s.records
    ensures var check := HealthcheckOf(s.Obj(k, ver).spec.databaseBackup.healthcheck.value, id);
            WorkOn(s, k, t) == s.(healthchecks := s.healthchecks[id := check]).Fly(k, Refreshing(ver, id))
  {
    WorkIs(s, k, t);
    hide WorkOn, HealthcheckOf;
  }

  lemma ProbeDone(s: State, u: State, k: Key, o: Object, values: seq<string>, f: Flight)
    requires f.Probing? && DoneSoFar(s, k, o, values, f) && o.spec.ForBackup? && o.spec.databaseBackup.healthcheck.Some?
    requires u.workspace == s.workspace && u.records == s.records && u.backupConfigs == s.backupConfigs
    requires f.id in u.healthchecks &&
             u.healthchecks[f.id] == HealthcheckOf(o.spec.databaseBackup.healthcheck.value, f.id)
    ensures DoneSoFar(u, k, o, values, Refreshing(f.Ver(), f.id))
  {
    hide RequestOf, Complete, BackupConfigOf, HealthcheckOf;
  }

  lemma RefreshStep(s: State, k: Key, t: Turn)
    requires Inv(s) && OnTrack(s, k) && s.FlightOf(k).Refreshing? && t.outcome == Done
    ensures var u := WorkOn(s, k, t); OnTrack(u, k) && SameInputs(s, u, k) && Still(s, u, k)
  {
    hide WorkOn, OnTrack, Plan, Complete, Readable, DoneSoFar, Inv, Merge;
    var o, values := TrackOfFlight(s, k);
    var f := s.FlightOf(k);
    ConfiguringFacts(s, k, o, values, f);
    var u := WorkOn(s, k, t);
    hide Values;
    RefreshWorks(s, k, f.Ver(), f.id, t);
    RefreshDone(s, u, k, o, values, f);
    StaysOnTrack(s, u, k);
  }

  lemma RefreshWorks(s: State, k: Key, ver: nat, id: string, t: Turn)
    requires s.FlightOf(k) == Refreshing(ver, id) && s.Holds(k, ver)
    requires t.outcome == Done && Ref(BackupKind, id) in s.records
    ensures var vitals := Merge(s.Obj(k, ver).status.vitals, s.ReportOf(id));
            WorkOn(s, k, t) == s.Fly(k, Reporting(ver, Success(k.kind, id, vitals)))
  {
    WorkIs(s, k, t);
    hide WorkOn, Merge;
  }

  lemma RefreshDone(s: State, u: State, k: Key, o: Object, values: seq<string>, f: Flight)
    requires f.Refreshing? && DoneSoFar(s, k, o, values, f) && k.kind == BackupKind
    requires u.workspace == s.workspace && u.records == s.records && u.backupConfigs == s.backupConfigs
    requires u.healthchecks == s.healthchecks && u.reports == s.reports
    ensures DoneSoFar(u, k, o, values, Reporting(f.Ver(), Success(k.kind, f.id, Merge(o.status.vitals, s.ReportOf(f.id)))))
  {
    hide RequestOf, Complete, BackupConfigOf, HealthcheckOf, Merge;
  }

  lemma MergedTwice(vitals: Vitals, report: Report)
    ensures Merge(Merge(vitals, report), report) == Merge(vitals, report)
  {
  }

  lemma ReportStep(s: State, k: Key, t: Turn)
    requires Inv(s) && OnTrack(s, k) && s.FlightOf(k).Reporting? && t.outcome == Done
    ensures var u := WorkOn(s, k, t);
            && u.FlightOf(k).Returning? && Synced(u, k) && SameInputs(s, u, k) && (Synced(s, k) ==> Still(s, u, k))
            && SameBut(s, u, k)
  {
    hide WorkOn, OnTrack, Plan, Complete, Readable, DoneSoFar, Inv, Merge, StatusOf, VitalsOf, Values, Synced;
    var o, values := TrackOfFlight(s, k);
    var f := s.FlightOf(k);
    var u := WorkOn(s, k, t);
    assert f.Ver() + 1 == |s.Versions(k)| by { TrackIsLast(s, k); }
    assert Attached(k.kind, o) by { ActiveProtected(s, k); }
    StillUnwritten(s, k, o, values, f);
    ReportLeaves(s, k, o, f.verdict, t);
    hide Still, SameInputs, SameBut;
    SyncedNow(s, u, k, o, values, f, t.now);
  }

  /** What the write of a verdict on the current version leaves. */
  lemma ReportLeaves(s: State, k: Key, o: Object, verdict: Verdict, t: Turn)
    requires |s.Versions(k)| > 0 && s.FlightOf(k) == Reporting(|s.Versions(k)| - 1, verdict)
    requires Last(s.Versions(k)) == Present(o) && t.outcome == Done
    ensures var u := WorkOn(s, k, t);
            && u.FlightOf(k).Returning? && SameInputs(s, u, k) && SameBut(s, u, k)
            && Last(u.Versions(k)) == Present(o.(status := StatusOf(o, verdict, t.now)))
            && (StatusOf(o, verdict, t.now) == o.status ==> Still(s, u, k))
  {
    hide WorkOn, StatusOf, ResultOf;
    ReportWorks(s, k, |s.Versions(k)| - 1, verdict, t);
    if StatusOf(o, verdict, t.now) == o.status {
    } else {
    }
  }

  /** The flight, the queue and the history of `k` are all that may differ. */
  ghost predicate SameBut(s: State, u: State, k: Key) {
    u == s.(flights := u.flights, tracks := u.tracks)
  }

  lemma TrackIsLast(s: State, k: Key)
    requires OnTrack(s, k)
    ensures s.FlightOf(k).Ver() + 1 == |s.Versions(k)|
  {
    hide DoneSoFar, Plan, Lookup, Resolvable, Values;
  }

  lemma ReportWorks(s: State, k: Key, ver: nat, verdict: Verdict, t: Turn)
    requires s.FlightOf(k) == Reporting(ver, verdict) && s.Holds(k, ver) && ver + 1 == |s.Versions(k)| && t.outcome == Done
    ensures var o := s.Obj(k, ver);
            var done := o.(status := StatusOf(o, verdict, t.now));
            WorkOn(s, k, t) ==
            (if done.status == o.status then s else s.Push(k, Present(done))).Fly(k, Returning(ver, ResultOf(k.kind, verdict, true)))
  {
    WorkIs(s, k, t);
    hide WorkOn, StatusOf, ResultOf, Abandon;
  }

  lemma StillUnwritten(s: State, k: Key, o: Object, values: seq<string>, f: Flight)
    requires f.Reporting? && DoneSoFar(s, k, o, values, f) && Last(s.Versions(k)) == Present(o)
    ensures Synced(s, k) ==> forall now :: StatusOf(o, f.verdict, now) == o.status
  {
    hide RecordIs, ConfigIs, CheckIs, StatusOf, VitalsOf, Resolvable, Values, Success;
  }

  lemma SyncedNow(s: State, u: State, k: Key, o: Object, values: seq<string>, f: Flight, now: int)
    requires f.Reporting? && DoneSoFar(s, k, o, values, f) && values == Values(s, k.namespace, o.spec)
    requires Readable(s, k.namespace, o.spec) && o.spec.Kind() == k.kind && !o.deleting && Attached(k.kind, o)
    requires SameInputs(s, u, k) && SameBut(s, u, k)
    requires Last(u.Versions(k)) == Present(o.(status := StatusOf(o, f.verdict, now)))
    ensures Synced(u, k)
  {
    hide Plan, Lookup, Complete, RequestOf, BackupConfigOf, HealthcheckOf, StatusOf, Success, Merge, IsReady, Values;
    var id := f.verdict.id;
    var vitals := VitalsOf(s, k, o, id);
    var done := o.(status := StatusOf(o, f.verdict, now));
    forall later ensures StatusOf(done, Success(k.kind, id, vitals), later) == done.status {
      ReportedTwice(k.kind, o, id, vitals, now, later);
    }
    ReportedTwice(k.kind, o, id, vitals, now, now);
    MergedTwice(o.status.vitals, s.ReportOf(id));
    assert VitalsOf(u, k, done, id) == vitals;
    SameValues(s, u, k, o.spec);
  }

  // -------------------------------------------------------- one reconcile, whole

  /** What was synced and has not been touched is synced. */
  lemma SyncedStays(s: State, u: State, k: Key)
    requires Synced(s, k) && Still(s, u, k) && SameInputs(s, u, k)
    ensures Synced(u, k)
  {
    hide Plan, Lookup, Complete, RequestOf, BackupConfigOf, HealthcheckOf, StatusOf, Success, Merge, IsReady, Values, Readable;
    var o := Last(s.Versions(k)).Value();
    SameValues(s, u, k, o.spec);
    assert VitalsOf(u, k, o, o.status.id) == VitalsOf(s, k, o, o.status.id);
  }

  ghost predicate Arrived(s: State, k: Key) { s.FlightOf(k).Returning? && Synced(s, k) }

  lemma TrackStep(s: State, k: Key, t: Turn)
    requires Inv(s) && OnTrack(s, k) && t.outcome == Done && Unused(s, k.kind, t.newID)
    ensures var u := WorkOn(s, k, t);
            && (OnTrack(u, k) || Arrived(u, k)) && SameInputs(s, u, k)
            && (Synced(s, k) ==> Still(s, u, k) && Synced(u, k))
  {
    var f := s.FlightOf(k);
    assert Active(f);
    hide WorkOn, OnTrack, Plan, Inv, Synced, Still, SameInputs;
    if f.Gathering? {
      if |f.Got()| < |Plan(Last(s.Versions(k)).Value().spec)| { GatherStep(s, k, t); }
      else {
        GotAll(s, k);
        SaveStep(s, k, t);
      }
    }
    else if f.Configuring? { ConfigureStep(s, k, t); }
    else if f.Probing? { ProbeStep(s, k, t); }
    else if f.Refreshing? { RefreshStep(s, k, t); }
    else { ReportStep(s, k, t); }
    if Synced(s, k) { SyncedStays(s, WorkOn(s, k, t), k); }
  }

  lemma GotAll(s: State, k: Key)
    requires OnTrack(s, k) && s.FlightOf(k).Gathering?
    ensures |s.FlightOf(k).Got()| <= |Plan(Last(s.Versions(k)).Value().spec)|
  {
    hide Plan, Lookup, Resolvable;
  }

  lemma TrackFlies(s: State, k: Key)
    requires OnTrack(s, k) || Arrived(s, k)
    ensures !s.FlightOf(k).Idle?
  {
    hide DoneSoFar, Plan, Lookup, Resolvable, Values, Synced;
  }

  lemma FetchWorks(s: State, k: Key, t: Turn)
    requires s.FlightOf(k).Idle? && k in s.queued && t.outcome == Done
    requires s.Holds(k, s.TrackOf(k).seen) && !s.Obj(k, s.TrackOf(k).seen).deleting
    ensures var seen := s.TrackOf(k).seen;
            WorkOn(s, k, t) == s.(queued := s.queued - {k})
                                .Fly(k, if Attached(k.kind, s.Obj(k, seen)) then Gathering(seen, []) else Attaching(seen))
  {
    hide Remove, WriteObject, Gather, CreateRecord, UpdateRecord, Configure, Probe, Refresh, WriteStatus, Complete,
         Plan, Finalizer;
  }

  lemma AttachWorks(s: State, k: Key, t: Turn)
    requires |s.Versions(k)| > 0 && s.FlightOf(k) == Attaching(|s.Versions(k)| - 1) && t.outcome == Done
    requires Last(s.Versions(k)).Present? && !Last(s.Versions(k)).Value().deleting &&
      !Attached(k.kind, Last(s.Versions(k)).Value())
    ensures var u := WorkOn(s, k, t);
            var o := Last(s.Versions(k)).Value();
            && SameInputs(s, u, k) && u.FlightOf(k).Returning? && |u.Versions(k)| == |s.Versions(k)| + 1
            && Last(u.Versions(k)) == Present(o.(finalizers := AddFinalizer(o.finalizers, Finalizer(k.kind))))
  {
    hide Finalizer;
  }

  // ----------------------------------------------- finishing what is under way

  /** Whatever a worker does, it does not make a resolvable object unresolvable: it neither marks
      nor replaces it, and leaves its spec alone. */
  lemma StaysResolvable(s: State, k: Key, t: Turn)
    requires Inv(s) && Resolvable(s, k) && !s.FlightOf(k).Idle?
    ensures var u := WorkOn(s, k, t); Resolvable(u, k) && SameInputs(s, u, k)
  {
    var f := s.FlightOf(k);
    var o := Last(s.Versions(k)).Value();
    WorkInputs(s, k, t);
    hide WorkOn, Inv, Saves, Plan, Lookup, Values, Readable;
    SpecStays(s, k, t);
    SameValues(s, WorkOn(s, k, t), k, o.spec);
  }

  lemma WorkInputs(s: State, k: Key, t: Turn)
    requires Inv(s) && !s.FlightOf(k).Idle?
    ensures SameInputs(s, WorkOn(s, k, t), k)
  {
    hide WorkOn, Inv, Saves;
    InvTrack(s, k);
    WorkLocal(s, k, t);
    forall j | j != k ensures WorkOn(s, k, t).TrackOf(j) == s.TrackOf(j) { LocalMeans(s, WorkOn(s, k, t), k, j); }
    if Saves(s, k) { var ref := SavesUnder(s, k, t); } else { Footprints(s, k, t); }
  }

  /** The last version is the same object, with the same spec and no mark. */
  ghost predicate SameSpec(a: Version, b: Version) {
    a.Present? && b.Present? && b.Value().spec == a.Value().spec && b.Value().uid == a.Value().uid &&
      b.Value().deleting == a.Value().deleting
  }

  lemma SpecStays(s: State, k: Key, t: Turn)
    requires Inv(s) && Last(s.Versions(k)).Present? && !Last(s.Versions(k)).Value().deleting && !s.FlightOf(k).Idle?
    ensures SameSpec(Last(s.Versions(k)), Last(WorkOn(s, k, t).Versions(k)))
  {
    hide WorkOn, Inv, Saves;
    var f := s.FlightOf(k);
    if Saves(s, k) { var ref := SavesUnder(s, k, t); }
    else if f.Attaching? || f.Detaching? || f.Reporting? {
      FlightHolds(s, k);
      DetachingMarked(s, k);
      if f.Reporting? { StatusSpec(s, k, t); } else { ObjectSpec(s, k, t); }
    } else { Footprints(s, k, t); }
  }

  lemma DetachingMarked(s: State, k: Key)
    requires Inv(s)
    ensures var f := s.FlightOf(k); f.Detaching? && s.Holds(k, f.Ver()) ==> s.Obj(k, f.Ver()).deleting
  {
    hide HorizonInv, RemovalInv, MatchInv, OriginInv, WakeInv, OwnInv, GlobalInv, Finalizer, Plan, Later, GoodObject;
    assert KeyInv(s, k);
  }

  lemma StatusSpec(s: State, k: Key, t: Turn)
    requires s.FlightOf(k).Reporting? && s.Holds(k, s.FlightOf(k).Ver())
    requires Last(s.Versions(k)).Present?
    ensures SameSpec(Last(s.Versions(k)), Last(WorkOn(s, k, t).Versions(k)))
  {
    hide WorkOn, WriteStatus, StatusOf, ResultOf, Local;
    var f := s.FlightOf(k);
    WorkIs(s, k, t);
    WriteStatusEffect(s, k, f.Ver(), f.verdict, t);
  }

  lemma ObjectSpec(s: State, k: Key, t: Turn)
    requires var f := s.FlightOf(k); (f.Attaching? || f.Detaching?) && s.Holds(k, f.Ver())
    requires s.FlightOf(k).Detaching? ==> s.Obj(k, s.FlightOf(k).Ver()).deleting
    requires Last(s.Versions(k)).Present? && !Last(s.Versions(k)).Value().deleting
    ensures SameSpec(Last(s.Versions(k)), Last(WorkOn(s, k, t).Versions(k)))
  {
    hide WorkOn, WriteObject, Finalizer, AddFinalizer, RemoveFinalizer, Local;
    ObjectIs(s, k, t);
    WriteObjectEffect(s, k, s.FlightOf(k).Ver(), Rewritten(s, k), t);
  }

  lemma NotMarked(s: State, k: Key)
    requires Resolvable(s, k)
    ensures Last(s.Versions(k)).Present? && !Last(s.Versions(k)).Value().deleting
  {
  }

  lemma SyncedIs(s: State, k: Key)
    requires Synced(s, k)
    ensures Resolvable(s, k) && Last(s.Versions(k)).Present?
    ensures Attached(k.kind, Last(s.Versions(k)).Value()) && ReadyAtItsGeneration(Last(s.Versions(k)).Value())
  {
  }

  lemma RemoveWorks(s: State, k: Key, t: Turn, o: Object)
    requires |s.Versions(k)| > 0 && Last(s.Versions(k)) == Present(o) && s.FlightOf(k) == Removing(|s.Versions(k)| - 1)
    requires t.outcome == Done
    ensures var u := WorkOn(s, k, t);
            && u.Versions(k) == s.Versions(k) && u.FlightOf(k) == Detaching(|s.Versions(k)| - 1)
            && Ref(k.kind, o.status.id) !in u.records
  {
  }

  lemma DetachWorks(s: State, k: Key, t: Turn, o: Object)
    requires |s.Versions(k)| > 0 && Last(s.Versions(k)) == Present(o) && s.FlightOf(k) == Detaching(|s.Versions(k)| - 1)
    requires t.outcome == Done && o.deleting && Attached(k.kind, o)
    ensures var u := WorkOn(s, k, t);
            && u.FlightOf(k).Returning? && u.records == s.records && |u.Versions(k)| == |s.Versions(k)| + 1
            && Released(k.kind, o, Last(u.Versions(k)))
  {
    hide WorkOn, WriteObject, Finalizer, Local;
    var ver := |s.Versions(k)| - 1;
    ObjectIs(s, k, t);
    WriteObjectEffect(s, k, ver, Rewritten(s, k), t);
    assert !Attached(k.kind, Rewritten(s, k)) && Rewritten(s, k) != o;
    hide RemoveFinalizer;
  }

  // ------------------------------------------------------------ runs one after another

  lemma {:induction false} RunConcat(s: State, a: seq<Event>, b: seq<Event>)
    ensures Run(s, a + b) == Run(Run(s, a), b)
  {
    hide Apply;
    if b == [] {
      assert a + b == a;
    } else {
      RunConcat(s, a, b[..|b| - 1]);
      assert (a + b)[..|a + b| - 1] == a + b[..|b| - 1];
    }
  }

  lemma RunOne(s: State, e: Event)
    ensures Run(s, [e]) == Apply(s, e)
  {
    hide Apply;
    assert [e][..0] == [];
  }

  lemma {:induction false} RunGrows(s: State, events: seq<Event>, k: Key)
    requires Inv(s)
    ensures s.Versions(k) <= Run(s, events).Versions(k)
  {
    hide Inv, Apply;
    if events != [] {
      RunGrows(s, events[..|events| - 1], k);
      RunKeeps(s, events[..|events| - 1]);
      VersionsGrow(Run(s, events[..|events| - 1]), events[|events| - 1], k);
    }
  }

  lemma IssuedStays(s: State, e: Event, ref: Ref)
    requires ref in s.issued
    ensures ref in Apply(s, e).issued && Apply(s, e).issued[ref] == s.issued[ref]
  {
    hide WorkOn, Abandon, Saves;
    if IsUserEvent(e) { UserEffect(s, e); }
    else if e.Crash? { AbandonEffect(s, e.key); }
    else if e.Work? {
      if Saves(s, e.key) { var saved := SavesUnder(s, e.key, e.turn); } else { Footprints(s, e.key, e.turn); }
    }
  }
}
