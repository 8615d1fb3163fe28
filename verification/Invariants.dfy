/** What every reachable state satisfies. The invariant has one part per subject; `Inductive`
proves that no event breaks it, whatever the interleaving.
*/
module Invariants {
  import opened Resources
  import opened Conditions
  import opened Builders
  import opened Protocol

  // ---------------------------------------------------- history of one object

  ghost predicate SameObject(a: Version, b: Version) {
    a.Present? && b.Present? && a.Value().uid == b.Value().uid
  }

  predicate Attached(kind: Kind, o: Object) { Finalizer(kind) in o.finalizers }

  ghost predicate GoodCondition(o: Object, c: Condition) {
    && c.conditionType == "Ready" && c.status != Unknown
    && o.status.observedGeneration <= c.observedGeneration <= o.generation
    && (c.status == True ==>
          c.observedGeneration == o.status.observedGeneration && o.status.id != "" && c.reason == SYNCED)
  }

  ghost predicate GoodObject(kind: Kind, o: Object) {
    && o.spec.Kind() == kind && o.generation > 0
    && o.status.observedGeneration <= o.generation
    && (o.deleting ==> o.status.observedGeneration < o.generation)
    && (o.status.id != "" ==> Attached(kind, o) || o.deleting)
    && (o.status.conditions == [] ==> o.status == EMPTY_STATUS)
    && |o.status.conditions| <= 1
    && (forall c :: c in o.status.conditions ==> GoodCondition(o, c))
  }

  /** `b` is a later version of the object `a`. */
  ghost predicate Later(kind: Kind, a: Object, b: Object) {
    && a.generation <= b.generation
    && (a.generation == b.generation ==> a.spec == b.spec && a.deleting == b.deleting)
    && (a.deleting ==> b.deleting && b.status == a.status)
    && (a.deleting && !Attached(kind, a) ==> !Attached(kind, b))
    && (Attached(kind, a) ==> Attached(kind, b) || b.deleting)
    && (a.status.id != "" ==> b.status.id == a.status.id)
    && a.status.observedGeneration <= b.status.observedGeneration
  }

  ghost predicate Shape(kind: Kind, versions: seq<Version>) {
    && |versions| > 0 && versions[0] == Absent
    && (forall i :: 0 <= i < |versions| && versions[i].Present? ==>
          0 < versions[i].Value().uid <= i && GoodObject(kind, versions[i].Value()))
    && (forall i, j :: 0 <= i <= j < |versions| && SameObject(versions[i], versions[j]) ==>
          Later(kind, versions[i].Value(), versions[j].Value()))
    // The versions of one object are consecutive; its uid is the index of the first one.
    && (forall i, j :: 0 <= i <= j < |versions| && versions[j].Present? && versions[j].Value().uid <= i ==>
          SameObject(versions[i], versions[j]))
  }

  ghost predicate Appendable(kind: Kind, versions: seq<Version>, v: Version) {
    v.Absent? ||
    (GoodObject(kind, v.Value()) &&
     if Last(versions).Present? then
       v.Value().uid == Last(versions).Value().uid && Later(kind, Last(versions).Value(), v.Value())
     else v.Value().uid == |versions|)
  }

  lemma Append(kind: Kind, versions: seq<Version>, v: Version)
    requires Shape(kind, versions) && Appendable(kind, versions, v)
    ensures Shape(kind, versions + [v])
  {
    hide GoodObject, Later;
    var all, n := versions + [v], |versions|;
    assert Last(versions) == versions[n - 1];
    forall i, j | 0 <= i <= j < n + 1 && SameObject(all[i], all[j]) ensures Later(kind, all[i].Value(), all[j].Value()) {
      if j == n {
        LaterSelf(kind, v.Value());
        if i < n {
          assert SameObject(versions[i], versions[n - 1]);
          LaterChain(kind, versions[i].Value(), versions[n - 1].Value(), v.Value());
        }
      }
    }
  }

  lemma LaterSelf(kind: Kind, a: Object)
    ensures Later(kind, a, a)
  {
  }

  lemma LaterChain(kind: Kind, a: Object, b: Object, c: Object)
    requires Later(kind, a, b) && Later(kind, b, c)
    ensures Later(kind, a, c)
  {
    hide Finalizer;
  }

  // ------------------------------------------------------------ readings

  ghost predicate ReadBy(s: State, k: Key, o: Object, got: seq<string>) {
    && |got| <= |Plan(o.spec)|
    && (forall i :: 0 <= i < |got| ==> !Plan(o.spec)[i].Reject?)
    && (forall i :: 0 <= i < |got| ==>
          Read(Owner(k, o.uid), o.generation, i, Plan(o.spec)[i], got[i]) in s.readings)
  }

  // ------------------------------------ the remote side agrees with an object

  /** The record is the request of this spec for values that reconciles of this generation read. */
  ghost predicate RecordMatches(s: State, k: Key, o: Object, id: string) {
    Ref(k.kind, id) in s.records &&
    exists got :: Complete(o.spec, got) && ReadBy(s, k, o, got) &&
                  s.records[Ref(k.kind, id)] == RequestOf(s.workspace, o.spec, got).WithId(id)
  }

  ghost predicate ConfigMatches(s: State, k: Key, o: Object, id: string) {
    o.spec.ForBackup? && id in s.backupConfigs &&
    var spec := o.spec.databaseBackup;
    exists sid ::
      && Read(Owner(k, o.uid), o.generation, 0, Reference(StorageKind, spec.backup.storageRef), sid) in s.readings
      && s.backupConfigs[id] == BackupConfigOf(spec, id, sid)
  }

  ghost predicate HealthcheckMatches(s: State, o: Object, id: string) {
    o.spec.ForBackup? &&
    var spec := o.spec.databaseBackup;
    spec.healthcheck.Some? ==>
      id in s.healthchecks && s.healthchecks[id] == HealthcheckOf(spec.healthcheck.value, id)
  }

  ghost predicate RemoteMatches(s: State, k: Key, o: Object, id: string) {
    && RecordMatches(s, k, o, id)
    && (o.spec.ForBackup? ==> ConfigMatches(s, k, o, id) && HealthcheckMatches(s, o, id))
  }

  ghost predicate ReadyAtItsGeneration(o: Object) {
    IsReady(o.status.conditions) && o.status.observedGeneration == o.generation
  }

  // ------------------------------------------------------------- the flight

  /** The flight is past the finalizer checks and works towards a status write. */
  predicate Active(f: Flight) {
    f.Gathering? || f.Configuring? || f.Probing? || f.Refreshing? || f.Reporting?
  }

  function FlightId(f: Flight): string {
    match f
    case Configuring(_, _, id) => id
    case Probing(_, _, id) => id
    case Refreshing(_, id) => id
    case Reporting(_, verdict) => verdict.id
    case _ => ""
  }

  ghost predicate Physical(o: Object) {
    o.spec.ForBackup? && WantsPhysicalBackups(o.spec.databaseBackup.database)
  }

  ghost predicate FlightInv(s: State, k: Key) {
    var f := s.FlightOf(k);
    var versions := s.Versions(k);
    f.Idle? ||
    (&& f.Ver() <= s.TrackOf(k).seen < |versions|
     && (f.Ver() < s.TrackOf(k).seen ==> k in s.queued)
     && (f.Returning? || WorkInv(s, k, f, versions)))
  }

  ghost predicate WorkInv(s: State, k: Key, f: Flight, versions: seq<Version>)
    requires !f.Idle? && f.Ver() < |versions|
  {
    && versions[f.Ver()].Present?
    && var o := versions[f.Ver()].Value();
       && (f.Removing? ==> o.deleting && Attached(k.kind, o) && o.status.id != "")
       && (f.Detaching? ==>
             o.deleting && Attached(k.kind, o) && (o.status.id != "" ==> Ref(k.kind, o.status.id) !in s.records))
       && (f.Attaching? ==> !o.deleting && !Attached(k.kind, o))
       && (Active(f) ==>
             && !o.deleting && Attached(k.kind, o)
             && SameObject(versions[f.Ver()], Last(versions)) && Attached(k.kind, Last(versions).Value())
             && (o.status.id != "" && !f.Gathering? ==> FlightId(f) == o.status.id)
             && (FlightId(f) != "" ==>
                   Ref(k.kind, FlightId(f)) in s.issued && s.issued[Ref(k.kind, FlightId(f))] == Owner(k, o.uid)))
       && (f.Gathering? ==> ReadBy(s, k, o, f.Got()))
       && (f.Configuring? || f.Probing? || f.Refreshing? ==> f.id != "" && k.kind == BackupKind)
       && (f.Configuring? || f.Probing? ==> Complete(o.spec, f.Got()) && ReadBy(s, k, o, f.Got()))
       && (f.Probing? ==> o.spec.ForBackup? && o.spec.databaseBackup.healthcheck.Some?)
       && (f.Reporting? ==>
             && (f.verdict.ok ==> f.verdict.id != "" && f.verdict.reason == SYNCED)
             && (!f.verdict.ok && f.verdict.reason == UNSUPPORTED ==> Physical(o)))
  }

  /** How far the worker has certainly seen: the version it holds, or else what the cache shows. */
  function Horizon(s: State, k: Key): nat {
    if s.FlightOf(k).Idle? then s.TrackOf(k).seen else s.FlightOf(k).Ver()
  }

  // ------------------------------------------------------- parts of the invariant

  ghost predicate TrackInv(s: State, k: Key) {
    Shape(k.kind, s.Versions(k)) && s.TrackOf(k).seen < |s.Versions(k)|
  }

  /** Whoever committed an observed generation had seen that generation. */
  ghost predicate HorizonInv(s: State, k: Key) {
    var versions := s.Versions(k);
    var h := Horizon(s, k);
    h < |versions| &&
    forall j :: 0 <= j < |versions| && versions[j].Present? && versions[j].Value().status.observedGeneration > 0 ==>
      && versions[j].Value().uid <= h
      && (SameObject(versions[h], versions[j]) ==>
            versions[j].Value().status.observedGeneration <= versions[h].Value().generation)
  }

  ghost predicate Committed(s: State, k: Key, uid: nat, id: string) {
    exists i :: 0 <= i < |s.Versions(k)| && s.Versions(k)[i].Present? &&
                s.Versions(k)[i].Value().uid == uid && s.Versions(k)[i].Value().status.id == id
  }

  /** Every ID ever issued for the key is in exactly one place: a committed status, the flight, or lost. */
  ghost predicate OwnInv(s: State, k: Key) {
    && (forall ref :: ref in s.issued && s.issued[ref].key == k ==>
          && ref.kind == k.kind && ref.id != "" && s.issued[ref].uid < |s.Versions(k)|
          && (Committed(s, k, s.issued[ref].uid, ref.id) || NewId(s, k) == ref.id || ref in s.lost)
          && !(Committed(s, k, s.issued[ref].uid, ref.id) && NewId(s, k) == ref.id)
          && !(Committed(s, k, s.issued[ref].uid, ref.id) && ref in s.lost)
          && !(NewId(s, k) == ref.id && ref in s.lost))
    && (forall i :: 0 <= i < |s.Versions(k)| && s.Versions(k)[i].Present? && s.Versions(k)[i].Value().status.id != "" ==>
          var o := s.Versions(k)[i].Value();
          Ref(k.kind, o.status.id) in s.issued && s.issued[Ref(k.kind, o.status.id)] == Owner(k, o.uid))
  }

  ghost predicate DeletionSeen(s: State, k: Key, uid: nat) {
    exists i :: 0 <= i <= Horizon(s, k) && i < |s.Versions(k)| && s.Versions(k)[i].Present? &&
                s.Versions(k)[i].Value().uid == uid && s.Versions(k)[i].Value().deleting
  }

  /** The object is gone, or has lost the operator's finalizer. */
  ghost predicate Released(kind: Kind, o: Object, last: Version) {
    !(last.Present? && last.Value().uid == o.uid && Attached(kind, last.Value()))
  }

  ghost predicate RemovalInv(s: State, k: Key) {
    && (forall ref :: ref in s.issued && s.issued[ref].key == k && ref !in s.records ==>
          DeletionSeen(s, k, s.issued[ref].uid))
    && (forall i :: 0 <= i < |s.Versions(k)| && s.Versions(k)[i].Present? && Attached(k.kind, s.Versions(k)[i].Value()) &&
                    Released(k.kind, s.Versions(k)[i].Value(), Last(s.Versions(k))) ==>
          DeletionSeen(s, k, s.Versions(k)[i].Value().uid))
    && (forall i :: 0 <= i < |s.Versions(k)| && s.Versions(k)[i].Present? && s.Versions(k)[i].Value().status.id != "" &&
                    Released(k.kind, s.Versions(k)[i].Value(), Last(s.Versions(k))) ==>
          Ref(k.kind, s.Versions(k)[i].Value().status.id) !in s.records)
  }

  ghost predicate FlightMatch(s: State, k: Key) {
    var f := s.FlightOf(k);
    !f.Idle? && !f.Returning? && s.Holds(k, f.Ver()) ==>
      var o := s.Obj(k, f.Ver());
      && (f.Configuring? || f.Probing? || f.Refreshing? ==> RecordMatches(s, k, o, f.id))
      && (f.Probing? || f.Refreshing? ==> ConfigMatches(s, k, o, f.id))
      && (f.Refreshing? ==> HealthcheckMatches(s, o, f.id))
      && (f.Reporting? && f.verdict.ok ==> RemoteMatches(s, k, o, f.verdict.id))
  }

  /** A committed Ready at the current generation means that databasus has what the spec says. */
  ghost predicate ReadyMatch(s: State, k: Key) {
    var versions := s.Versions(k);
    |versions| > 0 && Last(versions).Present? && ReadyAtItsGeneration(Last(versions).Value()) ==>
      RemoteMatches(s, k, Last(versions).Value(), Last(versions).Value().status.id)
  }

  ghost predicate MatchInv(s: State, k: Key) {
    FlightMatch(s, k) && ReadyMatch(s, k)
  }

  /** Where every record and config of the key comes from: a spec the object had, and values read for it. */
  ghost predicate OriginInv(s: State, k: Key) {
    && (forall ref :: ref in s.records && ref in s.issued && s.issued[ref].key == k ==>
          exists v :: 0 <= v < |s.Versions(k)| && s.Versions(k)[v].Present? &&
                      s.Versions(k)[v].Value().uid == s.issued[ref].uid &&
                        RecordMatches(s, k, s.Versions(k)[v].Value(), ref.id))
    && (k.kind == BackupKind ==>
          forall ref :: ref in s.issued && s.issued[ref].key == k && ref.id in s.backupConfigs ==>
            exists v :: 0 <= v < |s.Versions(k)| && s.Versions(k)[v].Present? &&
                        s.Versions(k)[v].Value().uid == s.issued[ref].uid &&
                          ConfigMatches(s, k, s.Versions(k)[v].Value(), ref.id))
  }

  /** Nothing is left to do for this version until somebody changes it. */
  ghost predicate Settled(kind: Kind, v: Version) {
    || v.Absent?
    || (v.Value().deleting && !Attached(kind, v.Value()))
    || (kind != BackupKind && !v.Value().deleting && ReadyAtItsGeneration(v.Value()))
    || (!v.Value().deleting && Physical(v.Value()))
  }

  ghost predicate WakeInv(s: State, k: Key) {
    var f := s.FlightOf(k);
    var versions := s.Versions(k);
    |versions| > 0 &&
    (f.Idle? || (f.Returning? && !f.result.Again()) ==>
       k in s.queued || s.TrackOf(k).seen < |versions| - 1 || Settled(k.kind, Last(versions)))
  }

  ghost predicate GlobalInv(s: State) {
    && (forall ref :: ref in s.records ==> ref in s.issued)
    && (forall ref :: ref in s.lost ==> ref in s.issued)
    && (forall ref :: ref in s.issued ==> ref.kind == s.issued[ref].key.kind && ref.id != "")
    && (forall id :: id in s.backupConfigs ==> Ref(BackupKind, id) in s.records)
    && (forall r :: r in s.readings && r.need.Reference? ==>
          && Ref(r.need.kind, r.value) in s.issued
          && s.issued[Ref(r.need.kind, r.value)].key == Key(r.need.kind, r.owner.key.namespace, r.need.name))
  }

  ghost predicate KeyInv(s: State, k: Key) {
    TrackInv(s, k) && FlightInv(s, k) && HorizonInv(s, k) && OwnInv(s, k) && RemovalInv(s, k) && MatchInv(s, k) &&
    OriginInv(s, k) && WakeInv(s, k)
  }

  ghost predicate Inv(s: State) {
    GlobalInv(s) && forall k :: KeyInv(s, k)
  }

  // ------------------------------------------------- an event concerns one key

  /** From `s` to `t` nothing changed that belongs to a key other than `k`. */
  ghost predicate Frame(s: State, t: State, k: Key) {
    && t.workspace == s.workspace
    && (forall j :: j != k ==>
          t.TrackOf(j) == s.TrackOf(j) && t.FlightOf(j) == s.FlightOf(j) && (j in t.queued <==> j in s.queued))
    && (forall ref :: ref in s.issued ==> ref in t.issued && t.issued[ref] == s.issued[ref])
    && (forall ref :: ref in t.issued && ref !in s.issued ==> t.issued[ref].key == k)
    && (forall ref :: ref in s.issued && s.issued[ref].key != k ==>
          && (ref in t.records <==> ref in s.records)
          && (ref in s.records ==> t.records[ref] == s.records[ref])
          && (ref in t.lost <==> ref in s.lost)
          && (ref.kind == BackupKind ==>
                && (ref.id in t.backupConfigs <==> ref.id in s.backupConfigs)
                && (ref.id in s.backupConfigs ==> t.backupConfigs[ref.id] == s.backupConfigs[ref.id])
                && (ref.id in t.healthchecks <==> ref.id in s.healthchecks)
                && (ref.id in s.healthchecks ==> t.healthchecks[ref.id] == s.healthchecks[ref.id])))
    && s.readings <= t.readings
  }

  lemma RecordStays(s: State, t: State, k: Key, o: Object, id: string)
    requires t.workspace == s.workspace && s.readings <= t.readings
    requires RecordMatches(s, k, o, id)
    requires Ref(k.kind, id) in t.records && t.records[Ref(k.kind, id)] == s.records[Ref(k.kind, id)]
    ensures RecordMatches(t, k, o, id)
  {
    var got :| Complete(o.spec, got) && ReadBy(s, k, o, got) &&
               s.records[Ref(k.kind, id)] == RequestOf(s.workspace, o.spec, got).WithId(id);
    assert ReadBy(t, k, o, got);
  }

  lemma ConfigStays(s: State, t: State, k: Key, o: Object, id: string)
    requires s.readings <= t.readings
    requires ConfigMatches(s, k, o, id)
    requires id in t.backupConfigs && t.backupConfigs[id] == s.backupConfigs[id]
    ensures ConfigMatches(t, k, o, id)
  {
  }

  ghost predicate OwnedBy(s: State, k: Key, id: string) {
    Ref(k.kind, id) in s.issued && s.issued[Ref(k.kind, id)].key == k
  }

  /** What matched for another key's ID still matches. */
  lemma OthersMatch(s: State, t: State, k: Key, j: Key, o: Object, id: string)
    requires Frame(s, t, k) && j != k && OwnedBy(s, j, id) && o.spec.Kind() == j.kind
    ensures RecordMatches(s, j, o, id) ==> RecordMatches(t, j, o, id)
    ensures ConfigMatches(s, j, o, id) ==> ConfigMatches(t, j, o, id)
    ensures HealthcheckMatches(s, o, id) ==> HealthcheckMatches(t, o, id)
  {
    hide RequestOf, Complete, Plan, BackupConfigOf, HealthcheckOf;
    assert Ref(j.kind, id) in s.issued && s.issued[Ref(j.kind, id)].key != k;
    if RecordMatches(s, j, o, id) { RecordStays(s, t, j, o, id); }
    if ConfigMatches(s, j, o, id) { ConfigStays(s, t, j, o, id); }
  }

  lemma ReadyHasId(kind: Kind, o: Object)
    requires GoodObject(kind, o) && IsReady(o.status.conditions)
    ensures o.status.id != ""
  {
    var c := FindStatusCondition(o.status.conditions, "Ready").value;
    assert c in o.status.conditions;
  }

  lemma OthersKeepMatch(s: State, t: State, k: Key, j: Key)
    requires Frame(s, t, k) && j != k && TrackInv(s, j) && FlightInv(s, j) && OwnInv(s, j) && MatchInv(s, j)
    ensures MatchInv(t, j)
  {
    hide RecordMatches, ConfigMatches, HealthcheckMatches, Finalizer, IsReady;
    var f := s.FlightOf(j);
    var versions := s.Versions(j);
    if !f.Idle? && !f.Returning? && FlightId(f) != "" {
      OthersMatch(s, t, k, j, versions[f.Ver()].Value(), FlightId(f));
    }
    if Last(versions).Present? && ReadyAtItsGeneration(Last(versions).Value()) {
      ReadyHasId(j.kind, Last(versions).Value());
      assert OwnedBy(s, j, versions[|versions| - 1].Value().status.id);
      OthersMatch(s, t, k, j, Last(versions).Value(), Last(versions).Value().status.id);
    }
  }

  lemma OthersKeepOrigin(s: State, t: State, k: Key, j: Key)
    requires Frame(s, t, k) && j != k && TrackInv(s, j) && OriginInv(s, j)
    requires forall ref :: ref in s.issued ==> ref.kind == s.issued[ref].key.kind
    ensures OriginInv(t, j)
  {
    hide RecordMatches, ConfigMatches, Later;
    forall ref | ref in t.records && ref in t.issued && t.issued[ref].key == j
      ensures exists v :: 0 <= v < |t.Versions(j)| && t.Versions(j)[v].Present? &&
                          t.Versions(j)[v].Value().uid == t.issued[ref].uid &&
                            RecordMatches(t, j, t.Versions(j)[v].Value(), ref.id)
    {
      assert ref in s.issued && ref in s.records && s.issued[ref].key == j;
      var v :| 0 <= v < |s.Versions(j)| && s.Versions(j)[v].Present? &&
               s.Versions(j)[v].Value().uid == s.issued[ref].uid && RecordMatches(s, j, s.Versions(j)[v].Value(), ref.id);
      OthersMatch(s, t, k, j, s.Versions(j)[v].Value(), ref.id);
      assert t.Versions(j)[v].Present?;
    }
    if j.kind == BackupKind {
      forall ref | ref in t.issued && t.issued[ref].key == j && ref.id in t.backupConfigs
        ensures exists v :: 0 <= v < |t.Versions(j)| && t.Versions(j)[v].Present? &&
                            t.Versions(j)[v].Value().uid == t.issued[ref].uid &&
                              ConfigMatches(t, j, t.Versions(j)[v].Value(), ref.id)
      {
        assert ref in s.issued && ref.id in s.backupConfigs && s.issued[ref].key == j;
        var v :| 0 <= v < |s.Versions(j)| && s.Versions(j)[v].Present? &&
                 s.Versions(j)[v].Value().uid == s.issued[ref].uid && ConfigMatches(s, j, s.Versions(j)[v].Value(), ref.id);
        OthersMatch(s, t, k, j, s.Versions(j)[v].Value(), ref.id);
        assert t.Versions(j)[v].Present?;
      }
    }
  }

  lemma OthersKeepFlight(s: State, t: State, k: Key, j: Key)
    requires Frame(s, t, k) && j != k && FlightInv(s, j)
    requires GlobalInv(s) && OwnInv(s, j)
    ensures FlightInv(t, j) && (HorizonInv(s, j) ==> HorizonInv(t, j)) && (WakeInv(s, j) ==> WakeInv(t, j))
  {
    hide Plan, Finalizer;
  }

  lemma OthersKeepOwn(s: State, t: State, k: Key, j: Key)
    requires Frame(s, t, k) && j != k && OwnInv(s, j)
    ensures OwnInv(t, j)
  {
    hide Finalizer;
    assert NewId(t, j) == NewId(s, j);
    assert t.Versions(j) == s.Versions(j);
  }

  lemma OthersKeepRemoval(s: State, t: State, k: Key, j: Key)
    requires Frame(s, t, k) && j != k && RemovalInv(s, j) && OwnInv(s, j) && |s.Versions(j)| > 0
    ensures RemovalInv(t, j)
  {
    hide Finalizer, Committed;
    assert t.Versions(j) == s.Versions(j);
  }

  lemma OthersKeepInv(s: State, t: State, k: Key, j: Key)
    requires GlobalInv(s) && KeyInv(s, j) && Frame(s, t, k) && j != k
    ensures KeyInv(t, j)
  {
    hide FlightInv, HorizonInv, OwnInv, RemovalInv, MatchInv, OriginInv, WakeInv, Shape;
    OthersKeepFlight(s, t, k, j);
    OthersKeepOwn(s, t, k, j);
    OthersKeepRemoval(s, t, k, j);
    OthersKeepMatch(s, t, k, j);
    OthersKeepOrigin(s, t, k, j);
  }

  // --------------------------------------------- an event and its own key

  /** Nothing remote, no version and no bookkeeping of `k` changed, and the worker knows no less. */
  ghost predicate Undisturbed(s: State, t: State, k: Key) {
    && t.workspace == s.workspace && t.records == s.records && t.backupConfigs == s.backupConfigs
    && t.healthchecks == s.healthchecks && t.issued == s.issued && t.lost == s.lost && s.readings <= t.readings
    && t.Versions(k) == s.Versions(k) && s.TrackOf(k).seen <= t.TrackOf(k).seen < |s.Versions(k)|
    && NewId(t, k) == NewId(s, k) && Horizon(s, k) <= Horizon(t, k) < |s.Versions(k)|
  }

  lemma RemoteStays(s: State, t: State, k: Key, o: Object, id: string)
    requires t.workspace == s.workspace && t.records == s.records && t.backupConfigs == s.backupConfigs
    requires t.healthchecks == s.healthchecks && s.readings <= t.readings
    ensures RecordMatches(s, k, o, id) ==> RecordMatches(t, k, o, id)
    ensures ConfigMatches(s, k, o, id) ==> ConfigMatches(t, k, o, id)
    ensures HealthcheckMatches(s, o, id) ==> HealthcheckMatches(t, o, id)
  {
    hide RequestOf, Complete, Plan, BackupConfigOf, HealthcheckOf;
    if RecordMatches(s, k, o, id) { RecordStays(s, t, k, o, id); }
  }

  lemma HorizonGrows(s: State, t: State, k: Key)
    requires TrackInv(s, k) && HorizonInv(s, k)
    requires t.Versions(k) == s.Versions(k) && Horizon(s, k) <= Horizon(t, k) < |s.Versions(k)|
    ensures HorizonInv(t, k)
  {
    hide GoodObject, Horizon;
    var versions, g, h := s.Versions(k), Horizon(s, k), Horizon(t, k);
    forall j | 0 <= j < |versions| && versions[j].Present? && versions[j].Value().status.observedGeneration > 0
      ensures versions[j].Value().uid <= h &&
              (SameObject(versions[h], versions[j]) ==>
                 versions[j].Value().status.observedGeneration <= versions[h].Value().generation)
    {
      if SameObject(versions[h], versions[j]) {
        assert SameObject(versions[g], versions[h]);
      }
    }
  }

  lemma SameRemoteKeeps(s: State, t: State, k: Key)
    requires t.workspace == s.workspace && t.records == s.records && t.backupConfigs == s.backupConfigs
    requires t.healthchecks == s.healthchecks && t.issued == s.issued && s.readings <= t.readings
    requires t.Versions(k) == s.Versions(k)
    ensures ReadyMatch(s, k) ==> ReadyMatch(t, k)
    ensures OriginInv(s, k) ==> OriginInv(t, k)
  {
    hide RecordMatches, ConfigMatches, HealthcheckMatches, Finalizer, IsReady;
    forall o, id
      ensures RecordMatches(s, k, o, id) ==> RecordMatches(t, k, o, id)
      ensures ConfigMatches(s, k, o, id) ==> ConfigMatches(t, k, o, id)
      ensures HealthcheckMatches(s, o, id) ==> HealthcheckMatches(t, o, id)
    {
      RemoteStays(s, t, k, o, id);
    }
  }

  lemma UndisturbedKeeps(s: State, t: State, k: Key)
    requires TrackInv(s, k) && HorizonInv(s, k) && OwnInv(s, k) && RemovalInv(s, k) && OriginInv(s, k) && ReadyMatch(s, k)
    requires Undisturbed(s, t, k)
    ensures TrackInv(t, k) && HorizonInv(t, k) && OwnInv(t, k) && RemovalInv(t, k) && OriginInv(t, k) && ReadyMatch(t, k)
  {
    hide Shape, OriginInv, ReadyMatch, Horizon, NewId, Finalizer;
    HorizonGrows(s, t, k);
    SameRemoteKeeps(s, t, k);
    assert forall uid :: DeletionSeen(s, k, uid) ==> DeletionSeen(t, k, uid);
  }

  // ------------------------------------------------------- writes of users

  /** A version that brings no news in the status. */
  ghost predicate StatusKept(kind: Kind, versions: seq<Version>, v: Version) {
    && Appendable(kind, versions, v)
    && (v.Present? ==> v.Value().status == if Last(versions).Present? then Last(versions).Value().status else EMPTY_STATUS)
  }

  /** What users may append: they keep the status and the operator's finalizer. */
  ghost predicate UserWrite(kind: Kind, versions: seq<Version>, v: Version) {
    && StatusKept(kind, versions, v)
    && (Last(versions).Present? && Attached(kind, Last(versions).Value()) ==> v.Present? && Attached(kind, v.Value()))
  }

  lemma UserWriteKeepsFlight(s: State, k: Key, v: Version)
    requires TrackInv(s, k) && FlightInv(s, k) && UserWrite(k.kind, s.Versions(k), v)
    ensures FlightInv(s.Push(k, v), k)
  {
    hide GoodObject, Later, Plan, Complete, RequestOf, Finalizer;
    var t := s.Push(k, v);
    var versions, n := s.Versions(k), |s.Versions(k)|;
    assert t.Versions(k) == versions + [v] && Last(t.Versions(k)) == v;
    var f := s.FlightOf(k);
    if !f.Idle? && !f.Returning? {
      assert t.Versions(k)[f.Ver()] == versions[f.Ver()];
      assert forall got :: ReadBy(s, k, versions[f.Ver()].Value(), got) ==> ReadBy(t, k, versions[f.Ver()].Value(), got);
    }
  }

  lemma StatusKeptKeepsHistory(s: State, k: Key, v: Version)
    requires TrackInv(s, k) && HorizonInv(s, k) && StatusKept(k.kind, s.Versions(k), v)
    ensures var t := s.Push(k, v); TrackInv(t, k) && HorizonInv(t, k) && WakeInv(t, k)
  {
    hide GoodObject, Settled;
    var t := s.Push(k, v);
    var versions, n := s.Versions(k), |s.Versions(k)|;
    Append(k.kind, versions, v);
    assert t.Versions(k) == versions + [v];
    var h := Horizon(s, k);
    if v.Present? && v.Value().status.observedGeneration > 0 {
      assert versions[n - 1].Present? && SameObject(versions[n - 1], v);
      assert SameObject(versions[h], v) ==> SameObject(versions[h], versions[n - 1]);
    }
  }

  lemma PushNewId(s: State, k: Key, v: Version)
    requires FlightInv(s, k)
    ensures NewId(s.Push(k, v), k) == NewId(s, k)
  {
    hide WorkInv;
    assert s.Push(k, v).Versions(k) == s.Versions(k) + [v];
  }

  lemma StatusKeptKeepsOwn(s: State, k: Key, v: Version)
    requires TrackInv(s, k) && FlightInv(s, k) && OwnInv(s, k) && StatusKept(k.kind, s.Versions(k), v)
    ensures OwnInv(s.Push(k, v), k)
  {
    hide GoodObject, Later, WorkInv, Finalizer, NewId;
    var t := s.Push(k, v);
    var versions, n := s.Versions(k), |s.Versions(k)|;
    assert t.Versions(k) == versions + [v];
    assert NewId(t, k) == NewId(s, k) by { PushNewId(s, k, v); }
    forall uid, id | id != ""
      ensures Committed(t, k, uid, id) <==> Committed(s, k, uid, id)
    {
      if Committed(s, k, uid, id) {
        var i :| 0 <= i < n && versions[i].Present? && versions[i].Value().uid == uid && versions[i].Value().status.id == id;
        assert t.Versions(k)[i].Value().uid == uid;
      }
      if Committed(t, k, uid, id) {
        var i :| 0 <= i <= n && t.Versions(k)[i].Present? && t.Versions(k)[i].Value().uid == uid &&
                 t.Versions(k)[i].Value().status.id == id;
        assert versions[if i == n then n - 1 else i].Value().uid == uid;
      }
    }
  }

  lemma UserWriteKeepsRemoval(s: State, k: Key, v: Version)
    requires TrackInv(s, k) && RemovalInv(s, k) && HorizonInv(s, k) && UserWrite(k.kind, s.Versions(k), v)
    ensures RemovalInv(s.Push(k, v), k)
  {
    hide GoodObject, Plan, Complete, RequestOf, Finalizer;
    var t := s.Push(k, v);
    var versions, n := s.Versions(k), |s.Versions(k)|;
    assert t.Versions(k) == versions + [v] && Last(t.Versions(k)) == v;
    forall uid | DeletionSeen(s, k, uid)
      ensures DeletionSeen(t, k, uid)
    {
      var i :| 0 <= i <= Horizon(s, k) && i < n && versions[i].Present? && versions[i].Value().uid == uid &&
        versions[i].Value().deleting;
      assert t.Versions(k)[i].Value().uid == uid;
    }
    forall i | 0 <= i <= n && t.Versions(k)[i].Present? && Attached(k.kind, t.Versions(k)[i].Value()) &&
               Released(k.kind, t.Versions(k)[i].Value(), v)
      ensures DeletionSeen(t, k, t.Versions(k)[i].Value().uid)
    {
      assert i < n && versions[i] == t.Versions(k)[i];
      assert Released(k.kind, versions[i].Value(), Last(versions));
    }
    forall i | 0 <= i <= n && t.Versions(k)[i].Present? && t.Versions(k)[i].Value().status.id != "" &&
               Released(k.kind, t.Versions(k)[i].Value(), v)
      ensures Ref(k.kind, t.Versions(k)[i].Value().status.id) !in s.records
    {
      var m := if i == n then n - 1 else i;
      assert versions[m].Present? && versions[m].Value().status.id == t.Versions(k)[i].Value().status.id;
      assert Released(k.kind, versions[m].Value(), Last(versions));
    }
  }

  lemma SameMatch(s: State, k: Key, a: Object, b: Object, id: string)
    requires a.uid == b.uid && a.generation == b.generation && a.spec == b.spec
    ensures RecordMatches(s, k, a, id) <==> RecordMatches(s, k, b, id)
    ensures ConfigMatches(s, k, a, id) <==> ConfigMatches(s, k, b, id)
    ensures HealthcheckMatches(s, a, id) <==> HealthcheckMatches(s, b, id)
  {
    hide RequestOf, Complete, Plan, BackupConfigOf, HealthcheckOf;
    assert forall got :: ReadBy(s, k, a, got) <==> ReadBy(s, k, b, got);
  }

  lemma InitiallyNotReady()
    ensures !IsReady([])
  {
  }

  lemma StatusKeptKeepsReady(s: State, k: Key, v: Version)
    requires TrackInv(s, k) && ReadyMatch(s, k) && OriginInv(s, k)
    requires StatusKept(k.kind, s.Versions(k), v)
    ensures ReadyMatch(s.Push(k, v), k) && OriginInv(s.Push(k, v), k)
  {
    hide RecordMatches, ConfigMatches, HealthcheckMatches, Finalizer, Plan, Complete, IsReady;
    var t := s.Push(k, v);
    var versions, n := s.Versions(k), |s.Versions(k)|;
    assert t.Versions(k) == versions + [v] && Last(t.Versions(k)) == v;
    InitiallyNotReady();
    forall o, id { RemoteStays(s, t, k, o, id); }
    if v.Present? && ReadyAtItsGeneration(v.Value()) && Last(versions).Present? {
      var o := Last(versions).Value();
      assert ReadyAtItsGeneration(o);
      SameMatch(t, k, o, v.Value(), o.status.id);
    }
    assert forall i :: 0 <= i < n ==> t.Versions(k)[i] == versions[i];
  }

  lemma PushKeepsFlightMatch(s: State, k: Key, v: Version)
    requires FlightMatch(s, k) && FlightInv(s, k)
    ensures FlightMatch(s.Push(k, v), k)
  {
    hide RecordMatches, ConfigMatches, HealthcheckMatches, Finalizer, Plan, Complete;
    var t := s.Push(k, v);
    assert t.Versions(k) == s.Versions(k) + [v];
    forall o, id { RemoteStays(s, t, k, o, id); }
  }

  lemma UserWriteKeeps(s: State, k: Key, v: Version)
    requires KeyInv(s, k) && UserWrite(k.kind, s.Versions(k), v)
    ensures KeyInv(s.Push(k, v), k)
  {
    hide FlightInv, HorizonInv, OwnInv, RemovalInv, FlightMatch, ReadyMatch, OriginInv, WakeInv, Shape;
    UserWriteKeepsFlight(s, k, v);
    StatusKeptKeepsHistory(s, k, v);
    StatusKeptKeepsOwn(s, k, v);
    UserWriteKeepsRemoval(s, k, v);
    StatusKeptKeepsReady(s, k, v);
    PushKeepsFlightMatch(s, k, v);
  }

  predicate IsUserEvent(e: Event) {
    e.UserCreate? || e.UserEdit? || e.UserTouch? || e.UserDelete?
  }

  /** What a user event appends if it does anything. */
  function UserVersion(s: State, e: Event): Version
    requires IsUserEvent(e)
  {
    var versions := s.Versions(e.key);
    var o := Last(versions).Value();
    match e
    case UserCreate(_, spec, finalizers) => Present(Object(|versions|, 1, false, finalizers, spec, EMPTY_STATUS))
    case UserEdit(_, spec) => Present(o.(spec := spec, generation := o.generation + 1))
    case UserTouch(_, finalizers) => Stored(o.(finalizers := finalizers))
    case UserDelete(_) => Stored(o.(deleting := true, generation := o.generation + 1))
  }

  lemma UserPushes(s: State, e: Event)
    requires IsUserEvent(e) && Apply(s, e) != s
    ensures Apply(s, e) == s.Push(e.key, UserVersion(s, e))
  {
    hide Stored, Finalizer, State.Push;
  }

  lemma UserWrites(s: State, e: Event)
    requires IsUserEvent(e) && TrackInv(s, e.key) && Apply(s, e) != s
    ensures UserWrite(e.key.kind, s.Versions(e.key), UserVersion(s, e))
  {
    var last := Last(s.Versions(e.key));
    assert last == s.Versions(e.key)[|s.Versions(e.key)| - 1];
    assert last.Present? ==> GoodObject(e.key.kind, last.Value());
    hide TrackInv, State.Push;
  }

  /** A user event appends one version that users may append, or does nothing. */
  lemma UserEvents(s: State, e: Event) returns (v: Version)
    requires IsUserEvent(e) && TrackInv(s, e.key) && Apply(s, e) != s
    ensures Apply(s, e) == s.Push(e.key, v) && UserWrite(e.key.kind, s.Versions(e.key), v)
  {
    hide TrackInv, UserWrite, Apply, UserVersion;
    v := UserVersion(s, e);
    UserPushes(s, e);
    UserWrites(s, e);
  }

  lemma PushFrame(s: State, k: Key, v: Version)
    ensures Frame(s, s.Push(k, v), k) && (GlobalInv(s) ==> GlobalInv(s.Push(k, v)))
  {
  }

  lemma UserKeeps(s: State, e: Event)
    requires Inv(s) && IsUserEvent(e)
    ensures Inv(Apply(s, e))
  {
    hide KeyInv, GlobalInv, Frame, UserWrite;
    var t := Apply(s, e);
    if t != s {
      assert KeyInv(s, e.key);
      assert TrackInv(s, e.key) by { UnfoldKey(s, e.key); }
      var v := UserEvents(s, e);
      UserWriteKeeps(s, e.key, v);
      PushFrame(s, e.key, v);
      OneKey(s, t, e.key);
    }
  }

  lemma UnfoldKey(s: State, k: Key)
    requires KeyInv(s, k)
    ensures TrackInv(s, k) && FlightInv(s, k) && HorizonInv(s, k) && OwnInv(s, k) && RemovalInv(s, k) && MatchInv(s, k) &&
            OriginInv(s, k) && WakeInv(s, k)
  {
  }

  /** It is enough to look at the key an event concerns. */
  lemma OneKey(s: State, t: State, k: Key)
    requires Inv(s) && Frame(s, t, k) && GlobalInv(t) && KeyInv(t, k)
    ensures Inv(t)
  {
    hide KeyInv, GlobalInv, Frame;
    forall j
      ensures KeyInv(t, j)
    {
      if j != k { OthersKeepInv(s, t, k, j); }
    }
  }

  // ------------------------------------- cache, timers, secrets, databasus, crashes

  lemma ReadingsStay(s: State, t: State, k: Key, o: Object, got: seq<string>)
    requires s.readings <= t.readings && ReadBy(s, k, o, got)
    ensures ReadBy(t, k, o, got)
  {
    hide Plan;
  }

  lemma SameFlightKeepsFlight(s: State, t: State, k: Key)
    requires FlightInv(s, k) && Undisturbed(s, t, k) && t.FlightOf(k) == s.FlightOf(k) && k in t.queued
    ensures FlightInv(t, k) && WakeInv(t, k)
  {
    hide Plan, Complete, Finalizer, RequestOf;
    var f := s.FlightOf(k);
    if !f.Idle? && s.Holds(k, f.Ver()) {
      var o := s.Obj(k, f.Ver());
      if f.Gathering? && ReadBy(s, k, o, f.Got()) { ReadingsStay(s, t, k, o, f.Got()); }
      if (f.Configuring? || f.Probing?) && ReadBy(s, k, o, f.Got()) { ReadingsStay(s, t, k, o, f.Got()); }
    }
  }

  lemma SameFlightKeepsMatch(s: State, t: State, k: Key)
    requires FlightMatch(s, k) && Undisturbed(s, t, k) && t.FlightOf(k) == s.FlightOf(k)
    ensures FlightMatch(t, k)
  {
    hide RecordMatches, ConfigMatches, HealthcheckMatches, Finalizer;
    forall o, id { RemoteStays(s, t, k, o, id); }
  }

  lemma SameFlightKeeps(s: State, t: State, k: Key)
    requires KeyInv(s, k) && Undisturbed(s, t, k) && t.FlightOf(k) == s.FlightOf(k) && k in t.queued
    ensures KeyInv(t, k)
  {
    hide FlightInv, FlightMatch, ReadyMatch, WakeInv, HorizonInv, OwnInv, RemovalInv, OriginInv, TrackInv, Undisturbed;
    UndisturbedKeeps(s, t, k);
    SameFlightKeepsFlight(s, t, k);
    SameFlightKeepsMatch(s, t, k);
  }

  lemma EnqueuedFrame(s: State, k: Key, seen: nat)
    requires KeyInv(s, k) && s.TrackOf(k).seen <= seen < |s.Versions(k)|
    ensures var t := if seen == s.TrackOf(k).seen then s.Enqueue(k) else s.See(k, seen).Enqueue(k);
            Frame(s, t, k) && Undisturbed(s, t, k) && (GlobalInv(s) ==> GlobalInv(t))
  {
    hide OwnInv, RemovalInv, MatchInv, OriginInv, WakeInv, Shape, Finalizer, WorkInv, Frame, GlobalInv;
    var t := if seen == s.TrackOf(k).seen then s.Enqueue(k) else s.See(k, seen).Enqueue(k);
    assert t.Versions(k) == s.Versions(k);
    EnqueuedElsewhere(s, k, seen);
  }

  lemma EnqueuedElsewhere(s: State, k: Key, seen: nat)
    ensures var t := if seen == s.TrackOf(k).seen then s.Enqueue(k) else s.See(k, seen).Enqueue(k);
            Frame(s, t, k) && (GlobalInv(s) ==> GlobalInv(t))
  {
  }

  lemma EnqueuedKeeps(s: State, k: Key, seen: nat)
    requires Inv(s) && s.TrackOf(k).seen <= seen < |s.Versions(k)|
    ensures Inv(if seen == s.TrackOf(k).seen then s.Enqueue(k) else s.See(k, seen).Enqueue(k))
  {
    hide KeyInv, GlobalInv, Frame, Undisturbed;
    var t := if seen == s.TrackOf(k).seen then s.Enqueue(k) else s.See(k, seen).Enqueue(k);
    EnqueuedFrame(s, k, seen);
    SameFlightKeeps(s, t, k);
    OneKey(s, t, k);
  }
}
