/** The promises of the protocol, over all runs: every statement below holds after any
sequence of events, so under any interleaving of user edits, cache lag, failures, lost
responses and crashes.
*/
module Safety {
  import opened Resources
  import opened Conditions
  import opened Builders
  import opened Protocol
  import opened Invariants
  import opened Inductive

  // --------------------------------------------------- which event changes what

  /** Only this key's worker, queue entry and history are touched, and of the history nothing is taken away. */
  ghost predicate Local(s: State, u: State, k: Key) {
    && u.workspace == s.workspace
    && (u.tracks == s.tracks || u.tracks == s.tracks[k := u.TrackOf(k)])
    && (u.flights == s.flights || u.flights == s.flights[k := u.FlightOf(k)])
    && (u.queued == s.queued || u.queued == s.queued + {k} || u.queued == s.queued - {k})
    && s.Versions(k) <= u.Versions(k) && u.TrackOf(k).seen == s.TrackOf(k).seen
  }

  lemma FlyLocal(s: State, b: State, k: Key, f: Flight)
    requires b == s.(records := b.records, backupConfigs := b.backupConfigs, healthchecks := b.healthchecks,
                     issued := b.issued, lost := b.lost, readings := b.readings)
    ensures var u := b.Fly(k, f); Local(s, u, k) && u.FlightOf(k) == f && u == b.(flights := u.flights) && u.TrackOf(k) == s.TrackOf(k)
  {
  }

  lemma PushLocal(s: State, k: Key, v: Version, f: Flight)
    ensures var u := s.Push(k, v).Fly(k, f);
            && Local(s, u, k) && u.FlightOf(k) == f && u == s.(flights := u.flights, tracks := u.tracks)
            && u.TrackOf(k) == s.TrackOf(k).(versions := s.Versions(k) + [v])
  {
  }

  lemma SameLocal(s: State, k: Key)
    ensures Local(s, s, k)
  {
  }

  lemma FetchEffect(s: State, k: Key, t: Turn)
    requires k in s.queued
    ensures var u := Fetch(s.(queued := s.queued - {k}), k, t);
            u == s.(flights := u.flights, queued := u.queued) && Local(s, u, k)
    ensures Fetch(s.(queued := s.queued - {k}), k, t).FlightOf(k) == AfterGet(s.(queued := s.queued - {k}), k, t)
  {
    hide AfterGet;
  }

  lemma RemoveEffect(s: State, k: Key, ver: nat, t: Turn)
    ensures var u := Remove(s, k, ver, t);
            && u == s.(flights := u.flights, records := u.records, backupConfigs := u.backupConfigs,
                       healthchecks := u.healthchecks)
            && Local(s, u, k)
    ensures s.Holds(k, ver) ==>
              Remove(s, k, ver, t).FlightOf(k) == if t.outcome == Done then Detaching(ver) else Returning(ver, Result(10, false))
  {
    hide Local, Vanished, State.Fly, State.Push, State.TrackOf, State.FlightOf, State.Holds, State.Obj;
    if !s.Holds(k, ver) { SameLocal(s, k); }
    else {
      var b := if t.outcome == Failed then s else Vanished(s, Ref(k.kind, s.Obj(k, ver).status.id));
      assert b == s.(records := b.records, backupConfigs := b.backupConfigs, healthchecks := b.healthchecks) by { VanishedIs(s, k, ver); }
      FlyLocal(s, b, k, if t.outcome == Done then Detaching(ver) else Returning(ver, Result(10, false)));
    }
  }

  lemma VanishedIs(s: State, k: Key, ver: nat)
    ensures var b := Vanished(s, Ref(k.kind, s.Obj(k, ver).status.id));
            b == s.(records := b.records, backupConfigs := b.backupConfigs, healthchecks := b.healthchecks)
  {
  }

  /** The key's history after a write that does this. */
  function Written(s: State, k: Key, accepted: bool, v: Version): Track {
    if accepted then s.TrackOf(k).(versions := s.Versions(k) + [v]) else s.TrackOf(k)
  }

  lemma WriteObjectEffect(s: State, k: Key, ver: nat, o: Object, t: Turn)
    ensures var u := WriteObject(s, k, ver, o, t); u == s.(flights := u.flights, tracks := u.tracks) && Local(s, u, k)
    ensures s.Holds(k, ver) ==>
              WriteObject(s, k, ver, o, t).FlightOf(k) == Returning(ver, Result(0, !(Accepted(s, k, ver, t) && t.outcome == Done)))
    ensures s.Holds(k, ver) ==>
              WriteObject(s, k, ver, o, t).TrackOf(k) ==
              Written(s, k, Accepted(s, k, ver, t) && o != s.Obj(k, ver), Stored(o))
  {
    hide Stored, Accepted, Local, State.Fly, State.Push, State.TrackOf, State.FlightOf, State.Holds, State.Obj;
    if !s.Holds(k, ver) { SameLocal(s, k); }
    else {
      var f := Returning(ver, Result(0, !(Accepted(s, k, ver, t) && t.outcome == Done)));
      if Accepted(s, k, ver, t) && o != s.Obj(k, ver) { PushLocal(s, k, Stored(o), f); } else { FlyLocal(s, s, k, f); }
    }
  }

  lemma GatherEffect(s: State, k: Key, ver: nat, got: seq<string>, t: Turn)
    ensures var u := Gather(s, k, ver, got, t);
            && u == s.(flights := u.flights, readings := u.readings) && s.readings <= u.readings && Local(s, u, k)
            && (forall r :: r in u.readings && r !in s.readings ==>
                  r.owner.key == k && Lookup(s, k.namespace, r.need) == Some(r.value))
    ensures s.Holds(k, ver) && |got| < |Plan(s.Obj(k, ver).spec)| ==>
              Gather(s, k, ver, got, t).FlightOf(k) == AfterRead(s.Obj(k, ver), ver, got, Found(s, k, ver, got, t), t.message)
  {
    assert Found(s, k, ver, got, t).Some? ==> Lookup(s, k.namespace, NeedAt(s.Obj(k, ver).spec, |got|)) == Found(s, k, ver, got, t);
    hide Found, Plan, Lookup, AfterRead, Local, NeedAt, State.Fly, State.Push, State.TrackOf, State.FlightOf, State.Holds, State.Obj;
    if !s.Holds(k, ver) || |got| >= |Plan(s.Obj(k, ver).spec)| { SameLocal(s, k); }
    else {
      var o := s.Obj(k, ver);
      var found := Found(s, k, ver, got, t);
      var b := if found.Some? then
                 s.(readings := s.readings + {Read(Owner(k, o.uid), o.generation, |got|, NeedAt(o.spec, |got|), found.value)})
               else s;
      FlyLocal(s, b, k, AfterRead(o, ver, got, found, t.message));
    }
  }

  lemma CreateEffect(s: State, k: Key, ver: nat, got: seq<string>, t: Turn)
    ensures var u := CreateRecord(s, k, ver, got, t);
            && u == s.(flights := u.flights, records := u.records, issued := u.issued, lost := u.lost)
            && Local(s, u, k)
    ensures s.Holds(k, ver) && Complete(s.Obj(k, ver).spec, got) ==>
              CreateRecord(s, k, ver, got, t).FlightOf(k) ==
              AfterRecord(k, s.Obj(k, ver), ver, got,
                          if t.outcome == Done && Unused(s, k.kind, t.newID) then Some(t.newID) else None, t.message)
    ensures t.outcome == Failed || !Unused(s, k.kind, t.newID) ==>
              CreateRecord(s, k, ver, got, t) == s.(flights := CreateRecord(s, k, ver, got, t).flights)
  {
    hide Complete, Plan, RequestOf, AfterRecord, Unused, Local, State.Fly, State.Push, State.TrackOf, State.FlightOf, State.Holds, State.Obj;
    if !s.Holds(k, ver) || !Complete(s.Obj(k, ver).spec, got) { SameLocal(s, k); }
    else {
      var o := s.Obj(k, ver);
      var created := t.outcome != Failed && Unused(s, k.kind, t.newID);
      var ref := Ref(k.kind, t.newID);
      var b := if created then
                 s.(records := s.records[ref := RequestOf(s.workspace, o.spec, got).WithId(t.newID)],
                    issued := s.issued[ref := Owner(k, o.uid)],
                    lost := if t.outcome == Lost then s.lost + {ref} else s.lost)
               else s;
      FlyLocal(s, b, k, AfterRecord(k, o, ver, got, if created && t.outcome == Done then Some(t.newID) else None, t.message));
    }
  }

  lemma UpdateEffect(s: State, k: Key, ver: nat, got: seq<string>, t: Turn)
    ensures var u := UpdateRecord(s, k, ver, got, t);
            u == s.(flights := u.flights, records := u.records) && Local(s, u, k)
    ensures s.Holds(k, ver) && Complete(s.Obj(k, ver).spec, got) ==>
              UpdateRecord(s, k, ver, got, t).FlightOf(k) ==
              AfterRecord(k, s.Obj(k, ver), ver, got,
                          if t.outcome == Done && Ref(k.kind, s.Obj(k, ver).status.id) in s.records
                          then Some(s.Obj(k, ver).status.id) else None, t.message)
    ensures t.outcome == Failed || Ref(k.kind, s.Obj(k, ver).status.id) !in s.records ==>
              UpdateRecord(s, k, ver, got, t) == s.(flights := UpdateRecord(s, k, ver, got, t).flights)
  {
    hide Complete, Plan, RequestOf, AfterRecord, Local, State.Fly, State.Push, State.TrackOf, State.FlightOf, State.Holds, State.Obj;
    if !s.Holds(k, ver) || !Complete(s.Obj(k, ver).spec, got) { SameLocal(s, k); }
    else {
      var o := s.Obj(k, ver);
      var updated := t.outcome != Failed && Ref(k.kind, o.status.id) in s.records;
      var b := if updated then
                 s.(records := s.records[Ref(k.kind, o.status.id) := RequestOf(s.workspace, o.spec, got).WithId(o.status.id)])
               else s;
      FlyLocal(s, b, k, AfterRecord(k, o, ver, got, if updated && t.outcome == Done then Some(o.status.id) else None, t.message));
    }
  }

  lemma ConfigureEffect(s: State, k: Key, ver: nat, got: seq<string>, id: string, t: Turn)
    ensures var u := Configure(s, k, ver, got, id, t);
            u == s.(flights := u.flights, backupConfigs := u.backupConfigs) && Local(s, u, k)
    ensures s.Holds(k, ver) && s.Obj(k, ver).spec.ForBackup? && got != [] ==>
              Configure(s, k, ver, got, id, t).FlightOf(k) ==
              AfterConfig(s.Obj(k, ver), ver, got, id, t.outcome == Done && Ref(BackupKind, id) in s.records, t.message)
  {
    hide BackupConfigOf, AfterConfig, Local, State.Fly, State.Push, State.TrackOf, State.FlightOf, State.Holds, State.Obj;
    if !s.Holds(k, ver) || !s.Obj(k, ver).spec.ForBackup? || got == [] { SameLocal(s, k); }
    else {
      var o := s.Obj(k, ver);
      var saved := t.outcome != Failed && Ref(BackupKind, id) in s.records;
      var b := if saved then s.(backupConfigs := s.backupConfigs[id := BackupConfigOf(o.spec.databaseBackup, id, got[0])]) else s;
      FlyLocal(s, b, k, AfterConfig(o, ver, got, id, saved && t.outcome == Done, t.message));
    }
  }

  lemma ProbeEffect(s: State, k: Key, ver: nat, id: string, t: Turn)
    ensures var u := Probe(s, k, ver, id, t);
            u == s.(flights := u.flights, healthchecks := u.healthchecks) && Local(s, u, k)
    ensures s.Holds(k, ver) && s.Obj(k, ver).spec.ForBackup? && s.Obj(k, ver).spec.databaseBackup.healthcheck.Some? ==>
              Probe(s, k, ver, id, t).FlightOf(k) ==
              AfterCheck(s.Obj(k, ver), ver, id, t.outcome == Done && Ref(BackupKind, id) in s.records, t.message)
  {
    hide HealthcheckOf, AfterCheck, Local, State.Fly, State.Push, State.TrackOf, State.FlightOf, State.Holds, State.Obj;
    if !s.Holds(k, ver) || !s.Obj(k, ver).spec.ForBackup? || s.Obj(k, ver).spec.databaseBackup.healthcheck.None? {
      SameLocal(s, k);
    } else {
      var o := s.Obj(k, ver);
      var saved := t.outcome != Failed && Ref(BackupKind, id) in s.records;
      var check := HealthcheckOf(o.spec.databaseBackup.healthcheck.value, id);
      var b := if saved then s.(healthchecks := s.healthchecks[id := check]) else s;
      FlyLocal(s, b, k, AfterCheck(o, ver, id, saved && t.outcome == Done, t.message));
    }
  }

  lemma RefreshEffect(s: State, k: Key, ver: nat, id: string, t: Turn)
    ensures var u := Refresh(s, k, ver, id, t); u == s.(flights := u.flights) && Local(s, u, k)
    ensures s.Holds(k, ver) ==>
              Refresh(s, k, ver, id, t).FlightOf(k) ==
              AfterRefresh(k, s.Obj(k, ver), ver, id,
                           if t.outcome == Done && Ref(BackupKind, id) in s.records then Some(s.ReportOf(id)) else None)
  {
    hide AfterRefresh;
  }

  lemma WriteStatusEffect(s: State, k: Key, ver: nat, verdict: Verdict, t: Turn)
    ensures var u := WriteStatus(s, k, ver, verdict, t);
            u == s.(flights := u.flights, tracks := u.tracks, lost := u.lost) && Local(s, u, k)
    ensures s.Holds(k, ver) ==>
              WriteStatus(s, k, ver, verdict, t).FlightOf(k) ==
              Returning(ver, ResultOf(k.kind, verdict, Accepted(s, k, ver, t) && t.outcome == Done))
    ensures s.Holds(k, ver) ==>
              var o := s.Obj(k, ver);
              var status := StatusOf(o, verdict, t.now);
              WriteStatus(s, k, ver, verdict, t).TrackOf(k) ==
              Written(s, k, Accepted(s, k, ver, t) && status != o.status, Present(o.(status := status)))
  {
    hide StatusOf, ResultOf, Abandon, NewId, Accepted, Local, State.Fly, State.Push, State.TrackOf, State.FlightOf, State.Holds, State.Obj;
    AbandonEffect(s, k);
    if !s.Holds(k, ver) { SameLocal(s, k); }
    else {
      var o := s.Obj(k, ver);
      var status := StatusOf(o, verdict, t.now);
      var f := Returning(ver, ResultOf(k.kind, verdict, Accepted(s, k, ver, t) && t.outcome == Done));
      if !Accepted(s, k, ver, t) { FlyLocal(s, Abandon(s, k), k, f); }
      else if status != o.status { PushLocal(s, k, Present(o.(status := status)), f); }
      else { FlyLocal(s, s, k, f); }
    }
  }

  /** The workspace keeps its name, no reading is forgotten, and none is made up. */
  ghost predicate Honest(s: State, u: State) {
    && u.workspace == s.workspace && s.readings <= u.readings
    && (forall r :: r in u.readings && r !in s.readings ==>
          Lookup(s, r.owner.key.namespace, r.need) == Some(r.value))
  }

  lemma EventEffect(s: State, e: Event)
    ensures Honest(s, Apply(s, e))
  {
    hide WorkOn, Abandon, Lookup;
    match e
    case UserCreate(_, _, _) => UserEffect(s, e);
    case UserEdit(_, _) => UserEffect(s, e);
    case UserTouch(_, _) => UserEffect(s, e);
    case UserDelete(_) => UserEffect(s, e);
    case SetSecret(_, _) =>
    case DropSecret(_) =>
    case SetReport(_, _) =>
    case Observe(_, _) =>
    case Wake(_) =>
    case Crash(k) => AbandonEffect(s, k);
    case Work(k, t) => WorkEffect(s, k, t);
  }

  lemma UserEffect(s: State, e: Event)
    requires IsUserEvent(e)
    ensures Apply(s, e) == s.(tracks := Apply(s, e).tracks)
  {
    hide Stored, Finalizer;
  }

  lemma AbandonEffect(s: State, k: Key)
    ensures Abandon(s, k) == s.(lost := if NewId(s, k) == "" then s.lost else s.lost + {Ref(k.kind, NewId(s, k))})
  {
    if NewId(s, k) == "" {
      assert Abandon(s, k) == s;
    }
  }

  /** The next call of the worker is a create or an update of the record. */
  ghost predicate Saves(s: State, k: Key) {
    var f := s.FlightOf(k);
    f.Gathering? && s.Holds(k, f.Ver()) && Complete(s.Obj(k, f.Ver()).spec, f.Got())
  }

  /** The footprint of a call that is not a save. */
  ghost predicate Footprint(s: State, u: State, k: Key, f: Flight) {
    && Local(s, u, k)
    && u.workspace == s.workspace && u.issued == s.issued && u.secrets == s.secrets && u.reports == s.reports
    && (!f.Removing? ==> u.records == s.records)
    && (!f.Removing? && !f.Configuring? ==> u.backupConfigs == s.backupConfigs)
    && (!f.Removing? && !f.Probing? ==> u.healthchecks == s.healthchecks)
    && (!f.Reporting? ==> u.lost == s.lost)
    && (!f.Gathering? ==> u.readings == s.readings)
    && (!f.Attaching? && !f.Detaching? && !f.Reporting? ==> u.tracks == s.tracks)
    && (!f.Idle? && !f.Returning? ==> u.queued == s.queued)
  }

  /** Which function the next call of a flight is. */
  lemma WorkIs(s: State, k: Key, t: Turn)
    ensures var f := s.FlightOf(k);
            && (f.Idle? && k in s.queued ==> WorkOn(s, k, t) == Fetch(s.(queued := s.queued - {k}), k, t))
            && (f.Idle? && k !in s.queued ==> WorkOn(s, k, t) == s)
            && (f.Removing? ==> WorkOn(s, k, t) == Remove(s, k, f.Ver(), t))
            && (f.Configuring? ==> WorkOn(s, k, t) == Configure(s, k, f.Ver(), f.Got(), f.id, t))
            && (f.Probing? ==> WorkOn(s, k, t) == Probe(s, k, f.Ver(), f.id, t))
            && (f.Refreshing? ==> WorkOn(s, k, t) == Refresh(s, k, f.Ver(), f.id, t))
            && (f.Reporting? ==> WorkOn(s, k, t) == WriteStatus(s, k, f.Ver(), f.verdict, t))
  {
    hide Fetch, Remove, WriteObject, Gather, CreateRecord, UpdateRecord, Configure, Probe, Refresh, WriteStatus, Plan, Finalizer,
         AddFinalizer, RemoveFinalizer;
  }

  /** What an Attaching or Detaching worker writes. */
  function Rewritten(s: State, k: Key): Object {
    var f := s.FlightOf(k);
    var o := s.Obj(k, f.Ver());
    o.(finalizers := if f.Attaching? then AddFinalizer(o.finalizers, Finalizer(k.kind))
                     else RemoveFinalizer(o.finalizers, Finalizer(k.kind)))
  }

  lemma ObjectIs(s: State, k: Key, t: Turn)
    requires s.FlightOf(k).Attaching? || s.FlightOf(k).Detaching?
    ensures WorkOn(s, k, t) == WriteObject(s, k, s.FlightOf(k).Ver(), Rewritten(s, k), t)
  {
    hide WriteObject, Finalizer, AddFinalizer, RemoveFinalizer;
  }

  lemma SaveIs(s: State, k: Key, t: Turn)
    requires Saves(s, k)
    ensures var f := s.FlightOf(k);
            WorkOn(s, k, t) ==
            if s.Obj(k, f.Ver()).status.id == "" then CreateRecord(s, k, f.Ver(), f.Got(), t)
            else UpdateRecord(s, k, f.Ver(), f.Got(), t)
  {
    CompletePlan(s.Obj(k, s.FlightOf(k).Ver()).spec, s.FlightOf(k).Got());
    hide CreateRecord, Gather, UpdateRecord, Complete, Plan;
  }

  lemma ReturnIs(s: State, k: Key, t: Turn)
    requires s.FlightOf(k).Returning?
    ensures WorkOn(s, k, t) == if s.FlightOf(k).result.Again() then s.Fly(k, Idle).Enqueue(k) else s.Fly(k, Idle)
  {
    hide Fetch, Remove, WriteObject, Gather, CreateRecord, UpdateRecord, Configure, Probe, Refresh, WriteStatus, Complete, Plan,
         Finalizer;
  }

  lemma IdleLocal(s: State, k: Key)
    ensures Local(s, s.Fly(k, Idle), k) && Local(s, s.Fly(k, Idle).Enqueue(k), k)
  {
  }

  /** The calls that only read, and those to databasus. */
  lemma CallFootprint(s: State, k: Key, t: Turn)
    requires var f := s.FlightOf(k);
             (f.Gathering? && |f.Got()| < |Plan(s.Obj(k, f.Ver()).spec)|) || f.Removing? || f.Configuring? || f.Probing? || f.Refreshing?
    ensures Footprint(s, WorkOn(s, k, t), k, s.FlightOf(k))
  {
    hide Complete, Plan, Local, Lookup, Remove, Gather, Configure, Probe, Refresh, WriteObject, WriteStatus, Fetch,
         CreateRecord, UpdateRecord;
    match s.FlightOf(k)
    case Removing(ver) => RemoveEffect(s, k, ver, t);
    case Gathering(ver, got) => GatherEffect(s, k, ver, got, t);
    case Configuring(ver, got, id) => ConfigureEffect(s, k, ver, got, id, t);
    case Probing(ver, got, id) => ProbeEffect(s, k, ver, id, t);
    case Refreshing(ver, id) => RefreshEffect(s, k, ver, id, t);
  }

  /** Those that write to the API server. */
  lemma WriteFootprint(s: State, k: Key, t: Turn)
    requires s.FlightOf(k).Attaching? || s.FlightOf(k).Detaching? || s.FlightOf(k).Reporting?
    ensures Footprint(s, WorkOn(s, k, t), k, s.FlightOf(k))
  {
    hide Finalizer, AddFinalizer, RemoveFinalizer, Local, WriteObject, WriteStatus;
    var o := s.Obj(k, s.FlightOf(k).Ver());
    match s.FlightOf(k)
    case Detaching(ver) => WriteObjectEffect(s, k, ver, o.(finalizers := RemoveFinalizer(o.finalizers, Finalizer(k.kind))), t);
    case Attaching(ver) => WriteObjectEffect(s, k, ver, o.(finalizers := AddFinalizer(o.finalizers, Finalizer(k.kind))), t);
    case Reporting(ver, verdict) => WriteStatusEffect(s, k, ver, verdict, t);
  }

  lemma Footprints(s: State, k: Key, t: Turn)
    requires !Saves(s, k)
    ensures Footprint(s, WorkOn(s, k, t), k, s.FlightOf(k))
  {
    hide Remove, WriteObject, Gather, CreateRecord, UpdateRecord, Configure, Probe, Refresh, WriteStatus, Finalizer;
    var f := s.FlightOf(k);
    if f.Idle? {
      hide Fetch, Local;
      if k in s.queued { FetchEffect(s, k, t); } else { SameLocal(s, k); }
    } else if f.Returning? {
      hide Local;
      IdleLocal(s, k);
    } else if f.Attaching? || f.Detaching? || f.Reporting? {
      hide WorkOn, Footprint;
      WriteFootprint(s, k, t);
    } else if f.Gathering? && |f.Got()| >= |Plan(s.Obj(k, f.Ver()).spec)| {
      hide WorkOn, Local, Plan, Complete;
      BlockedStays(s, k, t);
      SameLocal(s, k);
    } else {
      hide WorkOn, Footprint, Plan;
      CallFootprint(s, k, t);
    }
  }

  /** A read shows what the cache shows. */
  lemma ReadsHonestly(s: State, k: Key, t: Turn)
    requires s.FlightOf(k).Gathering? && !Saves(s, k)
    ensures Honest(s, WorkOn(s, k, t))
  {
    hide Gather, Complete, Plan, CreateRecord, UpdateRecord, Lookup, Local;
    if Blocked(s, k) { BlockedStays(s, k, t); } else { GatherEffect(s, k, s.FlightOf(k).Ver(), s.FlightOf(k).Got(), t); }
  }

  /** A save that changes anything changes one record: under the ID of the status if there is one,
      and then nothing is issued; else under an ID never issued before, which becomes the object's. */
  ghost predicate SavedUnder(s: State, u: State, k: Key, o: Object, ref: Ref) {
    && u == s.(flights := u.flights, records := u.records, issued := u.issued, lost := u.lost) && Local(s, u, k)
    && (u.records == s.records || (ref in u.records && u.records == s.records[ref := u.records[ref]]))
    && (o.status.id != "" ==>
          ref.id == o.status.id && u.issued == s.issued && u.records.Keys == s.records.Keys && u.lost == s.lost)
    && (o.status.id == "" ==>
          if u.issued == s.issued then u.records == s.records && u.lost == s.lost
          else ref !in s.issued && u.issued == s.issued[ref := Owner(k, o.uid)] && (u.lost == s.lost || u.lost == s.lost + {ref}))
  }

  lemma SavesUnder(s: State, k: Key, t: Turn) returns (ref: Ref)
    requires Saves(s, k)
    ensures ref.kind == k.kind && SavedUnder(s, WorkOn(s, k, t), k, s.Obj(k, s.FlightOf(k).Ver()), ref)
  {
    hide WorkOn, CreateRecord, UpdateRecord, SavedUnder, Complete;
    var f := s.FlightOf(k);
    var o := s.Obj(k, f.Ver());
    SaveIs(s, k, t);
    if o.status.id == "" {
      ref := Ref(k.kind, t.newID);
      CreateUnder(s, k, f.Ver(), f.Got(), t);
    } else {
      ref := Ref(k.kind, o.status.id);
      UpdateUnder(s, k, f.Ver(), f.Got(), t);
    }
  }

  lemma CreateUnder(s: State, k: Key, ver: nat, got: seq<string>, t: Turn)
    requires s.Holds(k, ver) && Complete(s.Obj(k, ver).spec, got) && s.Obj(k, ver).status.id == ""
    ensures SavedUnder(s, CreateRecord(s, k, ver, got, t), k, s.Obj(k, ver), Ref(k.kind, t.newID))
  {
    hide Complete, Plan, RequestOf, AfterRecord, Local;
    CreateEffect(s, k, ver, got, t);
  }

  lemma UpdateUnder(s: State, k: Key, ver: nat, got: seq<string>, t: Turn)
    requires s.Holds(k, ver) && Complete(s.Obj(k, ver).spec, got) && s.Obj(k, ver).status.id != ""
    ensures SavedUnder(s, UpdateRecord(s, k, ver, got, t), k, s.Obj(k, ver), Ref(k.kind, s.Obj(k, ver).status.id))
  {
    hide Complete, Plan, RequestOf, AfterSave;
  }

  lemma CompletePlan(spec: Spec, got: seq<string>)
    requires Complete(spec, got)
    ensures |got| == |Plan(spec)|
  {
  }

  lemma WorkEffect(s: State, k: Key, t: Turn)
    ensures Honest(s, WorkOn(s, k, t))
  {
    hide WorkOn, Lookup, Saves;
    if Saves(s, k) {
      var ref := SavesUnder(s, k, t);
    } else if s.FlightOf(k).Gathering? {
      ReadsHonestly(s, k, t);
    } else {
      Footprints(s, k, t);
    }
  }

  // ------------------------------------------------- Ready tells the truth

  /** The object is Ready for its current generation. */
  ghost predicate ReadyNow(s: State, k: Key) {
    Last(s.Versions(k)).Present? && ReadyAtItsGeneration(Last(s.Versions(k)).Value())
  }

  /** The record of the object is what the builders yield for its spec and these secret values and IDs, and each of
      them was read by a reconcile of this very generation, for its place in the plan. */
  ghost predicate RecordFrom(s: State, k: Key, o: Object, got: seq<string>) {
    var ref := Ref(k.kind, o.status.id);
    && o.status.id != "" && ref in s.records && Complete(o.spec, got) && ReadBy(s, k, o, got)
    && s.records[ref] == RequestOf(s.workspace, o.spec, got).WithId(o.status.id)
  }

  /** The same for the backup config, with the storage ID that was read, and for the healthcheck config of a spec
      that has one. */
  ghost predicate ConfigsFrom(s: State, k: Key, o: Object, storageID: string) {
    o.spec.ForBackup? &&
    var spec := o.spec.databaseBackup;
    var id := o.status.id;
    && id in s.backupConfigs && s.backupConfigs[id] == BackupConfigOf(spec, id, storageID)
    && Read(Owner(k, o.uid), o.generation, 0, Reference(StorageKind, spec.backup.storageRef), storageID) in s.readings
    && (spec.healthcheck.Some? ==>
          id in s.healthchecks && s.healthchecks[id] == HealthcheckOf(spec.healthcheck.value, id))
  }

  lemma ReadyMatches(s: State, k: Key)
    requires Inv(s) && ReadyNow(s, k)
    ensures var o := Last(s.Versions(k)).Value();
            o.status.id != "" && o.spec.Kind() == k.kind && RemoteMatches(s, k, o, o.status.id)
  {
    hide Plan, Complete, RequestOf, FlightInv, HorizonInv, OwnInv, RemovalInv, FlightMatch, OriginInv, WakeInv, GlobalInv,
         Finalizer, IsReady, RecordMatches, ConfigMatches, HealthcheckMatches;
    InvKey(s, k);
    assert s.Versions(k)[|s.Versions(k)| - 1] == Last(s.Versions(k));
    ReadyHasId(k.kind, Last(s.Versions(k)).Value());
  }

  /** If the current status of a DatabaseBackup says Ready for the current generation, databasus
      holds the database record, the backup config and, if the spec has one, the healthcheck config
      that the builders yield for the current spec. */
  lemma ReadyMeansSynced(workspace: string, events: seq<Event>, k: Key) returns (got: seq<string>, storageID: string)
    requires k.kind == BackupKind && ReadyNow(Run(Empty(workspace), events), k)
    ensures var s := Run(Empty(workspace), events);
            var o := Last(s.Versions(k)).Value();
            s.workspace == workspace && RecordFrom(s, k, o, got) && ConfigsFrom(s, k, o, storageID)
  {
    hide Run, Inv, ReadyNow, Plan, Complete, RequestOf, ReadBy, BackupConfigOf, HealthcheckOf;
    var s := Run(Empty(workspace), events);
    Reachable(workspace, events);
    WorkspaceFixed(Empty(workspace), events);
    ReadyMatches(s, k);
    var o := Last(s.Versions(k)).Value();
    got := MatchingRecord(s, k, o);
    storageID := MatchingConfig(s, k, o);
  }

  lemma MatchingRecord(s: State, k: Key, o: Object) returns (got: seq<string>)
    requires o.status.id != "" && RecordMatches(s, k, o, o.status.id)
    ensures RecordFrom(s, k, o, got)
  {
    hide Complete, ReadBy, RequestOf;
    got :| Complete(o.spec, got) && ReadBy(s, k, o, got) &&
           s.records[Ref(k.kind, o.status.id)] == RequestOf(s.workspace, o.spec, got).WithId(o.status.id);
  }

  lemma MatchingConfig(s: State, k: Key, o: Object) returns (storageID: string)
    requires ConfigMatches(s, k, o, o.status.id) && HealthcheckMatches(s, o, o.status.id)
    ensures ConfigsFrom(s, k, o, storageID)
  {
    hide BackupConfigOf, HealthcheckOf;
    var spec := o.spec.databaseBackup;
    storageID :| Read(Owner(k, o.uid), o.generation, 0, Reference(StorageKind, spec.backup.storageRef), storageID) in s.readings
                 && s.backupConfigs[o.status.id] == BackupConfigOf(spec, o.status.id, storageID);
  }

  /** The same for the record of a Storage or Notifier. */
  lemma ReadyMeansSaved(workspace: string, events: seq<Event>, k: Key) returns (got: seq<string>)
    requires k.kind != BackupKind && ReadyNow(Run(Empty(workspace), events), k)
    ensures var s := Run(Empty(workspace), events);
            s.workspace == workspace && RecordFrom(s, k, Last(s.Versions(k)).Value(), got)
  {
    hide Run, Inv, ReadyNow, Plan, Complete, RequestOf, ReadBy, ConfigMatches, HealthcheckMatches;
    var s := Run(Empty(workspace), events);
    Reachable(workspace, events);
    WorkspaceFixed(Empty(workspace), events);
    ReadyMatches(s, k);
    got := MatchingRecord(s, k, Last(s.Versions(k)).Value());
  }

  lemma {:induction false} WorkspaceFixed(s: State, events: seq<Event>)
    ensures Run(s, events).workspace == s.workspace
  {
    hide Apply;
    if events != [] {
      WorkspaceFixed(s, events[..|events| - 1]);
      EventEffect(Run(s, events[..|events| - 1]), events[|events| - 1]);
    }
  }

  /** The values are real: each reading was what the cache showed in some earlier state of the run. */
  lemma {:induction false} ReadingsAreReal(workspace: string, events: seq<Event>, r: Read)
    requires r in Run(Empty(workspace), events).readings
    ensures exists n :: 0 <= n < |events| &&
              Lookup(Run(Empty(workspace), events[..n]), r.owner.key.namespace, r.need) == Some(r.value)
  {
    hide Lookup;
    var n := |events| - 1;
    if events == [] {
      assert false;
    } else if r in Run(Empty(workspace), events[..n]).readings {
      ReadingsAreReal(workspace, events[..n], r);
      var m :| 0 <= m < n && Lookup(Run(Empty(workspace), events[..n][..m]), r.owner.key.namespace, r.need) == Some(r.value);
      assert events[..n][..m] == events[..m];
    } else {
      NewReading(Run(Empty(workspace), events[..n]), events[n], r);
    }
  }

  lemma NewReading(s: State, e: Event, r: Read)
    requires r !in s.readings && r in Apply(s, e).readings
    ensures Lookup(s, r.owner.key.namespace, r.need) == Some(r.value)
  {
    hide Lookup, Apply;
    EventEffect(s, e);
  }

  // ---------------------------------------------------- histories of objects

  /** What versions of one object, earlier and later in any run, have to do with each other. The ID is
      written once; a marked object keeps its status; the observed generation never falls; the
      generation moves with the spec and with the mark; the finalizer goes only from a marked object,
      and never comes back. */
  lemma Histories(workspace: string, events: seq<Event>, k: Key, i: nat, j: nat)
    ensures var versions := Run(Empty(workspace), events).Versions(k);
            i <= j < |versions| && SameObject(versions[i], versions[j]) ==>
              var a, b := versions[i].Value(), versions[j].Value();
              && (a.status.id != "" ==> b.status.id == a.status.id)
              && (a.deleting ==> b.deleting && b.status == a.status)
              && a.status.observedGeneration <= b.status.observedGeneration
              && a.generation <= b.generation && (a.generation == b.generation ==> a.spec == b.spec)
              && (Attached(k.kind, a) && !Attached(k.kind, b) ==> b.deleting)
              && (a.deleting && !Attached(k.kind, a) ==> !Attached(k.kind, b))
  {
    hide Run, GoodObject, FlightInv, HorizonInv, OwnInv, RemovalInv, MatchInv, OriginInv, WakeInv, GlobalInv, Finalizer;
    Reachable(workspace, events);
    InvKey(Run(Empty(workspace), events), k);
  }

  /** The Ready condition and the observed generation of every version ever committed. */
  lemma Generations(workspace: string, events: seq<Event>, k: Key, i: nat)
    ensures var s := Run(Empty(workspace), events);
            s.Holds(k, i) ==>
              var o := s.Obj(k, i);
              && o.status.observedGeneration <= o.generation
              && |o.status.conditions| <= 1
              && (forall c :: c in o.status.conditions ==>
                    && c.conditionType == "Ready"
                    && o.status.observedGeneration <= c.observedGeneration <= o.generation
                    && (c.status == True ==> c.observedGeneration == o.status.observedGeneration && o.status.id != ""))
  {
    hide Run, FlightInv, HorizonInv, OwnInv, RemovalInv, MatchInv, OriginInv, WakeInv, GlobalInv, Finalizer, Shape;
    var s := Run(Empty(workspace), events);
    Reachable(workspace, events);
    InvKey(s, k);
    if s.Holds(k, i) { TrackGood(s, k, i); }
  }

  /** Reporting the same success again, at any time, changes nothing; and what it leaves is Ready. */
  lemma ReportedTwice(kind: Kind, o: Object, id: string, vitals: Vitals, now: int, later: int)
    ensures var done := o.(status := StatusOf(o, Success(kind, id, vitals), now));
            && StatusOf(done, Success(kind, id, vitals), later) == done.status
            && ReadyAtItsGeneration(done) && done.status.id == id && done.status.vitals == vitals
  {
    var new_ := ReadyCondition(True, o.generation, now, SYNCED, SyncedMessage(kind));
    SetStatusConditionLaws(o.status.conditions, new_, later);
    hide SetStatusCondition, FindStatusCondition, SyncedMessage;
  }

  /** Nor does reporting the same failure again; and it leaves the ID and the observed generation alone. */
  lemma FailedTwice(o: Object, reason: string, message: string, now: int, later: int)
    ensures var failed := o.(status := StatusOf(o, Failure(o, reason, message, o.status.id), now));
            && StatusOf(failed, Failure(failed, reason, message, failed.status.id), later) == failed.status
            && !ReadyAtItsGeneration(failed) && failed.status.id == o.status.id && failed.status.vitals == o.status.vitals
            && failed.status.observedGeneration == o.status.observedGeneration
  {
    var new_ := ReadyCondition(False, o.generation, now, reason, message);
    SetStatusConditionLaws(o.status.conditions, new_, later);
    hide SetStatusCondition, IndexOf;
  }

  // -------------------------------------------------------- finalizer safety

  /** Once the operator's finalizer is gone from an object that had an ID, deletion had been requested,
      the record with that ID no longer exists, and it never exists again, whatever happens later. */
  lemma FinalizerSafety(workspace: string, events: seq<Event>, more: seq<Event>, k: Key, i: nat)
    ensures var s := Run(Empty(workspace), events);
            s.Holds(k, i) && s.Obj(k, i).status.id != "" && Released(k.kind, s.Obj(k, i), Last(s.Versions(k))) ==>
              var o := s.Obj(k, i);
              && (exists j :: 0 <= j < |s.Versions(k)| && SameObject(s.Versions(k)[i], s.Versions(k)[j]) &&
                              s.Versions(k)[j].Value().deleting)
              && Ref(k.kind, o.status.id) !in Run(s, more).records
  {
    hide Run, FlightInv, OwnInv, MatchInv, OriginInv, WakeInv, GlobalInv, Finalizer, GoodCondition;
    var s := Run(Empty(workspace), events);
    var versions := s.Versions(k);
    Reachable(workspace, events);
    InvKey(s, k);
    if s.Holds(k, i) && s.Obj(k, i).status.id != "" && Released(k.kind, s.Obj(k, i), Last(versions)) {
      var o := s.Obj(k, i);
      assert versions[i].Present?;
      if !o.deleting {
        assert DeletionSeen(s, k, o.uid);
        var j :| 0 <= j < |versions| && versions[j].Present? && versions[j].Value().uid == o.uid && versions[j].Value().deleting;
        assert SameObject(versions[i], versions[j]);
      } else {
        assert SameObject(versions[i], versions[i]);
      }
      IssuedFor(s, k, i);
      NeverAgain(s, more, Ref(k.kind, o.status.id));
    }
  }

  lemma IssuedFor(s: State, k: Key, i: nat)
    requires Inv(s) && s.Holds(k, i) && s.Obj(k, i).status.id != ""
    ensures var ref := Ref(k.kind, s.Obj(k, i).status.id);
            ref in s.issued && s.issued[ref] == Owner(k, s.Obj(k, i).uid)
  {
    hide Shape, FlightInv, HorizonInv, RemovalInv, MatchInv, OriginInv, WakeInv, GlobalInv, NewId;
    assert KeyInv(s, k);
    assert s.Versions(k)[i].Present?;
  }

  /** A record that is gone stays gone: creates use IDs never issued, updates need the record. */
  lemma {:induction false} NeverAgain(s: State, more: seq<Event>, ref: Ref)
    requires ref in s.issued && ref !in s.records
    ensures ref in Run(s, more).issued && ref !in Run(s, more).records
  {
    hide Apply;
    if more != [] {
      NeverAgain(s, more[..|more| - 1], ref);
      StaysGone(Run(s, more[..|more| - 1]), more[|more| - 1], ref);
    }
  }

  lemma StaysGone(s: State, e: Event, ref: Ref)
    requires ref in s.issued && ref !in s.records
    ensures ref in Apply(s, e).issued && ref !in Apply(s, e).records
  {
    hide WorkOn, Abandon, Saves;
    if IsUserEvent(e) { UserEffect(s, e); }
    else if e.Crash? { AbandonEffect(s, e.key); }
    else if e.Work? {
      if Saves(s, e.key) {
        var saved := SavesUnder(s, e.key, e.turn);
      } else {
        Footprints(s, e.key, e.turn);
        if s.FlightOf(e.key).Removing? { RemovingShrinks(s, e.key, e.turn); }
      }
    }
  }

  lemma RemovingShrinks(s: State, k: Key, t: Turn)
    requires s.FlightOf(k).Removing?
    ensures var u := WorkOn(s, k, t);
            && (forall ref :: ref in u.records ==> ref in s.records && u.records[ref] == s.records[ref])
            && (forall id :: id in u.backupConfigs ==> id in s.backupConfigs && u.backupConfigs[id] == s.backupConfigs[id])
            && (forall id :: id in u.healthchecks ==> id in s.healthchecks && u.healthchecks[id] == s.healthchecks[id])
  {
    WorkIs(s, k, t);
    hide WorkOn;
    RemoveShrinks(s, k, s.FlightOf(k).Ver(), t);
  }

  lemma RemoveShrinks(s: State, k: Key, ver: nat, t: Turn)
    ensures var u := Remove(s, k, ver, t);
            && (forall ref :: ref in u.records ==> ref in s.records && u.records[ref] == s.records[ref])
            && (forall id :: id in u.backupConfigs ==> id in s.backupConfigs && u.backupConfigs[id] == s.backupConfigs[id])
            && (forall id :: id in u.healthchecks ==> id in s.healthchecks && u.healthchecks[id] == s.healthchecks[id])
  {
    match t.outcome
    case Done =>
    case Failed =>
    case Lost =>
  }

  // --------------------------------------------------- saves under protection

  /** The operator saves under the finalizer's protection only. Whatever event brings a record, backup
      config or healthcheck config of a resource into being or changes one: it is a call of that
      resource's worker, the version it works on carries the finalizer and no deletion mark, and the
      object, as currently stored, still carries the finalizer. */
  lemma SavesAreProtected(workspace: string, events: seq<Event>, e: Event, ref: Ref)
    ensures var s := Run(Empty(workspace), events);
            var u := Apply(s, e);
            && (ref in u.records && (ref !in s.records || u.records[ref] != s.records[ref]) ==>
                  e.Work? && ref in u.issued && u.issued[ref].key == e.key && Protected(s, e.key, u.issued[ref].uid))
            && (ref.kind == BackupKind && ref.id in u.backupConfigs &&
                (ref.id !in s.backupConfigs || u.backupConfigs[ref.id] != s.backupConfigs[ref.id]) ==>
                  e.Work? && ref in s.issued && s.issued[ref].key == e.key && Protected(s, e.key, s.issued[ref].uid))
            && (ref.kind == BackupKind && ref.id in u.healthchecks &&
                (ref.id !in s.healthchecks || u.healthchecks[ref.id] != s.healthchecks[ref.id]) ==>
                  e.Work? && ref in s.issued && s.issued[ref].key == e.key && Protected(s, e.key, s.issued[ref].uid))
  {
    var s := Run(Empty(workspace), events);
    hide Run, Inv, WorkOn, Abandon;
    Reachable(workspace, events);
    if IsUserEvent(e) { UserEffect(s, e); }
    else if e.Crash? { AbandonEffect(s, e.key); }
    else if e.Work? { WorkProtected(s, e.key, e.turn, ref); }
  }

  ghost predicate Protected(s: State, k: Key, uid: nat) {
    var f := s.FlightOf(k);
    && Active(f) && s.Holds(k, f.Ver())
    && s.Obj(k, f.Ver()).uid == uid && Attached(k.kind, s.Obj(k, f.Ver())) && !s.Obj(k, f.Ver()).deleting
    && var last := Last(s.Versions(k));
       last.Present? && last.Value().uid == uid && Attached(k.kind, last.Value())
  }

  lemma ActiveProtected(s: State, k: Key)
    requires Inv(s) && Active(s.FlightOf(k))
    ensures s.Holds(k, s.FlightOf(k).Ver()) && Protected(s, k, s.Obj(k, s.FlightOf(k).Ver()).uid)
  {
    hide Shape, HorizonInv, RemovalInv, MatchInv, OriginInv, WakeInv, GlobalInv, NewId, OwnInv, Plan, Complete, Finalizer;
    assert KeyInv(s, k);
  }

  lemma WorkProtected(s: State, k: Key, t: Turn, ref: Ref)
    requires Inv(s)
    ensures var u := WorkOn(s, k, t);
            && (ref in u.records && (ref !in s.records || u.records[ref] != s.records[ref]) ==>
                  ref in u.issued && u.issued[ref].key == k && Protected(s, k, u.issued[ref].uid))
            && (ref.kind == BackupKind && ref.id in u.backupConfigs &&
                (ref.id !in s.backupConfigs || u.backupConfigs[ref.id] != s.backupConfigs[ref.id]) ==>
                  ref in s.issued && s.issued[ref].key == k && Protected(s, k, s.issued[ref].uid))
            && (ref.kind == BackupKind && ref.id in u.healthchecks &&
                (ref.id !in s.healthchecks || u.healthchecks[ref.id] != s.healthchecks[ref.id]) ==>
                  ref in s.issued && s.issued[ref].key == k && Protected(s, k, s.issued[ref].uid))
  {
    hide Inv, Protected, WorkOn, Complete, Plan;
    var f := s.FlightOf(k);
    if Active(f) {
      ActiveProtected(s, k);
      FlightOwns(s, k);
      if Saves(s, k) { var saved := SavesUnder(s, k, t); }
      else {
        Footprints(s, k, t);
        if f.Configuring? || f.Probing? { OneConfig(s, k, t); }
      }
    } else {
      Footprints(s, k, t);
      if f.Removing? { RemovingShrinks(s, k, t); }
    }
  }

  lemma OneConfig(s: State, k: Key, t: Turn)
    requires s.FlightOf(k).Configuring? || s.FlightOf(k).Probing?
    ensures var u := WorkOn(s, k, t);
            var id := s.FlightOf(k).id;
            && (u.backupConfigs == s.backupConfigs ||
                (id in u.backupConfigs && u.backupConfigs == s.backupConfigs[id := u.backupConfigs[id]]))
            && (u.healthchecks == s.healthchecks ||
                (id in u.healthchecks && u.healthchecks == s.healthchecks[id := u.healthchecks[id]]))
  {
    hide Configure, Probe, Plan, Complete;
    var f := s.FlightOf(k);
    if f.Configuring? { ConfigureOne(s, k, f.Ver(), f.Got(), f.id, t); } else { ProbeOne(s, k, f.Ver(), f.id, t); }
  }

  lemma ConfigureOne(s: State, k: Key, ver: nat, got: seq<string>, id: string, t: Turn)
    ensures var u := Configure(s, k, ver, got, id, t);
            && u.healthchecks == s.healthchecks
            && (u.backupConfigs == s.backupConfigs ||
                (id in u.backupConfigs && u.backupConfigs == s.backupConfigs[id := u.backupConfigs[id]]))
  {
    hide BackupConfigOf, Failure;
    if t.outcome == Failed || Ref(BackupKind, id) !in s.records {
    } else {
    }
  }

  lemma ProbeOne(s: State, k: Key, ver: nat, id: string, t: Turn)
    ensures var u := Probe(s, k, ver, id, t);
            && u.backupConfigs == s.backupConfigs
            && (u.healthchecks == s.healthchecks ||
                (id in u.healthchecks && u.healthchecks == s.healthchecks[id := u.healthchecks[id]]))
  {
    hide HealthcheckOf, Failure;
    if t.outcome == Failed || Ref(BackupKind, id) !in s.records {
    } else {
    }
  }

  // ------------------------------------------------- references across controllers

  /** `id` was issued for the Storage or Notifier of this name, and its record is still there
      unless that very object has been asked to be deleted. */
  ghost predicate Resolves(s: State, kind: Kind, namespace: string, name: string, id: string) {
    var k := Key(kind, namespace, name);
    && Ref(kind, id) in s.issued && s.issued[Ref(kind, id)].key == k
    && (Ref(kind, id) in s.records ||
        exists j :: s.Holds(k, j) && s.Obj(k, j).uid == s.issued[Ref(kind, id)].uid && s.Obj(k, j).deleting)
  }

  lemma ReadingResolves(s: State, r: Read)
    requires Inv(s) && r in s.readings && r.need.Reference?
    ensures Resolves(s, r.need.kind, r.owner.key.namespace, r.need.name, r.value)
  {
    hide KeyInv;
    var k := Key(r.need.kind, r.owner.key.namespace, r.need.name);
    var ref := Ref(r.need.kind, r.value);
    assert KeyInv(s, k);
    if ref !in s.records {
      assert DeletionSeen(s, k, s.issued[ref].uid) by {
        UnfoldKey(s, k);
        hide TrackInv, FlightInv, HorizonInv, OwnInv, MatchInv, OriginInv, WakeInv, DeletionSeen;
      }
      var j :| 0 <= j < |s.Versions(k)| && s.Versions(k)[j].Present? && s.Versions(k)[j].Value().uid == s.issued[ref].uid &&
               s.Versions(k)[j].Value().deleting;
      assert s.Holds(k, j);
    }
  }

  /** The notifiers that a database record names are, in order and with duplicates, those that some
      version of its DatabaseBackup refers to. */
  lemma NotifierReferences(workspace: string, events: seq<Event>, ref: Ref)
    ensures var s := Run(Empty(workspace), events);
            ref.kind == BackupKind && ref in s.records ==>
              && ref in s.issued && s.records[ref].SaveDatabaseCall?
              && exists v :: LinksResolve(s, s.issued[ref], v, s.records[ref].database.notifiers)
  {
    hide Run, Plan, RequestOf, Complete, KeyInv, Resolves, ReadBy;
    var s := Run(Empty(workspace), events);
    Reachable(workspace, events);
    if ref.kind == BackupKind && ref in s.records {
      var k := s.issued[ref].key;
      assert KeyInv(s, k);
      assert TrackInv(s, k) && OriginInv(s, k) by { UnfoldKey(s, k); }
      var v :| 0 <= v < |s.Versions(k)| && s.Versions(k)[v].Present? && s.Versions(k)[v].Value().uid == s.issued[ref].uid &&
               RecordMatches(s, k, s.Versions(k)[v].Value(), ref.id);
      var o := s.Versions(k)[v].Value();
      assert GoodObject(k.kind, o);
      var got :| Complete(o.spec, got) && ReadBy(s, k, o, got) &&
                 s.records[Ref(k.kind, ref.id)] == RequestOf(s.workspace, o.spec, got).WithId(ref.id);
      WithIdKeepsLinks(RequestOf(s.workspace, o.spec, got), ref.id);
      LinksWereRead(s, k, o, got);
      assert LinksResolve(s, s.issued[ref], v, s.records[ref].database.notifiers);
    }
  }

  ghost predicate LinksResolve(s: State, owner: Owner, v: nat, links: seq<NotifierLink>) {
    && s.Holds(owner.key, v) && s.Obj(owner.key, v).uid == owner.uid && s.Obj(owner.key, v).spec.ForBackup?
    && var names := s.Obj(owner.key, v).spec.databaseBackup.database.notifierRefs;
       && |links| == |names|
       && forall i :: 0 <= i < |names| ==> Resolves(s, NotifierKind, owner.key.namespace, names[i], links[i].id)
  }

  lemma WithIdKeepsLinks(r: Request, id: string)
    requires r.SaveDatabaseCall?
    ensures r.WithId(id).SaveDatabaseCall? && r.WithId(id).database.notifiers == r.database.notifiers
  {
  }

  lemma LinksWereRead(s: State, k: Key, o: Object, got: seq<string>)
    requires Inv(s) && o.spec.ForBackup? && Complete(o.spec, got) && ReadBy(s, k, o, got)
    ensures var names := o.spec.databaseBackup.database.notifierRefs;
            var links := RequestOf(s.workspace, o.spec, got).database.notifiers;
            |links| == |names| &&
            forall i :: 0 <= i < |names| ==> Resolves(s, NotifierKind, k.namespace, names[i], links[i].id)
  {
    hide Inv, Resolves, RequestOf, Plan, Complete;
    var spec := o.spec.databaseBackup;
    var names := spec.database.notifierRefs;
    forall i | 0 <= i < |names|
      ensures |RequestOf(s.workspace, o.spec, got).database.notifiers| == |names| &&
              Resolves(s, NotifierKind, k.namespace, names[i], RequestOf(s.workspace, o.spec, got).database.notifiers[i].id)
    {
      LinksKeepOrder(s.workspace, spec, got, i);
      ReferencesComeSecond(spec, i);
      CompletePlan(o.spec, got);
      var r := Read(Owner(k, o.uid), o.generation, 1 + i, Plan(o.spec)[1 + i], got[1 + i]);
      assert r in s.readings;
      ReadingResolves(s, r);
    }
    if names == [] { NoLinks(s.workspace, spec, got); } else { LinksKeepOrder(s.workspace, spec, got, 0); }
  }

  lemma NoLinks(workspace: string, spec: DatabaseBackupSpec, got: seq<string>)
    requires Complete(ForBackup(spec), got) && spec.database.notifierRefs == []
    ensures RequestOf(workspace, ForBackup(spec), got).database.notifiers == []
  {
    hide SslOf, PostgresqlRequestOf, MongodbRequestOf, SqlRequestOf, Complete;
    CompleteBackup(spec, got);
  }

  /** The storage that a backup config names is the one that some version of its DatabaseBackup refers to. */
  lemma StorageReference(workspace: string, events: seq<Event>, id: string)
    ensures var s := Run(Empty(workspace), events);
            var ref := Ref(BackupKind, id);
            id in s.backupConfigs ==>
              && ref in s.records && ref in s.issued
              && exists v :: StorageResolves(s, s.issued[ref], v, s.backupConfigs[id].storageID)
  {
    hide Run, KeyInv, StorageResolves, ConfigMatches;
    var s := Run(Empty(workspace), events);
    var ref := Ref(BackupKind, id);
    Reachable(workspace, events);
    if id in s.backupConfigs {
      var k := s.issued[ref].key;
      assert KeyInv(s, k);
      assert TrackInv(s, k) && OriginInv(s, k) by { UnfoldKey(s, k); }
      var v :| 0 <= v < |s.Versions(k)| && s.Versions(k)[v].Present? &&
               s.Versions(k)[v].Value().uid == s.issued[ref].uid && ConfigMatches(s, k, s.Versions(k)[v].Value(), id);
      ConfigResolves(s, k, v, id);
    }
  }

  lemma ConfigResolves(s: State, k: Key, v: nat, id: string)
    requires Inv(s) && s.Holds(k, v) && s.Obj(k, v).spec.ForBackup? && ConfigMatches(s, k, s.Obj(k, v), id)
    ensures StorageResolves(s, Owner(k, s.Obj(k, v).uid), v, s.backupConfigs[id].storageID)
  {
    hide Inv, BackupConfigOf, Resolves;
    var o := s.Obj(k, v);
    var spec := o.spec.databaseBackup;
    var sid :| Read(Owner(k, o.uid), o.generation, 0, Reference(StorageKind, spec.backup.storageRef), sid) in s.readings
               && s.backupConfigs[id] == BackupConfigOf(spec, id, sid);
    ReadingResolves(s, Read(Owner(k, o.uid), o.generation, 0, Reference(StorageKind, spec.backup.storageRef), sid));
    ConfigNamesStorage(spec, id, sid);
  }

  ghost predicate StorageResolves(s: State, owner: Owner, v: nat, id: string) {
    && s.Holds(owner.key, v) && s.Obj(owner.key, v).uid == owner.uid && s.Obj(owner.key, v).spec.ForBackup?
    && Resolves(s, StorageKind, owner.key.namespace, s.Obj(owner.key, v).spec.databaseBackup.backup.storageRef, id)
  }

  lemma ConfigNamesStorage(spec: DatabaseBackupSpec, id: string, storageID: string)
    ensures BackupConfigOf(spec, id, storageID).storageID == storageID
  {
  }

  // ------------------------------------------------------------ no lost wake-ups

  /** A worker that rests has a reason: its key is queued, or the watch has yet to show it a version, or
      the current version needs nothing: the object is gone, is released by the operator, is a Storage or
      Notifier synced at its generation, or asks for physical backups, which only an edit can change. */
  lemma NoLostWakeups(workspace: string, events: seq<Event>, k: Key)
    ensures var s := Run(Empty(workspace), events);
            s.FlightOf(k).Idle? && k !in s.queued && s.TrackOf(k).seen == |s.Versions(k)| - 1 ==>
              Settled(k.kind, Last(s.Versions(k)))
  {
    hide Run, TrackInv, FlightInv, HorizonInv, OwnInv, RemovalInv, MatchInv, OriginInv, GlobalInv, Settled;
    Reachable(workspace, events);
    InvKey(Run(Empty(workspace), events), k);
  }
}
