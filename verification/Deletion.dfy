/** Deletions, also when somebody removes records at databasus behind the operator's back. Such removals are
no events of the protocol, so a run here is a sequence of steps: events, and removals. To the operator
a removal is the same as calls that fail, which is how what is proved of runs carries over.
*/
module Deletions {
  import opened Resources
  import opened Conditions
  import opened Builders
  import opened Client
  import opened Protocol
  import opened Invariants
  import opened Inductive
  import opened Safety
  import opened Accounting
  import opened Locality
  import opened Stages
  import opened Progress
  import opened Calls

  datatype Step =
    | Ours(event: Event)
    | Vanish(ref: Ref)  // a record, with its configs, is removed at databasus by somebody else

  function TakeStep(x: State, step: Step): State {
    match step
    case Ours(e) => Apply(x, e)
    case Vanish(ref) => Vanished(x, ref)
  }

  function Go(x: State, steps: seq<Step>): State {
    if steps == [] then x else TakeStep(Go(x, steps[..|steps| - 1]), steps[|steps| - 1])
  }

  // ------------------------------------------ removals look like failed calls

  /** The same state with this at databasus. */
  datatype Remote = Remote(records: map<Ref, Request>, backupConfigs: map<string, BackupConfigRequest>,
                           healthchecks: map<string, HealthcheckRequest>)

  function With(s: State, r: Remote): State {
    s.(records := r.records, backupConfigs := r.backupConfigs, healthchecks := r.healthchecks)
  }

  function RemoteOf(s: State): Remote { Remote(s.records, s.backupConfigs, s.healthchecks) }

  /** The two differ in what databasus has only, and `x` has no more records. */
  ghost predicate Shadow(x: State, s: State) {
    x == With(s, RemoteOf(x)) && forall ref :: ref in x.records ==> ref in s.records
  }

  lemma FlyWith(s: State, r: Remote, k: Key, f: Flight)
    ensures With(s, r).Fly(k, f) == With(s.Fly(k, f), r)
  {
  }

  lemma PushWith(s: State, r: Remote, k: Key, v: Version)
    ensures With(s, r).Push(k, v) == With(s.Push(k, v), r)
  {
  }

  lemma FetchWith(s: State, r: Remote, k: Key, t: Turn)
    ensures Fetch(With(s, r), k, t) == With(Fetch(s, k, t), r)
  {
    hide With, Branch;
    assert With(s, r).TrackOf(k) == s.TrackOf(k) by { SameTracks(s, r, k); }
    FlyWith(s, r, k, AfterGet(s, k, t));
  }

  lemma SameTracks(s: State, r: Remote, k: Key)
    ensures With(s, r).TrackOf(k) == s.TrackOf(k) && With(s, r).FlightOf(k) == s.FlightOf(k)
  {
  }

  lemma WriteStatusWith(s: State, r: Remote, k: Key, ver: nat, verdict: Verdict, t: Turn)
    requires s.Holds(k, ver)
    ensures WriteStatus(With(s, r), k, ver, verdict, t) == With(WriteStatus(s, k, ver, verdict, t), r)
  {
    var x := With(s, r);
    SameTracks(s, r, k);
    AbandonWith(s, r, k);
    var o := s.Obj(k, ver);
    var accepted := Accepted(s, k, ver, t);
    var status := StatusOf(o, verdict, t.now);
    var f := Returning(ver, ResultOf(k.kind, verdict, accepted && t.outcome == Done));
    hide StatusOf, ResultOf, Abandon, With;
    if !accepted {
      assert WriteStatus(s, k, ver, verdict, t) == Abandon(s, k).Fly(k, f);
      assert WriteStatus(x, k, ver, verdict, t) == Abandon(x, k).Fly(k, f);
      FlyWith(Abandon(s, k), r, k, f);
    } else if status != o.status {
      var v := Present(o.(status := status));
      assert WriteStatus(s, k, ver, verdict, t) == s.Push(k, v).Fly(k, f);
      assert WriteStatus(x, k, ver, verdict, t) == x.Push(k, v).Fly(k, f);
      PushWith(s, r, k, v);
      FlyWith(s.Push(k, v), r, k, f);
    } else {
      FlyWith(s, r, k, f);
    }
  }

  lemma AbandonWith(s: State, r: Remote, k: Key)
    ensures Abandon(With(s, r), k) == With(Abandon(s, k), r)
  {
    assert NewId(With(s, r), k) == NewId(s, k);
    hide NewId;
  }

  lemma WriteObjectWith(s: State, r: Remote, k: Key, ver: nat, o: Object, t: Turn)
    requires s.Holds(k, ver)
    ensures WriteObject(With(s, r), k, ver, o, t) == With(WriteObject(s, k, ver, o, t), r)
  {
    var x := With(s, r);
    SameTracks(s, r, k);
    var accepted := Accepted(s, k, ver, t);
    var f := Returning(ver, Result(0, !(accepted && t.outcome == Done)));
    var stored := s.Obj(k, ver);
    assert x.Holds(k, ver) && x.Obj(k, ver) == stored && Accepted(x, k, ver, t) == accepted;
    hide Stored, With, Accepted;
    if !accepted || o == stored {
      assert WriteObject(s, k, ver, o, t) == s.Fly(k, f);
      assert WriteObject(x, k, ver, o, t) == x.Fly(k, f);
      hide WriteObject;
      FlyWith(s, r, k, f);
    } else {
      var v := Stored(o);
      assert WriteObject(s, k, ver, o, t) == s.Push(k, v).Fly(k, f);
      assert WriteObject(x, k, ver, o, t) == x.Push(k, v).Fly(k, f);
      hide WriteObject;
      PushWith(s, r, k, v);
      FlyWith(s.Push(k, v), r, k, f);
    }
  }

  lemma GatherWith(s: State, r: Remote, k: Key, ver: nat, got: seq<string>, t: Turn)
    requires s.Holds(k, ver) && |got| < |Plan(s.Obj(k, ver).spec)|
    ensures Gather(With(s, r), k, ver, got, t) == With(Gather(s, k, ver, got, t), r)
  {
    var x := With(s, r);
    SameTracks(s, r, k);
    var o := s.Obj(k, ver);
    var found := Found(s, k, ver, got, t);
    assert Found(x, k, ver, got, t) == found;
    hide Found, Plan, AfterRead;
    var f := AfterRead(o, ver, got, found, t.message);
    if found.Some? {
      var read := Read(Owner(k, o.uid), o.generation, |got|, NeedAt(o.spec, |got|), found.value);
      FlyWith(s.(readings := s.readings + {read}), r, k, f);
    } else {
      FlyWith(s, r, k, f);
    }
  }

  lemma FlyShadow(x: State, s: State, k: Key, f: Flight)
    requires Shadow(x, s)
    ensures Shadow(x.Fly(k, f), s.Fly(k, f))
  {
  }

  lemma CreatedShadow(x: State, s: State, k: Key, o: Object, id: string, r: Request, unknown: bool, f: Flight)
    requires Shadow(x, s)
    ensures Shadow(Created(x, k, o, id, r, unknown, f), Created(s, k, o, id, r, unknown, f))
  {
  }

  lemma CreateShadow(x: State, s: State, k: Key, ver: nat, got: seq<string>, t: Turn)
    requires Shadow(x, s) && s.Holds(k, ver) && Complete(s.Obj(k, ver).spec, got)
    ensures Shadow(CreateRecord(x, k, ver, got, t), CreateRecord(s, k, ver, got, t))
  {
    hide Complete, RequestOf, AfterSave, Plan, Failure, With;
    var o := s.Obj(k, ver);
    SameTracks(s, RemoteOf(x), k);
    assert x.issued == s.issued && x.lost == s.lost && x.workspace == s.workspace by { SameRest(x, s); }
    assert x.Holds(k, ver) && x.Obj(k, ver) == o;
    var failed := Reporting(ver, Failure(o, SYNC_FAILED, t.message, o.status.id));
    if t.outcome == Failed || !Unused(s, k.kind, t.newID) {
      assert CreateRecord(s, k, ver, got, t) == s.Fly(k, failed);
      assert CreateRecord(x, k, ver, got, t) == x.Fly(k, failed);
      hide CreateRecord, Shadow;
      FlyShadow(x, s, k, failed);
    } else {
      var f := if t.outcome == Lost then failed else AfterSave(k, ver, got, t.newID, o);
      var r := RequestOf(s.workspace, o.spec, got).WithId(t.newID);
      assert CreateRecord(s, k, ver, got, t) == Created(s, k, o, t.newID, r, t.outcome == Lost, f);
      assert CreateRecord(x, k, ver, got, t) == Created(x, k, o, t.newID, r, t.outcome == Lost, f);
      hide CreateRecord, Shadow, Created;
      CreatedShadow(x, s, k, o, t.newID, r, t.outcome == Lost, f);
    }
  }

  lemma SameRest(x: State, s: State)
    requires Shadow(x, s)
    ensures x.issued == s.issued && x.lost == s.lost && x.workspace == s.workspace && x.queued == s.queued
    ensures x.tracks == s.tracks && x.flights == s.flights
  {
  }

  /** A call whose record is missing fails. */
  function IfThere(present: bool, t: Turn): Turn { if present then t else t.(outcome := Failed) }

  lemma SavedShadow(x: State, s: State, ref: Ref, r: Request)
    requires Shadow(x, s)
    ensures Shadow(x.(records := x.records[ref := r]), s.(records := s.records[ref := r]))
  {
  }

  lemma UpdateShadow(x: State, s: State, k: Key, ver: nat, got: seq<string>, t: Turn)
    requires Shadow(x, s) && s.Holds(k, ver) && x.Holds(k, ver) && s.Obj(k, ver) == x.Obj(k, ver)
    requires Complete(s.Obj(k, ver).spec, got)
    ensures var present := Ref(k.kind, s.Obj(k, ver).status.id) in x.records;
            Shadow(UpdateRecord(x, k, ver, got, t), UpdateRecord(s, k, ver, got, IfThere(present, t)))
  {
    var o := s.Obj(k, ver);
    var ref := Ref(k.kind, o.status.id);
    assert ref in x.records ==> ref in s.records;
    SameRest(x, s);
    hide Complete, RequestOf, AfterSave, Plan, Failure, Shadow;
    var failed := Reporting(ver, Failure(o, SYNC_FAILED, t.message, o.status.id));
    var there := IfThere(ref in x.records, t);
    if t.outcome == Failed || ref !in x.records {
      assert UpdateRecord(s, k, ver, got, there) == s.Fly(k, failed);
      assert UpdateRecord(x, k, ver, got, t) == x.Fly(k, failed);
      hide UpdateRecord;
      FlyShadow(x, s, k, failed);
    } else {
      var f := if t.outcome == Lost then failed else AfterSave(k, ver, got, o.status.id, o);
      var r := RequestOf(s.workspace, o.spec, got).WithId(o.status.id);
      var a, b := x.(records := x.records[ref := r]), s.(records := s.records[ref := r]);
      assert UpdateRecord(s, k, ver, got, there) == b.Fly(k, f);
      assert UpdateRecord(x, k, ver, got, t) == a.Fly(k, f);
      hide UpdateRecord;
      SavedShadow(x, s, ref, r);
      FlyShadow(a, b, k, f);
    }
  }

  lemma ConfigureShadow(x: State, s: State, k: Key, ver: nat, got: seq<string>, id: string, t: Turn)
    requires Shadow(x, s) && s.Holds(k, ver) && x.Holds(k, ver) && s.Obj(k, ver) == x.Obj(k, ver)
    requires s.Obj(k, ver).spec.ForBackup? && |got| > 0
    ensures var present := Ref(BackupKind, id) in x.records;
            Shadow(Configure(x, k, ver, got, id, t), Configure(s, k, ver, got, id, IfThere(present, t)))
  {
    var o := s.Obj(k, ver);
    var present := Ref(BackupKind, id) in x.records;
    assert present ==> Ref(BackupKind, id) in s.records;
    hide AfterConfig, BackupConfigOf, Shadow;
    var f := AfterConfig(o, ver, got, id, present && t.outcome == Done, t.message);
    if t.outcome == Failed || !present {
      FlyShadow(x, s, k, f);
    } else {
      var c := BackupConfigOf(o.spec.databaseBackup, id, got[0]);
      ConfiguredShadow(x, s, id, c);
      FlyShadow(x.(backupConfigs := x.backupConfigs[id := c]), s.(backupConfigs := s.backupConfigs[id := c]), k, f);
    }
  }

  lemma ConfiguredShadow(x: State, s: State, id: string, c: BackupConfigRequest)
    requires Shadow(x, s)
    ensures Shadow(x.(backupConfigs := x.backupConfigs[id := c]), s.(backupConfigs := s.backupConfigs[id := c]))
  {
  }

  lemma CheckedShadow(x: State, s: State, id: string, c: HealthcheckRequest)
    requires Shadow(x, s)
    ensures Shadow(x.(healthchecks := x.healthchecks[id := c]), s.(healthchecks := s.healthchecks[id := c]))
  {
  }

  lemma ProbeShadow(x: State, s: State, k: Key, ver: nat, id: string, t: Turn)
    requires Shadow(x, s) && s.Holds(k, ver) && x.Holds(k, ver) && s.Obj(k, ver) == x.Obj(k, ver)
    requires s.Obj(k, ver).spec.ForBackup? && s.Obj(k, ver).spec.databaseBackup.healthcheck.Some?
    ensures var present := Ref(BackupKind, id) in x.records;
            Shadow(Probe(x, k, ver, id, t), Probe(s, k, ver, id, IfThere(present, t)))
  {
    var o := s.Obj(k, ver);
    var present := Ref(BackupKind, id) in x.records;
    assert present ==> Ref(BackupKind, id) in s.records;
    hide AfterCheck, HealthcheckOf, Shadow;
    var f := AfterCheck(o, ver, id, present && t.outcome == Done, t.message);
    if t.outcome == Failed || !present {
      FlyShadow(x, s, k, f);
    } else {
      var c := HealthcheckOf(o.spec.databaseBackup.healthcheck.value, id);
      CheckedShadow(x, s, id, c);
      FlyShadow(x.(healthchecks := x.healthchecks[id := c]), s.(healthchecks := s.healthchecks[id := c]), k, f);
    }
  }

  lemma RefreshShadow(x: State, s: State, k: Key, ver: nat, id: string, t: Turn)
    requires Shadow(x, s) && s.Holds(k, ver) && x.Holds(k, ver) && s.Obj(k, ver) == x.Obj(k, ver)
    ensures var present := Ref(BackupKind, id) in x.records;
            Shadow(Refresh(x, k, ver, id, t), Refresh(s, k, ver, id, IfThere(present, t)))
  {
    var vitals := s.Obj(k, ver).status.vitals;
    var present := Ref(BackupKind, id) in x.records;
    assert present ==> Ref(BackupKind, id) in s.records;
    assert x.ReportOf(id) == s.ReportOf(id);
    var f := Reporting(ver, Success(k.kind, id, if t.outcome == Done && present then Merge(vitals, s.ReportOf(id)) else vitals));
    hide Merge, Success;
    assert Refresh(s, k, ver, id, IfThere(present, t)) == s.Fly(k, f);
    assert Refresh(x, k, ver, id, t) == x.Fly(k, f);
    hide Refresh, Shadow;
    FlyShadow(x, s, k, f);
  }

  lemma RemoveShadow(x: State, s: State, k: Key, ver: nat, t: Turn)
    requires Shadow(x, s) && s.Holds(k, ver) && x.Holds(k, ver) && s.Obj(k, ver) == x.Obj(k, ver)
    ensures Shadow(Remove(x, k, ver, t), Remove(s, k, ver, t))
  {
    var ref := Ref(k.kind, s.Obj(k, ver).status.id);
    VanishShadow(x, s, ref);
    var f := if t.outcome == Done then Detaching(ver) else Returning(ver, Result(10, false));
    if t.outcome == Failed {
      assert Remove(s, k, ver, t) == s.Fly(k, f);
      assert Remove(x, k, ver, t) == x.Fly(k, f);
      hide Remove, Shadow;
      FlyShadow(x, s, k, f);
    } else {
      assert Remove(s, k, ver, t) == Vanished(s, ref).Fly(k, f);
      assert Remove(x, k, ver, t) == Vanished(x, ref).Fly(k, f);
      hide Remove, Shadow, Vanished;
      FlyShadow(Vanished(x, ref), Vanished(s, ref), k, f);
    }
  }

  lemma VanishShadow(x: State, s: State, ref: Ref)
    requires Shadow(x, s)
    ensures Shadow(Vanished(x, ref), Vanished(s, ref)) && Shadow(Vanished(x, ref), s)
  {
  }

  lemma PushShadow(x: State, s: State, k: Key, v: Version)
    requires Shadow(x, s)
    ensures Shadow(x.Push(k, v), s.Push(k, v))
  {
  }

  lemma UserShadow(x: State, s: State, e: Event)
    requires Shadow(x, s) && IsUserEvent(e) && TrackInv(s, e.key)
    ensures Shadow(Apply(x, e), Apply(s, e))
  {
    assert x.Versions(e.key) == s.Versions(e.key);
    if Apply(s, e) == s {
      assert Apply(x, e) == x by { NoEffect(x, s, e); }
    } else {
      var v := Pushed(x, s, e);
      hide Apply;
      PushShadow(x, s, e.key, v);
    }
  }

  lemma Pushed(x: State, s: State, e: Event) returns (v: Version)
    requires Shadow(x, s) && IsUserEvent(e) && Apply(s, e) != s
    ensures Apply(s, e) == s.Push(e.key, v) && Apply(x, e) == x.Push(e.key, v)
  {
    hide Stored, Finalizer;
    assert x.Versions(e.key) == s.Versions(e.key);
    hide Shadow, With;
    var last := Last(s.Versions(e.key));
    match e
    case UserCreate(k, spec, finalizers) => v := Present(Object(|s.Versions(k)|, 1, false, finalizers, spec, EMPTY_STATUS));
    case UserEdit(k, spec) => v := Present(last.Value().(spec := spec, generation := last.Value().generation + 1));
    case UserTouch(k, finalizers) => v := Stored(last.Value().(finalizers := finalizers));
    case UserDelete(k) => v := Stored(last.Value().(deleting := true, generation := last.Value().generation + 1));
  }

  lemma NoEffect(x: State, s: State, e: Event)
    requires Shadow(x, s) && IsUserEvent(e) && Apply(s, e) == s
    ensures Apply(x, e) == x
  {
    assert x.Versions(e.key) == s.Versions(e.key);
    hide Shadow, With, Stored, Finalizer;
  }

  lemma OutsideShadow(x: State, s: State, e: Event)
    requires Shadow(x, s) && !IsUserEvent(e) && !e.Work? && !e.Crash?
    ensures Shadow(Apply(x, e), Apply(s, e))
  {
    hide WorkOn, Abandon, Stored, Finalizer;
  }

  lemma CrashShadow(x: State, s: State, k: Key)
    requires Shadow(x, s)
    ensures Shadow(Apply(x, Crash(k)), Apply(s, Crash(k)))
  {
    SameTracks(s, RemoteOf(x), k);
    if s.FlightOf(k).Idle? {
    } else {
      assert Apply(x, Crash(k)) == Abandon(x, k).Fly(k, Idle).Enqueue(k) &&
        Apply(s, Crash(k)) == Abandon(s, k).Fly(k, Idle).Enqueue(k)
      by { hide Abandon, Shadow, With; }
      AbandonWith(s, RemoteOf(x), k);
      AbandonEffect(x, k);
      AbandonEffect(s, k);
      hide Abandon, Apply;
      assert Shadow(Abandon(x, k), Abandon(s, k));
      hide Shadow, With;
      FlyShadow(Abandon(x, k), Abandon(s, k), k, Idle);
      EnqueueShadow(Abandon(x, k).Fly(k, Idle), Abandon(s, k).Fly(k, Idle), k);
    }
  }

  lemma EnqueueShadow(x: State, s: State, k: Key)
    requires Shadow(x, s)
    ensures Shadow(x.Enqueue(k), s.Enqueue(k))
  {
  }

  lemma ReturnShadow(x: State, s: State, k: Key, t: Turn)
    requires Shadow(x, s) && s.FlightOf(k).Returning?
    ensures Shadow(WorkOn(x, k, t), WorkOn(s, k, t))
  {
    assert x.FlightOf(k) == s.FlightOf(k) by { SameTracks(s, RemoteOf(x), k); }
    hide WorkOn, Shadow, With;
    ReturnIs(x, k, t);
    ReturnIs(s, k, t);
    FlyShadow(x, s, k, Idle);
    EnqueueShadow(x.Fly(k, Idle), s.Fly(k, Idle), k);
  }

  lemma IdleShadow(x: State, s: State, k: Key, t: Turn)
    requires Shadow(x, s) && s.FlightOf(k).Idle? && s.TrackOf(k).seen < |s.Versions(k)|
    ensures Shadow(WorkOn(x, k, t), WorkOn(s, k, t))
  {
    SameTracks(s, RemoteOf(x), k);
    SameRest(x, s);
    hide WorkOn, Fetch;
    if k in s.queued {
      WorkIs(x, k, t);
      WorkIs(s, k, t);
      var y, q := x.(queued := x.queued - {k}), s.(queued := s.queued - {k});
      FetchWith(q, RemoteOf(x), k, t);
      FetchEffect(s, k, t);
    } else {
      WorkIs(x, k, t);
      WorkIs(s, k, t);
    }
  }

  lemma FlightShadow(x: State, s: State, k: Key, t: Turn) returns (u: Turn)
    requires Shadow(x, s)
    requires var f := s.FlightOf(k);
             && !f.Idle? && !f.Returning? && s.Holds(k, f.Ver())
             && (f.Configuring? || f.Probing? ==> s.Obj(k, f.Ver()).spec.ForBackup? && |f.Got()| > 0)
             && (f.Probing? ==> s.Obj(k, f.Ver()).spec.databaseBackup.healthcheck.Some?)
             && (f.Gathering? && !Saves(s, k) ==> |f.Got()| < |Plan(s.Obj(k, f.Ver()).spec)|)
    ensures Shadow(WorkOn(x, k, t), WorkOn(s, k, u))
  {
    SameTracks(s, RemoteOf(x), k);
    assert x.Holds(k, s.FlightOf(k).Ver()) && x.Obj(k, s.FlightOf(k).Ver()) == s.Obj(k, s.FlightOf(k).Ver());
    u := t;
    hide WorkOn, Shadow, With, Remove, Configure, Probe, Refresh, WriteStatus;
    match s.FlightOf(k)
    case Removing(ver) =>
      WorkIs(x, k, t);
      WorkIs(s, k, t);
      RemoveShadow(x, s, k, ver, t);
    case Detaching(ver) => ObjectShadow(x, s, k, t);
    case Attaching(ver) => ObjectShadow(x, s, k, t);
    case Gathering(ver, got) => u := GatheringShadow(x, s, k, t);
    case Configuring(ver, got, id) =>
      u := IfThere(Ref(BackupKind, id) in x.records, t);
      WorkIs(x, k, t);
      WorkIs(s, k, u);
      ConfigureShadow(x, s, k, ver, got, id, t);
    case Probing(ver, got, id) =>
      u := IfThere(Ref(BackupKind, id) in x.records, t);
      WorkIs(x, k, t);
      WorkIs(s, k, u);
      ProbeShadow(x, s, k, ver, id, t);
    case Refreshing(ver, id) =>
      u := IfThere(Ref(BackupKind, id) in x.records, t);
      WorkIs(x, k, t);
      WorkIs(s, k, u);
      RefreshShadow(x, s, k, ver, id, t);
    case Reporting(ver, verdict) =>
      WorkIs(x, k, t);
      WorkIs(s, k, t);
      StatusShadow(x, s, k, ver, verdict, t);
  }

  lemma StatusShadow(x: State, s: State, k: Key, ver: nat, verdict: Verdict, t: Turn)
    requires Shadow(x, s) && s.Holds(k, ver) && x.Holds(k, ver)
    ensures Shadow(WriteStatus(x, k, ver, verdict, t), WriteStatus(s, k, ver, verdict, t))
  {
    hide WriteStatus;
    WriteStatusWith(s, RemoteOf(x), k, ver, verdict, t);
    WriteStatusEffect(s, k, ver, verdict, t);
  }

  lemma ObjectShadow(x: State, s: State, k: Key, t: Turn)
    requires Shadow(x, s) && x.FlightOf(k) == s.FlightOf(k)
    requires var f := s.FlightOf(k);
             (f.Attaching? || f.Detaching?) && s.Holds(k, f.Ver()) && x.Holds(k, f.Ver()) &&
               x.Obj(k, f.Ver()) == s.Obj(k, f.Ver())
    ensures Shadow(WorkOn(x, k, t), WorkOn(s, k, t))
  {
    hide Finalizer, AddFinalizer, RemoveFinalizer, WriteObject, WorkOn, Local, Shadow;
    var after := Rewritten(s, k);
    ObjectIs(s, k, t);
    ObjectIs(x, k, t);
    assert Rewritten(x, k) == after;
    hide Rewritten;
    ObjectWritten(x, s, k, s.FlightOf(k).Ver(), after, t);
  }

  lemma ObjectWritten(x: State, s: State, k: Key, ver: nat, after: Object, t: Turn)
    requires Shadow(x, s) && s.Holds(k, ver)
    ensures Shadow(WriteObject(x, k, ver, after, t), WriteObject(s, k, ver, after, t))
  {
    hide WriteObject, Local;
    WriteObjectWith(s, RemoteOf(x), k, ver, after, t);
    WriteObjectEffect(s, k, ver, after, t);
  }

  lemma GatheringShadow(x: State, s: State, k: Key, t: Turn) returns (u: Turn)
    requires Shadow(x, s) && x.FlightOf(k) == s.FlightOf(k)
    requires var f := s.FlightOf(k);
             && f.Gathering? && s.Holds(k, f.Ver()) && x.Holds(k, f.Ver()) && x.Obj(k, f.Ver()) == s.Obj(k, f.Ver())
             && (!Saves(s, k) ==> |f.Got()| < |Plan(s.Obj(k, f.Ver()).spec)|)
    ensures Shadow(WorkOn(x, k, t), WorkOn(s, k, u))
  {
    var f := s.FlightOf(k);
    var o := s.Obj(k, f.Ver());
    u := t;
    if Saves(s, k) {
      hide WorkOn, Complete, Plan, CreateRecord, UpdateRecord, Shadow;
      SaveIs(x, k, t);
      if o.status.id == "" {
        SaveIs(s, k, t);
        CreateShadow(x, s, k, f.Ver(), f.Got(), t);
      } else {
        u := IfThere(Ref(k.kind, o.status.id) in x.records, t);
        SaveIs(s, k, u);
        UpdateShadow(x, s, k, f.Ver(), f.Got(), t);
      }
    } else {
      hide Complete, Plan, CreateRecord, UpdateRecord, Gather;
      assert WorkOn(s, k, t) == Gather(s, k, f.Ver(), f.Got(), t) && WorkOn(x, k, t) == Gather(x, k, f.Ver(), f.Got(), t);
      hide WorkOn;
      GatherWith(s, RemoteOf(x), k, f.Ver(), f.Got(), t);
      GatherEffect(s, k, f.Ver(), f.Got(), t);
    }
  }

  /** Whatever the worker's next call does without the missing records, it does the same to the operator with
      them, if it fails where they are missing. */
  lemma WorkShadow(x: State, s: State, k: Key, t: Turn) returns (u: Turn)
    requires Shadow(x, s) && Inv(s)
    ensures Shadow(WorkOn(x, k, t), WorkOn(s, k, u))
  {
    hide WorkOn, Inv, Shadow, Saves;
    var f := s.FlightOf(k);
    u := t;
    if f.Idle? {
      InvTrack(s, k);
      IdleShadow(x, s, k, t);
    }
    else if f.Returning? { ReturnShadow(x, s, k, t); }
    else {
      FlightHolds(s, k);
      u := FlightShadow(x, s, k, t);
    }
  }

  /** One step, and the event that does the same to the operator; none when a record is removed. */
  lemma StepShadow(x: State, s: State, step: Step) returns (events: seq<Event>)
    requires Shadow(x, s) && Inv(s)
    ensures Shadow(TakeStep(x, step), Run(s, events))
  {
    hide Apply, Shadow, Inv, WorkOn, Vanished;
    match step
    case Vanish(ref) =>
      events := [];
      VanishShadow(x, s, ref);
    case Ours(e) =>
      var same := e;
      if IsUserEvent(e) {
        TrackOk(s, e.key);
        UserShadow(x, s, e);
      }
      else if e.Crash? { CrashShadow(x, s, e.key); }
      else if e.Work? {
        var u := WorkShadow(x, s, e.key, e.turn);
        same := Work(e.key, u);
        WorkApplies(x, e.key, e.turn);
        WorkApplies(s, e.key, u);
      }
      else { OutsideShadow(x, s, e); }
      events := [same];
      assert [same][..0] == [];
  }

  lemma TrackOk(s: State, k: Key)
    requires Inv(s)
    ensures TrackInv(s, k)
  {
    InvKey(s, k);
    hide Inv;
    UnfoldKey(s, k);
  }

  /** Every run with removals behind the operator's back looks to the operator like some run without them: the
      same histories, caches, workers, queues and bookkeeping. So what is proved of these holds with removals too. */
  lemma {:induction false} RemovalsLookLikeFailures(workspace: string, steps: seq<Step>) returns (events: seq<Event>)
    ensures Shadow(Go(Empty(workspace), steps), Run(Empty(workspace), events))
  {
    hide TakeStep, Apply, Inv;
    if steps == [] {
      events := [];
    } else {
      var init := RemovalsLookLikeFailures(workspace, steps[..|steps| - 1]);
      Reachable(workspace, init);
      hide Shadow;
      var more := StepShadow(Go(Empty(workspace), steps[..|steps| - 1]), Run(Empty(workspace), init), steps[|steps| - 1]);
      RunConcat(Empty(workspace), init, more);
      events := init + more;
    }
  }

  // ---------------------------------------------------------- an attempt

  /** The record that the worker's deletion is about. */
  function Target(x: State, k: Key): Ref {
    var f := x.FlightOf(k);
    Ref(k.kind, if !f.Idle? && x.Holds(k, f.Ver()) then x.Obj(k, f.Ver()).status.id else "")
  }

  /** What is known of a worker that deletes. */
  lemma AtDeletion(x: State, s: State, k: Key)
    requires Shadow(x, s) && Inv(s) && (x.FlightOf(k).Removing? || x.FlightOf(k).Detaching?)
    ensures var f := x.FlightOf(k);
            && x.Holds(k, f.Ver()) && x.Obj(k, f.Ver()).deleting && Attached(k.kind, x.Obj(k, f.Ver()))
            && (x.Obj(k, f.Ver()).status.id != "" ==> Target(x, k) in x.issued)
            && (f.Detaching? && x.Obj(k, f.Ver()).status.id != "" ==> Target(x, k) !in x.records)
  {
    SameTracks(s, RemoteOf(x), k);
    SameRest(x, s);
    MarkedFlight(s, k);
    if s.Obj(k, s.FlightOf(k).Ver()).status.id != "" { IssuedFor(s, k, s.FlightOf(k).Ver()); }
  }

  lemma MarkedFlight(s: State, k: Key)
    requires Inv(s) && (s.FlightOf(k).Removing? || s.FlightOf(k).Detaching?)
    ensures var f := s.FlightOf(k);
            && s.Holds(k, f.Ver()) && s.Obj(k, f.Ver()).deleting && Attached(k.kind, s.Obj(k, f.Ver()))
            && (f.Detaching? && s.Obj(k, f.Ver()).status.id != "" ==> Ref(k.kind, s.Obj(k, f.Ver()).status.id) !in s.records)
  {
    hide HorizonInv, RemovalInv, MatchInv, OriginInv, WakeInv, OwnInv, GlobalInv, Finalizer, Plan, Later, GoodObject;
    assert KeyInv(s, k);
  }

  /** Whatever attempts were lost before and whoever removed what: if the worker's delete reaches databasus and
      is answered, the worker goes on to release the finalizer, and the record is gone. If not, it comes back
      in ten seconds. */
  lemma AnsweredDeleteLeadsOn(workspace: string, steps: seq<Step>, k: Key, d: Deletion, t: Turn)
    requires Go(Empty(workspace), steps).FlightOf(k).Removing? && t.outcome == OutcomeOf(d)
    requires Truthful(Target(Go(Empty(workspace), steps), k) in Go(Empty(workspace), steps).records, d)
    ensures var x := Go(Empty(workspace), steps);
            var u := WorkOn(x, k, t);
            var ver := x.FlightOf(k).Ver();
            if d.reached && d.reply.Answer? then u.FlightOf(k) == Detaching(ver) && Target(x, k) !in u.records
            else u.FlightOf(k) == Returning(ver, Result(10, false))
  {
    hide Go, Run, Inv, Truthful, OutcomeOf;
    var x := Go(Empty(workspace), steps);
    var events := RemovalsLookLikeFailures(workspace, steps);
    Reachable(workspace, events);
    AtDeletion(x, Run(Empty(workspace), events), k);
    OutcomeIs(Target(x, k) in x.records, d);
    hide WorkOn, Shadow;
    WorkIs(x, k, t);
    RemoveEnds(x, k, x.FlightOf(k).Ver(), t);
  }

  lemma OutcomeIs(present: bool, d: Deletion)
    requires Truthful(present, d)
    ensures OutcomeOf(d) == Done <==> d.reached && d.reply.Answer?
  {
    AnsweredSucceeds(present, d);
    hide Truthful, DeleteSucceeds;
  }

  lemma RemoveEnds(s: State, k: Key, ver: nat, t: Turn)
    requires s.Holds(k, ver)
    ensures var u := Remove(s, k, ver, t);
            if t.outcome == Done then u.FlightOf(k) == Detaching(ver) && Ref(k.kind, s.Obj(k, ver).status.id) !in u.records
            else u.FlightOf(k) == Returning(ver, Result(10, false))
  {
    match t.outcome
    case Done =>
    case Failed =>
    case Lost =>
  }

  /** A marked object that still carries the finalizer is never left alone: its worker is busy, its key is
      queued, or the watch has yet to show its last version. */
  lemma NeverGivesUp(workspace: string, steps: seq<Step>, k: Key)
    ensures var x := Go(Empty(workspace), steps);
            var last := Last(x.Versions(k));
            var f := x.FlightOf(k);
            last.Present? && last.Value().deleting && Attached(k.kind, last.Value()) &&
              (f.Idle? || (f.Returning? && !f.result.Again())) ==>
              k in x.queued || x.TrackOf(k).seen + 1 < |x.Versions(k)|
  {
    hide Go, Run, TrackInv, FlightInv, HorizonInv, OwnInv, RemovalInv, MatchInv, OriginInv, GlobalInv, Physical, Finalizer;
    var events := RemovalsLookLikeFailures(workspace, steps);
    Reachable(workspace, events);
    InvKey(Run(Empty(workspace), events), k);
    SameTracks(Run(Empty(workspace), events), RemoteOf(Go(Empty(workspace), steps)), k);
    SameRest(Go(Empty(workspace), steps), Run(Empty(workspace), events));
  }

  // -------------------------------------------------------------- the release

  lemma {:induction false} GoneForever(x: State, more: seq<Step>, ref: Ref)
    requires ref in x.issued && ref !in x.records
    ensures ref in Go(x, more).issued && ref !in Go(x, more).records
  {
    hide Apply;
    if more != [] {
      GoneForever(x, more[..|more| - 1], ref);
      var y := Go(x, more[..|more| - 1]);
      match more[|more| - 1]
      case Ours(e) => StaysGone(y, e, ref);
      case Vanish(_) =>
    }
  }

  /** The first update of a deletion that commits takes the finalizer off, and the record that the status
      names is gone then and for all that follows. */
  lemma ReleaseIsFinal(workspace: string, steps: seq<Step>, k: Key, t: Turn, more: seq<Step>)
    requires var x := Go(Empty(workspace), steps); x.FlightOf(k).Detaching? && Accepted(x, k, x.FlightOf(k).Ver(), t)
    ensures var x := Go(Empty(workspace), steps);
            var u := WorkOn(x, k, t);
            && x.Holds(k, x.FlightOf(k).Ver())
            && Released(k.kind, x.Obj(k, x.FlightOf(k).Ver()), Last(u.Versions(k)))
            && (x.Obj(k, x.FlightOf(k).Ver()).status.id != "" ==> Target(x, k) !in Go(u, more).records)
  {
    hide Go, Run, Inv, WorkOn;
    var x := Go(Empty(workspace), steps);
    var events := RemovalsLookLikeFailures(workspace, steps);
    Reachable(workspace, events);
    AtDeletion(x, Run(Empty(workspace), events), k);
    hide Shadow;
    DetachCommits(x, k, t);
    Footprints(x, k, t);
    if x.Obj(k, x.FlightOf(k).Ver()).status.id != "" { GoneForever(WorkOn(x, k, t), more, Target(x, k)); }
  }

  lemma DetachCommits(s: State, k: Key, t: Turn)
    requires var f := s.FlightOf(k); f.Detaching? && s.Holds(k, f.Ver()) && Accepted(s, k, f.Ver(), t)
    requires s.Obj(k, s.FlightOf(k).Ver()).deleting
    ensures Released(k.kind, s.Obj(k, s.FlightOf(k).Ver()), Last(WorkOn(s, k, t).Versions(k)))
  {
    hide WorkOn, WriteObject, Finalizer, Local;
    var ver := s.FlightOf(k).Ver();
    ObjectIs(s, k, t);
    WriteObjectEffect(s, k, ver, Rewritten(s, k), t);
    assert !Attached(k.kind, Rewritten(s, k));
    hide RemoveFinalizer;
    if Rewritten(s, k) == s.Obj(k, ver) {
    } else {
    }
  }

  // -------------------------------------------------------- how long it takes

  /** A step that is none of the key's, but for its watch and timers. */
  predicate Foreign(step: Step, k: Key) {
    match step
    case Vanish(_) => true
    case Ours(e) => (IsUserEvent(e) || e.Crash? || e.Work?) ==> e.key != k
  }

  /** A call of the key's worker that succeeds. */
  predicate OwnCall(step: Step, k: Key) {
    step.Ours? && step.event.Work? && step.event.key == k && step.event.turn.outcome == Done
  }

  predicate Undisturbed(steps: seq<Step>, k: Key) {
    forall i :: 0 <= i < |steps| ==> Foreign(steps[i], k) || OwnCall(steps[i], k)
  }

  function OwnCalls(steps: seq<Step>, k: Key): nat {
    if steps == [] then 0 else OwnCalls(steps[..|steps| - 1], k) + Count(OwnCall(steps[|steps| - 1], k))
  }

  /** The deletion of version `ver`, which is `o`: before its first call, before its second, or done. */
  ghost predicate Stage(x: State, k: Key, ver: nat, o: Object, stage: nat) {
    var gone := o.status.id != "" ==> Ref(k.kind, o.status.id) in x.issued && Ref(k.kind, o.status.id) !in x.records;
    && ver < |x.Versions(k)| && x.Versions(k)[ver] == Present(o)
    && (stage < 2 ==> |x.Versions(k)| == ver + 1)
    && (stage == 0 ==> x.FlightOf(k) == Removing(ver) && (o.status.id != "" ==> Ref(k.kind, o.status.id) in x.issued))
    && (stage == 1 ==> x.FlightOf(k) == Detaching(ver) && gone)
    && (stage >= 2 ==> ver + 1 < |x.Versions(k)| && Released(k.kind, o, x.Versions(k)[ver + 1]) && gone)
  }

  lemma ForeignKeeps(x: State, s: State, step: Step, k: Key)
    requires Shadow(x, s) && Inv(s) && Foreign(step, k)
    ensures var y := TakeStep(x, step); y.FlightOf(k) == x.FlightOf(k) && y.Versions(k) == x.Versions(k)
  {
    hide Inv, Apply, WorkOn, Vanished;
    match step
    case Vanish(_) => VanishShadow(x, s, step.ref);
    case Ours(e) =>
      if IsUserEvent(e) {
        UserEffect(x, e);
        UserTracks(x, e, k);
      }
      else if e.Crash? {
        CrashLocal(x, e.key);
        LocalMeans(x, Apply(x, e), e.key, k);
      }
      else if e.Work? {
        WorkApplies(x, e.key, e.turn);
        InvTrack(s, e.key);
        SameTracks(s, RemoteOf(x), e.key);
        hide Shadow;
        WorkLocal(x, e.key, e.turn);
        LocalMeans(x, Apply(x, e), e.key, k);
      }
      else {
        OutsideEffect(x, e);
        OutsideGrows(x, e, k);
      }
  }

  lemma UserTracks(x: State, e: Event, k: Key)
    requires IsUserEvent(e) && e.key != k
    ensures Apply(x, e).TrackOf(k) == x.TrackOf(k)
  {
    hide Stored, Finalizer;
  }

  lemma IssuedGrows(x: State, step: Step, ref: Ref)
    requires ref in x.issued
    ensures ref in TakeStep(x, step).issued
  {
    hide Apply;
    match step
    case Ours(e) => IssuedStays(x, e, ref);
    case Vanish(_) =>
  }

  lemma StepGrows(x: State, s: State, step: Step, k: Key)
    requires Shadow(x, s) && Inv(s)
    ensures x.Versions(k) <= TakeStep(x, step).Versions(k)
  {
    hide Inv, Run, TakeStep;
    var events := StepShadow(x, s, step);
    RunGrows(s, events, k);
    SameTracks(s, RemoteOf(x), k);
    SameTracks(Run(s, events), RemoteOf(TakeStep(x, step)), k);
  }

  lemma StageAdvances(x: State, s: State, step: Step, k: Key, ver: nat, o: Object, stage: nat)
    requires Shadow(x, s) && Inv(s) && (Foreign(step, k) || OwnCall(step, k))
    requires Stage(x, k, ver, o, stage) && stage <= 2 && o.deleting && Attached(k.kind, o)
    ensures Stage(TakeStep(x, step), k, ver, o, if stage < 2 && OwnCall(step, k) then stage + 1 else stage)
  {
    hide Inv, TakeStep, Shadow, Finalizer, Attached, Released;
    var ref := Ref(k.kind, o.status.id);
    var y := TakeStep(x, step);
    if o.status.id != "" {
      IssuedGrows(x, step, ref);
      if ref !in x.records { GoneAfter(x, step, ref); }
    }
    if stage == 2 { StepGrows(x, s, step, k); }
    else if OwnCall(step, k) {
      OwnCallIs(x, step, k);
      hide WorkOn;
      if stage == 0 { RemoveWorks(x, k, step.event.turn, o); }
      else {
        DetachWorks(x, k, step.event.turn, o);
        WorkGrows(x, k, step.event.turn);
      }
    } else { ForeignKeeps(x, s, step, k); }
  }

  lemma OwnCallIs(x: State, step: Step, k: Key)
    requires OwnCall(step, k)
    ensures TakeStep(x, step) == WorkOn(x, k, step.event.turn)
  {
    WorkApplies(x, k, step.event.turn);
  }

  lemma GoneAfter(x: State, step: Step, ref: Ref)
    requires ref in x.issued && ref !in x.records
    ensures ref !in TakeStep(x, step).records
  {
    hide Apply;
    match step
    case Ours(e) => StaysGone(x, e, ref);
    case Vanish(_) =>
  }

  lemma {:induction false} StagesRun(workspace: string, steps: seq<Step>, more: seq<Step>, k: Key, ver: nat, o: Object, stage: nat)
    requires Stage(Go(Empty(workspace), steps), k, ver, o, stage) && stage <= 2
    requires o.deleting && Attached(k.kind, o) && Undisturbed(more, k)
    ensures var reached := stage + OwnCalls(more, k);
            Stage(Go(Empty(workspace), steps + more), k, ver, o, if reached < 2 then reached else 2)
  {
    hide TakeStep, Stage, Foreign, OwnCall, Attached;
    if more == [] {
      assert steps + more == steps;
    } else {
      var init, step := more[..|more| - 1], more[|more| - 1];
      StagesRun(workspace, steps, init, k, ver, o, stage);
      var x := Go(Empty(workspace), steps + init);
      var events := RemovalsLookLikeFailures(workspace, steps + init);
      Reachable(workspace, events);
      var reached := stage + OwnCalls(init, k);
      StageAdvances(x, Run(Empty(workspace), events), step, k, ver, o, if reached < 2 then reached else 2);
      assert (steps + more)[..|steps + more| - 1] == steps + init;
    }
  }

  /** A released object stays released: it is gone, or marked and without the finalizer, which it cannot get back. */
  lemma ReleasedForGood(s: State, k: Key, ver: nat, o: Object)
    requires Inv(s) && ver + 1 < |s.Versions(k)| && s.Versions(k)[ver] == Present(o) && o.deleting
    requires Released(k.kind, o, s.Versions(k)[ver + 1])
    ensures Released(k.kind, o, Last(s.Versions(k)))
  {
    hide FlightInv, HorizonInv, OwnInv, RemovalInv, MatchInv, OriginInv, WakeInv, GlobalInv, GoodObject, Finalizer;
    assert KeyInv(s, k);
    var versions := s.Versions(k);
    var last := |versions| - 1;
    assert versions[last] == Last(versions);
    var a, b := SameObject(versions[ver], versions[ver + 1]), SameObject(versions[ver + 1], versions[last]);
    assert versions[ver].Value().uid <= ver;
  }

  /** From the Get that found the current version of an object marked and with the finalizer, the deletion is
      done after two calls of its worker that succeed (one, if there is no record to delete), whatever else
      happens meanwhile as long as nobody else writes to the object: the finalizer is gone, for good, and
      so is the record. */
  lemma DeletionEnds(workspace: string, steps: seq<Step>, k: Key, more: seq<Step>)
    requires var x := Go(Empty(workspace), steps);
             var f := x.FlightOf(k);
             (f.Removing? || f.Detaching?) && f.Ver() + 1 == |x.Versions(k)| && Undisturbed(more, k)
    requires OwnCalls(more, k) >= if Go(Empty(workspace), steps).FlightOf(k).Removing? then 2 else 1
    ensures var x := Go(Empty(workspace), steps);
            var end := Go(Empty(workspace), steps + more);
            && x.Holds(k, x.FlightOf(k).Ver())
            && Released(k.kind, x.Obj(k, x.FlightOf(k).Ver()), Last(end.Versions(k)))
            && (x.Obj(k, x.FlightOf(k).Ver()).status.id != "" ==> Target(x, k) !in end.records)
  {
    hide Go, Run, Inv, Undisturbed, OwnCalls, Finalizer;
    var x := Go(Empty(workspace), steps);
    var f := x.FlightOf(k);
    var events := RemovalsLookLikeFailures(workspace, steps);
    Reachable(workspace, events);
    AtDeletion(x, Run(Empty(workspace), events), k);
    var o := x.Obj(k, f.Ver());
    hide Released;
    StagesRun(workspace, steps, more, k, f.Ver(), o, if f.Removing? then 0 else 1);
    var end := Go(Empty(workspace), steps + more);
    var all := RemovalsLookLikeFailures(workspace, steps + more);
    Reachable(workspace, all);
    SameTracks(Run(Empty(workspace), all), RemoteOf(end), k);
    ReleasedForGood(Run(Empty(workspace), all), k, f.Ver(), o);
  }
}
