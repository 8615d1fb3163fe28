/** The healthcheck configs at databasus. The code saves one when the spec has a healthcheck section and does
nothing when it has none, so a config outlives the section it came from: which ones are there, what they
say, and how they go.
*/
module Checks {
  import opened Resources
  import opened Conditions
  import opened Builders
  import opened Protocol
  import opened Invariants
  import opened Inductive
  import opened Safety
  import opened Accounting
  import opened Locality
  import opened Stages
  import opened Progress
  import opened Convergence

  // ------------------------------------------------------- which ones are there

  /** The event is a save of the healthcheck config of this database, and it takes effect. */
  predicate SavesCheck(s: State, e: Event, id: string) {
    e.Work? &&
    var f := s.FlightOf(e.key);
    f.Probing? && f.id == id && e.turn.outcome != Failed && Ref(BackupKind, id) in s.records
  }

  /** Some event of the run was one. */
  predicate EverSaved(s: State, events: seq<Event>, id: string) {
    events != [] &&
    (EverSaved(s, events[..|events| - 1], id) ||
     SavesCheck(Run(s, events[..|events| - 1]), events[|events| - 1], id))
  }

  /** What an event does to a healthcheck config: a save brings it, the deletion of the database takes it. */
  ghost predicate ChecksChange(s: State, e: Event, u: State, id: string) {
    id in u.healthchecks <==> Ref(BackupKind, id) in u.records && (id in s.healthchecks || SavesCheck(s, e, id))
  }

  lemma CheckEvent(s: State, e: Event, id: string)
    requires Inv(s) && ChecksHaveRecords(s)
    ensures ChecksChange(s, e, Apply(s, e), id)
  {
    hide Inv, Apply, WorkOn, Complete;
    if IsUserEvent(e) { UserEffect(s, e); }
    else if e.Crash? { CrashLocal(s, e.key); }
    else if !e.Work? { OutsideEffect(s, e); }
    else {
      var k := e.key;
      WorkApplies(s, k, e.turn);
      if Saves(s, k) { var ref := SavesUnder(s, k, e.turn); }
      else if s.FlightOf(k).Removing? { RemovalChecks(s, k, e.turn, id); }
      else {
        Footprints(s, k, e.turn);
        if s.FlightOf(k).Probing? { ProbeEvent(s, k, e.turn, id); }
      }
    }
  }

  lemma RemovalChecks(s: State, k: Key, t: Turn, id: string)
    requires Inv(s) && s.FlightOf(k).Removing? && ChecksHaveRecords(s)
    ensures ChecksChange(s, Work(k, t), WorkOn(s, k, t), id)
  {
    hide Inv, WorkOn, ChecksHaveRecords, Remove;
    RemovingHolds(s, k);
    WorkIs(s, k, t);
    RemoveTakes(s, k, s.FlightOf(k).Ver(), t, id);
  }

  lemma RemoveTakes(s: State, k: Key, ver: nat, t: Turn, id: string)
    requires s.Holds(k, ver) && ChecksHaveRecords(s)
    ensures var u := Remove(s, k, ver, t); id in u.healthchecks <==> Ref(BackupKind, id) in u.records && id in s.healthchecks
  {
    match t.outcome
    case Done =>
    case Failed =>
    case Lost =>
  }

  lemma ProbeEvent(s: State, k: Key, t: Turn, id: string)
    requires Inv(s) && s.FlightOf(k).Probing? && ChecksHaveRecords(s)
    ensures ChecksChange(s, Work(k, t), WorkOn(s, k, t), id)
  {
    hide Inv, WorkOn, Probe, ChecksHaveRecords;
    var f := s.FlightOf(k);
    FlightHolds(s, k);
    WorkIs(s, k, t);
    ProbeBrings(s, k, f.Ver(), f.id, t, id);
  }

  lemma ProbeBrings(s: State, k: Key, ver: nat, saved: string, t: Turn, id: string)
    requires s.Holds(k, ver) && s.Obj(k, ver).spec.ForBackup? && s.Obj(k, ver).spec.databaseBackup.healthcheck.Some?
    requires ChecksHaveRecords(s)
    ensures var u := Probe(s, k, ver, saved, t);
            && u.records == s.records
            && (id in u.healthchecks <==>
                  Ref(BackupKind, id) in u.records && (id in s.healthchecks || (saved == id && t.outcome != Failed)))
  {
    hide HealthcheckOf, Failure;
    if t.outcome == Failed || Ref(BackupKind, saved) !in s.records {
    } else {
    }
  }

  /** A healthcheck config is there if and only if its database is and a save of it has ever taken effect:
      whether the spec has a healthcheck section by now plays no part. */
  lemma {:induction false} CheckThereIff(workspace: string, events: seq<Event>, id: string)
    ensures var s := Run(Empty(workspace), events);
            id in s.healthchecks <==> Ref(BackupKind, id) in s.records && EverSaved(Empty(workspace), events, id)
  {
    hide Apply, Inv, SavesCheck;
    if events == [] {
    } else {
      var init, e := events[..|events| - 1], events[|events| - 1];
      var s := Run(Empty(workspace), init);
      CheckThereIff(workspace, init, id);
      Reachable(workspace, init);
      AllHaveRecords(workspace, init);
      CheckEvent(s, e, id);
      if EverSaved(Empty(workspace), init, id) && Ref(BackupKind, id) !in s.records {
        SavedIssued(workspace, init, id);
        StaysGone(s, e, Ref(BackupKind, id));
      }
    }
  }

  lemma AllHaveRecords(workspace: string, events: seq<Event>)
    ensures ChecksHaveRecords(Run(Empty(workspace), events))
  {
    hide Run, Inv, ChecksHaveRecords;
    InitialInv(workspace);
    NoChecks(workspace);
    ChecksOwned(Empty(workspace), events);
  }

  lemma {:induction false} SavedIssued(workspace: string, events: seq<Event>, id: string)
    requires EverSaved(Empty(workspace), events, id)
    ensures Ref(BackupKind, id) in Run(Empty(workspace), events).issued
  {
    hide Apply, Inv;
    var init, e := events[..|events| - 1], events[|events| - 1];
    var s := Run(Empty(workspace), init);
    if EverSaved(Empty(workspace), init, id) { SavedIssued(workspace, init, id); }
    else {
      Reachable(workspace, init);
      RecordsIssued(s);
    }
    IssuedStays(s, e, Ref(BackupKind, id));
  }

  lemma RecordsIssued(s: State)
    requires Inv(s)
    ensures forall ref :: ref in s.records ==> ref in s.issued
  {
    assert GlobalInv(s);
    hide Inv, KeyInv;
  }

  /** For a DatabaseBackup that is Ready at its generation and has no healthcheck section, the exact
      condition under which databasus does not agree with the spec: it still holds a healthcheck config
      if and only if one was ever saved for this database. */
  lemma LeftoverCheckIff(workspace: string, events: seq<Event>, k: Key)
    requires k.kind == BackupKind
    ensures var s := Run(Empty(workspace), events);
            var last := Last(s.Versions(k));
            ReadyNow(s, k) && last.Value().spec.ForBackup? && last.Value().spec.databaseBackup.healthcheck.None? ==>
              (last.Value().status.id in s.healthchecks <==> EverSaved(Empty(workspace), events, last.Value().status.id))
  {
    hide Run, ReadyAtItsGeneration, EverSaved, RequestOf, BackupConfigOf, HealthcheckOf, Complete, ReadBy;
    var s := Run(Empty(workspace), events);
    if ReadyNow(s, k) {
      var got, storageID := ReadyMeansSynced(workspace, events, k);
      CheckThereIff(workspace, events, Last(s.Versions(k)).Value().status.id);
    }
  }

  /** A reconcile of a spec without a healthcheck section leaves all healthcheck configs alone, so the config
      of an earlier spec stays at databasus until the database itself is deleted. */
  lemma ChecksOutliveTheSpec(workspace: string, events: seq<Event>, k: Key, t: Turn)
    ensures var s := Run(Empty(workspace), events);
            var f := s.FlightOf(k);
            Active(f) && s.Holds(k, f.Ver()) && s.Obj(k, f.Ver()).spec.ForBackup? &&
            s.Obj(k, f.Ver()).spec.databaseBackup.healthcheck.None? ==>
              WorkOn(s, k, t).healthchecks == s.healthchecks
  {
    hide Run, Inv, WorkOn;
    var s := Run(Empty(workspace), events);
    var f := s.FlightOf(k);
    Reachable(workspace, events);
    if Active(f) && s.Holds(k, f.Ver()) && s.Obj(k, f.Ver()).spec.ForBackup? &&
       s.Obj(k, f.Ver()).spec.databaseBackup.healthcheck.None? {
      if f.Probing? { ProbingChecks(s, k); }
      if Saves(s, k) { var ref := SavesUnder(s, k, t); } else { Footprints(s, k, t); }
    }
  }

  // ------------------------------------------------------------ how they go

  /** A healthcheck config disappears only with its database: in the deletion call of its own object's
      worker, for a version that is marked and whose status names this database. */
  lemma CheckGoesWithDatabase(workspace: string, events: seq<Event>, e: Event, id: string)
    ensures var s := Run(Empty(workspace), events);
            id in s.healthchecks && id !in Apply(s, e).healthchecks ==>
              && Ref(BackupKind, id) in s.issued && e.Work? && e.key == s.issued[Ref(BackupKind, id)].key
              && Ref(BackupKind, id) !in Apply(s, e).records
              && var f := s.FlightOf(e.key);
                 f.Removing? && s.Holds(e.key, f.Ver()) && s.Obj(e.key, f.Ver()).status.id == id &&
                   s.Obj(e.key, f.Ver()).deleting
  {
    hide Run, Inv, Apply, WorkOn, Saves, ChecksChange;
    var s := Run(Empty(workspace), events);
    if id in s.healthchecks && id !in Apply(s, e).healthchecks {
      Reachable(workspace, events);
      AllHaveRecords(workspace, events);
      RecordsIssued(s);
      if IsUserEvent(e) { UserEffect(s, e); }
      else if e.Crash? { CrashLocal(s, e.key); }
      else if !e.Work? { OutsideEffect(s, e); }
      else {
        WorkApplies(s, e.key, e.turn);
        if Saves(s, e.key) { var ref := SavesUnder(s, e.key, e.turn); }
        else { Footprints(s, e.key, e.turn); }
        if s.FlightOf(e.key).Probing? || s.FlightOf(e.key).Configuring? { OneConfig(s, e.key, e.turn); }
        RemovedCheck(s, e.key, e.turn, id);
      }
    }
  }

  lemma RemovedCheck(s: State, k: Key, t: Turn, id: string)
    requires Inv(s) && s.FlightOf(k).Removing? && id in s.healthchecks && id !in WorkOn(s, k, t).healthchecks
    requires ChecksHaveRecords(s)
    ensures var f := s.FlightOf(k);
            && s.Holds(k, f.Ver()) && s.Obj(k, f.Ver()).status.id == id && s.Obj(k, f.Ver()).deleting && k.kind == BackupKind
            && Ref(BackupKind, id) in s.issued && s.issued[Ref(BackupKind, id)].key == k
            && Ref(BackupKind, id) !in WorkOn(s, k, t).records
  {
    hide Inv, WorkOn;
    RemovesOneConfig(s, k, t);
    RemovesOne(s, k, t);
    IssuedFor(s, k, s.FlightOf(k).Ver());
    RemovalChecks(s, k, t, id);
    RemovingMarked(s, k);
  }

  lemma RemovingMarked(s: State, k: Key)
    requires Inv(s) && s.FlightOf(k).Removing?
    ensures s.Holds(k, s.FlightOf(k).Ver()) && s.Obj(k, s.FlightOf(k).Ver()).deleting
  {
    hide HorizonInv, RemovalInv, MatchInv, OriginInv, WakeInv, OwnInv, GlobalInv, Finalizer, Plan, Later, GoodObject;
    assert KeyInv(s, k);
  }

  // ----------------------------------------------------------- what they say

  /** The config is that of the healthcheck section of some version of its object. */
  ghost predicate FromSection(s: State, id: string, v: nat) {
    var ref := Ref(BackupKind, id);
    && id in s.healthchecks && ref in s.issued && s.Holds(s.issued[ref].key, v)
    && var o := s.Obj(s.issued[ref].key, v);
       && o.uid == s.issued[ref].uid && o.spec.ForBackup? && o.spec.databaseBackup.healthcheck.Some?
       && s.healthchecks[id] == HealthcheckOf(o.spec.databaseBackup.healthcheck.value, id)
  }

  lemma SectionStays(s: State, e: Event, id: string, v: nat)
    requires Inv(s) && FromSection(s, id, v)
    requires var u := Apply(s, e); id in u.healthchecks && u.healthchecks[id] == s.healthchecks[id]
    ensures FromSection(Apply(s, e), id, v)
  {
    hide Inv, Apply, HealthcheckOf;
    IssuedStays(s, e, Ref(BackupKind, id));
    VersionsGrow(s, e, s.issued[Ref(BackupKind, id)].key);
  }

  /** Every healthcheck config comes from a section that its object once had; so an object whose spec never
      had one has none. */
  lemma {:induction false} CheckOrigin(workspace: string, events: seq<Event>, id: string) returns (v: nat)
    requires id in Run(Empty(workspace), events).healthchecks
    ensures FromSection(Run(Empty(workspace), events), id, v)
  {
    hide Inv, Apply, FromSection, WorkOn, Saves;
    var init, e := events[..|events| - 1], events[|events| - 1];
    var s := Run(Empty(workspace), init);
    Reachable(workspace, init);
    if id in s.healthchecks && Apply(s, e).healthchecks[id] == s.healthchecks[id] {
      v := CheckOrigin(workspace, init, id);
      SectionStays(s, e, id, v);
    } else {
      v := NewCheck(s, e, id);
    }
  }

  /** A config that is new or has changed was saved just now, from the section of the version worked on. */
  lemma NewCheck(s: State, e: Event, id: string) returns (v: nat)
    requires Inv(s)
    requires var u := Apply(s, e); id in u.healthchecks && (id !in s.healthchecks || u.healthchecks[id] != s.healthchecks[id])
    ensures FromSection(Apply(s, e), id, v)
  {
    hide Inv, Apply, WorkOn, Saves, FromSection;
    v := 0;
    if IsUserEvent(e) { UserEffect(s, e); }
    else if e.Crash? { CrashLocal(s, e.key); }
    else if !e.Work? { OutsideEffect(s, e); }
    else {
      var k := e.key;
      WorkApplies(s, k, e.turn);
      if Saves(s, k) { var ref := SavesUnder(s, k, e.turn); }
      else if s.FlightOf(k).Removing? { RemovingShrinks(s, k, e.turn); }
      else {
        Footprints(s, k, e.turn);
        OneConfig(s, k, e.turn);
        v := s.FlightOf(k).Ver();
        ProbedCheck(s, k, e.turn);
      }
    }
  }

  lemma ProbedCheck(s: State, k: Key, t: Turn)
    requires Inv(s) && s.FlightOf(k).Probing? && WorkOn(s, k, t).healthchecks != s.healthchecks
    ensures FromSection(WorkOn(s, k, t), s.FlightOf(k).id, s.FlightOf(k).Ver())
  {
    hide Inv, WorkOn, HealthcheckOf, FlightMatch;
    var f := s.FlightOf(k);
    FlightHolds(s, k);
    FlightOwns(s, k);
    WorkIs(s, k, t);
    WorkGrows(s, k, t);
    Footprints(s, k, t);
    ProbeSays(s, k, f.Ver(), f.id, t);
  }

  lemma ProbeSays(s: State, k: Key, ver: nat, id: string, t: Turn)
    requires s.Holds(k, ver) && s.Obj(k, ver).spec.ForBackup? && s.Obj(k, ver).spec.databaseBackup.healthcheck.Some?
    ensures var u := Probe(s, k, ver, id, t);
            u.healthchecks == s.healthchecks ||
            u.healthchecks == s.healthchecks[id := HealthcheckOf(s.Obj(k, ver).spec.databaseBackup.healthcheck.value, id)]
  {
    hide HealthcheckOf, Failure;
    if t.outcome == Failed || Ref(BackupKind, id) !in s.records {
    } else {
    }
  }

  /** An object of which no version had a healthcheck section has no healthcheck config. */
  lemma NoSectionNoCheck(workspace: string, events: seq<Event>, owner: Owner, id: string)
    ensures var s := Run(Empty(workspace), events);
            Ref(BackupKind, id) in s.issued && s.issued[Ref(BackupKind, id)] == owner &&
            (forall v :: s.Holds(owner.key, v) && s.Obj(owner.key, v).uid == owner.uid && s.Obj(owner.key, v).spec.ForBackup? ==>
               s.Obj(owner.key, v).spec.databaseBackup.healthcheck.None?) ==>
              id !in s.healthchecks
  {
    hide Run, HealthcheckOf;
    if id in Run(Empty(workspace), events).healthchecks {
      var v := CheckOrigin(workspace, events, id);
    }
  }

  // ------------------------------------------------- dropping the section

  function WithoutCheck(spec: Spec): Spec
    requires spec.ForBackup?
  {
    ForBackup(spec.databaseBackup.(healthcheck := None))
  }

  /** The reads of a reconcile do not depend on the healthcheck section. */
  lemma SameOrder(s: State, e: Event, k: Key, lower: set<Key>)
    requires InOrder(s, k, lower) && Last(s.Versions(k)).Value().spec.ForBackup?
    requires Last(s.Versions(k)).Value().spec.databaseBackup.healthcheck.Some?
    requires e == UserEdit(k, WithoutCheck(Last(s.Versions(k)).Value().spec))
    ensures InOrder(Apply(s, e), k, lower) && Last(Apply(s, e).Versions(k)).Value().spec == e.spec
    ensures Last(Apply(s, e).Versions(k)).Value().uid == Last(s.Versions(k)).Value().uid
  {
    var o := Last(s.Versions(k)).Value();
    SamePlan(o.spec);
    hide Plan, Apply;
    EditIs(s, k, o, e.spec);
  }

  lemma EditIs(s: State, k: Key, o: Object, spec: Spec)
    requires Last(s.Versions(k)) == Present(o) && spec.Kind() == k.kind && o.spec != spec
    ensures Apply(s, UserEdit(k, spec)) == s.Push(k, Present(o.(spec := spec, generation := o.generation + 1)))
  {
    hide WorkOn, Abandon, Stored, Finalizer;
  }

  lemma SamePlan(spec: Spec)
    requires spec.ForBackup?
    ensures Plan(WithoutCheck(spec)) == Plan(spec)
  {
    hide SslPlan, PasswordPlan, WantsPhysicalBackups, NotifierNeeds;
  }

  /** Resting keys are not disturbed by an edit of another object. */
  lemma EditLeaves(s: State, e: Event, j: Key)
    requires Inv(s) && Rest(s, j) && j.kind != BackupKind && e.UserEdit? && e.key != j
    ensures Rest(Apply(s, e), j)
  {
    hide Inv, Synced, OnTrack, Untouched, SameReads, Apply;
    var u := Apply(s, e);
    UserElsewhere(s, e, j);
    UntouchedFlight(s, u, j);
    LastKind(s, j);
    SecretsRead(s, u, j);
    OthersStaySynced(s, u, j);
    if OnTrack(s, j) { OthersOnTrack(s, u, j); }
  }

  /** The current object is the one of before, so it has the same ID. */
  lemma SameIdLater(workspace: string, events: seq<Event>, more: seq<Event>, k: Key)
    requires var a, b := Last(Run(Empty(workspace), events).Versions(k)), Last(Run(Empty(workspace), events + more).Versions(k));
             SameObject(a, b) && a.Value().status.id != ""
    ensures Last(Run(Empty(workspace), events + more).Versions(k)).Value().status.id ==
            Last(Run(Empty(workspace), events).Versions(k)).Value().status.id
  {
    hide Run, Inv;
    var s := Run(Empty(workspace), events);
    Reachable(workspace, events);
    Reachable(workspace, events + more);
    RunConcat(Empty(workspace), events, more);
    RunGrows(s, more, k);
    var end := Run(Empty(workspace), events + more);
    Histories(workspace, events + more, k, |s.Versions(k)| - 1, |end.Versions(k)| - 1);
  }

  lemma {:induction false} StaysSaved(s: State, events: seq<Event>, more: seq<Event>, id: string)
    requires EverSaved(s, events, id)
    ensures EverSaved(s, events + more, id)
  {
    hide Apply, SavesCheck;
    if more == [] {
      assert events + more == events;
    } else {
      StaysSaved(s, events, more[..|more| - 1], id);
      assert (events + more)[..|events + more| - 1] == events + more[..|more| - 1];
    }
  }

  lemma RestHasRecord(s: State, k: Key)
    requires Rest(s, k)
    ensures var last := Last(s.Versions(k));
            && last.Present? && last.Value().status.id != "" && Ref(k.kind, last.Value().status.id) in s.records
            && ReadyAtItsGeneration(last.Value())
            && (k.kind == BackupKind && last.Value().spec.ForBackup? && last.Value().spec.databaseBackup.healthcheck.Some? ==>
                  last.Value().status.id in s.healthchecks)
  {
    SyncedIs(s, k);
    hide Steady, Resolvable, StatusOf;
  }

  /** Ready at its generation, without a healthcheck section, while databasus holds a healthcheck config. */
  ghost predicate LeftOver(s: State, k: Key) {
    var last := Last(s.Versions(k));
    && last.Present? && ReadyAtItsGeneration(last.Value()) && last.Value().spec.ForBackup?
    && last.Value().spec.databaseBackup.healthcheck.None? && last.Value().status.id in s.healthchecks
  }

  /** Everything rests, the DatabaseBackup among it with a healthcheck section. */
  ghost predicate Checked(s: State, k: Key, lower: set<Key>) {
    && k.kind == BackupKind && AllInOrder(s, lower, {k}) && (forall j :: j in lower + {k} ==> Rest(s, j))
    && Last(s.Versions(k)).Value().spec.ForBackup? && Last(s.Versions(k)).Value().spec.databaseBackup.healthcheck.Some?
  }

  ghost function Drops(s: State, k: Key, lower: set<Key>): Event
    requires Checked(s, k, lower)
  {
    UserEdit(k, WithoutCheck(Last(s.Versions(k)).Value().spec))
  }

  lemma DropsRest(s: State, k: Key, lower: set<Key>)
    requires Inv(s) && Checked(s, k, lower)
    ensures var dropped := Apply(s, Drops(s, k, lower));
            && Inv(dropped) && InOrder(dropped, k, lower) &&
               (forall j :: j in lower ==> j.kind != BackupKind && Rest(dropped, j))
            && var a, b := Last(s.Versions(k)).Value(), Last(dropped.Versions(k)).Value();
               b.spec == WithoutCheck(a.spec) && b.uid == a.uid
  {
    hide Inv, Rest, InOrder, Apply;
    var e := Drops(s, k, lower);
    EventKeeps(s, e);
    SameOrder(s, e, k, lower);
    forall j | j in lower ensures Rest(Apply(s, e), j) { EditLeaves(s, e, j); }
  }

  /** Take any state in which a DatabaseBackup with a healthcheck section rests, and let the user drop the
      section. When the object has then had its reconciles, it is Ready at its new generation, with no
      section, and databasus still holds the healthcheck config under its ID. */
  lemma DroppedCheckStays(workspace: string, events: seq<Event>, k: Key, lower: set<Key>, again: seq<Event>)
    requires Checked(Run(Empty(workspace), events), k, lower)
    requires var s := Run(Empty(workspace), events);
             var dropped := Apply(s, Drops(s, k, lower));
             CalmRun(dropped, again) && Finished(dropped, again, k)
    ensures var s := Run(Empty(workspace), events);
            LeftOver(Run(Empty(workspace), events + ([Drops(s, k, lower)] + again)), k)
  {
    hide Run, Inv, CalmRun, Finished, Rest, InOrder, Apply, EverSaved, ReadyAtItsGeneration;
    var s := Run(Empty(workspace), events);
    OrderIs(s, k, lower);
    var o := Last(s.Versions(k)).Value();
    var edit := Drops(s, k, lower);
    var more := [edit] + again;
    var dropped := Apply(s, edit);
    Reachable(workspace, events);
    DropsRest(s, k, lower);
    UpperRests(dropped, again, k, lower);
    OrderIs(dropped, k, lower);
    SpecRuns(dropped, again, k);
    RunOne(s, edit);
    RunConcat(s, [edit], again);
    RunConcat(Empty(workspace), events, more);
    RestHasRecord(s, k);
    var end := Run(dropped, again);
    RestHasRecord(end, k);
    SameIdLater(workspace, events, more, k);
    CheckThereIff(workspace, events, o.status.id);
    StaysSaved(Empty(workspace), events, more, o.status.id);
    CheckThereIff(workspace, events + more, o.status.id);
  }

  lemma OrderIs(s: State, k: Key, lower: set<Key>)
    requires InOrder(s, k, lower)
    ensures Last(s.Versions(k)).Present? && !Last(s.Versions(k)).Value().deleting
  {
    hide Supplied;
  }

  /** And such runs there are, from every state that is in order. */
  lemma LeftOverHappens(workspace: string, setup: seq<Event>, k: Key, lower: set<Key>) returns (events: seq<Event>)
    requires AllInOrder(Run(Empty(workspace), setup), lower, {k})
    requires var spec := Last(Run(Empty(workspace), setup).Versions(k)).Value().spec;
             spec.ForBackup? && spec.databaseBackup.healthcheck.Some?
    ensures setup <= events && LeftOver(Run(Empty(workspace), events), k)
  {
    hide Run, Inv, CalmRun, Finished, Rest, InOrder, Apply, LeftOver;
    var s := Run(Empty(workspace), setup);
    Reachable(workspace, setup);
    var first := CalmRunExists(s, lower);
    RunKeeps(s, first);
    var second := CalmRunExists(Run(s, first), {k});
    Converges(s, first, second, lower, {k});
    var synced := setup + (first + second);
    RunConcat(s, first, second);
    RunConcat(Empty(workspace), setup, first + second);
    var end := Run(Empty(workspace), synced);
    Reachable(workspace, synced);
    OrdersRun(s, first, lower, {k});
    OrdersRun(Run(s, first), second, lower, {k});
    OrderIs(s, k, lower);
    SpecRuns(s, first, k);
    SpecRuns(Run(s, first), second, k);
    assert Checked(end, k, lower);
    DropsRest(end, k, lower);
    var again := CalmRunExists(Apply(end, Drops(end, k, lower)), {k});
    DroppedCheckStays(workspace, synced, k, lower, again);
    events := synced + ([Drops(end, k, lower)] + again);
  }

  const DATABASE_KEY := Key(BackupKind, "ns", "db")

  const CHECKED_DATABASE :=
    ForBackup(DatabaseBackupSpec(
      DatabaseSpec("db", DATABASE_MYSQL, None, Some(SqlSpec("8", "h", 3306, "u", SecretKeyRef("s", "p"), "d", false)), None, None, []),
      BackupSpec(true, IntervalSpec("DAILY", None, None, None, None), RetentionSpec("COUNT", "", 1, 0, 0, 0, 0, 0), "x", [], false,
                 0, ""),
      Some(HealthcheckSpec(true, true, 1, 1, 1))))

  /** A Storage, a DatabaseBackup with a healthcheck section that refers to it, and its password. */
  lemma SetupExists(workspace: string) returns (setup: seq<Event>)
    ensures AllInOrder(Run(Empty(workspace), setup), {STORAGE_KEY}, {DATABASE_KEY})
    ensures var spec := Last(Run(Empty(workspace), setup).Versions(DATABASE_KEY)).Value().spec;
            spec.ForBackup? && spec.databaseBackup.healthcheck.Some?
  {
    var a := UserCreate(STORAGE_KEY, LOCAL_STORAGE, []);
    var b := UserCreate(DATABASE_KEY, CHECKED_DATABASE, []);
    var c := SetSecret(SecretId("ns", "s", "p"), "secret");
    setup := [a] + [b] + [c];
    RunOne(Empty(workspace), a);
    RunOne(Run(Empty(workspace), [a]), b);
    RunOne(Run(Empty(workspace), [a] + [b]), c);
    RunConcat(Empty(workspace), [a], [b]);
    RunConcat(Empty(workspace), [a] + [b], [c]);
    hide Run, Apply;
    AfterSetup(workspace, a, b, c);
    Plans();
    hide Plan;
  }

  lemma AfterSetup(workspace: string, a: Event, b: Event, c: Event)
    requires a == UserCreate(STORAGE_KEY, LOCAL_STORAGE, []) && b == UserCreate(DATABASE_KEY, CHECKED_DATABASE, [])
    requires c == SetSecret(SecretId("ns", "s", "p"), "secret")
    ensures var s := Apply(Apply(Apply(Empty(workspace), a), b), c);
            && Last(s.Versions(STORAGE_KEY)) == Present(Object(1, 1, false, [], LOCAL_STORAGE, EMPTY_STATUS))
            && Last(s.Versions(DATABASE_KEY)) == Present(Object(1, 1, false, [], CHECKED_DATABASE, EMPTY_STATUS))
            && SecretId("ns", "s", "p") in s.secrets
  {
    hide WorkOn, Abandon, Stored, Finalizer;
  }

  /** One such run from the empty state. */
  lemma LeftOverExists(workspace: string) returns (events: seq<Event>)
    ensures LeftOver(Run(Empty(workspace), events), DATABASE_KEY)
  {
    hide Run, AllInOrder, LeftOver;
    var setup := SetupExists(workspace);
    events := LeftOverHappens(workspace, setup, DATABASE_KEY, {STORAGE_KEY});
  }

  lemma Plans()
    ensures Plan(LOCAL_STORAGE) == []
    ensures Plan(CHECKED_DATABASE) == [Reference(StorageKind, "x"), Value(SecretKeyRef("s", "p"))]
  {
  }
}
