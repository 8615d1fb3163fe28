/** Exact accounting of remote records. The code does not promise that no record is ever orphaned; what
it keeps is this balance: the live records created for an object are the one that its status
names, the one that its current reconcile has created but not yet committed, and one more for
each event that lost one.
*/
module Accounting {
  import opened Resources
  import opened Conditions
  import opened Builders
  import opened Protocol
  import opened Invariants
  import opened Inductive
  import opened Safety

  ghost predicate IssuedTo(s: State, ref: Ref, owner: Owner) { ref in s.issued && s.issued[ref] == owner }

  /** All records that exist now and were created for this object. */
  ghost function Live(s: State, owner: Owner): set<Ref> { set ref | ref in s.records && IssuedTo(s, ref, owner) }

  /** Those that a committed status of the object names. */
  ghost function Named(s: State, owner: Owner): set<Ref> {
    set ref | ref in s.records && IssuedTo(s, ref, owner) && Committed(s, owner.key, owner.uid, ref.id)
  }

  /** The one whose ID the current reconcile has and still has to commit. */
  ghost function InFlight(s: State, owner: Owner): set<Ref> {
    set ref | ref in s.records && IssuedTo(s, ref, owner) && NewId(s, owner.key) == ref.id
  }

  ghost function LostOf(s: State, owner: Owner): set<Ref> { set ref | ref in s.lost && IssuedTo(s, ref, owner) }

  /** The record that an event makes the operator lose track of: a create took effect but its response
      was lost, the status write after a create did not commit, or the worker crashed in between. */
  function LossOf(s: State, e: Event): Option<Ref> {
    match e
    case Crash(k) => if NewId(s, k) != "" then Some(Ref(k.kind, NewId(s, k))) else None
    case Work(k, t) =>
      var f := s.FlightOf(k);
      if f.Gathering? then
        if s.Holds(k, f.Ver()) && Complete(s.Obj(k, f.Ver()).spec, f.Got()) && s.Obj(k, f.Ver()).status.id == "" &&
           t.outcome == Lost && Unused(s, k.kind, t.newID)
        then Some(Ref(k.kind, t.newID)) else None
      else if f.Reporting? && NewId(s, k) != "" && !Accepted(s, k, f.Ver(), t) then Some(Ref(k.kind, NewId(s, k)))
      else None
    case _ => None
  }

  /** The number of events of a run that lost a record of this object. */
  ghost function Losses(s: State, events: seq<Event>, owner: Owner): nat {
    if events == [] then 0
    else
      var before, e := Run(s, events[..|events| - 1]), events[|events| - 1];
      var loss := LossOf(before, e);
      Losses(s, events[..|events| - 1], owner) +
      Count(loss.Some? && IssuedTo(Apply(before, e), loss.value, owner))
  }

  // ------------------------------------------------------ one event at a time

  /** The ID that a flight has yet to commit belongs to the object the flight works on, is not lost, and
      its record exists. */
  lemma NewIdLives(s: State, k: Key)
    requires Inv(s) && NewId(s, k) != ""
    ensures var f := s.FlightOf(k);
            var ref := Ref(k.kind, NewId(s, k));
            && Active(f) && s.Holds(k, f.Ver()) && ref in s.records && ref !in s.lost
            && IssuedTo(s, ref, Owner(k, s.Obj(k, f.Ver()).uid)) && !Committed(s, k, s.Obj(k, f.Ver()).uid, ref.id)
  {
    hide RemovalInv, MatchInv, OriginInv, WakeInv, HorizonInv, Plan, Complete, Finalizer, GoodObject, ReadBy, Committed;
    assert KeyInv(s, k);
    var f := s.FlightOf(k);
    var versions := s.Versions(k);
    var o := versions[f.Ver()].Value();
    var ref := Ref(k.kind, NewId(s, k));
    assert ref in s.issued && s.issued[ref] == Owner(k, o.uid);
    NotDeleted(s, k, o.uid);
  }

  /** While a worker is past the finalizer checks, no record of its object has been removed. */
  lemma NotDeleted(s: State, k: Key, uid: nat)
    requires Inv(s) && Active(s.FlightOf(k)) && s.Holds(k, s.FlightOf(k).Ver()) && s.Obj(k, s.FlightOf(k).Ver()).uid == uid
    ensures forall ref :: ref in s.issued && s.issued[ref] == Owner(k, uid) ==> ref in s.records
  {
    hide MatchInv, OriginInv, WakeInv, HorizonInv, OwnInv, Plan, Complete, Finalizer, GoodObject, ReadBy, Released;
    assert KeyInv(s, k);
    var f := s.FlightOf(k);
    var versions := s.Versions(k);
    assert !versions[f.Ver()].Value().deleting;
    if DeletionSeen(s, k, uid) {
      var i :| 0 <= i <= f.Ver() && versions[i].Present? && versions[i].Value().uid == uid && versions[i].Value().deleting;
      var same := SameObject(versions[i], versions[f.Ver()]);
    }
  }

  lemma RemovesOne(s: State, k: Key, t: Turn)
    requires Inv(s) && s.FlightOf(k).Removing?
    ensures s.Holds(k, s.FlightOf(k).Ver()) && s.Obj(k, s.FlightOf(k).Ver()).status.id != ""
    ensures var id := s.Obj(k, s.FlightOf(k).Ver()).status.id;
            forall ref :: ref in s.records && ref != Ref(k.kind, id) ==> ref in WorkOn(s, k, t).records
  {
    hide HorizonInv, RemovalInv, MatchInv, OriginInv, WakeInv, OwnInv, Finalizer, GlobalInv, GoodObject, Later,
         Fetch, WriteObject, Gather, CreateRecord, UpdateRecord, Configure, Probe, Refresh, WriteStatus, Complete, Plan;
    assert KeyInv(s, k);
    match t.outcome
    case Done =>
    case Failed =>
    case Lost =>
  }

  /** A named ID is neither lost nor waiting in the flight. */
  lemma CommittedNotLost(s: State, k: Key, i: nat)
    requires Inv(s) && s.Holds(k, i) && s.Obj(k, i).status.id != ""
    ensures Ref(k.kind, s.Obj(k, i).status.id) !in s.lost
  {
    hide HorizonInv, RemovalInv, MatchInv, OriginInv, WakeInv, Finalizer, GlobalInv, Shape, FlightInv, NewId;
    assert KeyInv(s, k);
    assert s.Versions(k)[i].Present?;
    assert Committed(s, k, s.Obj(k, i).uid, s.Obj(k, i).status.id);
  }

  ghost predicate LostLive(s: State) { forall ref :: ref in s.lost ==> ref in s.records }

  function LossSet(loss: Option<Ref>): set<Ref> { if loss.Some? then {loss.value} else {} }

  /** What one event does to the lost records: it adds the one it loses, which was not lost before. */
  ghost predicate LosesExactly(s: State, e: Event, u: State) {
    && u.lost == s.lost + LossSet(LossOf(s, e))
    && (LossOf(s, e).Some? ==> LossOf(s, e).value !in s.lost && LossOf(s, e).value in u.issued)
    && (forall ref :: ref in s.issued ==> ref in u.issued && u.issued[ref] == s.issued[ref])
  }

  lemma CrashLoses(s: State, k: Key)
    requires Inv(s) && LostLive(s)
    ensures LosesExactly(s, Crash(k), Apply(s, Crash(k))) && LostLive(Apply(s, Crash(k)))
  {
    hide Inv, NewId;
    AbandonEffect(s, k);
    if NewId(s, k) != "" { NewIdLives(s, k); }
    assert s.FlightOf(k).Idle? ==> NewId(s, k) == "" by { IdleHasNone(s, k); }
  }

  lemma IdleHasNone(s: State, k: Key)
    ensures s.FlightOf(k).Idle? || s.FlightOf(k).Gathering? || s.FlightOf(k).Returning? ==> NewId(s, k) == ""
  {
  }

  lemma SaveLoses(s: State, k: Key, t: Turn)
    requires Inv(s) && LostLive(s) && Saves(s, k)
    ensures LosesExactly(s, Work(k, t), WorkOn(s, k, t)) && LostLive(WorkOn(s, k, t))
  {
    var f := s.FlightOf(k);
    LostIssued(s);
    hide Inv, NewId, LostLive, LosesExactly, LossOf, WorkOn, CreateRecord, UpdateRecord, Complete;
    SaveIs(s, k, t);
    if s.Obj(k, f.Ver()).status.id == "" { CreateLoses(s, k, f.Ver(), f.Got(), t); }
    else { UpdateLoses(s, k, f.Ver(), f.Got(), t); }
  }

  lemma CreateLoses(s: State, k: Key, ver: nat, got: seq<string>, t: Turn)
    requires LostLive(s) && Saves(s, k) && s.FlightOf(k) == Gathering(ver, got) && s.Obj(k, ver).status.id == ""
    requires forall ref :: ref in s.lost ==> ref in s.issued
    ensures var u := CreateRecord(s, k, ver, got, t); LosesExactly(s, Work(k, t), u) && LostLive(u)
  {
    hide Complete, Plan, RequestOf, AfterSave, NewId;
    if t.outcome == Failed || !Unused(s, k.kind, t.newID) {
    } else if t.outcome == Lost {
    } else {
    }
  }

  lemma UpdateLoses(s: State, k: Key, ver: nat, got: seq<string>, t: Turn)
    requires LostLive(s) && Saves(s, k) && s.FlightOf(k) == Gathering(ver, got) && s.Obj(k, ver).status.id != ""
    requires forall ref :: ref in s.lost ==> ref in s.issued
    ensures var u := UpdateRecord(s, k, ver, got, t); LosesExactly(s, Work(k, t), u) && LostLive(u)
  {
    hide Complete, Plan, RequestOf, AfterSave, NewId;
    if t.outcome == Failed || Ref(k.kind, s.Obj(k, ver).status.id) !in s.records {
    } else {
    }
  }

  lemma LostIssued(s: State)
    requires Inv(s)
    ensures forall ref :: ref in s.lost ==> ref in s.issued
  {
  }

  lemma ReportLoses(s: State, k: Key, t: Turn)
    requires Inv(s) && LostLive(s) && s.FlightOf(k).Reporting?
    ensures LosesExactly(s, Work(k, t), WorkOn(s, k, t)) && LostLive(WorkOn(s, k, t))
  {
    hide Inv, NewId, Complete, Plan, WriteStatus;
    var f := s.FlightOf(k);
    assert s.Holds(k, f.Ver()) by { ReportingHolds(s, k); }
    hide WorkOn;
    WorkIs(s, k, t);
    WriteStatusLoses(s, k, f.Ver(), f.verdict, t);
    if NewId(s, k) != "" { NewIdLives(s, k); }
  }

  lemma ReportingHolds(s: State, k: Key)
    requires Inv(s) && s.FlightOf(k).Reporting?
    ensures s.Holds(k, s.FlightOf(k).Ver())
  {
    hide HorizonInv, RemovalInv, MatchInv, OriginInv, WakeInv, OwnInv, Finalizer, GlobalInv, GoodObject, Later;
    assert KeyInv(s, k);
  }

  lemma WriteStatusLoses(s: State, k: Key, ver: nat, verdict: Verdict, t: Turn)
    requires s.Holds(k, ver)
    ensures var u := WriteStatus(s, k, ver, verdict, t);
            && u.records == s.records && u.issued == s.issued
            && u.lost == if Accepted(s, k, ver, t) || NewId(s, k) == "" then s.lost else s.lost + {Ref(k.kind, NewId(s, k))}
  {
    hide StatusOf, ResultOf, NewId;
    AbandonEffect(s, k);
    hide Abandon;
    if Accepted(s, k, ver, t) {
    } else {
    }
  }

  lemma OtherWorkLoses(s: State, k: Key, t: Turn)
    requires Inv(s) && LostLive(s) && !Saves(s, k) && !s.FlightOf(k).Reporting?
    ensures LosesExactly(s, Work(k, t), WorkOn(s, k, t)) && LostLive(WorkOn(s, k, t))
  {
    hide Inv, NewId, WorkOn, Complete, Plan;
    Footprints(s, k, t);
    if s.FlightOf(k).Removing? {
      RemovesOne(s, k, t);
      CommittedNotLost(s, k, s.FlightOf(k).Ver());
    }
  }

  lemma EventLoses(s: State, e: Event)
    requires Inv(s) && LostLive(s)
    ensures LosesExactly(s, e, Apply(s, e)) && LostLive(Apply(s, e))
  {
    hide LosesExactly, Inv, WorkOn, LostLive, Saves, Apply;
    if e.Crash? {
      CrashLoses(s, e.key);
    } else if e.Work? {
      assert Apply(s, e) == WorkOn(s, e.key, e.turn) by { WorkApplies(s, e.key, e.turn); }
      if Saves(s, e.key) { SaveLoses(s, e.key, e.turn); }
      else if s.FlightOf(e.key).Reporting? { ReportLoses(s, e.key, e.turn); }
      else { OtherWorkLoses(s, e.key, e.turn); }
    } else {
      OthersLoseNothing(s, e);
    }
  }

  lemma WorkApplies(s: State, k: Key, t: Turn)
    ensures Apply(s, Work(k, t)) == WorkOn(s, k, t)
  {
  }

  lemma OthersLoseNothing(s: State, e: Event)
    requires LostLive(s) && !e.Crash? && !e.Work?
    ensures LosesExactly(s, e, Apply(s, e)) && LostLive(Apply(s, e))
  {
    hide Apply, Complete, Plan, NewId;
    if IsUserEvent(e) { UserEffect(s, e); } else { OutsideEffect(s, e); }
  }

  lemma OutsideEffect(s: State, e: Event)
    requires !IsUserEvent(e) && !e.Crash? && !e.Work?
    ensures var u := Apply(s, e);
            u == s.(tracks := u.tracks, queued := u.queued, secrets := u.secrets, reports := u.reports)
  {
    hide WorkOn, Abandon, Stored, Finalizer;
  }

  lemma {:induction false} LossesCount(workspace: string, events: seq<Event>, owner: Owner)
    ensures var s := Run(Empty(workspace), events);
            LostLive(s) && |LostOf(s, owner)| == Losses(Empty(workspace), events, owner)
  {
    hide Apply, Inv, LosesExactly, LossOf;
    if events == [] {
      assert LostOf(Empty(workspace), owner) == {};
    } else {
      var before, e := Run(Empty(workspace), events[..|events| - 1]), events[|events| - 1];
      LossesCount(workspace, events[..|events| - 1], owner);
      Reachable(workspace, events[..|events| - 1]);
      EventLoses(before, e);
      LostIssued(before);
      OneMore(before, e, owner);
    }
  }

  lemma OneMore(s: State, e: Event, owner: Owner)
    requires LosesExactly(s, e, Apply(s, e)) && forall ref :: ref in s.lost ==> ref in s.issued
    ensures |LostOf(Apply(s, e), owner)| ==
            |LostOf(s, owner)| + Count(LossOf(s, e).Some? && IssuedTo(Apply(s, e), LossOf(s, e).value, owner))
  {
    hide Apply, LossOf;
    var u := Apply(s, e);
    if LossOf(s, e).Some? && IssuedTo(u, LossOf(s, e).value, owner) {
      assert LostOf(u, owner) == LostOf(s, owner) + {LossOf(s, e).value};
    } else {
      assert LostOf(u, owner) == LostOf(s, owner);
    }
  }

  // --------------------------------------------------------------- the balance

  /** One ID per object: two committed statuses of one object cannot name different records. */
  lemma OneName(s: State, owner: Owner, a: Ref, b: Ref)
    requires Inv(s) && a in Named(s, owner) && b in Named(s, owner)
    ensures a == b
  {
    hide FlightInv, HorizonInv, RemovalInv, MatchInv, OriginInv, WakeInv, NewId, GoodObject, Finalizer;
    var k := owner.key;
    assert KeyInv(s, k);
    var versions := s.Versions(k);
    var i :| 0 <= i < |versions| && versions[i].Present? && versions[i].Value().uid == owner.uid &&
      versions[i].Value().status.id == a.id;
    var j :| 0 <= j < |versions| && versions[j].Present? && versions[j].Value().uid == owner.uid &&
      versions[j].Value().status.id == b.id;
    assert SameObject(versions[i], versions[j]) && SameObject(versions[j], versions[i]);
    assert a.id != "" && b.id != "";
  }

  /** The live records of an object are, without overlap, the one its status names (unless that has been
      deleted), the one its reconcile is about to commit, and the lost ones; and as many are lost as there
      were events that lost one. */
  lemma OrphanAccounting(workspace: string, events: seq<Event>, owner: Owner)
    ensures var s := Run(Empty(workspace), events);
            && Live(s, owner) == Named(s, owner) + InFlight(s, owner) + LostOf(s, owner)
            && |Live(s, owner)| == |Named(s, owner)| + |InFlight(s, owner)| + Losses(Empty(workspace), events, owner)
            && |Named(s, owner)| <= 1 && |InFlight(s, owner)| <= 1
  {
    hide Run, Losses;
    var s := Run(Empty(workspace), events);
    Reachable(workspace, events);
    LossesCount(workspace, events, owner);
    Balance(s, owner);
  }

  lemma Balance(s: State, owner: Owner)
    requires Inv(s) && LostLive(s)
    ensures Live(s, owner) == Named(s, owner) + InFlight(s, owner) + LostOf(s, owner)
    ensures |Live(s, owner)| == |Named(s, owner)| + |InFlight(s, owner)| + |LostOf(s, owner)|
    ensures |Named(s, owner)| <= 1 && |InFlight(s, owner)| <= 1
  {
    assert OwnInv(s, owner.key) && GlobalInv(s) by { InvOwn(s, owner.key); }
    forall a, b | a in Named(s, owner) && b in Named(s, owner) ensures a == b { OneName(s, owner, a, b); }
    AtMostOne(Named(s, owner));
    hide Inv;
    InThreeParts(s, owner);
  }

  lemma InThreeParts(s: State, owner: Owner)
    requires OwnInv(s, owner.key) && GlobalInv(s) && LostLive(s)
    ensures Live(s, owner) == Named(s, owner) + InFlight(s, owner) + LostOf(s, owner)
    ensures |Live(s, owner)| == |Named(s, owner)| + |InFlight(s, owner)| + |LostOf(s, owner)| && |InFlight(s, owner)| <= 1
  {
    hide Committed, NewId;
    var named, flying, lost := Named(s, owner), InFlight(s, owner), LostOf(s, owner);
    AtMostOne(flying);
    forall ref
      ensures ref in Live(s, owner) <==> ref in named + flying + lost
      ensures !(ref in named && ref in flying) && !(ref in named && ref in lost) && !(ref in flying && ref in lost)
    {
    }
    assert Live(s, owner) == named + flying + lost;
    assert named !! flying && (named + flying) !! lost;
  }

  lemma InvOwn(s: State, k: Key)
    requires Inv(s)
    ensures OwnInv(s, k) && GlobalInv(s)
  {
    hide OwnInv, TrackInv, FlightInv, HorizonInv, RemovalInv, MatchInv, OriginInv, WakeInv;
    assert KeyInv(s, k);
  }

  lemma AtMostOne(refs: set<Ref>)
    requires forall a, b :: a in refs && b in refs ==> a == b
    ensures |refs| <= 1
  {
    if refs != {} {
      var a :| a in refs;
      assert refs == {a};
    }
  }

  // ------------------------------------------------- when are there two records?

  /** Without a loss an object has at most one record, except while a reconcile that created from a stale
      read is under way: it then has two, and that reconcile's status write is bound to be refused, so
      the second one will be lost. */
  lemma TwoRecords(workspace: string, events: seq<Event>, owner: Owner)
    requires Losses(Empty(workspace), events, owner) == 0
    ensures var s := Run(Empty(workspace), events);
            var f := s.FlightOf(owner.key);
            && |Live(s, owner)| <= 2
            && (|Live(s, owner)| == 2 <==> Named(s, owner) != {} && InFlight(s, owner) != {})
            && (|Live(s, owner)| == 2 ==> Active(f) && forall t :: !Accepted(s, owner.key, f.Ver(), t))
            && (f.Idle? || f.Returning? ==> |Live(s, owner)| <= 1)
  {
    hide Run, Losses, Live, Named, InFlight, NewId, Inv;
    var s := Run(Empty(workspace), events);
    Reachable(workspace, events);
    OrphanAccounting(workspace, events, owner);
    if Named(s, owner) != {} && InFlight(s, owner) != {} { DoomedFlight(s, owner); }
    if s.FlightOf(owner.key).Idle? || s.FlightOf(owner.key).Returning? {
      IdleHasNone(s, owner.key);
      NothingInFlight(s, owner);
    }
  }

  lemma NothingInFlight(s: State, owner: Owner)
    requires Inv(s) && NewId(s, owner.key) == ""
    ensures InFlight(s, owner) == {}
  {
    InvOwn(s, owner.key);
    hide Inv, NewId;
  }

  lemma DoomedFlight(s: State, owner: Owner)
    requires Inv(s) && Named(s, owner) != {} && InFlight(s, owner) != {}
    ensures Active(s.FlightOf(owner.key)) && s.FlightOf(owner.key).Ver() + 1 < |s.Versions(owner.key)|
  {
    var k := owner.key;
    InvOwn(s, k);
    assert TrackInv(s, k) by {
      InvKey(s, k);
      UnfoldKey(s, k);
    }
    hide Inv, GoodObject, Finalizer;
    var named :| named in Named(s, owner);
    var versions := s.Versions(k);
    var i :| 0 <= i < |versions| && versions[i].Present? && versions[i].Value().uid == owner.uid &&
      versions[i].Value().status.id == named.id;
    assert named.id != "";
    var ver := FlyingVersion(s, owner);
    hide OwnInv, InFlight, Named;
    var same := SameObject(versions[i], versions[ver]);
  }

  lemma FlyingVersion(s: State, owner: Owner) returns (ver: nat)
    requires Inv(s) && InFlight(s, owner) != {}
    ensures Active(s.FlightOf(owner.key)) && ver == s.FlightOf(owner.key).Ver() && s.Holds(owner.key, ver)
    ensures s.Obj(owner.key, ver).uid == owner.uid && s.Obj(owner.key, ver).status.id == ""
  {
    InvOwn(s, owner.key);
    hide Inv;
    var flying :| flying in InFlight(s, owner);
    assert flying.id != "" && flying == Ref(owner.key.kind, NewId(s, owner.key)) by { hide NewId; }
    NewIdLives(s, owner.key);
    ver := s.FlightOf(owner.key).Ver();
  }

  /** At the call itself, when nothing has been lost yet: it leaves the object with a second record
      if and only if it creates although an earlier status write, not yet in the version this reconcile
      read, has already named a record that still exists. */
  lemma SecondRecordIff(s: State, k: Key, t: Turn)
    requires Inv(s) && LostLive(s) && Saves(s, k)
    requires LostOf(s, Owner(k, s.Obj(k, s.FlightOf(k).Ver()).uid)) == {}
    ensures var o := s.Obj(k, s.FlightOf(k).Ver());
            var owner := Owner(k, o.uid);
            |Live(WorkOn(s, k, t), owner)| == 2 <==>
              o.status.id == "" && t.outcome != Failed && Unused(s, k.kind, t.newID) && Named(s, owner) != {}
  {
    var f := s.FlightOf(k);
    var o := s.Obj(k, f.Ver());
    var owner := Owner(k, o.uid);
    Balance(s, owner);
    IdleHasNone(s, k);
    NothingInFlight(s, owner);
    InvOwn(s, k);
    hide Inv, NewId, OwnInv, Live, Named, InFlight, LostOf, LostLive, WorkOn, CreateRecord, UpdateRecord, Complete;
    SaveIs(s, k, t);
    if o.status.id == "" { CreateAdds(s, k, f.Ver(), f.Got(), t); } else { UpdateAddsNone(s, k, f.Ver(), f.Got(), t); }
  }

  lemma CreateAdds(s: State, k: Key, ver: nat, got: seq<string>, t: Turn)
    requires GlobalInv(s) && s.Holds(k, ver) && Complete(s.Obj(k, ver).spec, got)
    ensures var owner := Owner(k, s.Obj(k, ver).uid);
            |Live(CreateRecord(s, k, ver, got, t), owner)| ==
            |Live(s, owner)| + Count(t.outcome != Failed && Unused(s, k.kind, t.newID))
  {
    hide Complete, Plan, Live, CreateRecord;
    var owner := Owner(k, s.Obj(k, ver).uid);
    var u := CreateRecord(s, k, ver, got, t);
    CreateIssues(s, k, ver, got, t);
    if t.outcome == Failed || !Unused(s, k.kind, t.newID) {
      assert Live(u, owner) == Live(s, owner) by { LiveStays(s, u, owner); }
    } else {
      LiveGrows(s, u, owner, Ref(k.kind, t.newID));
    }
  }

  lemma CreateIssues(s: State, k: Key, ver: nat, got: seq<string>, t: Turn)
    requires s.Holds(k, ver) && Complete(s.Obj(k, ver).spec, got)
    ensures var u := CreateRecord(s, k, ver, got, t);
            var ref := Ref(k.kind, t.newID);
            if t.outcome == Failed || !Unused(s, k.kind, t.newID) then u.records == s.records && u.issued == s.issued
            else (forall r :: r in u.records <==> r in s.records || r == ref) &&
                 u.issued == s.issued[ref := Owner(k, s.Obj(k, ver).uid)]
  {
    hide Complete, Plan, RequestOf, AfterSave;
  }

  lemma LiveStays(s: State, u: State, owner: Owner)
    requires (forall r :: r in u.records <==> r in s.records) && u.issued == s.issued
    ensures Live(u, owner) == Live(s, owner)
  {
  }

  lemma LiveGrows(s: State, u: State, owner: Owner, ref: Ref)
    requires ref !in s.records && ref !in s.issued
    requires (forall r :: r in u.records <==> r in s.records || r == ref) && u.issued == s.issued[ref := owner]
    ensures |Live(u, owner)| == |Live(s, owner)| + 1
  {
    assert Live(u, owner) == Live(s, owner) + {ref};
  }

  lemma UpdateAddsNone(s: State, k: Key, ver: nat, got: seq<string>, t: Turn)
    requires s.Holds(k, ver) && Complete(s.Obj(k, ver).spec, got)
    ensures var owner := Owner(k, s.Obj(k, ver).uid);
            Live(UpdateRecord(s, k, ver, got, t), owner) == Live(s, owner)
  {
    var u := UpdateRecord(s, k, ver, got, t);
    UpdateUnderKeys(s, k, ver, got, t);
    hide UpdateRecord, Live, Complete, Plan;
    LiveStays(s, u, Owner(k, s.Obj(k, ver).uid));
  }

  lemma UpdateUnderKeys(s: State, k: Key, ver: nat, got: seq<string>, t: Turn)
    requires s.Holds(k, ver) && Complete(s.Obj(k, ver).spec, got)
    ensures var u := UpdateRecord(s, k, ver, got, t);
            (forall r :: r in u.records <==> r in s.records) && u.issued == s.issued
  {
    hide Complete, Plan, RequestOf, AfterSave, Failure;
    if t.outcome == Failed || Ref(k.kind, s.Obj(k, ver).status.id) !in s.records {
    } else {
    }
  }

  const LOCAL_STORAGE :=
    ForStorage(StorageSpec("x", "LOCAL", None, None, None, Some(LocalSpec("/x")), None, None, None, None))

  const FRESH_STORAGE := Object(1, 1, false, [Finalizer(StorageKind)], LOCAL_STORAGE, EMPTY_STATUS)

  const STORAGE_KEY := Key(StorageKind, "ns", "x")

  /** A run without any loss that reaches two records: the cache of the second reconcile lags behind the
      status write of the first. */
  function StaleRun(): (run: seq<Event>)
    ensures |run| == 9
  {
    seq(9, n requires 0 <= n < 9 => StaleEvent(n))
  }

  function StaleEvent(n: nat): Event {
    if n == 0 then UserCreate(STORAGE_KEY, LOCAL_STORAGE, [Finalizer(StorageKind)])
    else if n == 1 then Observe(STORAGE_KEY, 1)
    else if n < 6 then Work(STORAGE_KEY, Turn(Done, "a", "", 0))  // Get, create, status write, return
    else if n == 6 then Wake(STORAGE_KEY)
    else Work(STORAGE_KEY, Turn(Done, "b", "", 0))                // Get of the old version, create
  }

  lemma TwoRecordsHappen()
    ensures var owner := Owner(STORAGE_KEY, 1);
            && Losses(Empty("w"), StaleRun(), owner) == 0
            && |Live(Run(Empty("w"), StaleRun()), owner)| == 2
  {
    assert StaleRun()[..9] == StaleRun();
    hide Losses, Run, Live, LostOf, Apply, At, StaleRun;
    var versions := FirstReconcile();
    StaleGet(versions);
    SecondCreate(versions);
    TwoLive(After(9), Reporting(1, Success(StorageKind, "b", EMPTY_STATUS.vitals)), versions);
    LossesCount("w", StaleRun(), Owner(STORAGE_KEY, 1));
  }

  ghost function After(n: nat): State
    requires n <= 9
  {
    Run(Empty("w"), StaleRun()[..n])
  }

  lemma Next(n: nat)
    requires n < 9
    ensures After(n + 1) == Apply(After(n), StaleEvent(n))
  {
    hide Apply, StaleEvent;
    assert StaleRun()[..n + 1][..n] == StaleRun()[..n];
  }

  lemma FirstGet()
    ensures At(After(3), [Absent, Present(FRESH_STORAGE)], Gathering(1, []), false, {})
  {
    assert After(0) == Empty("w");
    hide Run, Apply, At, StaleRun, After;
    Next(0);
    Next(1);
    hide StaleEvent;
    Published();
    FirstWork(2);
    Next(2);
    Gets(After(2), Turn(Done, "a", "", 0), [Absent, Present(FRESH_STORAGE)], {});
  }

  lemma FirstWork(n: nat)
    requires 2 <= n < 6
    ensures StaleEvent(n) == Work(STORAGE_KEY, Turn(Done, "a", "", 0))
  {
  }

  lemma FirstReconcile() returns (versions: seq<Version>)
    ensures At(After(6), versions, Idle, false, {Ref(StorageKind, "a")})
  {
    hide Run, Apply, At, StaleRun, StaleEvent, After;
    FirstGet();
    versions := Syncs(After(3), Turn(Done, "a", "", 0));
    Next(3);
    Next(4);
    Next(5);
    FirstWork(3);
    FirstWork(4);
    FirstWork(5);
  }

  lemma StaleGet(versions: seq<Version>)
    requires At(After(6), versions, Idle, false, {Ref(StorageKind, "a")})
    ensures At(After(8), versions, Gathering(1, []), false, {Ref(StorageKind, "a")})
  {
    var b := Turn(Done, "b", "", 0);
    hide Run, Apply, At, StaleRun, After;
    Next(6);
    Wakes(After(6), versions, {Ref(StorageKind, "a")});
    Next(7);
    Gets(After(7), b, versions, {Ref(StorageKind, "a")});
  }

  lemma SecondCreate(versions: seq<Version>)
    requires At(After(8), versions, Gathering(1, []), false, {Ref(StorageKind, "a")})
    ensures At(After(9), versions, Reporting(1, Success(StorageKind, "b", EMPTY_STATUS.vitals)), false,
               {Ref(StorageKind, "a")} + {Ref(StorageKind, "b")})
  {
    assert Ref(StorageKind, "b") !in {Ref(StorageKind, "a")} by { assert "a"[0] != "b"[0]; }
    var b := Turn(Done, "b", "", 0);
    hide Run, Apply, At, StaleRun, After;
    Next(8);
    Creates(After(8), b, versions, {Ref(StorageKind, "a")});
  }

  /** The only Storage is in this situation, with these records and no loss. */
  ghost predicate At(s: State, versions: seq<Version>, f: Flight, queued: bool, refs: set<Ref>) {
    && s.TrackOf(STORAGE_KEY) == Track(versions, 1) && s.FlightOf(STORAGE_KEY) == f
    && (STORAGE_KEY in s.queued <==> queued) && s.lost == {} && s.records.Keys == refs && s.issued.Keys == refs
    && (forall ref :: ref in refs ==> s.issued[ref] == Owner(STORAGE_KEY, 1))
    && 1 < |versions| && versions[1] == Present(FRESH_STORAGE)
  }

  lemma Published()
    ensures At(Apply(Apply(Empty("w"), StaleEvent(0)), StaleEvent(1)), [Absent, Present(FRESH_STORAGE)], Idle, true, {})
  {
  }

  lemma Gets(s: State, t: Turn, versions: seq<Version>, refs: set<Ref>)
    requires At(s, versions, Idle, true, refs) && t.outcome == Done
    ensures At(Apply(s, Work(STORAGE_KEY, t)), versions, Gathering(1, []), false, refs)
  {
    hide Remove, WriteObject, Gather, CreateRecord, UpdateRecord, Configure, Probe, Refresh, WriteStatus, Complete, Plan;
  }

  lemma CreateLeaves(s: State, k: Key, t: Turn)
    requires Saves(s, k) && s.Obj(k, s.FlightOf(k).Ver()).status.id == "" && t.outcome == Done && Unused(s, k.kind, t.newID)
    ensures var f := s.FlightOf(k);
            var o := s.Obj(k, f.Ver());
            var ref := Ref(k.kind, t.newID);
            var u := WorkOn(s, k, t);
            && u.issued == s.issued[ref := Owner(k, o.uid)] && u.lost == s.lost && u.queued == s.queued &&
               u.TrackOf(k) == s.TrackOf(k)
            && u.records.Keys == s.records.Keys + {ref} && u.FlightOf(k) == AfterSave(k, f.Ver(), f.Got(), t.newID, o)
  {
    hide Complete, Plan, RequestOf, WorkOn, AfterSave;
    SaveIs(s, k, t);
  }

  lemma LocalReadsNothing()
    ensures Complete(LOCAL_STORAGE, [])
  {
  }

  lemma Creates(s: State, t: Turn, versions: seq<Version>, refs: set<Ref>)
    requires At(s, versions, Gathering(1, []), false, refs)
    requires t.outcome == Done && t.newID != "" && Ref(StorageKind, t.newID) !in refs
    ensures At(Apply(s, Work(STORAGE_KEY, t)), versions, Reporting(1, Success(StorageKind, t.newID, EMPTY_STATUS.vitals)),
               false, refs + {Ref(StorageKind, t.newID)})
  {
    hide Complete, Plan, Success, WorkOn, Apply;
    LocalReadsNothing();
    assert s.Obj(STORAGE_KEY, 1) == FRESH_STORAGE;
    WorkApplies(s, STORAGE_KEY, t);
    assert Saves(s, STORAGE_KEY) && Unused(s, StorageKind, t.newID);
    CreateLeaves(s, STORAGE_KEY, t);
    hide Saves, Unused, State.FlightOf, State.TrackOf, State.Obj;
  }

  lemma Syncs(s: State, t: Turn) returns (versions: seq<Version>)
    requires At(s, [Absent, Present(FRESH_STORAGE)], Gathering(1, []), false, {}) && t == Turn(Done, "a", "", 0)
    ensures At(Apply(Apply(Apply(s, Work(STORAGE_KEY, t)), Work(STORAGE_KEY, t)), Work(STORAGE_KEY, t)),
               versions, Idle, false, {Ref(StorageKind, "a")})
  {
    var first := [Absent, Present(FRESH_STORAGE)];
    var verdict := Success(StorageKind, "a", EMPTY_STATUS.vitals);
    var synced := FRESH_STORAGE.(status := StatusOf(FRESH_STORAGE, verdict, 0));
    Creates(s, t, first, {});
    Commits(Apply(s, Work(STORAGE_KEY, t)), t, first, verdict);
    versions := first + [Present(synced)];
    hide Apply, At;
    Returns(Apply(Apply(s, Work(STORAGE_KEY, t)), Work(STORAGE_KEY, t)), t, versions);
  }

  lemma Commits(s: State, t: Turn, versions: seq<Version>, verdict: Verdict)
    requires At(s, versions, Reporting(1, verdict), false, {Ref(StorageKind, "a")}) && |versions| == 2
    requires t.outcome == Done && t.now == 0 && verdict == Success(StorageKind, "a", EMPTY_STATUS.vitals)
    ensures At(Apply(s, Work(STORAGE_KEY, t)),
               versions + [Present(FRESH_STORAGE.(status := StatusOf(FRESH_STORAGE, verdict, 0)))],
               Returning(1, Result(0, false)), false, {Ref(StorageKind, "a")})
  {
    hide Fetch, Remove, WriteObject, Gather, CreateRecord, UpdateRecord, Configure, Probe, Refresh, Complete, Plan;
    assert StatusOf(FRESH_STORAGE, verdict, 0).id == "a";
    hide StatusOf;
  }

  lemma Returns(s: State, t: Turn, versions: seq<Version>)
    requires At(s, versions, Returning(1, Result(0, false)), false, {Ref(StorageKind, "a")})
    ensures At(Apply(s, Work(STORAGE_KEY, t)), versions, Idle, false, {Ref(StorageKind, "a")})
  {
    hide Fetch, Remove, WriteObject, Gather, CreateRecord, UpdateRecord, Configure, Probe, Refresh, WriteStatus, Complete, Plan;
  }

  lemma Wakes(s: State, versions: seq<Version>, refs: set<Ref>)
    requires At(s, versions, Idle, false, refs)
    ensures At(Apply(s, Wake(STORAGE_KEY)), versions, Idle, true, refs)
  {
  }

  lemma TwoLive(s: State, f: Flight, versions: seq<Version>)
    requires At(s, versions, f, false, {Ref(StorageKind, "a")} + {Ref(StorageKind, "b")})
    ensures |Live(s, Owner(STORAGE_KEY, 1))| == 2 && LostOf(s, Owner(STORAGE_KEY, 1)) == {}
  {
    assert forall ref :: ref in s.records <==> ref in s.records.Keys;
    assert "a"[0] != "b"[0];
    assert Live(s, Owner(STORAGE_KEY, 1)) == {Ref(StorageKind, "a"), Ref(StorageKind, "b")};
  }
}
