/** Where each call of a worker leads, whatever its outcome: the flight after it, as a function of what
the worker knows and of the answer it gets.
*/
module Calls {
  import opened Resources
  import opened Conditions
  import opened Builders
  import opened Protocol
  import opened Invariants
  import opened Inductive
  import opened Safety
  import opened Locality

  /** The ID that a save of the record leaves the worker with, if it succeeds. */
  function SavedId(s: State, k: Key, o: Object, t: Turn): Option<string> {
    if t.outcome != Done then None
    else if o.status.id == "" then if Unused(s, k.kind, t.newID) then Some(t.newID) else None
    else if Ref(k.kind, o.status.id) in s.records then Some(o.status.id)
    else None
  }

  predicate Saved(s: State, id: string, t: Turn) { t.outcome == Done && Ref(BackupKind, id) in s.records }

  function Landing(s: State, k: Key, t: Turn): Flight {
    var f := s.FlightOf(k);
    var o := s.Obj(k, f.Ver());
    if Blocked(s, k) then f
    else
      match f
      case Idle => if k in s.queued then AfterGet(s, k, t) else Idle
      case Removing(ver) => if t.outcome == Done then Detaching(ver) else Returning(ver, Result(10, false))
      case Detaching(ver) => Returning(ver, Result(0, !(Accepted(s, k, ver, t) && t.outcome == Done)))
      case Attaching(ver) => Returning(ver, Result(0, !(Accepted(s, k, ver, t) && t.outcome == Done)))
      case Gathering(ver, got) =>
        if |got| < |Plan(o.spec)| then AfterRead(o, ver, got, Found(s, k, ver, got, t), t.message)
        else AfterRecord(k, o, ver, got, SavedId(s, k, o, t), t.message)
      case Configuring(ver, got, id) => AfterConfig(o, ver, got, id, Saved(s, id, t), t.message)
      case Probing(ver, got, id) => AfterCheck(o, ver, id, Saved(s, id, t), t.message)
      case Refreshing(ver, id) => AfterRefresh(k, o, ver, id, if Saved(s, id, t) then Some(s.ReportOf(id)) else None)
      case Reporting(ver, verdict) =>
        Returning(ver, ResultOf(k.kind, verdict, Accepted(s, k, ver, t) && t.outcome == Done))
      case Returning(ver, result) => Idle
  }

  lemma Lands(s: State, k: Key, t: Turn)
    ensures WorkOn(s, k, t).FlightOf(k) == Landing(s, k, t)
  {
    if Blocked(s, k) {
      hide WorkOn, Blocked;
      BlockedStays(s, k, t);
    } else if s.FlightOf(k).Gathering? {
      hide AfterRead, AfterRecord, Complete, Plan, Found, Unused, Local, Gather, CreateRecord, UpdateRecord;
      var f := s.FlightOf(k);
      var o := s.Obj(k, f.Ver());
      if |f.Got()| < |Plan(o.spec)| { GatherEffect(s, k, f.Ver(), f.Got(), t); }
      else if o.status.id == "" { CreateEffect(s, k, f.Ver(), f.Got(), t); }
      else { UpdateEffect(s, k, f.Ver(), f.Got(), t); }
    } else if s.FlightOf(k).Returning? {
      hide WorkOn;
      ReturnIs(s, k, t);
    } else {
      hide Landing, WorkOn, Complete, Plan;
      OthersLand(s, k, t);
    }
  }

  lemma OthersLand(s: State, k: Key, t: Turn)
    requires !Blocked(s, k) && !s.FlightOf(k).Gathering? && !s.FlightOf(k).Returning?
    ensures WorkOn(s, k, t).FlightOf(k) == Landing(s, k, t)
  {
    hide State.Fly, State.Push, State.Enqueue, AfterGet, AfterConfig, AfterCheck, AfterRefresh, Complete, Plan, Found,
         ResultOf, Accepted, Finalizer, AddFinalizer,
         RemoveFinalizer, Local, Fetch, Remove, WriteObject, Configure, Probe, Refresh, WriteStatus, Gather, CreateRecord,
         UpdateRecord;
    var o := s.Obj(k, s.FlightOf(k).Ver());
    match s.FlightOf(k)
    case Idle =>
      if k in s.queued {
        FetchEffect(s, k, t);
        SameGet(s, k, t);
      }
    case Removing(ver) => RemoveEffect(s, k, ver, t);
    case Detaching(ver) => WriteObjectEffect(s, k, ver, o.(finalizers := RemoveFinalizer(o.finalizers, Finalizer(k.kind))), t);
    case Attaching(ver) => WriteObjectEffect(s, k, ver, o.(finalizers := AddFinalizer(o.finalizers, Finalizer(k.kind))), t);
    case Configuring(ver, got, id) => ConfigureEffect(s, k, ver, got, id, t);
    case Probing(ver, got, id) => ProbeEffect(s, k, ver, id, t);
    case Refreshing(ver, id) => RefreshEffect(s, k, ver, id, t);
    case Reporting(ver, verdict) => WriteStatusEffect(s, k, ver, verdict, t);
  }

  lemma SameGet(s: State, k: Key, t: Turn)
    ensures AfterGet(s.(queued := s.queued - {k}), k, t) == AfterGet(s, k, t)
  {
    hide Branch;
  }

  lemma SaveLands(s: State, k: Key, t: Turn)
    requires Saves(s, k)
    ensures var f := s.FlightOf(k);
            var o := s.Obj(k, f.Ver());
            var u := WorkOn(s, k, t);
            && u.FlightOf(k) == AfterRecord(k, o, f.Ver(), f.Got(), SavedId(s, k, o, t), t.message)
            && (SavedId(s, k, o, t).None? && t.outcome != Lost ==> u.records == s.records && u.issued == s.issued)
  {
    var f := s.FlightOf(k);
    var o := s.Obj(k, f.Ver());
    CompletePlan(o.spec, f.Got());
    hide WorkOn, Complete, Plan, AfterRecord, SavedId;
    Lands(s, k, t);
    if SavedId(s, k, o, t).None? && t.outcome != Lost { FailedSave(s, k, t); }
  }

  lemma FailedSave(s: State, k: Key, t: Turn)
    requires Saves(s, k) && SavedId(s, k, s.Obj(k, s.FlightOf(k).Ver()), t).None? && t.outcome != Lost
    ensures WorkOn(s, k, t).records == s.records && WorkOn(s, k, t).issued == s.issued
  {
    hide WorkOn, Complete, CreateRecord, UpdateRecord, AfterRecord, Local, Unused;
    var f := s.FlightOf(k);
    SaveIs(s, k, t);
    if s.Obj(k, f.Ver()).status.id == "" { CreateEffect(s, k, f.Ver(), f.Got(), t); }
    else { UpdateEffect(s, k, f.Ver(), f.Got(), t); }
  }

  /** A config save that fails without getting lost has no effect. */
  lemma FailedConfig(s: State, k: Key, t: Turn)
    requires (s.FlightOf(k).Configuring? || s.FlightOf(k).Probing?) && !Saved(s, s.FlightOf(k).id, t) && t.outcome != Lost
    ensures WorkOn(s, k, t).backupConfigs == s.backupConfigs && WorkOn(s, k, t).healthchecks == s.healthchecks
  {
    hide AfterConfig, AfterCheck, BackupConfigOf, HealthcheckOf;
  }

  /** A deletion that succeeds leaves no record. */
  lemma DeletionTakes(s: State, k: Key, t: Turn)
    requires s.FlightOf(k).Removing? && s.Holds(k, s.FlightOf(k).Ver()) && t.outcome == Done
    ensures Ref(k.kind, s.Obj(k, s.FlightOf(k).Ver()).status.id) !in WorkOn(s, k, t).records
  {
  }

  /** A status write that succeeds makes its version the current one. */
  lemma StatusCommits(s: State, k: Key, t: Turn)
    requires s.FlightOf(k).Reporting? && s.Holds(k, s.FlightOf(k).Ver())
    ensures var f := s.FlightOf(k);
            var o := s.Obj(k, f.Ver());
            Accepted(s, k, f.Ver(), t) ==>
              Last(WorkOn(s, k, t).Versions(k)) == Present(o.(status := StatusOf(o, f.verdict, t.now)))
  {
    hide WorkOn, WriteStatus, StatusOf, ResultOf, Local;
    var f := s.FlightOf(k);
    WorkIs(s, k, t);
    WriteStatusEffect(s, k, f.Ver(), f.verdict, t);
  }
}
