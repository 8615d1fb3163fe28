/** What happens once edits and failures stop. In every calm run, whatever the interleaving of the three
controllers, each reconcile that begins with an up-to-date cache brings its key nearer to being
synchronised, and what is synchronised stays so and does not move any more.
*/
module Convergence {
  import opened Resources
  import opened Conditions
  import opened Builders
  import opened Protocol
  import opened Invariants
  import opened Inductive
  import opened Safety
  import opened Accounting
  import opened Locality
  import opened Calls
  import opened Stages
  import opened Progress

  // ---------------------------------------------------------------- calm runs

  /** Nobody edits and nothing fails: watches catch up, timers fire, and every call of a worker succeeds,
      a create under an unused ID. Texts and clocks stay arbitrary. */
  predicate CalmEvent(s: State, e: Event) {
    match e
    case Observe(_, _) => true
    case Wake(_) => true
    case Work(k, t) => t.outcome == Done && Unused(s, k.kind, t.newID)
    case _ => false
  }

  predicate CalmRun(s: State, events: seq<Event>) {
    events == [] ||
    (CalmRun(s, events[..|events| - 1]) && CalmEvent(Run(s, events[..|events| - 1]), events[|events| - 1]))
  }

  /** The cache shows the last version. */
  predicate Current(s: State, k: Key) { s.TrackOf(k).seen + 1 == |s.Versions(k)| }

  /** How far the reconciles of a key have got in a run: whether they are the run's own (those before the
      current one began before the run), whether the current one began with the cache up to date, and
      how many of those have ended. */
  datatype Tally = Tally(own: bool, timely: bool, ended: nat)

  function Next(s: State, e: Event, k: Key, p: Tally): Tally {
    if !e.Work? || e.key != k then p
    else if s.FlightOf(k).Idle? then if k in s.queued then Tally(true, Current(s, k), p.ended) else p
    else if s.FlightOf(k).Returning? then Tally(p.own, false, p.ended + Count(p.timely))
    else p
  }

  function TallyOf(s: State, p: Tally, events: seq<Event>, k: Key): Tally {
    if events == [] then p
    else
      var init := events[..|events| - 1];
      Next(Run(s, init), events[|events| - 1], k, TallyOf(s, p, init, k))
  }

  /** Nothing will move the key before a timer or a change does. */
  predicate Quiet(s: State, k: Key) {
    var f := s.FlightOf(k);
    (f.Idle? || (f.Returning? && !f.result.Again())) && k !in s.queued && Current(s, k)
  }

  /** A key that rests synchronised needs no reconcile of this run. */
  ghost function Start(s: State, k: Key): Tally { Tally(s.FlightOf(k).Idle? && Synced(s, k), false, 0) }

  /** The key has had its reconciles: three that began with the cache up to date, or as many as it asked for. */
  ghost predicate Finished(s: State, events: seq<Event>, k: Key) {
    var p := TallyOf(s, Start(s, k), events, k);
    p.ended >= 3 || (p.own && Quiet(Run(s, events), k))
  }

  // ------------------------------------------------------------- the measure

  /** How many up-to-date reconciles a key needs: to add the finalizer, to synchronise, to find nothing to do. */
  ghost function Level(s: State, k: Key): nat {
    if Synced(s, k) then if Current(s, k) then 0 else 1
    else if Last(s.Versions(k)).Present? && Attached(k.kind, Last(s.Versions(k)).Value()) then 2
    else 3
  }

  /** The reconcile under way began with the present inputs: it is on track, or it works on an outdated
      version and can only repeat what a reconcile of the current spec does. */
  ghost predicate Proper(s: State, k: Key) {
    var f := s.FlightOf(k);
    f.Idle? || f.Returning? ||
    if f.Ver() + 1 == |s.Versions(k)| then
      OnTrack(s, k) || (f.Attaching? && Last(s.Versions(k)).Present? && !Attached(k.kind, Last(s.Versions(k)).Value()))
    else Outdated(s, k)
  }

  ghost predicate Outdated(s: State, k: Key) {
    var f := s.FlightOf(k);
    (f.Gathering? || f.Configuring? || f.Probing?) && s.Holds(k, f.Ver()) && Last(s.Versions(k)).Present? &&
    s.Obj(k, f.Ver()).spec == Last(s.Versions(k)).Value().spec ==>
      var values := Values(s, k.namespace, s.Obj(k, f.Ver()).spec);
      |f.Got()| <= |values| && f.Got() == values[..|f.Got()|]
  }

  ghost predicate Steady(s: State, k: Key) { s.FlightOf(k).Idle? || s.FlightOf(k).Returning? || OnTrack(s, k) }

  function Least(n: nat): nat { if n < 3 then n else 3 }

  ghost predicate Good(s: State, k: Key, p: Tally) {
    && Resolvable(s, k)
    && (!p.own ==> p.ended == 0 && !p.timely)
    && (p.own ==> Proper(s, k) && Level(s, k) + Least(p.ended) <= 3 && (Quiet(s, k) ==> Synced(s, k)))
    && (p.timely ==> p.own && Fresh(s, k, p.ended))
    && (p.ended >= 3 ==> Steady(s, k))
  }

  ghost predicate Fresh(s: State, k: Key, ended: nat) {
    var f := s.FlightOf(k);
    && !f.Idle?
    && if f.Returning? then Level(s, k) + Least(ended + 1) <= 3 else f.Ver() + 1 == |s.Versions(k)| && Current(s, k)
  }

  // --------------------------------------------------- what stays synchronised

  /** The reads of the key's current spec give the same. */
  ghost predicate SameReads(s: State, u: State, k: Key) {
    Last(s.Versions(k)).Present? ==>
      var spec := Last(s.Versions(k)).Value().spec;
      && Values(u, k.namespace, spec) == Values(s, k.namespace, spec)
      && (Readable(s, k.namespace, spec) ==> Readable(u, k.namespace, spec))
  }

  /** What databasus has under an ID of the key's kind is still there, unchanged. */
  ghost predicate SameRemote(s: State, u: State, k: Key, id: string) {
    var ref := Ref(k.kind, id);
    && (ref in s.records ==> ref in u.records && u.records[ref] == s.records[ref])
    && (k.kind == BackupKind ==>
          && (id in s.backupConfigs ==> id in u.backupConfigs && u.backupConfigs[id] == s.backupConfigs[id])
          && (id in s.healthchecks ==> id in u.healthchecks && u.healthchecks[id] == s.healthchecks[id]))
  }

  lemma SyncedKept(s: State, u: State, k: Key)
    requires Synced(s, k) && u.Versions(k) == s.Versions(k) && u.workspace == s.workspace && u.reports == s.reports
    requires SameReads(s, u, k) && SameRemote(s, u, k, Last(s.Versions(k)).Value().status.id)
    ensures Synced(u, k)
  {
    hide Plan, Lookup, Complete, RequestOf, BackupConfigOf, HealthcheckOf, StatusOf, Success, Merge, IsReady, Values, Readable;
    var o := Last(s.Versions(k)).Value();
    assert VitalsOf(u, k, o, o.status.id) == VitalsOf(s, k, o, o.status.id);
  }

  lemma StillSame(s: State, u: State, k: Key, id: string)
    requires u.records == s.records && u.backupConfigs == s.backupConfigs && u.healthchecks == s.healthchecks
    ensures SameRemote(s, u, k, id)
  {
  }

  lemma InputsRead(s: State, u: State, k: Key)
    requires Resolvable(s, k) && SameInputs(s, u, k)
    ensures SameReads(s, u, k)
  {
    hide Plan, Lookup, Values, Readable;
    SameValues(s, u, k, Last(s.Versions(k)).Value().spec);
  }

  /** The same version, the same reads: the key can still be synchronised. */
  lemma ResolvableKept(s: State, u: State, k: Key)
    requires Resolvable(s, k) && u.Versions(k) == s.Versions(k) && SameReads(s, u, k)
    ensures Resolvable(u, k)
  {
    hide Plan, Lookup, Values, Readable;
  }

  lemma LevelKept(s: State, u: State, k: Key)
    requires u.Versions(k) == s.Versions(k) && s.TrackOf(k).seen <= u.TrackOf(k).seen < |s.Versions(k)|
    requires Synced(s, k) ==> Synced(u, k)
    ensures Level(u, k) <= Level(s, k)
  {
    hide Synced, Finalizer;
    if Synced(u, k) && !Synced(s, k) { SyncedIs(u, k); }
  }

  // --------------------------------------------------------- events of others

  /** An event that is none of the key's. */
  ghost predicate Elsewhere(s: State, u: State, k: Key) {
    && Untouched(s, u, k) && u.TrackOf(k) == s.TrackOf(k) && (k in u.queued <==> k in s.queued)
    && u.secrets == s.secrets && u.reports == s.reports
  }

  lemma OutsideElsewhere(s: State, e: Event, k: Key)
    requires Inv(s) && (e.Observe? || e.Wake?) && e.key != k
    ensures Elsewhere(s, Apply(s, e), k)
  {
    EventUntouched(s, e, k);
    hide Inv, Untouched;
  }

  lemma UserElsewhere(s: State, e: Event, k: Key)
    requires Inv(s) && IsUserEvent(e) && e.key != k
    ensures Elsewhere(s, Apply(s, e), k)
  {
    EventUntouched(s, e, k);
    hide Inv, Untouched, Stored, Finalizer;
    UserEffect(s, e);
  }

  lemma WorkElsewhere(s: State, j: Key, t: Turn, k: Key)
    requires Inv(s) && j != k
    ensures Elsewhere(s, WorkOn(s, j, t), k)
  {
    hide WorkOn, Inv, Saves, Apply, Untouched;
    WorkApplies(s, j, t);
    EventUntouched(s, Work(j, t), k);
    InvTrack(s, j);
    WorkLocal(s, j, t);
    LocalMeans(s, WorkOn(s, j, t), j, k);
    if Saves(s, j) { var ref := SavesUnder(s, j, t); } else { Footprints(s, j, t); }
  }

  lemma CalmElsewhere(s: State, e: Event, k: Key)
    requires Inv(s) && CalmEvent(s, e) && e.key != k
    ensures Elsewhere(s, Apply(s, e), k)
  {
    hide Inv, Apply, WorkOn, Elsewhere;
    if e.Work? {
      WorkApplies(s, e.key, e.turn);
      WorkElsewhere(s, e.key, e.turn, k);
    } else {
      OutsideElsewhere(s, e, k);
    }
  }

  lemma OthersRemote(s: State, u: State, k: Key, id: string)
    requires Untouched(s, u, k) && Owns(s, k, Ref(k.kind, id))
    ensures SameRemote(s, u, k, id)
  {
    assert Owns(u, k, Ref(k.kind, id));
  }

  lemma OthersStaySynced(s: State, u: State, k: Key)
    requires Inv(s) && Elsewhere(s, u, k) && SameReads(s, u, k) && Synced(s, k)
    ensures Synced(u, k)
  {
    hide Inv, Untouched, SameReads, RecordIs, ConfigIs, CheckIs, StatusOf, IsReady, SameRemote, Values, Resolvable;
    InvTrack(s, k);
    var last := |s.Versions(k)| - 1;
    assert s.Versions(k)[last] == Last(s.Versions(k)) && s.Holds(k, last) by { SyncedIs(s, k); }
    IssuedFor(s, k, last);
    hide Synced;
    OthersRemote(s, u, k, s.Obj(k, last).status.id);
    assert u.workspace == s.workspace by { UntouchedFlight(s, u, k); }
    SyncedKept(s, u, k);
  }

  lemma OthersOnTrack(s: State, u: State, k: Key)
    requires Inv(s) && Elsewhere(s, u, k) && SameReads(s, u, k) && OnTrack(s, k)
    ensures OnTrack(u, k)
  {
    hide Inv, Untouched, Plan, Lookup, Values, Readable, DoneSoFar, SameRemote;
    var f := s.FlightOf(k);
    var o := Last(s.Versions(k)).Value();
    UntouchedFlight(s, u, k);
    if FlightId(f) != "" {
      FlightIdOwned(s, k);
      OthersRemote(s, u, k, FlightId(f));
    }
    DoneElsewhere(s, u, k, o, Values(s, k.namespace, o.spec), f);
  }

  lemma DoneElsewhere(s: State, u: State, k: Key, o: Object, values: seq<string>, f: Flight)
    requires DoneSoFar(s, k, o, values, f) && u.workspace == s.workspace && u.reports == s.reports && Active(f)
    requires FlightId(f) != "" ==> SameRemote(s, u, k, FlightId(f))
    ensures DoneSoFar(u, k, o, values, f)
  {
    hide RequestOf, Complete, BackupConfigOf, HealthcheckOf, Merge, Success;
    assert VitalsOf(u, k, o, FlightId(f)) == VitalsOf(s, k, o, FlightId(f));
  }

  lemma OthersGood(s: State, u: State, k: Key, p: Tally)
    requires Inv(s) && Good(s, k, p) && Elsewhere(s, u, k) && SameReads(s, u, k)
    ensures Good(u, k, p)
  {
    hide Inv, Untouched, Synced, OnTrack, Resolvable, SameReads, Outdated;
    InvTrack(s, k);
    ResolvableKept(s, u, k);
    assert u.FlightOf(k) == s.FlightOf(k) by { UntouchedFlight(s, u, k); }
    if Synced(s, k) { OthersStaySynced(s, u, k); }
    if OnTrack(s, k) { OthersOnTrack(s, u, k); }
    if Outdated(s, k) { OutdatedKept(s, u, k); }
    SameFlight(s, u, k, p);
  }

  /** An event that is no call of the key's worker. */
  lemma SameFlight(s: State, u: State, k: Key, p: Tally)
    requires Good(s, k, p) && u.FlightOf(k) == s.FlightOf(k) && u.Versions(k) == s.Versions(k)
    requires s.TrackOf(k).seen <= u.TrackOf(k).seen < |s.Versions(k)| && (k in s.queued ==> k in u.queued)
    requires u.TrackOf(k) == s.TrackOf(k) || k in u.queued
    requires Resolvable(u, k) && (Synced(s, k) ==> Synced(u, k)) && (OnTrack(s, k) ==> OnTrack(u, k))
    requires Outdated(s, k) ==> Outdated(u, k)
    ensures Good(u, k, p)
  {
    hide Synced, OnTrack, Resolvable, Outdated, Attached;
    LevelKept(s, u, k);
    hide Level;
  }

  lemma OutdatedKept(s: State, u: State, k: Key)
    requires Outdated(s, k) && u.Versions(k) == s.Versions(k) && u.FlightOf(k) == s.FlightOf(k) && SameReads(s, u, k)
    ensures Outdated(u, k)
  {
    hide Values, Readable;
  }

  // --------------------------------------------- the key's watch and timers

  lemma Waking(s: State, e: Event, k: Key, p: Tally)
    requires Inv(s) && Good(s, k, p) && (e.Observe? || e.Wake?) && e.key == k
    ensures Good(Apply(s, e), k, p)
  {
    InvTrack(s, k);
    hide Inv, Synced, OnTrack, Resolvable, Outdated, SameReads, SameRemote, SameInputs;
    var u := Apply(s, e);
    if u != s {
      assert Woken(s, u, k) by { WakingKeeps(s, e, k); }
      hide Apply;
      NotMarked(s, k);
      InputsRead(s, u, k);
      ResolvableKept(s, u, k);
      if Synced(s, k) {
        StillSame(s, u, k, Last(s.Versions(k)).Value().status.id);
        SyncedKept(s, u, k);
      }
      if OnTrack(s, k) { OnTrackKept(s, u, k); }
      if Outdated(s, k) { OutdatedKept(s, u, k); }
      hide Good;
      SameFlight(s, u, k, p);
    }
  }

  /** What a wake-up changes. */
  ghost predicate Woken(s: State, u: State, k: Key) {
    && u == s.(tracks := u.tracks, queued := s.queued + {k}) && u.Versions(k) == s.Versions(k) && SameInputs(s, u, k)
    && s.TrackOf(k).seen <= u.TrackOf(k).seen < |s.Versions(k)|
  }

  lemma WakingKeeps(s: State, e: Event, k: Key)
    requires s.TrackOf(k).seen < |s.Versions(k)| && (e.Observe? || e.Wake?) && e.key == k && Apply(s, e) != s
    ensures Woken(s, Apply(s, e), k)
  {
    hide WorkOn, Abandon, Stored, Finalizer;
  }

  lemma OnTrackKept(s: State, u: State, k: Key)
    requires OnTrack(s, k) && u.FlightOf(k) == s.FlightOf(k) && u.Versions(k) == s.Versions(k) && SameInputs(s, u, k)
    requires u.records == s.records && u.backupConfigs == s.backupConfigs && u.healthchecks == s.healthchecks
    ensures OnTrack(u, k)
  {
    hide Plan, Lookup, Values, Readable, DoneSoFar, SameRemote;
    var f := s.FlightOf(k);
    var o := Last(s.Versions(k)).Value();
    StillSame(s, u, k, FlightId(f));
    DoneElsewhere(s, u, k, o, Values(s, k.namespace, o.spec), f);
    SameValues(s, u, k, o.spec);
  }

  // -------------------------------------------------- a reconcile begins, or ends

  /** A Get leaves everything as it was but the flight and the queue. */
  lemma Fetches(s: State, k: Key, t: Turn) returns (f: Flight)
    requires s.FlightOf(k).Idle? && k in s.queued && t.outcome == Done && s.TrackOf(k).seen < |s.Versions(k)|
    ensures WorkOn(s, k, t) == s.(queued := s.queued - {k}).Fly(k, f)
    ensures !f.Idle? && f.Ver() == s.TrackOf(k).seen && !f.Configuring? && !f.Probing? && (f.Gathering? ==> f.Got() == [])
    ensures var last := Last(s.Versions(k));
            Current(s, k) && last.Present? && !last.Value().deleting ==>
              if Attached(k.kind, last.Value()) then f.Gathering? else f.Attaching?
  {
    var q := s.(queued := s.queued - {k});
    WorkIs(s, k, t);
    f := FetchIs(q, k, t);
    if Current(s, k) && Last(s.Versions(k)).Present? && !Last(s.Versions(k)).Value().deleting {
      hide Fetch, Fetched, Finalizer;
      FetchWorks(s, k, t);
      hide WorkOn;
      assert WorkOn(s, k, t).FlightOf(k) == f;
    }
  }

  lemma Begins(s: State, u: State, k: Key, f: Flight)
    requires Resolvable(s, k) && |s.Versions(k)| > 0 && u == s.(queued := s.queued - {k}).Fly(k, f)
    requires f.Gathering? && f.Got() == [] && f.Ver() + 1 == |s.Versions(k)|
    ensures OnTrack(u, k)
  {
    hide Plan, Lookup, Values, Readable;
    SameValues(s, u, k, Last(s.Versions(k)).Value().spec);
  }

  lemma Fetching(s: State, k: Key, t: Turn, p: Tally)
    requires Inv(s) && Good(s, k, p) && s.FlightOf(k).Idle? && k in s.queued && t.outcome == Done
    ensures Good(WorkOn(s, k, t), k, Tally(true, Current(s, k), p.ended))
  {
    hide Inv, Synced, OnTrack, Outdated, Level, WorkOn, Finalizer;
    InvTrack(s, k);
    var f := Fetches(s, k, t);
    var u := WorkOn(s, k, t);
    assert SameInputs(s, u, k) && Woke(s, u);
    Unflown(s, u, k);
    NotMarked(s, k);
    AtLevel(s, k);
    if Current(s, k) {
      if f.Gathering? { Begins(s, u, k, f); }
    } else {
      assert Outdated(u, k) by { NothingRead(u, k); }
    }
    TopLevel(u, k);
    hide Resolvable;
  }

  /** Nothing but flights and the queue differs. */
  ghost predicate Woke(s: State, u: State) { u == s.(queued := u.queued, flights := u.flights) }

  lemma Unflown(s: State, u: State, k: Key)
    requires Resolvable(s, k) && Woke(s, u) && s.TrackOf(k).seen < |s.Versions(k)|
    ensures Resolvable(u, k) && (Synced(s, k) ==> Synced(u, k)) && Level(u, k) <= Level(s, k)
  {
    NotMarked(s, k);
    hide Synced, Resolvable, Level, SameReads;
    InputsRead(s, u, k);
    ResolvableKept(s, u, k);
    if Synced(s, k) {
      StillSame(s, u, k, Last(s.Versions(k)).Value().status.id);
      SyncedKept(s, u, k);
    }
    LevelKept(s, u, k);
  }

  lemma NothingRead(s: State, k: Key)
    requires var f := s.FlightOf(k); !f.Configuring? && !f.Probing? && (f.Gathering? ==> f.Got() == [])
    ensures Outdated(s, k)
  {
    hide Values;
  }

  /** What the level says. */
  lemma AtLevel(s: State, k: Key)
    ensures Level(s, k) == 0 <==> Synced(s, k) && Current(s, k)
    ensures Level(s, k) <= 1 <==> Synced(s, k)
    ensures Level(s, k) <= 2 && Last(s.Versions(k)).Present? ==> Attached(k.kind, Last(s.Versions(k)).Value())
    ensures Last(s.Versions(k)).Present? && Attached(k.kind, Last(s.Versions(k)).Value()) ==> Level(s, k) <= 2
  {
    if Synced(s, k) { SyncedIs(s, k); }
    hide Synced, Finalizer;
  }

  lemma TopLevel(s: State, k: Key)
    ensures Level(s, k) <= 3
  {
  }

  lemma Ending(s: State, k: Key, t: Turn, p: Tally)
    requires Inv(s) && Good(s, k, p) && s.FlightOf(k).Returning?
    ensures Good(WorkOn(s, k, t), k, Tally(p.own, false, p.ended + Count(p.timely)))
  {
    hide Inv, Synced, OnTrack, Outdated, Level, WorkOn, Finalizer, Resolvable;
    InvTrack(s, k);
    var u := WorkOn(s, k, t);
    Returns(s, k, t);
    Unflown(s, u, k);
    hide Woke;
  }

  lemma Returns(s: State, k: Key, t: Turn)
    requires s.FlightOf(k).Returning?
    ensures var u := WorkOn(s, k, t);
            && Woke(s, u) && u.FlightOf(k).Idle? && u.TrackOf(k) == s.TrackOf(k)
            && (Quiet(u, k) ==> Quiet(s, k))
  {
    hide WorkOn, Quiet, Woke;
    ReturnIs(s, k, t);
    IdleQuiet(s, k);
  }

  lemma IdleQuiet(s: State, k: Key)
    requires s.FlightOf(k).Returning?
    ensures var u := s.Fly(k, Idle);
            && Woke(s, u) && u.FlightOf(k).Idle? && u.TrackOf(k) == s.TrackOf(k)
            && (Quiet(u, k) && !s.FlightOf(k).result.Again() ==> Quiet(s, k))
    ensures var v := s.Fly(k, Idle).Enqueue(k);
            Woke(s, v) && v.FlightOf(k).Idle? && v.TrackOf(k) == s.TrackOf(k) && !Quiet(v, k)
  {
  }

  // --------------------------------------------- calls on the current version

  lemma TracksStay(s: State, k: Key, t: Turn)
    requires s.FlightOf(k).Gathering? || s.FlightOf(k).Configuring? || s.FlightOf(k).Probing? || s.FlightOf(k).Refreshing?
    ensures WorkOn(s, k, t).tracks == s.tracks
  {
    hide WorkOn, Saves;
    if Saves(s, k) { var ref := SavesUnder(s, k, t); } else { Footprints(s, k, t); }
  }

  /** A step on track keeps the key on track at the same version, or ends the reconcile synchronised; and
      what was synchronised has not been touched. */
  lemma OnTrackStep(s: State, k: Key, t: Turn)
    requires Inv(s) && OnTrack(s, k) && t.outcome == Done && Unused(s, k.kind, t.newID)
    ensures var u := WorkOn(s, k, t);
            && Resolvable(u, k) && u.TrackOf(k).seen == s.TrackOf(k).seen
            && (if u.FlightOf(k).Returning? then Synced(u, k) else OnTrack(u, k) && u.TrackOf(k) == s.TrackOf(k))
            && (Synced(s, k) ==> Synced(u, k) && u.TrackOf(k) == s.TrackOf(k) && Still(s, u, k))
  {
    hide Inv, WorkOn, Synced, DoneSoFar, Plan, Lookup, Values, Readable;
    var u := WorkOn(s, k, t);
    var f := s.FlightOf(k);
    assert !f.Idle? && Resolvable(s, k);
    hide OnTrack;
    TrackStep(s, k, t);
    StaysResolvable(s, k, t);
    WorkGrows(s, k, t);
    if OnTrack(u, k) {
      TrackFlies(u, k);
      assert Active(u.FlightOf(k)) by { OnTrackActive(u, k); }
      if f.Reporting? {
        Lands(s, k, t);
      } else {
        OnTrackActive(s, k);
        TracksStay(s, k, t);
      }
    }
  }

  lemma OnTrackActive(s: State, k: Key)
    requires OnTrack(s, k)
    ensures Active(s.FlightOf(k)) && s.FlightOf(k).Ver() + 1 == |s.Versions(k)|
  {
    hide DoneSoFar, Plan, Lookup, Values, Readable;
  }

  lemma Tracking(s: State, k: Key, t: Turn, p: Tally)
    requires Inv(s) && Good(s, k, p) && OnTrack(s, k) && t.outcome == Done && Unused(s, k.kind, t.newID)
    ensures Good(WorkOn(s, k, t), k, p)
  {
    hide Inv, WorkOn, Outdated, Still;
    var u := WorkOn(s, k, t);
    OnTrackStep(s, k, t);
    OnTrackActive(s, k);
    if u.FlightOf(k).Returning? {
    } else { OnTrackActive(u, k); }
    AtLevel(s, k);
    AtLevel(u, k);
    TopLevel(s, k);
    assert Attached(k.kind, Last(s.Versions(k)).Value()) by { TrackAttached(s, k); }
    hide Synced, OnTrack, Resolvable, Level, Attached;
  }

  lemma TrackAttached(s: State, k: Key)
    requires Inv(s) && OnTrack(s, k)
    ensures Last(s.Versions(k)).Present? && Attached(k.kind, Last(s.Versions(k)).Value())
  {
    OnTrackActive(s, k);
    hide Inv, OnTrack;
    ActiveProtected(s, k);
  }

  lemma AttachingStep(s: State, k: Key, t: Turn, p: Tally)
    requires Inv(s) && Good(s, k, p) && s.FlightOf(k) == Attaching(|s.Versions(k)| - 1) && |s.Versions(k)| > 0
    requires !Attached(k.kind, Last(s.Versions(k)).Value()) && t.outcome == Done && p.own
    ensures Good(WorkOn(s, k, t), k, p)
  {
    hide Inv, WorkOn, Outdated, Finalizer;
    var u := WorkOn(s, k, t);
    InvTrack(s, k);
    NotMarked(s, k);
    AttachWorks(s, k, t);
    StaysResolvable(s, k, t);
    WorkGrows(s, k, t);
    AtLevel(s, k);
    AtLevel(u, k);
    TopLevel(s, k);
    hide Synced, OnTrack, Resolvable, Level;
  }

  // --------------------------------------------- calls on an outdated version

  /** A write against an outdated version is refused. */
  lemma Refused(s: State, k: Key, t: Turn)
    requires var f := s.FlightOf(k); !f.Idle? && !f.Returning? && s.Holds(k, f.Ver()) && f.Ver() + 1 != |s.Versions(k)|
    ensures WorkOn(s, k, t).TrackOf(k) == s.TrackOf(k)
  {
    hide WorkOn;
    var f := s.FlightOf(k);
    if f.Attaching? || f.Detaching? { RefusedObject(s, k, t); }
    else if f.Reporting? { RefusedStatus(s, k, t); }
    else if f.Removing? { Footprints(s, k, t); }
    else { TracksStay(s, k, t); }
  }

  lemma RefusedObject(s: State, k: Key, t: Turn)
    requires var f := s.FlightOf(k); (f.Attaching? || f.Detaching?) && s.Holds(k, f.Ver()) && f.Ver() + 1 != |s.Versions(k)|
    ensures WorkOn(s, k, t).TrackOf(k) == s.TrackOf(k)
  {
    hide WorkOn, WriteObject, Rewritten, Local;
    ObjectIs(s, k, t);
    WriteObjectEffect(s, k, s.FlightOf(k).Ver(), Rewritten(s, k), t);
  }

  lemma RefusedStatus(s: State, k: Key, t: Turn)
    requires var f := s.FlightOf(k); f.Reporting? && s.Holds(k, f.Ver()) && f.Ver() + 1 != |s.Versions(k)|
    ensures WorkOn(s, k, t).TrackOf(k) == s.TrackOf(k)
  {
    hide WorkOn, WriteStatus, StatusOf, ResultOf, Local;
    var f := s.FlightOf(k);
    WorkIs(s, k, t);
    WriteStatusEffect(s, k, f.Ver(), f.verdict, t);
  }

  lemma OutdatedLeads(s: State, k: Key, t: Turn)
    requires Inv(s) && Resolvable(s, k) && Outdated(s, k) && !s.FlightOf(k).Idle? && !s.FlightOf(k).Returning?
    requires s.FlightOf(k).Ver() + 1 < |s.Versions(k)| && t.outcome == Done
    ensures var g := WorkOn(s, k, t).FlightOf(k);
            !g.Idle? && (g.Returning? || g.Ver() == s.FlightOf(k).Ver()) && Outdated(WorkOn(s, k, t), k)
  {
    hide WorkOn, Inv, Plan, Complete, Lookup, Values, Readable, Outdated, Failure, Success, Accepted, ResultOf, Merge;
    var f := s.FlightOf(k);
    FlightHolds(s, k);
    Refused(s, k, t);
    StaysResolvable(s, k, t);
    Lands(s, k, t);
    if f.Gathering? && |f.Got()| < |Plan(s.Obj(k, f.Ver()).spec)| { OutdatedReads(s, k, t); }
    else {
      hide Resolvable, SameInputs;
      GotKept(s, WorkOn(s, k, t), k);
    }
  }

  lemma GotKept(s: State, u: State, k: Key)
    requires Outdated(s, k) && Resolvable(s, k) && SameInputs(s, u, k) && u.TrackOf(k) == s.TrackOf(k)
    requires var f, g := s.FlightOf(k), u.FlightOf(k);
             g.Gathering? || g.Configuring? || g.Probing? ==>
               (f.Gathering? || f.Configuring? || f.Probing?) && g.Ver() == f.Ver() && g.Got() == f.Got()
    ensures Outdated(u, k)
  {
    hide Plan, Lookup, Values, Readable;
    SameValues(s, u, k, Last(s.Versions(k)).Value().spec);
  }

  lemma OutdatedReads(s: State, k: Key, t: Turn)
    requires Resolvable(s, k) && Outdated(s, k) && s.FlightOf(k).Gathering? && s.Holds(k, s.FlightOf(k).Ver())
    requires |s.FlightOf(k).Got()| < |Plan(s.Obj(k, s.FlightOf(k).Ver()).spec)| && t.outcome == Done
    requires SameInputs(s, WorkOn(s, k, t), k) && WorkOn(s, k, t).TrackOf(k) == s.TrackOf(k)
    ensures Outdated(WorkOn(s, k, t), k)
  {
    hide WorkOn, Plan, Complete, Lookup, Readable, Failure;
    var f := s.FlightOf(k);
    var o := s.Obj(k, f.Ver());
    Lands(s, k, t);
    if o.spec == Last(s.Versions(k)).Value().spec {
      var value := NextValue(s, k.namespace, o.spec, |f.Got()|);
      hide Values;
      SameValues(s, WorkOn(s, k, t), k, o.spec);
    }
  }

  /** What an outdated reconcile of a synchronised object can do at databasus is what has been done already. */
  lemma SameGeneration(s: State, k: Key)
    requires Inv(s) && Synced(s, k) && Active(s.FlightOf(k))
    ensures var f := s.FlightOf(k);
            && s.Holds(k, f.Ver()) && s.Obj(k, f.Ver()).spec == Last(s.Versions(k)).Value().spec
            && (s.Obj(k, f.Ver()).status.id != "" ==> s.Obj(k, f.Ver()).status.id == Last(s.Versions(k)).Value().status.id)
  {
    SyncedIsReady(s, k);
    hide Synced, RemovalInv, MatchInv, OriginInv, WakeInv, OwnInv, GlobalInv, Plan, Complete, Finalizer, GoodCondition, NewId;
    assert KeyInv(s, k);
    var f := s.FlightOf(k);
    var versions := s.Versions(k);
    var last := |versions| - 1;
    assert versions[last] == Last(versions) && GoodObject(k.kind, versions[last].Value());
    assert Later(k.kind, versions[f.Ver()].Value(), versions[last].Value());
  }

  lemma SyncedIsReady(s: State, k: Key)
    requires Synced(s, k)
    ensures var last := Last(s.Versions(k));
            && last.Present? && !last.Value().deleting && last.Value().status.id != ""
            && last.Value().status.observedGeneration == last.Value().generation &&
               Ref(k.kind, last.Value().status.id) in s.records
  {
  }

  lemma OutdatedSafe(s: State, k: Key, t: Turn)
    requires Inv(s) && Synced(s, k) && Outdated(s, k) && !s.FlightOf(k).Idle? && !s.FlightOf(k).Returning?
    requires t.outcome == Done && Unused(s, k.kind, t.newID)
    ensures SameRemote(s, WorkOn(s, k, t), k, Last(s.Versions(k)).Value().status.id)
  {
    hide WorkOn, Inv, Complete, Synced, Outdated, SameRemote;
    var f := s.FlightOf(k);
    SyncedIsReady(s, k);
    FlightHolds(s, k);
    if Active(f) {
      SameGeneration(s, k);
      if Saves(s, k) { OutdatedSave(s, k, t); }
      else if f.Configuring? || f.Probing? { OutdatedConfig(s, k, t); }
      else {
        Footprints(s, k, t);
        StillSame(s, WorkOn(s, k, t), k, Last(s.Versions(k)).Value().status.id);
      }
    } else if f.Removing? {
      OutdatedRemoval(s, k, t);
    } else {
      Footprints(s, k, t);
      StillSame(s, WorkOn(s, k, t), k, Last(s.Versions(k)).Value().status.id);
    }
  }

  lemma OutdatedRemoval(s: State, k: Key, t: Turn)
    requires Inv(s) && s.FlightOf(k).Removing? && Last(s.Versions(k)).Present? && !Last(s.Versions(k)).Value().deleting
    requires Last(s.Versions(k)).Value().status.id != ""
    ensures SameRemote(s, WorkOn(s, k, t), k, Last(s.Versions(k)).Value().status.id)
  {
    hide WorkOn, Inv;
    var last := |s.Versions(k)| - 1;
    InvTrack(s, k);
    assert s.Holds(k, last);
    RemovesOne(s, k, t);
    RemovesOneConfig(s, k, t);
    RemovingShrinks(s, k, t);
    IssuedFor(s, k, last);
    IssuedFor(s, k, s.FlightOf(k).Ver());
    MarkedIsOther(s, k);
  }

  lemma MarkedIsOther(s: State, k: Key)
    requires Inv(s) && s.FlightOf(k).Removing? && s.Holds(k, s.FlightOf(k).Ver())
    requires Last(s.Versions(k)).Present? && !Last(s.Versions(k)).Value().deleting
    ensures s.Obj(k, s.FlightOf(k).Ver()).uid != Last(s.Versions(k)).Value().uid
  {
    hide HorizonInv, RemovalInv, MatchInv, OriginInv, WakeInv, OwnInv, GlobalInv, Finalizer, Plan, GoodObject;
    assert KeyInv(s, k);
    var versions := s.Versions(k);
    var last := |versions| - 1;
    assert versions[last] == Last(versions);
    var same := SameObject(versions[s.FlightOf(k).Ver()], versions[last]);
  }

  lemma AllRead(s: State, k: Key) returns (values: seq<string>)
    requires var f := s.FlightOf(k);
             && Outdated(s, k) && (f.Gathering? || f.Configuring? || f.Probing?) && s.Holds(k, f.Ver())
             && Last(s.Versions(k)).Present? && s.Obj(k, f.Ver()).spec == Last(s.Versions(k)).Value().spec
             && |f.Got()| == |Plan(s.Obj(k, f.Ver()).spec)|
    ensures values == Values(s, k.namespace, s.Obj(k, s.FlightOf(k).Ver()).spec) && s.FlightOf(k).Got() == values
  {
    hide Plan, Lookup;
    values := Values(s, k.namespace, s.Obj(k, s.FlightOf(k).Ver()).spec);
  }

  lemma OutdatedSave(s: State, k: Key, t: Turn)
    requires Inv(s) && Synced(s, k) && Outdated(s, k) && Saves(s, k) && t.outcome == Done
    requires var f := s.FlightOf(k);
             var o := Last(s.Versions(k)).Value();
             && s.Obj(k, f.Ver()).spec == o.spec && (s.Obj(k, f.Ver()).status.id != "" ==> s.Obj(k, f.Ver()).status.id == o.status.id)
    ensures SameRemote(s, WorkOn(s, k, t), k, Last(s.Versions(k)).Value().status.id)
  {
    hide WorkOn, Synced, Outdated, Values, Complete, RequestOf, Plan, Inv;
    var f := s.FlightOf(k);
    var o := s.Obj(k, f.Ver());
    SyncedIsReady(s, k);
    CompletePlan(o.spec, f.Got());
    var values := AllRead(s, k);
    if o.status.id != "" {
      SyncedRecord(s, k, Last(s.Versions(k)).Value(), values);
      UpdateWorks(s, k, f.Ver(), f.Got(), t);
    } else {
      var ref := SavesUnder(s, k, t);
      InvTrack(s, k);
      IssuedFor(s, k, |s.Versions(k)| - 1);
    }
  }

  lemma OutdatedConfig(s: State, k: Key, t: Turn)
    requires Inv(s) && Synced(s, k) && Outdated(s, k) && (s.FlightOf(k).Configuring? || s.FlightOf(k).Probing?)
    requires s.Holds(k, s.FlightOf(k).Ver()) && s.Obj(k, s.FlightOf(k).Ver()).spec == Last(s.Versions(k)).Value().spec
    requires t.outcome == Done
    ensures SameRemote(s, WorkOn(s, k, t), k, Last(s.Versions(k)).Value().status.id)
  {
    hide Inv, WorkOn, Outdated, Values, Complete, Plan, SameRemote, Synced, FlightMatch;
    FlightHolds(s, k);
    FlightOwns(s, k);
    SyncedIsReady(s, k);
    var f := s.FlightOf(k);
    var o := Last(s.Versions(k)).Value();
    CompletePlan(o.spec, f.Got());
    var values := AllRead(s, k);
    if f.id != o.status.id { OtherConfig(s, k, t, o.status.id); } else { OwnConfig(s, k, t, o, values); }
  }

  lemma OtherConfig(s: State, k: Key, t: Turn, id: string)
    requires (s.FlightOf(k).Configuring? || s.FlightOf(k).Probing?) && s.FlightOf(k).id != id
    ensures SameRemote(s, WorkOn(s, k, t), k, id)
  {
    hide WorkOn;
    Footprints(s, k, t);
    OneConfig(s, k, t);
  }

  lemma OwnConfig(s: State, k: Key, t: Turn, o: Object, values: seq<string>)
    requires var f := s.FlightOf(k);
             && (f.Configuring? || f.Probing?) && f.Got() == values && |values| > 0 && f.id == o.status.id
             && s.Holds(k, f.Ver()) && s.Obj(k, f.Ver()).spec == o.spec && o.spec.ForBackup?
             && (f.Probing? ==> o.spec.databaseBackup.healthcheck.Some?)
    requires Synced(s, k) && Last(s.Versions(k)) == Present(o) && values == Values(s, k.namespace, o.spec)
    requires k.kind == BackupKind && t.outcome == Done
    ensures SameRemote(s, WorkOn(s, k, t), k, o.status.id)
  {
    hide WorkOn, Values, BackupConfigOf, HealthcheckOf, Synced;
    var f := s.FlightOf(k);
    SyncedIsReady(s, k);
    SyncedConfig(s, k, o, values, f.id);
    if f.Configuring? { ConfigureWorks(s, k, f.Ver(), f.Got(), f.id, t); } else { ProbeWorks(s, k, f.Ver(), f.Got(), f.id, t); }
  }

  lemma Trailing(s: State, k: Key, t: Turn, p: Tally)
    requires Inv(s) && Good(s, k, p) && p.own && !s.FlightOf(k).Idle? && !s.FlightOf(k).Returning?
    requires s.FlightOf(k).Ver() + 1 < |s.Versions(k)| && t.outcome == Done && Unused(s, k.kind, t.newID)
    ensures Good(WorkOn(s, k, t), k, p)
  {
    hide Inv, WorkOn, Outdated, OnTrack, Synced, SameRemote, Finalizer;
    var u := WorkOn(s, k, t);
    NotMarked(s, k);
    FlightHolds(s, k);
    Refused(s, k, t);
    OutdatedLeads(s, k, t);
    StaysResolvable(s, k, t);
    hide Resolvable;
    TrailingSynced(s, k, t);
    InvTrack(s, k);
    LevelKept(s, u, k);
    assert OnTrack(s, k) ==> false by { if OnTrack(s, k) { OnTrackActive(s, k); } }
    hide Level;
    if s.FlightOf(k).Ver() < s.TrackOf(k).seen { BehindIsQueued(s, k); }
    WorkKeepsQueue(s, k, t);
  }

  lemma TrailingSynced(s: State, k: Key, t: Turn)
    requires Inv(s) && Outdated(s, k) && !s.FlightOf(k).Idle? && !s.FlightOf(k).Returning?
    requires t.outcome == Done && Unused(s, k.kind, t.newID) && WorkOn(s, k, t).Versions(k) == s.Versions(k)
    ensures Synced(s, k) ==> Synced(WorkOn(s, k, t), k)
  {
    hide Inv, WorkOn, Outdated, SameRemote, Resolvable, Values, Readable, StatusOf, RecordIs, ConfigIs, CheckIs, IsReady;
    if Synced(s, k) {
      hide Synced;
      SyncedIs(s, k);
      WorkInputs(s, k, t);
      InputsRead(s, WorkOn(s, k, t), k);
      OutdatedSafe(s, k, t);
      SyncedKept(s, WorkOn(s, k, t), k);
    }
  }

  /** A worker that holds an older version than the cache shows has its key in the queue. */
  lemma BehindIsQueued(s: State, k: Key)
    requires Inv(s) && !s.FlightOf(k).Idle? && s.FlightOf(k).Ver() < s.TrackOf(k).seen
    ensures k in s.queued
  {
    hide TrackInv, HorizonInv, RemovalInv, MatchInv, OriginInv, WakeInv, OwnInv, GlobalInv, WorkInv;
    assert KeyInv(s, k);
  }

  lemma WorkKeepsQueue(s: State, k: Key, t: Turn)
    requires !s.FlightOf(k).Idle? && !s.FlightOf(k).Returning?
    ensures WorkOn(s, k, t).queued == s.queued
  {
    hide WorkOn, Saves;
    if Saves(s, k) { var ref := SavesUnder(s, k, t); } else { Footprints(s, k, t); }
  }

  // ----------------------------------------------------------- every event

  lemma Working(s: State, k: Key, t: Turn, p: Tally)
    requires Inv(s) && Good(s, k, p) && t.outcome == Done && Unused(s, k.kind, t.newID)
    ensures Good(WorkOn(s, k, t), k, Next(s, Work(k, t), k, p))
  {
    hide Inv, WorkOn, OnTrack, Outdated, Level, Resolvable, Synced, Finalizer;
    var f := s.FlightOf(k);
    if f.Idle? {
      if k in s.queued { Fetching(s, k, t, p); } else { assert WorkOn(s, k, t) == s by { WorkIs(s, k, t); } }
    }
    else if f.Returning? { Ending(s, k, t, p); }
    else if !p.own { StaysResolvable(s, k, t); }
    else if OnTrack(s, k) { Tracking(s, k, t, p); }
    else if f.Ver() + 1 == |s.Versions(k)| { AttachingStep(s, k, t, p); }
    else {
      assert f.Ver() < |s.Versions(k)| by { FlightHolds(s, k); }
      Trailing(s, k, t, p);
    }
  }

  /** Every calm event, of whichever key, keeps what has been reached and lets the tally go on. */
  lemma CalmKeeps(s: State, e: Event, k: Key, p: Tally)
    requires Inv(s) && Good(s, k, p) && CalmEvent(s, e) && (e.key == k || SameReads(s, Apply(s, e), k))
    ensures Good(Apply(s, e), k, Next(s, e, k, p))
  {
    hide Inv, Apply, WorkOn, Good, Elsewhere, SameReads;
    if e.key != k {
      CalmElsewhere(s, e, k);
      OthersGood(s, Apply(s, e), k, p);
    } else if e.Work? {
      WorkApplies(s, k, e.turn);
      Working(s, k, e.turn, p);
    } else {
      Waking(s, e, k, p);
    }
  }

  // -------------------------------------------------------------- whole runs

  /** Whatever happens in the run, the reads of the key's spec keep giving the same. */
  ghost predicate ReadsFixed(s: State, events: seq<Event>, k: Key) {
    events == [] ||
    (ReadsFixed(s, events[..|events| - 1], k) &&
     SameReads(Run(s, events[..|events| - 1]), Run(s, events), k))
  }

  /** The measure over a whole calm run. Once the reconciles are the run's own, as many levels are behind the
      key as up-to-date reconciles have ended: `Level + ended <= 3` until it is synchronised for good. */
  lemma {:induction false} CalmProgress(s: State, events: seq<Event>, k: Key)
    requires Inv(s) && Resolvable(s, k) && CalmRun(s, events) && ReadsFixed(s, events, k)
    ensures Inv(Run(s, events)) && Good(Run(s, events), k, TallyOf(s, Start(s, k), events, k))
  {
    hide Inv, Resolvable, Apply, Good, SameReads, Next, CalmEvent;
    if events == [] {
      StartsGood(s, k);
    } else {
      var init, e := events[..|events| - 1], events[|events| - 1];
      CalmProgress(s, init, k);
      CalmKeeps(Run(s, init), e, k, TallyOf(s, Start(s, k), init, k));
      EventKeeps(Run(s, init), e);
    }
  }

  lemma StartsGood(s: State, k: Key)
    requires Resolvable(s, k)
    ensures Good(s, k, Start(s, k))
  {
    AtLevel(s, k);
    hide Synced, Resolvable, OnTrack, Outdated, Level;
  }

  // ------------------------------------------------------------------- at rest

  /** Synchronised, with nothing in the cache, the worker or the queue that could change that. */
  ghost predicate Rest(s: State, k: Key) { Synced(s, k) && Current(s, k) && Steady(s, k) }

  /** The history of the key, the cache's view of it and all that databasus has for it are the same. */
  ghost predicate Kept(s: State, u: State, k: Key) {
    && u.TrackOf(k) == s.TrackOf(k) && Grown(s, u) && (forall ref :: Owns(u, k, ref) ==> Owns(s, k, ref))
    && SameRecords(s, u, k) && (k.kind == BackupKind ==> SameConfigs(s, u, k) && SameChecks(s, u, k))
  }

  lemma FinishedRests(s: State, events: seq<Event>, k: Key)
    requires Good(Run(s, events), k, TallyOf(s, Start(s, k), events, k)) && Finished(s, events, k)
    ensures Rest(Run(s, events), k)
  {
    var end := Run(s, events);
    AtLevel(end, k);
    hide Synced, OnTrack, Run, TallyOf, Level, Resolvable, Outdated;
  }

  lemma StillKept(s: State, u: State, k: Key)
    requires Still(s, u, k) && u.TrackOf(k) == s.TrackOf(k)
    ensures Kept(s, u, k)
  {
  }

  /** At rest the worker may still reconcile, and changes nothing by it. */
  lemma RestWorks(s: State, k: Key, t: Turn)
    requires Inv(s) && Rest(s, k) && t.outcome == Done && Unused(s, k.kind, t.newID)
    ensures Rest(WorkOn(s, k, t), k) && Kept(s, WorkOn(s, k, t), k)
  {
    hide Inv, WorkOn, Synced, OnTrack, Resolvable, Still, Kept, Finalizer;
    SyncedIs(s, k);
    NotMarked(s, k);
    var f := s.FlightOf(k);
    var u := WorkOn(s, k, t);
    if OnTrack(s, k) {
      OnTrackStep(s, k, t);
      StillKept(s, u, k);
    } else {
      InvTrack(s, k);
      if f.Returning? { Returns(s, k, t); }
      else if k in s.queued {
        var g := Fetches(s, k, t);
        Begins(s, u, k, g);
      } else {
        WorkIs(s, k, t);
      }
      hide Quiet;
      WokeStill(s, u, k);
      Unflown(s, u, k);
      StillKept(s, u, k);
    }
  }

  lemma WokeStill(s: State, u: State, k: Key)
    requires Woke(s, u)
    ensures Still(s, u, k) && u.TrackOf(k) == s.TrackOf(k)
  {
  }

  lemma RestKeeps(s: State, e: Event, k: Key)
    requires Inv(s) && Rest(s, k) && CalmEvent(s, e) && (e.key == k || SameReads(s, Apply(s, e), k))
    ensures Rest(Apply(s, e), k) && Kept(s, Apply(s, e), k)
  {
    hide Inv, Apply, WorkOn, Synced, OnTrack, SameReads, Untouched, Kept;
    var u := Apply(s, e);
    if e.key != k {
      CalmElsewhere(s, e, k);
      UntouchedFlight(s, u, k);
      OthersStaySynced(s, u, k);
      if OnTrack(s, k) { OthersOnTrack(s, u, k); }
      UntouchedKept(s, u, k);
    } else if e.Work? {
      WorkApplies(s, k, e.turn);
      RestWorks(s, k, e.turn);
    } else {
      WokenAtRest(s, e, k);
    }
  }

  lemma UntouchedKept(s: State, u: State, k: Key)
    requires Untouched(s, u, k) && u.TrackOf(k) == s.TrackOf(k)
    ensures Kept(s, u, k)
  {
    hide SameRecords, SameConfigs, SameChecks, Grown;
  }

  lemma WokenAtRest(s: State, e: Event, k: Key)
    requires Inv(s) && Rest(s, k) && (e.Observe? || e.Wake?) && e.key == k
    ensures Rest(Apply(s, e), k) && Kept(s, Apply(s, e), k)
  {
    hide Inv, Synced, OnTrack, Resolvable, Still, Kept, WorkOn, Abandon, Stored;
    InvTrack(s, k);
    SyncedIs(s, k);
    var u := Apply(s, e);
    assert Woke(s, u) && u.FlightOf(k) == s.FlightOf(k);
    hide Apply;
    WokeStill(s, u, k);
    Unflown(s, u, k);
    StillKept(s, u, k);
    if OnTrack(s, k) { WokenOnTrack(s, u, k); }
  }

  lemma WokenOnTrack(s: State, u: State, k: Key)
    requires OnTrack(s, k) && Woke(s, u) && u.FlightOf(k) == s.FlightOf(k)
    ensures OnTrack(u, k)
  {
    hide OnTrack;
    OnTrackKept(s, u, k);
  }

  lemma KeptChain(s: State, u: State, w: State, k: Key)
    requires Kept(s, u, k) && Kept(u, w, k)
    ensures Kept(s, w, k)
  {
    hide SameRecords, SameConfigs, SameChecks;
    SameChain(s, u, w, k);
  }

  /** What rests goes on resting: no calm run moves it again. */
  lemma {:induction false} RestRuns(s: State, events: seq<Event>, k: Key)
    requires Inv(s) && Rest(s, k) && CalmRun(s, events) && ReadsFixed(s, events, k)
    ensures Inv(Run(s, events)) && Rest(Run(s, events), k) && Kept(s, Run(s, events), k)
  {
    hide Inv, Rest, Apply, SameReads, CalmEvent, Kept;
    if events == [] {
      StillKept(s, s, k);
    } else {
      var init, e := events[..|events| - 1], events[|events| - 1];
      RestRuns(s, init, k);
      RestKeeps(Run(s, init), e, k);
      EventKeeps(Run(s, init), e);
      KeptChain(s, Run(s, init), Run(s, events), k);
    }
  }

  /** The chain of a single key. From any reachable state, whatever its worker is doing, a key whose reads
      succeed rests after three up-to-date reconciles, or as soon as it asks for no more; and however the run
      goes on, its history, its record and its configs stay as they are. */
  lemma ChainEnds(workspace: string, events: seq<Event>, k: Key, calm: seq<Event>, more: seq<Event>)
    requires var s := Run(Empty(workspace), events);
             && Resolvable(s, k) && CalmRun(s, calm) && ReadsFixed(s, calm, k) && Finished(s, calm, k)
             && CalmRun(Run(s, calm), more) && ReadsFixed(Run(s, calm), more, k)
    ensures var end := Run(Run(Empty(workspace), events), calm);
            Rest(end, k) && Rest(Run(end, more), k) && Kept(end, Run(end, more), k)
  {
    hide Run, Inv, Resolvable, CalmRun, ReadsFixed, Finished, Good, Rest, Kept;
    var s := Run(Empty(workspace), events);
    Reachable(workspace, events);
    CalmProgress(s, calm, k);
    FinishedRests(s, calm, k);
    RestRuns(Run(s, calm), more, k);
  }

  // ------------------------------------------------- Storages and Notifiers first

  /** The user's side is in order: the object is there, not marked, of a supported shape, with all its
      secrets, and referring only to Storages and Notifiers of this set. */
  ghost predicate InOrder(s: State, k: Key, lower: set<Key>) {
    var last := Last(s.Versions(k));
    && last.Present? && !last.Value().deleting && last.Value().spec.Kind() == k.kind
    && Supplied(s, k.namespace, last.Value().spec, lower)
  }

  ghost predicate Supplied(s: State, namespace: string, spec: Spec, lower: set<Key>) {
    forall i :: 0 <= i < |Plan(spec)| ==>
      match Plan(spec)[i]
      case Value(ref) => SecretOf(namespace, ref) in s.secrets
      case Reference(kind, name) => Key(kind, namespace, name) in lower
      case Reject(_) => false
  }

  lemma LowerResolves(s: State, k: Key, lower: set<Key>)
    requires InOrder(s, k, lower) && k.kind != BackupKind
    ensures Resolvable(s, k)
  {
    var spec := Last(s.Versions(k)).Value().spec;
    forall i | 0 <= i < |Plan(spec)| ensures Lookup(s, k.namespace, Plan(spec)[i]).Some? {
      if Plan(spec)[i].Reference? { ReferencesGoDown(spec, i); }
      hide Plan;
    }
    hide Plan, Lookup;
  }

  lemma UpperResolves(s: State, k: Key, lower: set<Key>)
    requires InOrder(s, k, lower) && forall j :: j in lower ==> Rest(s, j)
    ensures Resolvable(s, k)
  {
    hide Plan, Synced, Steady;
    var spec := Last(s.Versions(k)).Value().spec;
    forall i | 0 <= i < |Plan(spec)| ensures Lookup(s, k.namespace, Plan(spec)[i]).Some? {
      match Plan(spec)[i]
      case Value(ref) =>
      case Reference(kind, name) =>
        SyncedIsFound(s, Key(kind, k.namespace, name));
      case Reject(_) =>
    }
    hide Lookup;
  }

  lemma SyncedIsFound(s: State, k: Key)
    requires Synced(s, k) && Current(s, k)
    ensures Lookup(s, k.namespace, Reference(k.kind, k.name)).Some?
  {
    hide RecordIs, ConfigIs, CheckIs, StatusOf, Readable, Values, IsReady, VitalsOf, Plan;
    var seen := s.TrackOf(k).seen;
    assert s.Versions(k)[seen] == Last(s.Versions(k));
  }

  /** A Storage or Notifier reads secrets only. */
  lemma SecretsRead(s: State, u: State, k: Key)
    requires Last(s.Versions(k)).Present? ==> Last(s.Versions(k)).Value().spec.Kind() == k.kind
    requires k.kind != BackupKind && u.secrets == s.secrets
    ensures SameReads(s, u, k)
  {
    if Last(s.Versions(k)).Present? {
      var spec := Last(s.Versions(k)).Value().spec;
      forall i | 0 <= i < |Plan(spec)|
        ensures Lookup(u, k.namespace, Plan(spec)[i]) == Lookup(s, k.namespace, Plan(spec)[i])
      {
        if Plan(spec)[i].Reference? { ReferencesGoDown(spec, i); }
        hide Plan;
      }
      hide Plan, Lookup;
    }
  }

  lemma LastKind(s: State, k: Key)
    requires Inv(s)
    ensures Last(s.Versions(k)).Present? ==> Last(s.Versions(k)).Value().spec.Kind() == k.kind
  {
    InvTrack(s, k);
    assert TrackInv(s, k) by {
      InvKey(s, k);
      UnfoldKey(s, k);
    }
    hide Inv, TrackInv;
    if Last(s.Versions(k)).Present? { TrackGood(s, k, |s.Versions(k)| - 1); }
  }

  lemma {:induction false} LowerReads(s: State, events: seq<Event>, k: Key)
    requires Inv(s) && CalmRun(s, events) && k.kind != BackupKind
    ensures ReadsFixed(s, events, k)
  {
    hide Inv, Apply, CalmEvent, SameReads;
    if events != [] {
      var init, e := events[..|events| - 1], events[|events| - 1];
      LowerReads(s, init, k);
      var before := Run(s, init);
      RunKeeps(s, init);
      LastKind(before, k);
      CalmSecrets(before, e);
      SecretsRead(before, Apply(before, e), k);
    }
  }

  lemma CalmSecrets(s: State, e: Event)
    requires CalmEvent(s, e)
    ensures Apply(s, e).secrets == s.secrets
  {
    hide WorkOn, Saves, Abandon, Stored, Finalizer;
    if e.Work? {
      if Saves(s, e.key) { var ref := SavesUnder(s, e.key, e.turn); } else { Footprints(s, e.key, e.turn); }
    }
  }

  // -------------------------------------------------------- then DatabaseBackups

  /** The key's worker neither marks nor replaces its object, nor touches its spec. */
  lemma CalmSpec(s: State, e: Event, k: Key)
    requires Inv(s) && CalmEvent(s, e) && Last(s.Versions(k)).Present? && !Last(s.Versions(k)).Value().deleting
    ensures SameSpec(Last(s.Versions(k)), Last(Apply(s, e).Versions(k)))
  {
    hide Inv, WorkOn, Untouched, Abandon, Stored, Finalizer;
    if e.key != k { CalmElsewhere(s, e, k); }
    else if e.Work? {
      if s.FlightOf(k).Idle? { IdleTracks(s, k, e.turn); } else { SpecStays(s, k, e.turn); }
    }
  }

  lemma {:induction false} SpecRuns(s: State, events: seq<Event>, k: Key)
    requires Inv(s) && CalmRun(s, events) && Last(s.Versions(k)).Present? && !Last(s.Versions(k)).Value().deleting
    ensures SameSpec(Last(s.Versions(k)), Last(Run(s, events).Versions(k))) && Run(s, events).secrets == s.secrets
  {
    hide Inv, Apply, CalmEvent;
    if events != [] {
      var init := events[..|events| - 1];
      SpecRuns(s, init, k);
      RunKeeps(s, init);
      CalmSpec(Run(s, init), events[|events| - 1], k);
      CalmSecrets(Run(s, init), events[|events| - 1]);
    }
  }

  lemma IdleTracks(s: State, k: Key, t: Turn)
    requires s.FlightOf(k).Idle?
    ensures WorkOn(s, k, t).tracks == s.tracks
  {
    hide WorkOn;
    Footprints(s, k, t);
  }

  lemma OrderRuns(s: State, events: seq<Event>, k: Key, lower: set<Key>)
    requires Inv(s) && CalmRun(s, events) && InOrder(s, k, lower)
    ensures InOrder(Run(s, events), k, lower)
  {
    hide Inv, Run, CalmRun, Plan;
    SpecRuns(s, events, k);
  }

  lemma SuppliedReads(s: State, u: State, k: Key, lower: set<Key>)
    requires InOrder(s, k, lower) && u.secrets == s.secrets && forall j :: j in lower ==> u.TrackOf(j) == s.TrackOf(j)
    ensures SameReads(s, u, k)
  {
    hide Plan;
    var spec := Last(s.Versions(k)).Value().spec;
    forall i | 0 <= i < |Plan(spec)|
      ensures Lookup(u, k.namespace, Plan(spec)[i]) == Lookup(s, k.namespace, Plan(spec)[i])
    {
    }
    hide Lookup;
  }

  /** While the Storages and Notifiers rest, what a DatabaseBackup reads does not change. */
  lemma {:induction false} UpperReads(s: State, events: seq<Event>, k: Key, lower: set<Key>)
    requires Inv(s) && CalmRun(s, events) && InOrder(s, k, lower)
    requires forall j :: j in lower ==> j.kind != BackupKind && Rest(s, j)
    ensures ReadsFixed(s, events, k)
  {
    hide Inv, Apply, CalmEvent, InOrder, Rest, SameReads;
    if events != [] {
      var init := events[..|events| - 1];
      UpperReads(s, init, k, lower);
      OrderRuns(s, init, k, lower);
      forall j | j in lower ensures Run(s, events).TrackOf(j) == Run(s, init).TrackOf(j) {
        LowerReads(s, init, j);
        LowerReads(s, events, j);
        RestRuns(s, init, j);
        RestRuns(s, events, j);
      }
      CalmSecrets(Run(s, init), events[|events| - 1]);
      SuppliedReads(Run(s, init), Run(s, events), k, lower);
    }
  }

  // --------------------------------------------------------------- convergence

  /** All of these rest: each is Ready at its current generation, and databasus holds what the current
      specs, secrets and references call for. */
  ghost predicate AllRest(s: State, keys: set<Key>) {
    forall k :: k in keys ==>
      Rest(s, k) && Last(s.Versions(k)).Present? && ReadyAtItsGeneration(Last(s.Versions(k)).Value())
  }

  ghost predicate AllKept(s: State, u: State, keys: set<Key>) { forall k :: k in keys ==> Kept(s, u, k) }

  /** The Storages and Notifiers `lower` and the DatabaseBackups `upper` are in order on the user's side. */
  ghost predicate AllInOrder(s: State, lower: set<Key>, upper: set<Key>) {
    && (forall k :: k in lower ==> k.kind != BackupKind && InOrder(s, k, lower))
    && (forall k :: k in upper ==> k.kind == BackupKind && InOrder(s, k, lower))
  }

  ghost predicate AllFinished(s: State, events: seq<Event>, keys: set<Key>) {
    forall k :: k in keys ==> Finished(s, events, k)
  }

  lemma LowerRests(s: State, first: seq<Event>, k: Key, lower: set<Key>)
    requires Inv(s) && CalmRun(s, first) && InOrder(s, k, lower) && k.kind != BackupKind && Finished(s, first, k)
    ensures Rest(Run(s, first), k)
  {
    hide Inv, Run, CalmRun, InOrder, Finished, Resolvable, Good, Rest;
    LowerResolves(s, k, lower);
    LowerReads(s, first, k);
    CalmProgress(s, first, k);
    FinishedRests(s, first, k);
  }

  lemma UpperRests(s: State, second: seq<Event>, k: Key, lower: set<Key>)
    requires Inv(s) && CalmRun(s, second) && InOrder(s, k, lower) && Finished(s, second, k)
    requires forall j :: j in lower ==> j.kind != BackupKind && Rest(s, j)
    ensures Rest(Run(s, second), k)
  {
    hide Inv, Run, CalmRun, InOrder, Finished, Resolvable, Good, Rest;
    UpperResolves(s, k, lower);
    UpperReads(s, second, k, lower);
    CalmProgress(s, second, k);
    FinishedRests(s, second, k);
  }

  /** What rests together, with its references, stays as it is. */
  lemma AllStay(s: State, events: seq<Event>, lower: set<Key>, upper: set<Key>)
    requires Inv(s) && CalmRun(s, events) && AllInOrder(s, lower, upper) && forall k :: k in lower + upper ==> Rest(s, k)
    ensures forall k :: k in lower + upper ==> Rest(Run(s, events), k) && Kept(s, Run(s, events), k)
  {
    hide Inv, Run, CalmRun, InOrder, Rest, Kept;
    forall k | k in lower + upper ensures Rest(Run(s, events), k) && Kept(s, Run(s, events), k) {
      if k in lower { LowerReads(s, events, k); } else { UpperReads(s, events, k, lower); }
      RestRuns(s, events, k);
    }
  }

  lemma OrdersRun(s: State, events: seq<Event>, lower: set<Key>, upper: set<Key>)
    requires Inv(s) && CalmRun(s, events) && AllInOrder(s, lower, upper)
    ensures AllInOrder(Run(s, events), lower, upper)
  {
    hide Inv, Run, CalmRun, InOrder;
    forall k | k in lower + upper ensures InOrder(Run(s, events), k, lower) { OrderRuns(s, events, k, lower); }
  }

  lemma Converges(s: State, first: seq<Event>, second: seq<Event>, lower: set<Key>, upper: set<Key>)
    requires Inv(s) && AllInOrder(s, lower, upper)
    requires CalmRun(s, first) && AllFinished(s, first, lower)
    requires CalmRun(Run(s, first), second) && AllFinished(Run(s, first), second, upper)
    ensures forall k :: k in lower + upper ==> Rest(Run(Run(s, first), second), k)
  {
    hide Inv, Run, CalmRun, InOrder, Finished, Rest;
    var mid := Run(s, first);
    RunKeeps(s, first);
    OrdersRun(s, first, lower, upper);
    forall k | k in lower ensures Rest(mid, k) { LowerRests(s, first, k, lower); }
    AllStay(mid, second, lower, {});
    forall k | k in upper ensures Rest(Run(mid, second), k) { UpperRests(mid, second, k, lower); }
  }

  /** Convergence. Take any reachable state, at any point of any reconciles, in which the user's side is in
      order, and let calls succeed and nobody edit from then on, the controllers interleaving call by call as
      they like. When the Storages and Notifiers have had their reconciles, and after that the
      DatabaseBackups theirs, all of them rest; and then, however the run goes on, no object, no record and
      no config of any of them changes. */
  lemma Convergence(workspace: string, events: seq<Event>, lower: set<Key>, upper: set<Key>,
                    first: seq<Event>, second: seq<Event>, more: seq<Event>)
    requires AllInOrder(Run(Empty(workspace), events), lower, upper)
    requires CalmRun(Run(Empty(workspace), events), first) && AllFinished(Run(Empty(workspace), events), first, lower)
    requires CalmRun(Run(Empty(workspace), events + first), second)
    requires AllFinished(Run(Empty(workspace), events + first), second, upper)
    requires CalmRun(Run(Empty(workspace), events + first + second), more)
    ensures var end := Run(Empty(workspace), events + first + second);
            AllRest(end, lower + upper) && AllKept(end, Run(end, more), lower + upper) && AllRest(Run(end, more), lower + upper)
  {
    hide Run, Inv, CalmRun, AllInOrder, AllFinished, Rest, Kept;
    var s := Run(Empty(workspace), events);
    Reachable(workspace, events);
    Reachable(workspace, events + first + second);
    RunConcat(Empty(workspace), events, first);
    RunConcat(Empty(workspace), events + first, second);
    var end := Run(Run(s, first), second);
    Converges(s, first, second, lower, upper);
    RunKeeps(s, first);
    OrdersRun(s, first, lower, upper);
    OrdersRun(Run(s, first), second, lower, upper);
    AllStay(end, more, lower, upper);
    RestsReady(end, lower + upper);
    RestsReady(Run(end, more), lower + upper);
  }

  lemma RestsReady(s: State, keys: set<Key>)
    requires forall k :: k in keys ==> Rest(s, k)
    ensures AllRest(s, keys)
  {
    hide Synced, Steady;
    forall k | k in keys ensures Last(s.Versions(k)).Present? && ReadyAtItsGeneration(Last(s.Versions(k)).Value()) {
      SyncedIs(s, k);
    }
  }

  // ------------------------------------------------ such runs exist, and move on

  /** A DatabaseBackup that can be synchronised never stays quiet, and a Storage or Notifier only when it is
      Ready at its generation: until then there is always a call, an observation or a queued reconcile. */
  lemma NeverStuck(s: State, k: Key)
    requires Inv(s) && Resolvable(s, k) && Quiet(s, k)
    ensures k.kind != BackupKind && ReadyAtItsGeneration(Last(s.Versions(k)).Value())
  {
    hide TrackInv, FlightInv, HorizonInv, OwnInv, RemovalInv, MatchInv, OriginInv, GlobalInv, Readable, ReadyAtItsGeneration,
         Finalizer;
    assert KeyInv(s, k);
    NotMarked(s, k);
    NotPhysical(s, k);
  }

  lemma NotPhysical(s: State, k: Key)
    requires Resolvable(s, k)
    ensures !Physical(Last(s.Versions(k)).Value())
  {
    var spec := Last(s.Versions(k)).Value().spec;
    ReadableIsComplete(s, k.namespace, spec);
    if spec.ForBackup? { CompleteBackup(spec.databaseBackup, Values(s, k.namespace, spec)); }
  }

  /** An ID longer than all of these. */
  ghost function LongerThan(refs: set<Ref>): (id: string)
    ensures id != "" && forall ref :: ref in refs ==> |ref.id| < |id|
    decreases |refs|
  {
    if refs == {} then "x"
    else
      var ref :| ref in refs;
      var rest := LongerThan(refs - {ref});
      if |rest| <= |ref.id| then seq(|ref.id| + 1, _ => 'x') else rest
  }

  /** A call that succeeds. */
  ghost function Succeeding(s: State, k: Key): Event { Work(k, Turn(Done, LongerThan(s.issued.Keys), "", 0)) }

  lemma SucceedingIsCalm(s: State, k: Key)
    ensures CalmEvent(s, Succeeding(s, k))
  {
    var id := LongerThan(s.issued.Keys);
    assert forall kind :: Ref(kind, id) !in s.issued.Keys;
  }

  /** One event more. */
  lemma Onward(s: State, events: seq<Event>, e: Event, k: Key, p: Tally)
    requires Inv(Run(s, events)) && CalmRun(s, events) && CalmEvent(Run(s, events), e)
    ensures var all := events + [e];
            && Run(s, all) == Apply(Run(s, events), e) && Inv(Run(s, all)) && CalmRun(s, all)
            && TallyOf(s, p, all, k) == Next(Run(s, events), e, k, TallyOf(s, p, events, k))
  {
    hide Inv, Apply, CalmEvent, Next;
    assert (events + [e])[..|events|] == events;
    EventKeeps(Run(s, events), e);
  }

  /** The worker can finish what it is doing. */
  lemma {:induction false} FliesHome(s: State, events: seq<Event>, k: Key, p: Tally) returns (all: seq<Event>)
    requires Inv(Run(s, events)) && CalmRun(s, events)
    ensures CalmRun(s, all) && Inv(Run(s, all)) && Run(s, all).FlightOf(k).Idle?
    ensures TallyOf(s, p, all, k).ended ==
            TallyOf(s, p, events, k).ended +
            Count(!Run(s, events).FlightOf(k).Idle? && TallyOf(s, p, events, k).timely)
    decreases Left(Run(s, events), k)
  {
    hide Run, Inv, CalmRun, CalmEvent, TallyOf, Apply, Left;
    var u := Run(s, events);
    if u.FlightOf(k).Idle? {
      all := events;
    } else {
      var e := Succeeding(u, k);
      SucceedingIsCalm(u, k);
      Onward(s, events, e, k, p);
      WorkApplies(u, k, e.turn);
      Shortens(u, k, e.turn);
      if u.FlightOf(k).Returning? { Lands(u, k, e.turn); } else { StaysAloft(u, k, e.turn); }
      all := FliesHome(s, events + [e], k, p);
    }
  }

  lemma StaysAloft(s: State, k: Key, t: Turn)
    requires Inv(s) && !s.FlightOf(k).Idle? && !s.FlightOf(k).Returning?
    ensures !WorkOn(s, k, t).FlightOf(k).Idle?
  {
    hide WorkOn, Inv, Plan, Complete, Found, Accepted, Failure, Success, ResultOf, Merge;
    FlightHolds(s, k);
    Lands(s, k, t);
  }

  /** Any key can complete one more reconcile that begins with an up-to-date cache. */
  lemma OneMoreReconcile(s: State, events: seq<Event>, k: Key, p: Tally) returns (all: seq<Event>)
    requires Inv(Run(s, events)) && CalmRun(s, events)
    ensures CalmRun(s, all) && Inv(Run(s, all))
    ensures TallyOf(s, p, all, k).ended > TallyOf(s, p, events, k).ended
  {
    hide Run, Inv, CalmRun, TallyOf, LongerThan;
    var home := FliesHome(s, events, k, p);
    var u := Run(s, home);
    InvTrack(u, k);
    var shows, wakes := Observe(k, |u.Versions(k)| - 1), Wake(k);
    Onward(s, home, shows, k, p);
    var shown := Apply(u, shows);
    assert shown.FlightOf(k).Idle? && Current(shown, k) by { Shows(u, k); }
    Onward(s, home + [shows], wakes, k, p);
    var woken := shown.Enqueue(k);
    var gets := Succeeding(woken, k);
    SucceedingIsCalm(woken, k);
    Onward(s, home + [shows] + [wakes], gets, k, p);
    hide Apply, WorkOn;
    WorkApplies(woken, k, gets.turn);
    InvTrack(woken, k);
    var f := Fetches(woken, k, gets.turn);
    all := FliesHome(s, home + [shows] + [wakes] + [gets], k, p);
  }

  lemma Shows(s: State, k: Key)
    requires s.FlightOf(k).Idle? && s.TrackOf(k).seen < |s.Versions(k)|
    ensures var u := Apply(s, Observe(k, |s.Versions(k)| - 1)); u.FlightOf(k).Idle? && Current(u, k)
  {
    var last := |s.Versions(k)| - 1;
    var u := Apply(s, Observe(k, last));
    assert u == if s.TrackOf(k).seen < last then s.See(k, last).Enqueue(k) else s
    by { hide WorkOn, Abandon, Stored, Finalizer; }
    hide Apply;
    if s.TrackOf(k).seen < last { assert u.TrackOf(k) == s.TrackOf(k).(seen := last); }
  }

  lemma {:induction false} TallyAppends(s: State, a: seq<Event>, b: seq<Event>, k: Key, p: Tally)
    ensures TallyOf(s, p, a + b, k) == TallyOf(Run(s, a), TallyOf(s, p, a, k), b, k)
    ensures TallyOf(s, p, a + b, k).ended >= TallyOf(s, p, a, k).ended
    ensures CalmRun(s, a) && CalmRun(Run(s, a), b) ==> CalmRun(s, a + b)
  {
    hide Apply, CalmEvent;
    if b == [] {
      assert a + b == a;
    } else {
      var init := b[..|b| - 1];
      TallyAppends(s, a, init, k, p);
      RunConcat(s, a, init);
      assert (a + b)[..|a + b| - 1] == a + init;
    }
  }

  /** So from any state, whatever is under way, there is a calm run in which all these keys finish. */
  lemma {:induction false} CalmRunExists(s: State, keys: set<Key>) returns (events: seq<Event>)
    requires Inv(s)
    ensures CalmRun(s, events) && AllFinished(s, events, keys)
    ensures forall k :: k in keys ==> TallyOf(s, Start(s, k), events, k).ended >= 3
    decreases |keys|
  {
    hide Inv, Run, CalmRun, TallyOf, Start;
    if keys == {} {
      events := [];
      NothingIsCalm(s);
    } else {
      var k :| k in keys;
      var others := CalmRunExists(s, keys - {k});
      var mid := Run(s, others);
      RunKeeps(s, others);
      NothingIsCalm(mid);
      var p := TallyOf(s, Start(s, k), others, k);
      var one := OneMoreReconcile(mid, [], k, p);
      var two := OneMoreReconcile(mid, one, k, p);
      var three := OneMoreReconcile(mid, two, k, p);
      events := others + three;
      forall j | j in keys ensures CalmRun(s, events) && TallyOf(s, Start(s, j), events, j).ended >= 3 {
        TallyAppends(s, others, three, j, Start(s, j));
      }
    }
  }

  lemma NothingIsCalm(s: State)
    ensures CalmRun(s, []) && Run(s, []) == s
  {
  }
}