/** What happens, once edits and failures stop, to a key that cannot be synchronised because one of its reads keeps
failing: a secret is missing, a reference is not ready, or the spec asks for what is not supported. Its
reconciles come to a standstill too, at the status that reports the failure.
*/
module Stalls {
  import opened Resources
  import opened Conditions
  import opened Builders
  import opened Protocol
  import opened Invariants
  import opened Inductive
  import opened Safety
  import Accounting
  import opened Locality
  import opened Calls
  import opened Progress
  import opened Convergence

  /** The current version is not marked, and the first read of its plan that fails is this one. */
  ghost predicate MissingAt(s: State, k: Key, i: nat) {
    var last := Last(s.Versions(k));
    && last.Present? && !last.Value().deleting && last.Value().spec.Kind() == k.kind
    && var plan := Plan(last.Value().spec);
       && i < |plan| && Lookup(s, k.namespace, plan[i]).None?
       && forall j :: 0 <= j < i ==> Lookup(s, k.namespace, plan[j]).Some?
  }

  /** What is reported then; the text is that of the error, or the fixed one for what is not supported. */
  function Miss(o: Object, i: nat, text: string): Verdict {
    var need := NeedAt(o.spec, i);
    Failure(o, need.Reason(), if need == Reject(UNSUPPORTED) then UNSUPPORTED_MESSAGE else text, o.status.id)
  }

  /** The failure has been reported, and reporting it again would change nothing. */
  ghost predicate Stalled(s: State, k: Key, i: nat, text: string) {
    && MissingAt(s, k, i)
    && var o := Last(s.Versions(k)).Value();
       Attached(k.kind, o) && forall now :: StatusOf(o, Miss(o, i, text), now) == o.status
  }

  /** The reads of the key's current spec give the same, or fail the same. */
  ghost predicate SameLooks(s: State, u: State, k: Key) {
    Last(s.Versions(k)).Present? ==>
      var plan := Plan(Last(s.Versions(k)).Value().spec);
      forall j :: 0 <= j < |plan| ==> Lookup(u, k.namespace, plan[j]) == Lookup(s, k.namespace, plan[j])
  }

  /** The worker is on the way to the failing read, or about to report it. */
  ghost predicate Toward(s: State, k: Key, i: nat, text: string) {
    var f := s.FlightOf(k);
    && f.Ver() + 1 == |s.Versions(k)| && Last(s.Versions(k)).Present?
    && ((f.Gathering? && |f.Got()| <= i) || (f.Reporting? && f.verdict == Miss(Last(s.Versions(k)).Value(), i, text)))
  }

  // ------------------------------------------------------------- the measure

  /** How many up-to-date reconciles the key needs: to add the finalizer, to report, to find nothing to do. */
  ghost function StallLevel(s: State, k: Key, i: nat, text: string): nat {
    if Stalled(s, k, i, text) then if Current(s, k) then 0 else 1
    else if Last(s.Versions(k)).Present? && Attached(k.kind, Last(s.Versions(k)).Value()) then 2
    else 3
  }

  ghost predicate Bound(s: State, k: Key, i: nat, text: string) {
    var f := s.FlightOf(k);
    f.Idle? || f.Returning? ||
    if f.Ver() + 1 == |s.Versions(k)| then
      Toward(s, k, i, text) || (f.Attaching? && Last(s.Versions(k)).Present? && !Attached(k.kind, Last(s.Versions(k)).Value()))
    else f.Ver() + 1 < |s.Versions(k)|
  }

  ghost predicate Unmoved(s: State, k: Key, i: nat, text: string) {
    s.FlightOf(k).Idle? || s.FlightOf(k).Returning? || Toward(s, k, i, text)
  }

  ghost predicate Slowing(s: State, k: Key, i: nat, text: string, p: Tally) {
    && MissingAt(s, k, i)
    && (!p.own ==> p.ended == 0 && !p.timely)
    && (p.own ==> Bound(s, k, i, text) && StallLevel(s, k, i, text) + Least(p.ended) <= 3)
    && (p.timely ==> p.own && Nearer(s, k, i, text, p.ended))
    && (p.ended >= 3 ==> Unmoved(s, k, i, text))
  }

  ghost predicate Nearer(s: State, k: Key, i: nat, text: string, ended: nat) {
    var f := s.FlightOf(k);
    && !f.Idle?
    && if f.Returning? then StallLevel(s, k, i, text) + Least(ended + 1) <= 3
       else f.Ver() + 1 == |s.Versions(k)| && Current(s, k)
  }

  // --------------------------------------------------- what leaves it alone

  lemma OwnLooks(s: State, u: State, k: Key)
    requires Last(s.Versions(k)).Present? ==> Last(s.Versions(k)).Value().spec.Kind() == k.kind
    requires SameInputs(s, u, k)
    ensures SameLooks(s, u, k)
  {
    if Last(s.Versions(k)).Present? {
      var spec := Last(s.Versions(k)).Value().spec;
      forall j | 0 <= j < |Plan(spec)| ensures Lookup(u, k.namespace, Plan(spec)[j]) == Lookup(s, k.namespace, Plan(spec)[j]) {
        if Plan(spec)[j].Reference? { ReferencesGoDown(spec, j); }
        hide Plan;
      }
    }
    hide Plan, Lookup;
  }

  lemma MissingStays(s: State, u: State, k: Key, i: nat)
    requires MissingAt(s, k, i) && SameSpec(Last(s.Versions(k)), Last(u.Versions(k))) && SameLooks(s, u, k)
    ensures MissingAt(u, k, i)
  {
    hide Plan, Lookup;
  }

  lemma MissingIs(s: State, k: Key, i: nat)
    requires MissingAt(s, k, i)
    ensures var last := Last(s.Versions(k)); last.Present? && !last.Value().deleting && last.Value().spec.Kind() == k.kind
    ensures SameSpec(Last(s.Versions(k)), Last(s.Versions(k)))
  {
    hide Plan, Lookup;
  }

  lemma WorkMisses(s: State, k: Key, t: Turn, i: nat)
    requires Inv(s) && MissingAt(s, k, i) && !s.FlightOf(k).Idle?
    ensures MissingAt(WorkOn(s, k, t), k, i)
  {
    hide WorkOn, Inv, SameInputs, SameLooks;
    MissingIs(s, k, i);
    hide MissingAt;
    WorkInputs(s, k, t);
    SpecStays(s, k, t);
    OwnLooks(s, WorkOn(s, k, t), k);
    MissingStays(s, WorkOn(s, k, t), k, i);
  }

  /** The same history, the same reads: nothing is lost while the worker's flight stays. */
  lemma SameVersions(s: State, u: State, k: Key, i: nat, text: string)
    requires MissingAt(s, k, i) && SameLooks(s, u, k) && u.Versions(k) == s.Versions(k)
    requires s.TrackOf(k).seen <= u.TrackOf(k).seen < |s.Versions(k)|
    ensures MissingAt(u, k, i) && StallLevel(u, k, i, text) <= StallLevel(s, k, i, text)
    ensures Stalled(s, k, i, text) ==> Stalled(u, k, i, text)
  {
    MissingIs(s, k, i);
    hide SameLooks, StatusOf, Finalizer;
    MissingStays(s, u, k, i);
    hide MissingAt;
  }

  lemma FlightLeft(s: State, u: State, k: Key, i: nat, text: string, p: Tally)
    requires Slowing(s, k, i, text, p) && u.FlightOf(k) == s.FlightOf(k) && u.Versions(k) == s.Versions(k)
    requires s.TrackOf(k).seen <= u.TrackOf(k).seen < |s.Versions(k)| && SameLooks(s, u, k)
    ensures Slowing(u, k, i, text, p)
  {
    SameVersions(s, u, k, i, text);
    hide StallLevel, MissingAt, Miss, SameLooks;
  }

  lemma OwnWake(s: State, e: Event, k: Key, i: nat, text: string, p: Tally)
    requires Inv(s) && Slowing(s, k, i, text, p) && (e.Observe? || e.Wake?) && e.key == k
    ensures Slowing(Apply(s, e), k, i, text, p)
  {
    hide Inv, Slowing, Apply, SameInputs, SameLooks;
    var u := Apply(s, e);
    InvTrack(s, k);
    LastKind(s, k);
    if u != s {
      WakingKeeps(s, e, k);
      OwnLooks(s, u, k);
      FlightUnchanged(s, u, k);
      FlightLeft(s, u, k, i, text, p);
    }
  }

  lemma FlightUnchanged(s: State, u: State, k: Key)
    requires Woken(s, u, k)
    ensures u.FlightOf(k) == s.FlightOf(k)
  {
  }

  // ------------------------------------------------------- the worker's calls

  lemma Levels(s: State, k: Key, i: nat, text: string)
    ensures StallLevel(s, k, i, text) <= 3
    ensures StallLevel(s, k, i, text) == 0 <==> Stalled(s, k, i, text) && Current(s, k)
    ensures StallLevel(s, k, i, text) <= 1 <==> Stalled(s, k, i, text)
    ensures StallLevel(s, k, i, text) <= 2 ==> Last(s.Versions(k)).Present? && Attached(k.kind, Last(s.Versions(k)).Value())
    ensures Last(s.Versions(k)).Present? && Attached(k.kind, Last(s.Versions(k)).Value()) ==> StallLevel(s, k, i, text) <= 2
  {
    if Stalled(s, k, i, text) { MissingIs(s, k, i); }
    hide MissingAt, StatusOf, Finalizer, Current;
  }

  lemma WokeLevel(s: State, u: State, k: Key, i: nat, text: string)
    requires MissingAt(s, k, i) && Woke(s, u) && s.TrackOf(k).seen < |s.Versions(k)|
    ensures MissingAt(u, k, i) && StallLevel(u, k, i, text) <= StallLevel(s, k, i, text)
    ensures Stalled(s, k, i, text) ==> Stalled(u, k, i, text)
  {
    MissingIs(s, k, i);
    hide MissingAt, StallLevel, Stalled, SameLooks;
    OwnLooks(s, u, k);
    SameVersions(s, u, k, i, text);
  }

  /** How a reconcile begins. */
  lemma Opens(s: State, k: Key, t: Turn)
    requires s.FlightOf(k).Idle? && k in s.queued && t.outcome == Done && s.TrackOf(k).seen < |s.Versions(k)|
    ensures var u := WorkOn(s, k, t);
            var f := u.FlightOf(k);
            var last := Last(s.Versions(k));
            && Woke(s, u) && u.TrackOf(k) == s.TrackOf(k) && !f.Idle? && f.Ver() == s.TrackOf(k).seen
            && (Current(s, k) && last.Present? && !last.Value().deleting ==>
                  if Attached(k.kind, last.Value()) then f.Gathering? && f.Got() == [] else f.Attaching?)
  {
    hide WorkOn, Finalizer;
    var f := Fetches(s, k, t);
  }

  lemma Opening(s: State, k: Key, t: Turn, i: nat, text: string, p: Tally)
    requires Inv(s) && Slowing(s, k, i, text, p) && s.FlightOf(k).Idle? && k in s.queued && t.outcome == Done
    ensures Slowing(WorkOn(s, k, t), k, i, text, Tally(true, Current(s, k), p.ended))
  {
    InvTrack(s, k);
    hide Inv, WorkOn, Finalizer, StallLevel, Stalled, Miss, Woke, Attached, State.FlightOf, State.TrackOf;
    MissingIs(s, k, i);
    hide MissingAt;
    var u := WorkOn(s, k, t);
    Opens(s, k, t);
    WokeLevel(s, u, k, i, text);
    Levels(s, k, i, text);
    Levels(u, k, i, text);
  }

  lemma Closing(s: State, k: Key, t: Turn, i: nat, text: string, p: Tally)
    requires Inv(s) && Slowing(s, k, i, text, p) && s.FlightOf(k).Returning?
    ensures Slowing(WorkOn(s, k, t), k, i, text, Tally(p.own, false, p.ended + Count(p.timely)))
  {
    InvTrack(s, k);
    hide Inv, WorkOn, StallLevel, Stalled, MissingAt, Miss, Quiet, Toward;
    Returns(s, k, t);
    WokeLevel(s, WorkOn(s, k, t), k, i, text);
  }

  /** A read before the failing one leads on, and the failing one to its report. */
  lemma Reading(s: State, k: Key, t: Turn, i: nat, text: string)
    requires MissingAt(s, k, i) && Toward(s, k, i, text) && s.FlightOf(k).Gathering? && t.outcome == Done && t.message == text
    ensures var u := WorkOn(s, k, t);
            Toward(u, k, i, text) && u.TrackOf(k) == s.TrackOf(k) && !u.FlightOf(k).Idle? && !u.FlightOf(k).Returning?
  {
    hide WorkOn, Plan, Lookup, Complete, Failure;
    TracksStay(s, k, t);
    Lands(s, k, t);
  }

  lemma Reported(s: State, k: Key, t: Turn, i: nat, text: string)
    requires MissingAt(s, k, i) && Toward(s, k, i, text) && s.FlightOf(k).Reporting? && t.outcome == Done
    ensures var o := Last(s.Versions(k)).Value();
            var status := StatusOf(o, Miss(o, i, text), t.now);
            var u := WorkOn(s, k, t);
            && u.FlightOf(k).Returning?
            && u.TrackOf(k) == Written(s, k, status != o.status, Present(o.(status := status)))
  {
    hide WorkOn, WriteStatus, StatusOf, ResultOf, Local, MissingAt, Miss;
    var f := s.FlightOf(k);
    WorkIs(s, k, t);
    WriteStatusEffect(s, k, f.Ver(), f.verdict, t);
  }

  lemma MissedTwice(o: Object, i: nat, text: string, now: int)
    ensures var done := o.(status := StatusOf(o, Miss(o, i, text), now));
            forall later :: StatusOf(done, Miss(done, i, text), later) == done.status
  {
    var need := NeedAt(o.spec, i);
    var message := if need == Reject(UNSUPPORTED) then UNSUPPORTED_MESSAGE else text;
    var done := o.(status := StatusOf(o, Miss(o, i, text), now));
    forall later ensures StatusOf(done, Miss(done, i, text), later) == done.status {
      FailedTwice(o, need.Reason(), message, now, later);
    }
  }

  lemma ReportStalls(s: State, k: Key, t: Turn, i: nat, text: string)
    requires Inv(s) && MissingAt(s, k, i) && Toward(s, k, i, text) && s.FlightOf(k).Reporting? && t.outcome == Done
    ensures var u := WorkOn(s, k, t);
            && Stalled(u, k, i, text) && u.FlightOf(k).Returning?
            && (Stalled(s, k, i, text) ==> u.TrackOf(k) == s.TrackOf(k))
  {
    hide WorkOn, Inv, StatusOf;
    var o := Last(s.Versions(k)).Value();
    WorkMisses(s, k, t, i);
    Reported(s, k, t, i, text);
    MissedTwice(o, i, text, t.now);
    TowardAttached(s, k, i, text);
    hide MissingAt, Miss, Finalizer;
    if StatusOf(o, Miss(o, i, text), t.now) == o.status {
      assert o.(status := o.status) == o;
    }
  }

  lemma TowardAttached(s: State, k: Key, i: nat, text: string)
    requires Inv(s) && Toward(s, k, i, text)
    ensures Attached(k.kind, Last(s.Versions(k)).Value())
  {
    hide Inv;
    ActiveProtected(s, k);
  }

  lemma NearingRead(s: State, k: Key, t: Turn, i: nat, text: string, p: Tally)
    requires Inv(s) && Slowing(s, k, i, text, p) && Toward(s, k, i, text) && t.outcome == Done && t.message == text
    requires s.FlightOf(k).Gathering?
    ensures Slowing(WorkOn(s, k, t), k, i, text, p)
  {
    var u := WorkOn(s, k, t);
    InvTrack(s, k);
    hide WorkOn, Inv, StallLevel, MissingAt, Stalled, SameLooks, SameInputs;
    Reading(s, k, t, i, text);
    WorkInputs(s, k, t);
    MissingIs(s, k, i);
    OwnLooks(s, u, k);
    SameVersions(s, u, k, i, text);
    hide Toward, Attached;
  }

  lemma NearingReport(s: State, k: Key, t: Turn, i: nat, text: string, p: Tally)
    requires Inv(s) && Slowing(s, k, i, text, p) && Toward(s, k, i, text) && t.outcome == Done && t.message == text
    requires s.FlightOf(k).Reporting?
    ensures Slowing(WorkOn(s, k, t), k, i, text, p)
  {
    var u := WorkOn(s, k, t);
    hide WorkOn, Inv, StallLevel, MissingAt, Miss, Stalled;
    WorkMisses(s, k, t, i);
    TowardAttached(s, k, i, text);
    ReportStalls(s, k, t, i, text);
    Levels(s, k, i, text);
    Levels(u, k, i, text);
    hide Toward, Attached;
  }

  lemma Nearing(s: State, k: Key, t: Turn, i: nat, text: string, p: Tally)
    requires Inv(s) && Slowing(s, k, i, text, p) && Toward(s, k, i, text) && t.outcome == Done && t.message == text
    ensures Slowing(WorkOn(s, k, t), k, i, text, p)
  {
    hide WorkOn, Inv, Slowing;
    if s.FlightOf(k).Gathering? { NearingRead(s, k, t, i, text, p); } else { NearingReport(s, k, t, i, text, p); }
  }

  lemma AddsFinalizer(s: State, k: Key, t: Turn, i: nat, text: string, p: Tally)
    requires Inv(s) && Slowing(s, k, i, text, p) && s.FlightOf(k) == Attaching(|s.Versions(k)| - 1) && |s.Versions(k)| > 0
    requires Last(s.Versions(k)).Present? && !Attached(k.kind, Last(s.Versions(k)).Value()) && t.outcome == Done && p.own
    ensures Slowing(WorkOn(s, k, t), k, i, text, p)
  {
    var u := WorkOn(s, k, t);
    hide WorkOn, Inv, StallLevel, Miss, Stalled, SameInputs, Finalizer;
    MissingIs(s, k, i);
    WorkMisses(s, k, t, i);
    hide MissingAt;
    AttachWorks(s, k, t);
    Levels(s, k, i, text);
    Levels(u, k, i, text);
  }

  /** A flight of an outdated version ends without a word. */
  lemma Fruitless(s: State, k: Key, t: Turn, i: nat, text: string, p: Tally)
    requires Inv(s) && Slowing(s, k, i, text, p) && p.own && !s.FlightOf(k).Idle? && !s.FlightOf(k).Returning?
    requires s.FlightOf(k).Ver() + 1 < |s.Versions(k)|
    ensures Slowing(WorkOn(s, k, t), k, i, text, p)
  {
    var u := WorkOn(s, k, t);
    InvTrack(s, k);
    hide WorkOn, Inv, StallLevel, Miss, Stalled, SameInputs, SameLooks;
    MissingIs(s, k, i);
    hide MissingAt;
    FlightHolds(s, k);
    Refused(s, k, t);
    SameVersion(s, k, t);
    WorkInputs(s, k, t);
    OwnLooks(s, u, k);
    SameVersions(s, u, k, i, text);
  }

  lemma SameVersion(s: State, k: Key, t: Turn)
    requires Inv(s) && !s.FlightOf(k).Idle? && !s.FlightOf(k).Returning?
    ensures var g := WorkOn(s, k, t).FlightOf(k); !g.Idle? && g.Ver() == s.FlightOf(k).Ver()
  {
    hide WorkOn, Inv, Plan, Complete, Found, Accepted, Failure, Success, ResultOf, Merge;
    FlightHolds(s, k);
    Lands(s, k, t);
  }

  lemma OwnWork(s: State, k: Key, t: Turn, i: nat, text: string, p: Tally)
    requires Inv(s) && Slowing(s, k, i, text, p) && t.outcome == Done && t.message == text
    ensures Slowing(WorkOn(s, k, t), k, i, text, Next(s, Work(k, t), k, p))
  {
    hide Inv, WorkOn, StallLevel, MissingAt, Toward, Finalizer, Nearer;
    var f := s.FlightOf(k);
    if f.Idle? {
      if k in s.queued { Opening(s, k, t, i, text, p); } else { assert WorkOn(s, k, t) == s by { WorkIs(s, k, t); } }
    }
    else if f.Returning? { Closing(s, k, t, i, text, p); }
    else if !p.own { WorkMisses(s, k, t, i); }
    else if Toward(s, k, i, text) { Nearing(s, k, t, i, text, p); }
    else if f.Ver() + 1 == |s.Versions(k)| { AddsFinalizer(s, k, t, i, text, p); }
    else { Fruitless(s, k, t, i, text, p); }
  }

  // ----------------------------------------------------------- every event

  /** A calm event, in which a failing read of this key gives this text. */
  predicate CalmWith(s: State, e: Event, k: Key, text: string) {
    CalmEvent(s, e) && (e.Work? && e.key == k ==> e.turn.message == text)
  }

  /** A calm run in which the reads of the key keep giving, or failing, the same. */
  ghost predicate FailsAlike(s: State, events: seq<Event>, k: Key, text: string) {
    events == [] ||
    var init, e := events[..|events| - 1], events[|events| - 1];
    && FailsAlike(s, init, k, text) && CalmWith(Run(s, init), e, k, text)
    && SameLooks(Run(s, init), Run(s, events), k)
  }

  lemma SlowingKeeps(s: State, e: Event, k: Key, i: nat, text: string, p: Tally)
    requires Inv(s) && Slowing(s, k, i, text, p) && CalmWith(s, e, k, text) && SameLooks(s, Apply(s, e), k)
    ensures Slowing(Apply(s, e), k, i, text, Next(s, e, k, p))
  {
    hide Inv, Apply, WorkOn, Slowing, SameLooks;
    if e.key != k {
      CalmElsewhere(s, e, k);
      UntouchedFlight(s, Apply(s, e), k);
      InvTrack(s, k);
      FlightLeft(s, Apply(s, e), k, i, text, p);
    } else if e.Work? {
      Accounting.WorkApplies(s, k, e.turn);
      OwnWork(s, k, e.turn, i, text, p);
    } else {
      OwnWake(s, e, k, i, text, p);
    }
  }

  lemma {:induction false} SlowingRuns(s: State, events: seq<Event>, k: Key, i: nat, text: string)
    requires Inv(s) && MissingAt(s, k, i) && FailsAlike(s, events, k, text)
    ensures Inv(Run(s, events)) && Slowing(Run(s, events), k, i, text, TallyOf(s, Tally(false, false, 0), events, k))
  {
    hide Inv, Apply, MissingAt, SameLooks, Next, CalmWith, Bound, StallLevel, Nearer, Unmoved;
    if events != [] {
      hide Slowing;
      var init, e := events[..|events| - 1], events[|events| - 1];
      SlowingRuns(s, init, k, i, text);
      SlowingKeeps(Run(s, init), e, k, i, text, TallyOf(s, Tally(false, false, 0), init, k));
      EventKeeps(Run(s, init), e);
    }
  }

  // --------------------------------------------------------------- standstill

  ghost predicate Standstill(s: State, k: Key, i: nat, text: string) {
    Stalled(s, k, i, text) && Current(s, k) && Unmoved(s, k, i, text)
  }

  /** Nothing is left of the measure: a further up-to-date reconcile would find nothing to do either. */
  lemma StandsAsSlowing(s: State, k: Key, i: nat, text: string, p: Tally)
    ensures Standstill(s, k, i, text) ==> Slowing(s, k, i, text, Tally(true, false, 3))
    ensures Slowing(s, k, i, text, p) && p.own && p.ended >= 3 ==> Standstill(s, k, i, text)
  {
    Levels(s, k, i, text);
    if Stalled(s, k, i, text) { assert MissingAt(s, k, i); }
    hide Stalled, StallLevel, MissingAt, Attached, Miss;
  }

  /** Only this can differ: flights, the queue, what was read. */
  ghost predicate Silent(s: State, u: State, k: Key) {
    && u.TrackOf(k) == s.TrackOf(k) && u.issued == s.issued && u.records == s.records
    && u.backupConfigs == s.backupConfigs && u.healthchecks == s.healthchecks
  }

  lemma SilentKept(s: State, u: State, k: Key)
    requires Silent(s, u, k)
    ensures Kept(s, u, k)
  {
  }

  lemma StandingWork(s: State, k: Key, t: Turn, i: nat, text: string)
    requires Inv(s) && Standstill(s, k, i, text) && t.outcome == Done && t.message == text
    ensures Silent(s, WorkOn(s, k, t), k)
  {
    hide Inv, WorkOn, Stalled, Local, Current;
    var f := s.FlightOf(k);
    assert MissingAt(s, k, i) by { StalledMisses(s, k, i, text); }
    if !f.Idle? && !f.Returning? {
      if f.Gathering? {
        NoSave(s, k, i, text);
        Reading(s, k, t, i, text);
      } else {
        ReportStalls(s, k, t, i, text);
      }
    }
    hide Toward, MissingAt, Saves;
    Footprints(s, k, t);
  }

  lemma StalledMisses(s: State, k: Key, i: nat, text: string)
    requires Stalled(s, k, i, text)
    ensures MissingAt(s, k, i)
  {
  }

  lemma NoSave(s: State, k: Key, i: nat, text: string)
    requires MissingAt(s, k, i) && Toward(s, k, i, text) && s.FlightOf(k).Gathering?
    ensures !Saves(s, k)
  {
    hide Plan, Lookup;
  }

  lemma StandingWake(s: State, e: Event, k: Key)
    requires Inv(s) && Current(s, k) && (e.Observe? || e.Wake?) && e.key == k
    ensures Silent(s, Apply(s, e), k)
  {
    hide Inv, Apply, SameInputs;
    InvTrack(s, k);
    if Apply(s, e) != s { WakingKeeps(s, e, k); }
  }

  /** At a standstill the worker still retries, and neither object, record nor config is changed by it. */
  lemma StandingKeeps(s: State, e: Event, k: Key, i: nat, text: string)
    requires Inv(s) && Standstill(s, k, i, text) && CalmWith(s, e, k, text) && SameLooks(s, Apply(s, e), k)
    ensures Standstill(Apply(s, e), k, i, text) && Kept(s, Apply(s, e), k)
  {
    hide Inv, Apply, WorkOn, Slowing, SameLooks, Kept, Untouched, Stalled, Unmoved, Silent;
    var u := Apply(s, e);
    var p := Tally(true, false, 3);
    StandsAsSlowing(s, k, i, text, p);
    SlowingKeeps(s, e, k, i, text, p);
    StandsAsSlowing(u, k, i, text, Next(s, e, k, p));
    if e.key != k {
      CalmElsewhere(s, e, k);
      UntouchedKept(s, u, k);
    } else if e.Work? {
      Accounting.WorkApplies(s, k, e.turn);
      StandingWork(s, k, e.turn, i, text);
      SilentKept(s, u, k);
    } else {
      StandingWake(s, e, k);
      SilentKept(s, u, k);
    }
  }

  lemma {:induction false} StandingRuns(s: State, events: seq<Event>, k: Key, i: nat, text: string)
    requires Inv(s) && Standstill(s, k, i, text) && FailsAlike(s, events, k, text)
    ensures Inv(Run(s, events)) && Standstill(Run(s, events), k, i, text) && Kept(s, Run(s, events), k)
  {
    hide Inv, Apply, Standstill, SameLooks, CalmWith, Kept;
    if events == [] {
      StillKept(s, s, k);
    } else {
      var init, e := events[..|events| - 1], events[|events| - 1];
      StandingRuns(s, init, k, i, text);
      StandingKeeps(Run(s, init), e, k, i, text);
      EventKeeps(Run(s, init), e);
      KeptChain(s, Run(s, init), Run(s, events), k);
    }
  }

  /** The chain of a key whose read fails. From any reachable state, whatever its worker is doing, after three
      up-to-date reconciles its status reports the first read that fails, and from then on, although the
      worker may keep retrying, its history, its record and its configs stay as they are. */
  lemma FailingChainEnds(workspace: string, events: seq<Event>, k: Key, i: nat, text: string, calm: seq<Event>, more: seq<Event>)
    requires var s := Run(Empty(workspace), events);
             && MissingAt(s, k, i) && FailsAlike(s, calm, k, text) && FailsAlike(Run(s, calm), more, k, text)
             && TallyOf(s, Tally(false, false, 0), calm, k).ended >= 3
    ensures var end := Run(Run(Empty(workspace), events), calm);
            && Standstill(end, k, i, text) && Standstill(Run(end, more), k, i, text) && Kept(end, Run(end, more), k)
  {
    hide Run, Inv, MissingAt, FailsAlike, TallyOf, Standstill, Kept, Stalled, Bound, StallLevel, Nearer, Unmoved;
    var s := Run(Empty(workspace), events);
    Reachable(workspace, events);
    SlowingRuns(s, calm, k, i, text);
    StandsAsSlowing(Run(s, calm), k, i, text, TallyOf(s, Tally(false, false, 0), calm, k));
    StandingRuns(Run(s, calm), more, k, i, text);
  }
}
