/** What one reconcile of a DatabaseBackup did remotely, told from the Ready reason it is about to write:
the stages of the pipeline take effect in order, and a failure names the first one that did not
succeed. The environment may interleave anything: events of other keys, edits of the same object.
*/
module Stages {
  import opened Resources
  import opened Conditions
  import opened Builders
  import opened Protocol
  import opened Invariants
  import opened Inductive
  import opened Safety
  import opened Accounting
  import opened Locality
  import opened Calls

  // ------------------------------------------------------- the story so far

  /** What the reconcile of `o`, which began in `a` and is at `f` in `b`, has done remotely. When `clean`,
      none of its calls had its response lost. */
  ghost predicate Story(a: State, b: State, k: Key, o: Object, f: Flight, clean: bool) {
    match f
    case Gathering(_, _) => SameRecords(a, b, k) && SameConfigs(a, b, k) && SameChecks(a, b, k)
    case Configuring(_, _, _) => SameConfigs(a, b, k) && SameChecks(a, b, k)
    case Probing(_, _, _) => SameChecks(a, b, k)
    case Reporting(_, verdict) => Told(a, b, k, o, verdict, clean)
    case _ => true
  }

  /** The stage that a verdict says did not succeed. */
  datatype Stop = AtResolution | AtSave | AtConfig | AtProbe | Nowhere | Elsewhere

  function StopOf(verdict: Verdict): Stop {
    if verdict.ok then Nowhere
    else if verdict.reason in {DEPENDENCY, UNSUPPORTED, SECRET} then AtResolution
    else if verdict.reason == SYNC_FAILED then AtSave
    else if verdict.reason == CONFIG_FAILED then AtConfig
    else if verdict.reason == PROBE_FAILED then AtProbe
    else Elsewhere
  }

  /** What the reason tells. A resolution failure: nothing happened remotely. A failed save: nothing but
      perhaps the save of the record. A failed config save: the record is there as the spec says, and
      nothing but perhaps the save of the config happened after it. And so on. */
  ghost predicate Told(a: State, b: State, k: Key, o: Object, verdict: Verdict, clean: bool) {
    o.spec.ForBackup? &&
    match StopOf(verdict)
    case AtResolution => SameRecords(a, b, k) && SameConfigs(a, b, k) && SameChecks(a, b, k)
    case AtSave => SameConfigs(a, b, k) && SameChecks(a, b, k) && (clean ==> SameRecords(a, b, k))
    case AtConfig =>
      verdict.id != "" && RecordMatches(b, k, o, verdict.id) && SameChecks(a, b, k) && (clean ==> SameConfigs(a, b, k))
    case AtProbe =>
      && verdict.id != "" && RecordMatches(b, k, o, verdict.id) && ConfigMatches(b, k, o, verdict.id)
      && (clean ==> SameChecks(a, b, k))
    case Nowhere => verdict.id != "" && RemoteMatches(b, k, o, verdict.id)
    case Elsewhere => false
  }

  lemma Stops(o: Object, message: string, id: string)
    ensures StopOf(Failure(o, SYNC_FAILED, message, id)) == AtSave
    ensures StopOf(Failure(o, CONFIG_FAILED, message, id)) == AtConfig
    ensures StopOf(Failure(o, PROBE_FAILED, message, id)) == AtProbe
  {
    assert SYNC_FAILED[0] != DEPENDENCY[0] && SYNC_FAILED[0] != UNSUPPORTED[0] && SYNC_FAILED[0] != SECRET[0];
    assert CONFIG_FAILED[0] != DEPENDENCY[0] && CONFIG_FAILED[0] != UNSUPPORTED[0] && CONFIG_FAILED[0] != SECRET[0];
    assert PROBE_FAILED[0] != DEPENDENCY[0] && PROBE_FAILED[0] != UNSUPPORTED[0] && PROBE_FAILED[0] != SECRET[0];
    assert SYNC_FAILED[0] != CONFIG_FAILED[0] && SYNC_FAILED[0] != PROBE_FAILED[0] && CONFIG_FAILED[0] != PROBE_FAILED[0];
  }

  lemma BackupReasons(spec: DatabaseBackupSpec, i: nat)
    requires i < |BackupPlan(spec)|
    ensures BackupPlan(spec)[i].Reason() in {DEPENDENCY, UNSUPPORTED, SECRET}
  {
    var n := 1 + |spec.database.notifierRefs|;
    var physical := if WantsPhysicalBackups(spec.database) then [Reject(UNSUPPORTED)] else [];
    var ssl := SslPlan(spec.database);
    assert forall j :: 0 <= j < |ssl| ==> ssl[j].Reason() == SECRET;
    assert PasswordPlan(spec.database)[0].Reason() == SECRET;
    if 0 < i < n { ReferencesComeSecond(spec, i - 1); }
  }

  // ---------------------------------------------------- it stays true

  /** The reconcile of version `v`, which was `o`, is still under way, and this is its story. */
  ghost predicate UnderWay(a: State, b: State, k: Key, v: nat, o: Object, clean: bool) {
    var f := b.FlightOf(k);
    && Grown(a, b)
    && (f.Returning? ||
        (Active(f) && f.Ver() == v && b.Holds(k, v) && b.Obj(k, v) == o && Story(a, b, k, o, f, clean)))
  }

  ghost predicate ConfigsOwned(s: State) {
    && (forall id :: id in s.backupConfigs ==> Ref(BackupKind, id) in s.issued)
    && (forall id :: id in s.healthchecks ==> Ref(BackupKind, id) in s.issued)
  }

  lemma SameChain(a: State, b: State, c: State, k: Key)
    requires Grown(a, b) && forall ref :: Owns(c, k, ref) ==> Owns(b, k, ref)
    ensures SameRecords(a, b, k) && SameRecords(b, c, k) ==> SameRecords(a, c, k)
    ensures SameConfigs(a, b, k) && SameConfigs(b, c, k) ==> SameConfigs(a, c, k)
    ensures SameChecks(a, b, k) && SameChecks(b, c, k) ==> SameChecks(a, c, k)
  {
  }

  lemma MatchesKept(b: State, c: State, k: Key, o: Object, id: string)
    requires k.kind == BackupKind && o.spec.ForBackup? && b.workspace == c.workspace && b.readings <= c.readings
    requires Owns(c, k, Ref(k.kind, id))
    ensures SameRecords(b, c, k) && RecordMatches(b, k, o, id) ==> RecordMatches(c, k, o, id)
    ensures SameConfigs(b, c, k) && ConfigMatches(b, k, o, id) ==> ConfigMatches(c, k, o, id)
    ensures SameChecks(b, c, k) && HealthcheckMatches(b, o, id) ==> HealthcheckMatches(c, o, id)
  {
    hide RequestOf, Complete, Plan, BackupConfigOf, HealthcheckOf;
    if SameRecords(b, c, k) && RecordMatches(b, k, o, id) { RecordStays(b, c, k, o, id); }
    if SameConfigs(b, c, k) && ConfigMatches(b, k, o, id) { ConfigStays(b, c, k, o, id); }
  }

  /** An event that is not the worker's own. */
  lemma OthersContinue(a: State, b: State, c: State, k: Key, v: nat, o: Object, clean: bool)
    requires k.kind == BackupKind && Inv(c)
    requires UnderWay(a, b, k, v, o, clean) && Untouched(b, c, k) && b.Versions(k) <= c.Versions(k)
    ensures UnderWay(a, c, k, v, o, clean)
  {
    hide Inv, SameRecords, SameConfigs, SameChecks, RecordMatches, ConfigMatches, HealthcheckMatches, StopOf, Owns;
    var f := b.FlightOf(k);
    SameChain(a, b, c, k);
    if !f.Returning? {
      assert c.Versions(k)[v] == b.Versions(k)[v];
      if FlightId(f) != "" {
        FlightIdOwned(c, k);
        FlightOwns(c, k);
        MatchesKept(b, c, k, o, FlightId(f));
      }
    }
  }

  lemma FlightIdOwned(s: State, k: Key)
    requires Inv(s) && Active(s.FlightOf(k)) && FlightId(s.FlightOf(k)) != ""
    ensures Owns(s, k, Ref(k.kind, FlightId(s.FlightOf(k))))
  {
    hide Inv, FlightMatch;
    ActiveProtected(s, k);
    FlightOwns(s, k);
  }

  // ------------------------------------------------- the worker's own calls

  /** The flight moves on to `g`, and the story told from there is true. */
  lemma Continues(a: State, s: State, u: State, k: Key, v: nat, o: Object, g: Flight, clean: bool)
    requires UnderWay(a, s, k, v, o, clean) && !s.FlightOf(k).Returning?
    requires Grown(s, u) && u.Versions(k) == s.Versions(k) && u.FlightOf(k) == g
    requires Active(g) && g.Ver() == v && Story(a, u, k, o, g, clean)
    ensures UnderWay(a, u, k, v, o, clean)
  {
    hide Story;
  }

  /** What is known about a flight that works on `o`. */
  lemma AtWork(a: State, s: State, k: Key, v: nat, o: Object, clean: bool)
    requires k.kind == BackupKind && Inv(s) && UnderWay(a, s, k, v, o, clean) && Active(s.FlightOf(k))
    ensures var f := s.FlightOf(k);
            && f.Ver() == v && s.Holds(k, v) && s.Obj(k, v) == o && o.spec.ForBackup?
            && Grown(a, s) && Story(a, s, k, o, f, clean)
            && (FlightId(f) != "" ==> Owns(s, k, Ref(k.kind, FlightId(f))))
            && (f.Configuring? || f.Probing? || f.Refreshing? ==> f.id != "")
            && (f.Configuring? || f.Probing? ==> |f.Got()| > 0)
            && (f.Configuring? || f.Probing? || f.Refreshing? ==> RecordMatches(s, k, o, f.id))
            && (f.Probing? || f.Refreshing? ==> ConfigMatches(s, k, o, f.id))
            && (f.Probing? ==> o.spec.databaseBackup.healthcheck.Some?)
            && (f.Refreshing? ==> HealthcheckMatches(s, o, f.id))
  {
    hide Inv, Story, RecordMatches, ConfigMatches, HealthcheckMatches, Complete, Plan;
    FlightOwns(s, k);
    var f := s.FlightOf(k);
    if f.Probing? { ProbingChecks(s, k); }
    if f.Configuring? || f.Probing? { CompleteBackup(o.spec.databaseBackup, f.Got()); }
  }

  lemma ProbingChecks(s: State, k: Key)
    requires Inv(s) && s.FlightOf(k).Probing? && s.Holds(k, s.FlightOf(k).Ver()) &&
      s.Obj(k, s.FlightOf(k).Ver()).spec.ForBackup?
    ensures s.Obj(k, s.FlightOf(k).Ver()).spec.databaseBackup.healthcheck.Some?
  {
    hide TrackInv, HorizonInv, RemovalInv, MatchInv, OriginInv, WakeInv, OwnInv, GlobalInv, Finalizer, Plan, Complete;
    assert KeyInv(s, k);
  }

  lemma SameParts(s: State, u: State, k: Key)
    requires u.issued == s.issued
    ensures Grown(s, u) && (forall ref :: Owns(u, k, ref) <==> Owns(s, k, ref))
    ensures u.records == s.records ==> SameRecords(s, u, k)
    ensures u.backupConfigs == s.backupConfigs ==> SameConfigs(s, u, k)
    ensures u.healthchecks == s.healthchecks ==> SameChecks(s, u, k)
  {
  }

  lemma ReadOn(a: State, s: State, k: Key, v: nat, o: Object, t: Turn, clean: bool)
    requires k.kind == BackupKind && Inv(s) && UnderWay(a, s, k, v, o, clean) && s.FlightOf(k).Gathering? && !Saves(s, k)
    ensures UnderWay(a, WorkOn(s, k, t), k, v, o, clean)
  {
    hide WorkOn, Inv, SameRecords, SameConfigs, SameChecks, UnderWay, Owns, Complete, Local;
    var f := s.FlightOf(k);
    var u := WorkOn(s, k, t);
    AtWork(a, s, k, v, o, clean);
    Footprints(s, k, t);
    if |f.Got()| < |Plan(o.spec)| {
      Lands(s, k, t);
      BackupReasons(o.spec.databaseBackup, |f.Got()|);
      var g := AfterRead(o, v, f.Got(), Found(s, k, v, f.Got(), t), t.message);
      assert g.Reporting? ==> StopOf(g.verdict) == AtResolution;
      hide StopOf, Plan, Found, AfterRead, Landing;
      SameParts(s, u, k);
      SameChain(a, s, u, k);
      Continues(a, s, u, k, v, o, u.FlightOf(k), clean);
    } else {
      BlockedStays(s, k, t);
    }
  }

  /** A save leaves the configs alone, those of a new record being none. */
  lemma SaveChain(a: State, s: State, u: State, k: Key)
    requires ConfigsOwned(a) && ConfigsOwned(s) && Grown(a, s) && Grown(s, u)
    requires forall ref :: Owns(u, k, ref) ==> ref.kind == BackupKind
    requires u.backupConfigs == s.backupConfigs && u.healthchecks == s.healthchecks
    ensures SameConfigs(a, s, k) ==> SameConfigs(a, u, k)
    ensures SameChecks(a, s, k) ==> SameChecks(a, u, k)
  {
    forall ref | Owns(u, k, ref)
      ensures Owns(s, k, ref) || (ref.id !in s.backupConfigs && ref.id !in s.healthchecks)
      ensures Owns(s, k, ref) || (ref.id !in a.backupConfigs && ref.id !in a.healthchecks)
    {
      assert ref == Ref(BackupKind, ref.id);
    }
  }

  lemma SaveOn(a: State, s: State, k: Key, v: nat, o: Object, t: Turn, clean: bool)
    requires k.kind == BackupKind && Inv(s) && ConfigsOwned(a) && ConfigsOwned(s)
    requires UnderWay(a, s, k, v, o, clean) && Saves(s, k) && (t.outcome == Lost ==> !clean)
    requires Inv(WorkOn(s, k, t))
    ensures UnderWay(a, WorkOn(s, k, t), k, v, o, clean)
  {
    hide WorkOn, Inv, SameRecords, SameConfigs, SameChecks, Complete, Plan, UnderWay, Owns, Local, Landing;
    var u := WorkOn(s, k, t);
    AtWork(a, s, k, v, o, clean);
    var ref := SavesUnder(s, k, t);
    SaveLands(s, k, t);
    BackupRefs(u, k);
    hide Saves, ConfigsOwned;
    SaveChain(a, s, u, k);
    SaveTold(a, s, u, k, o, v, t, u.FlightOf(k), clean);
    hide Story;
    Continues(a, s, u, k, v, o, u.FlightOf(k), clean);
  }

  lemma BackupRefs(s: State, k: Key)
    requires Inv(s) && k.kind == BackupKind
    ensures forall ref :: Owns(s, k, ref) ==> ref.kind == BackupKind
  {
    InvKey(s, k);
    hide Inv, KeyInv;
  }

  lemma SaveTold(a: State, s: State, u: State, k: Key, o: Object, v: nat, t: Turn, g: Flight, clean: bool)
    requires g == AfterRecord(k, o, v, s.FlightOf(k).Got(), SavedId(s, k, o, t), t.message) && k.kind == BackupKind
    requires SavedId(s, k, o, t).None? && t.outcome != Lost ==> u.records == s.records && u.issued == s.issued
    requires (t.outcome == Lost ==> !clean) && o.spec.ForBackup? && Grown(a, s)
    requires SameRecords(a, s, k) && SameConfigs(a, u, k) && SameChecks(a, u, k)
    ensures Story(a, u, k, o, g, clean) && Active(g) && g.Ver() == v
  {
    hide SameRecords, SameConfigs, SameChecks, Owns, SavedId;
    if g.Reporting? {
      Stops(o, t.message, o.status.id);
      hide StopOf, Failure;
      if t.outcome != Lost {
        SameParts(s, u, k);
        SameChain(a, s, u, k);
      }
    }
  }

  lemma ConfigureOn(a: State, s: State, k: Key, v: nat, o: Object, t: Turn, clean: bool)
    requires k.kind == BackupKind && Inv(s) && UnderWay(a, s, k, v, o, clean) && s.FlightOf(k).Configuring?
    requires t.outcome == Lost ==> !clean
    ensures UnderWay(a, WorkOn(s, k, t), k, v, o, clean)
  {
    hide WorkOn, Inv, SameRecords, SameConfigs, SameChecks, RecordMatches, ConfigMatches, HealthcheckMatches, UnderWay, Owns,
         Plan, Complete, Configure, Local;
    var f := s.FlightOf(k);
    var u := WorkOn(s, k, t);
    AtWork(a, s, k, v, o, clean);
    Footprints(s, k, t);
    Lands(s, k, t);
    if !Saved(s, f.id, t) && t.outcome != Lost { FailedConfig(s, k, t); }
    SameParts(s, u, k);
    SameChain(a, s, u, k);
    MatchesKept(s, u, k, o, f.id);
    Stops(o, t.message, f.id);
    hide Failure, StopOf;
    Continues(a, s, u, k, v, o, u.FlightOf(k), clean);
  }

  lemma ProbeOn(a: State, s: State, k: Key, v: nat, o: Object, t: Turn, clean: bool)
    requires k.kind == BackupKind && Inv(s) && UnderWay(a, s, k, v, o, clean) && s.FlightOf(k).Probing?
    requires t.outcome == Lost ==> !clean
    ensures UnderWay(a, WorkOn(s, k, t), k, v, o, clean)
  {
    hide WorkOn, Inv, SameRecords, SameConfigs, SameChecks, RecordMatches, ConfigMatches, HealthcheckMatches, UnderWay, Owns,
         Plan, Complete, Local;
    var f := s.FlightOf(k);
    var u := WorkOn(s, k, t);
    AtWork(a, s, k, v, o, clean);
    Footprints(s, k, t);
    Lands(s, k, t);
    if !Saved(s, f.id, t) && t.outcome != Lost { FailedConfig(s, k, t); }
    SameParts(s, u, k);
    SameChain(a, s, u, k);
    MatchesKept(s, u, k, o, f.id);
    Stops(o, t.message, f.id);
    hide Failure, StopOf;
    Continues(a, s, u, k, v, o, u.FlightOf(k), clean);
  }

  lemma RefreshOn(a: State, s: State, k: Key, v: nat, o: Object, t: Turn, clean: bool)
    requires k.kind == BackupKind && Inv(s) && UnderWay(a, s, k, v, o, clean) && s.FlightOf(k).Refreshing?
    ensures UnderWay(a, WorkOn(s, k, t), k, v, o, clean)
  {
    hide WorkOn, Inv, SameRecords, SameConfigs, SameChecks, RecordMatches, ConfigMatches, HealthcheckMatches, UnderWay, Owns,
         Plan, Complete, Local, Merge;
    var f := s.FlightOf(k);
    var u := WorkOn(s, k, t);
    AtWork(a, s, k, v, o, clean);
    Footprints(s, k, t);
    Lands(s, k, t);
    SameParts(s, u, k);
    SameChain(a, s, u, k);
    MatchesKept(s, u, k, o, f.id);
    Continues(a, s, u, k, v, o, u.FlightOf(k), clean);
  }

  // ------------------------------------- healthcheck configs belong to records

  lemma ChecksKeep(s: State, e: Event)
    requires Inv(s) && ChecksHaveRecords(s)
    ensures ChecksHaveRecords(Apply(s, e))
  {
    hide Inv, Apply, WorkOn, Saves;
    if IsUserEvent(e) { UserEffect(s, e); }
    else if e.Crash? { CrashLocal(s, e.key); }
    else if !e.Work? { OutsideEffect(s, e); }
    else {
      WorkApplies(s, e.key, e.turn);
      if Saves(s, e.key) {
        var ref := SavesUnder(s, e.key, e.turn);
      } else if s.FlightOf(e.key).Removing? {
        RemovesOneConfig(s, e.key, e.turn);
        RemovingShrinks(s, e.key, e.turn);
        RemovesOne(s, e.key, e.turn);
      } else {
        Footprints(s, e.key, e.turn);
        if s.FlightOf(e.key).Probing? { ProbeNeedsRecord(s, e.key, e.turn); }
      }
    }
  }

  lemma ProbeNeedsRecord(s: State, k: Key, t: Turn)
    requires s.FlightOf(k).Probing? && ChecksHaveRecords(s)
    ensures ChecksHaveRecords(WorkOn(s, k, t))
  {
    hide HealthcheckOf, AfterCheck;
  }

  lemma {:induction false} ChecksOwned(s: State, events: seq<Event>)
    requires Inv(s) && ChecksHaveRecords(s)
    ensures ChecksHaveRecords(Run(s, events))
  {
    hide Inv, Apply, ChecksHaveRecords;
    if events != [] {
      ChecksOwned(s, events[..|events| - 1]);
      RunKeeps(s, events[..|events| - 1]);
      ChecksKeep(Run(s, events[..|events| - 1]), events[|events| - 1]);
    }
  }

  lemma AllOwned(s: State)
    requires Inv(s) && ChecksHaveRecords(s)
    ensures ConfigsOwned(s)
  {
    assert GlobalInv(s);
    hide Inv, KeyInv;
  }

  // ------------------------------------------------------------- the theorem

  /** The worker of `k` stays within one reconcile during these events. */
  ghost predicate OneReconcile(a: State, during: seq<Event>, k: Key) {
    forall n :: 0 <= n <= |during| ==> !Run(a, during[..n]).FlightOf(k).Idle?
  }

  /** None of its calls takes effect without the worker seeing it. */
  ghost predicate Clean(during: seq<Event>, k: Key) {
    forall e :: e in during && e.Work? && e.key == k ==> e.turn.outcome != Lost
  }

  /** From the Get that found an object to synchronise (`a`) to any later point of the same reconcile, the
      flight and the reason it reports tell what has happened to the remote records and configs of the
      object, whatever other keys, users and the environment did meanwhile. */
  lemma ReasonsTell(workspace: string, before: seq<Event>, during: seq<Event>, k: Key, v: nat)
    requires k.kind == BackupKind && Run(Empty(workspace), before).FlightOf(k) == Gathering(v, [])
    requires OneReconcile(Run(Empty(workspace), before), during, k)
    ensures var a := Run(Empty(workspace), before);
            a.Holds(k, v) && UnderWay(a, Run(a, during), k, v, a.Obj(k, v), Clean(during, k))
  {
    hide Run, Inv, OneReconcile, UnderWay, ChecksHaveRecords;
    Reachable(workspace, before);
    var a := Run(Empty(workspace), before);
    InitialInv(workspace);
    assert ChecksHaveRecords(Empty(workspace)) by { NoChecks(workspace); }
    ChecksOwned(Empty(workspace), before);
    ActiveProtected(a, k);
    StoryHolds(a, during, k, v, Clean(during, k));
  }

  lemma NoChecks(workspace: string)
    ensures ChecksHaveRecords(Empty(workspace))
  {
  }

  lemma {:induction false} StoryHolds(a: State, during: seq<Event>, k: Key, v: nat, clean: bool)
    requires Inv(a) && ChecksHaveRecords(a) && k.kind == BackupKind && a.FlightOf(k) == Gathering(v, []) && a.Holds(k, v)
    requires OneReconcile(a, during, k) && (clean ==> Clean(during, k))
    ensures UnderWay(a, Run(a, during), k, v, a.Obj(k, v), clean)
  {
    hide Inv, Apply, UnderWay, ChecksHaveRecords;
    if during == [] {
      assert UnderWay(a, a, k, v, a.Obj(k, v), clean) by { Beginning(a, k, v, clean); }
    } else {
      var init, e := during[..|during| - 1], during[|during| - 1];
      forall n | 0 <= n <= |init| ensures !Run(a, init[..n]).FlightOf(k).Idle? { assert init[..n] == during[..n]; }
      StoryHolds(a, init, k, v, clean);
      var s := Run(a, init);
      RunKeeps(a, init);
      ChecksOwned(a, init);
      assert during[..|during|] == during && during[..|init|] == init;
      OneMoreEvent(a, s, e, k, v, a.Obj(k, v), clean);
    }
  }

  lemma Beginning(a: State, k: Key, v: nat, clean: bool)
    requires a.FlightOf(k) == Gathering(v, []) && a.Holds(k, v)
    ensures UnderWay(a, a, k, v, a.Obj(k, v), clean)
  {
  }

  lemma OneMoreEvent(a: State, s: State, e: Event, k: Key, v: nat, o: Object, clean: bool)
    requires k.kind == BackupKind && Inv(a) && ChecksHaveRecords(a) && Inv(s) && ChecksHaveRecords(s)
    requires UnderWay(a, s, k, v, o, clean) && !s.FlightOf(k).Idle? && !Apply(s, e).FlightOf(k).Idle?
    requires clean && e.Work? && e.key == k ==> e.turn.outcome != Lost
    ensures UnderWay(a, Apply(s, e), k, v, o, clean)
  {
    hide Inv, Apply, UnderWay, ChecksHaveRecords, Saves, WorkOn, ConfigsOwned, Untouched;
    EventKeeps(s, e);
    AllOwned(a);
    AllOwned(s);
    if e.Crash? && e.key == k {
      CrashEnds(s, k);
    } else if e.Work? && e.key == k {
      WorkApplies(s, k, e.turn);
      OwnWork(a, s, k, v, o, e.turn, clean);
    } else {
      EventUntouched(s, e, k);
      VersionsGrow(s, e, k);
      OthersContinue(a, s, Apply(s, e), k, v, o, clean);
    }
  }

  lemma CrashEnds(s: State, k: Key)
    ensures Apply(s, Crash(k)).FlightOf(k).Idle?
  {
  }

  lemma OwnWork(a: State, s: State, k: Key, v: nat, o: Object, t: Turn, clean: bool)
    requires k.kind == BackupKind && Inv(s) && Inv(WorkOn(s, k, t)) && ConfigsOwned(a) && ConfigsOwned(s)
    requires UnderWay(a, s, k, v, o, clean) && !s.FlightOf(k).Idle? && !WorkOn(s, k, t).FlightOf(k).Idle?
    requires clean ==> t.outcome != Lost
    ensures UnderWay(a, WorkOn(s, k, t), k, v, o, clean)
  {
    var f := s.FlightOf(k);
    assert f.Returning? || Active(f);
    hide Inv, UnderWay, Saves, WorkOn, ConfigsOwned;
    if f.Returning? { Lands(s, k, t); }
    else if f.Gathering? {
      if Saves(s, k) { SaveOn(a, s, k, v, o, t, clean); } else { ReadOn(a, s, k, v, o, t, clean); }
    }
    else if f.Configuring? { ConfigureOn(a, s, k, v, o, t, clean); }
    else if f.Probing? { ProbeOn(a, s, k, v, o, t, clean); }
    else if f.Refreshing? { RefreshOn(a, s, k, v, o, t, clean); }
    else { ReportOn(a, s, k, v, o, t, clean); }
  }

  lemma ReportOn(a: State, s: State, k: Key, v: nat, o: Object, t: Turn, clean: bool)
    requires UnderWay(a, s, k, v, o, clean) && s.FlightOf(k).Reporting?
    ensures UnderWay(a, WorkOn(s, k, t), k, v, o, clean)
  {
    hide WorkOn, Story, Local;
    Footprints(s, k, t);
    Lands(s, k, t);
  }

  /** Once a version with an ID is committed, even by a failure exit, a reconcile that reads this version or
      a later one of the object issues nothing new: its save replaces the record under that very ID. */
  lemma UpdateNotCreate(workspace: string, events: seq<Event>, k: Key, i: nat, t: Turn)
    ensures var s := Run(Empty(workspace), events);
            var f := s.FlightOf(k);
            s.Holds(k, i) && s.Obj(k, i).status.id != "" && Saves(s, k) && i <= f.Ver() &&
            SameObject(s.Versions(k)[i], s.Versions(k)[f.Ver()]) ==>
              var u := WorkOn(s, k, t);
              && u.issued == s.issued && u.records.Keys == s.records.Keys
              && forall ref :: ref in s.records && ref != Ref(k.kind, s.Obj(k, i).status.id) ==>
                 u.records[ref] == s.records[ref]
  {
    hide Run, Inv, WorkOn, GoodObject;
    var s := Run(Empty(workspace), events);
    var f := s.FlightOf(k);
    if s.Holds(k, i) && s.Obj(k, i).status.id != "" && Saves(s, k) && i <= f.Ver() &&
       SameObject(s.Versions(k)[i], s.Versions(k)[f.Ver()]) {
      Histories(workspace, events, k, i, f.Ver());
      var ref := SavesUnder(s, k, t);
    }
  }
}
