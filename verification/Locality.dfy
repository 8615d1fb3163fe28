/** Every event concerns one key: what it leaves alone of all the others, and what it never takes away.
*/
module Locality {
  import opened Resources
  import opened Conditions
  import opened Builders
  import opened Protocol
  import opened Invariants
  import opened Inductive
  import opened Safety
  import opened Accounting

  // ------------------------------------------------ events concern one key

  lemma LocalMeans(s: State, u: State, k: Key, j: Key)
    requires Local(s, u, k) && j != k
    ensures u.TrackOf(j) == s.TrackOf(j) && u.FlightOf(j) == s.FlightOf(j) && (j in u.queued <==> j in s.queued)
  {
  }

  /** A call changes its own key's flight, and of the histories at most its own key's, which it extends. */
  lemma WorkLocal(s: State, k: Key, t: Turn)
    ensures Local(s, WorkOn(s, k, t), k)
  {
    hide WorkOn, Saves, Local;
    if Saves(s, k) { var ref := SavesUnder(s, k, t); } else { Footprints(s, k, t); }
  }

  // ------------------------------------------------ what a key owns remotely

  ghost predicate Owns(s: State, k: Key, ref: Ref) { ref in s.issued && s.issued[ref].key == k }

  /** From `a` to `b` no record of `k` appeared, disappeared or changed. */
  ghost predicate SameRecords(a: State, b: State, k: Key) {
    forall ref :: Owns(b, k, ref) ==>
      (ref in b.records <==> ref in a.records) && (ref in a.records ==> b.records[ref] == a.records[ref])
  }

  ghost predicate SameConfigs(a: State, b: State, k: Key) {
    forall ref :: Owns(b, k, ref) ==>
      && (ref.id in b.backupConfigs <==> ref.id in a.backupConfigs)
      && (ref.id in a.backupConfigs ==> b.backupConfigs[ref.id] == a.backupConfigs[ref.id])
  }

  ghost predicate SameChecks(a: State, b: State, k: Key) {
    forall ref :: Owns(b, k, ref) ==>
      && (ref.id in b.healthchecks <==> ref.id in a.healthchecks)
      && (ref.id in a.healthchecks ==> b.healthchecks[ref.id] == a.healthchecks[ref.id])
  }

  ghost predicate Grown(a: State, b: State) {
    forall ref :: ref in a.issued ==> ref in b.issued && b.issued[ref] == a.issued[ref]
  }

  /** An event that is none of `k`'s worker. */
  ghost predicate Untouched(s: State, u: State, k: Key) {
    && u.workspace == s.workspace && u.FlightOf(k) == s.FlightOf(k) && s.readings <= u.readings && Grown(s, u)
    && (forall ref :: Owns(u, k, ref) ==> Owns(s, k, ref))
    && SameRecords(s, u, k) && (k.kind == BackupKind ==> SameConfigs(s, u, k) && SameChecks(s, u, k))
  }

  /** Every healthcheck config belongs to a database that exists. */
  ghost predicate ChecksHaveRecords(s: State) { forall id :: id in s.healthchecks ==> Ref(BackupKind, id) in s.records }

  lemma SaveTouches(s: State, j: Key, t: Turn, k: Key)
    requires Inv(s) && Saves(s, j) && j != k
    ensures var u := WorkOn(s, j, t);
            && SameRecords(s, u, k) && Grown(s, u) && (forall ref :: Owns(u, k, ref) ==> Owns(s, k, ref))
            && SameConfigs(s, u, k) && SameChecks(s, u, k)
  {
    hide Inv, WorkOn, SavedUnder, SameRecords, SameConfigs, SameChecks, Grown, Owns;
    var ref := SavesUnder(s, j, t);
    var o := s.Obj(j, s.FlightOf(j).Ver());
    if o.status.id != "" { IssuedFor(s, j, s.FlightOf(j).Ver()); }
    SavedTouches(s, WorkOn(s, j, t), j, o, ref, k);
  }

  lemma SavedTouches(s: State, u: State, j: Key, o: Object, ref: Ref, k: Key)
    requires SavedUnder(s, u, j, o, ref) && ref.kind == j.kind && j != k
    requires o.status.id != "" ==> Ref(j.kind, o.status.id) in s.issued && s.issued[Ref(j.kind, o.status.id)].key == j
    ensures SameRecords(s, u, k) && Grown(s, u) && (forall ref :: Owns(u, k, ref) ==> Owns(s, k, ref))
    ensures SameConfigs(s, u, k) && SameChecks(s, u, k)
  {
  }

  lemma CallTouches(s: State, j: Key, t: Turn, k: Key)
    requires Inv(s) && !Saves(s, j) && j != k
    ensures var u := WorkOn(s, j, t);
            && Grown(s, u) && (forall ref :: Owns(u, k, ref) ==> Owns(s, k, ref)) && SameRecords(s, u, k)
            && (k.kind == BackupKind ==> SameConfigs(s, u, k) && SameChecks(s, u, k))
  {
    hide Inv, WorkOn, Saves, SameRecords, SameConfigs, SameChecks;
    InvKey(s, j);
    var f := s.FlightOf(j);
    if f.Removing? { RemovalTouches(s, j, t, k); }
    else if f.Configuring? || f.Probing? { ConfigTouches(s, j, t, k); }
    else { OtherCallTouches(s, j, t, k); }
  }

  lemma OtherCallTouches(s: State, j: Key, t: Turn, k: Key)
    requires !Saves(s, j) && !s.FlightOf(j).Removing? && !s.FlightOf(j).Configuring? && !s.FlightOf(j).Probing?
    ensures var u := WorkOn(s, j, t);
            && Grown(s, u) && (forall ref :: Owns(u, k, ref) ==> Owns(s, k, ref)) && SameRecords(s, u, k)
            && SameConfigs(s, u, k) && SameChecks(s, u, k)
  {
    hide WorkOn, Saves;
    Footprints(s, j, t);
  }

  lemma ConfigTouches(s: State, j: Key, t: Turn, k: Key)
    requires Inv(s) && j != k && (s.FlightOf(j).Configuring? || s.FlightOf(j).Probing?)
    ensures var u := WorkOn(s, j, t);
            && Grown(s, u) && (forall ref :: Owns(u, k, ref) ==> Owns(s, k, ref)) && SameRecords(s, u, k)
            && (k.kind == BackupKind ==> SameConfigs(s, u, k) && SameChecks(s, u, k))
  {
    ConfigIsOwn(s, j);
    assert GlobalInv(s) by { InvKey(s, j); }
    hide Inv, WorkOn, SameConfigs, SameChecks;
    Footprints(s, j, t);
    OneConfig(s, j, t);
    hide Owns, GlobalInv;
    OthersKeepConfigs(s, WorkOn(s, j, t), j, s.FlightOf(j).id, k);
  }

  lemma OthersKeepConfigs(s: State, u: State, j: Key, id: string, k: Key)
    requires GlobalInv(s) && u.issued == s.issued && j != k && Owns(s, j, Ref(BackupKind, id))
    requires u.backupConfigs == s.backupConfigs ||
             (id in u.backupConfigs && u.backupConfigs == s.backupConfigs[id := u.backupConfigs[id]])
    requires u.healthchecks == s.healthchecks ||
             (id in u.healthchecks && u.healthchecks == s.healthchecks[id := u.healthchecks[id]])
    ensures k.kind == BackupKind ==> SameConfigs(s, u, k) && SameChecks(s, u, k)
  {
  }

  lemma ConfigIsOwn(s: State, k: Key)
    requires Inv(s) && (s.FlightOf(k).Configuring? || s.FlightOf(k).Probing?)
    ensures k.kind == BackupKind && Owns(s, k, Ref(BackupKind, s.FlightOf(k).id))
  {
    hide Inv, FlightMatch;
    ActiveProtected(s, k);
    FlightOwns(s, k);
  }

  lemma RemovalTouches(s: State, j: Key, t: Turn, k: Key)
    requires Inv(s) && j != k && s.FlightOf(j).Removing?
    ensures var u := WorkOn(s, j, t);
            && Grown(s, u) && (forall ref :: Owns(u, k, ref) ==> Owns(s, k, ref)) && SameRecords(s, u, k)
            && (k.kind == BackupKind ==> SameConfigs(s, u, k) && SameChecks(s, u, k))
  {
    assert GlobalInv(s) by { InvKey(s, j); }
    hide Inv, WorkOn;
    Footprints(s, j, t);
    RemovesOne(s, j, t);
    RemovesOneConfig(s, j, t);
    RemovingShrinks(s, j, t);
    IssuedFor(s, j, s.FlightOf(j).Ver());
  }

  lemma RemovesOneConfig(s: State, k: Key, t: Turn)
    requires Inv(s) && s.FlightOf(k).Removing?
    ensures s.Holds(k, s.FlightOf(k).Ver())
    ensures var id := s.Obj(k, s.FlightOf(k).Ver()).status.id;
            var u := WorkOn(s, k, t);
            && (forall i :: i in s.backupConfigs && !(k.kind == BackupKind && i == id) ==> i in u.backupConfigs)
            && (forall i :: i in s.healthchecks && !(k.kind == BackupKind && i == id) ==> i in u.healthchecks)
            && (forall i :: i in u.healthchecks && k.kind == BackupKind && Ref(BackupKind, i) in s.records ==>
                  Ref(BackupKind, i) in u.records)
  {
    RemovingHolds(s, k);
    hide Inv;
    WorkIs(s, k, t);
    hide WorkOn;
    RemoveKeepsOthers(s, k, s.FlightOf(k).Ver(), t);
  }

  lemma RemoveKeepsOthers(s: State, k: Key, ver: nat, t: Turn)
    ensures var id := s.Obj(k, ver).status.id;
            var u := Remove(s, k, ver, t);
            && (forall i :: i in s.backupConfigs && !(k.kind == BackupKind && i == id) ==> i in u.backupConfigs)
            && (forall i :: i in s.healthchecks && !(k.kind == BackupKind && i == id) ==> i in u.healthchecks)
            && (forall i :: i in u.healthchecks && k.kind == BackupKind && Ref(BackupKind, i) in s.records ==>
                  Ref(BackupKind, i) in u.records)
  {
    match t.outcome
    case Done =>
    case Failed =>
    case Lost =>
  }

  lemma RemovingHolds(s: State, k: Key)
    requires Inv(s) && s.FlightOf(k).Removing?
    ensures s.Holds(k, s.FlightOf(k).Ver())
  {
    hide HorizonInv, RemovalInv, MatchInv, OriginInv, WakeInv, OwnInv, Finalizer, GlobalInv, GoodObject, Later;
    assert KeyInv(s, k);
  }

  lemma EventUntouched(s: State, e: Event, k: Key)
    requires Inv(s) && ((e.Work? || e.Crash?) ==> e.key != k)
    ensures Untouched(s, Apply(s, e), k)
  {
    hide Inv, Apply, SameRecords, SameConfigs, SameChecks;
    EventEffect(s, e);
    if IsUserEvent(e) {
      UserEffect(s, e);
      NothingRemote(s, Apply(s, e), k);
    } else if e.Crash? {
      CrashLocal(s, e.key);
      LocalMeans(s, Apply(s, e), e.key, k);
      NothingRemote(s, Apply(s, e), k);
    } else if e.Work? {
      WorkApplies(s, e.key, e.turn);
      InvTrack(s, e.key);
      WorkLocal(s, e.key, e.turn);
      LocalMeans(s, Apply(s, e), e.key, k);
      if Saves(s, e.key) { SaveTouches(s, e.key, e.turn, k); } else { CallTouches(s, e.key, e.turn, k); }
    } else {
      OutsideEffect(s, e);
      NothingRemote(s, Apply(s, e), k);
    }
  }

  lemma UntouchedFlight(s: State, u: State, j: Key)
    requires Untouched(s, u, j)
    ensures u.FlightOf(j) == s.FlightOf(j) && u.workspace == s.workspace
  {
    hide SameRecords, SameConfigs, SameChecks;
  }

  lemma NothingRemote(s: State, u: State, k: Key)
    requires u.issued == s.issued && u.records == s.records && u.backupConfigs == s.backupConfigs &&
      u.healthchecks == s.healthchecks
    ensures Grown(s, u) && (forall ref :: Owns(u, k, ref) ==> Owns(s, k, ref))
    ensures SameRecords(s, u, k) && SameConfigs(s, u, k) && SameChecks(s, u, k)
  {
  }

  lemma CrashLocal(s: State, k: Key)
    ensures var u := Apply(s, Crash(k));
            && Local(s, u, k) && u.issued == s.issued && u.records == s.records && u.backupConfigs == s.backupConfigs
            && u.healthchecks == s.healthchecks
  {
    AbandonEffect(s, k);
    hide Abandon;
  }

  // --------------------------------------------------------- versions only grow

  lemma VersionsGrow(s: State, e: Event, j: Key)
    requires Inv(s)
    ensures s.Versions(j) <= Apply(s, e).Versions(j)
  {
    hide Inv, Apply;
    InvTrack(s, j);
    if IsUserEvent(e) {
      UserGrows(s, e, j);
    } else if e.Crash? {
      CrashTracks(s, e.key);
    } else if e.Work? {
      WorkApplies(s, e.key, e.turn);
      InvTrack(s, e.key);
      WorkLocal(s, e.key, e.turn);
      if j != e.key { LocalMeans(s, Apply(s, e), e.key, j); } else { WorkGrows(s, j, e.turn); }
    } else {
      OutsideGrows(s, e, j);
    }
  }

  lemma UserGrows(s: State, e: Event, j: Key)
    requires IsUserEvent(e) && Inv(s)
    ensures s.Versions(j) <= Apply(s, e).Versions(j)
  {
    if Apply(s, e) != s {
      InvKey(s, e.key);
      UnfoldKey(s, e.key);
      hide Inv, Apply, UserWrite, TrackInv, FlightInv, HorizonInv, OwnInv, RemovalInv, MatchInv, OriginInv, WakeInv, GlobalInv;
      var v := UserEvents(s, e);
    }
  }

  lemma CrashTracks(s: State, k: Key)
    ensures Apply(s, Crash(k)).tracks == s.tracks
  {
    AbandonEffect(s, k);
    hide Abandon;
  }

  lemma OutsideGrows(s: State, e: Event, j: Key)
    requires !IsUserEvent(e) && !e.Crash? && !e.Work?
    ensures Apply(s, e).Versions(j) == s.Versions(j)
  {
    hide WorkOn, Abandon, Stored, Finalizer;
  }

  lemma WorkGrows(s: State, k: Key, t: Turn)
    ensures s.Versions(k) <= WorkOn(s, k, t).Versions(k) && WorkOn(s, k, t).TrackOf(k).seen == s.TrackOf(k).seen
  {
    hide WorkOn;
    WorkLocal(s, k, t);
  }
}
