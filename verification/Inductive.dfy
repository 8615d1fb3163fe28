/** No call of a worker breaks the invariant; together with the other events this makes it
inductive over all runs. One lemma per kind of call and per part that the call touches.
*/
module Inductive {
  import opened Resources
  import opened Conditions
  import opened Builders
  import opened Protocol
  import opened Invariants

  // ------------------------------------------------- calls that only move the flight

  /** The call changed nothing but the flight, the queue and perhaps the set of readings. */
  ghost predicate Moves(s: State, t: State, k: Key) {
    && Undisturbed(s, t, k) && Frame(s, t, k)
    && t.TrackOf(k) == s.TrackOf(k)
  }

  lemma MoveKeeps(s: State, t: State, k: Key)
    requires Inv(s) && Moves(s, t, k)
    requires GlobalInv(t) && FlightInv(t, k) && FlightMatch(t, k) && WakeInv(t, k)
    ensures Inv(t)
  {
    hide Shape, FlightInv, FlightMatch, ReadyMatch, WakeInv, HorizonInv, OwnInv, RemovalInv, OriginInv, GlobalInv, Frame,
         Undisturbed;
    assert KeyInv(s, k);
    UndisturbedKeeps(s, t, k);
    OneKey(s, t, k);
  }

  lemma FlyMoves(s: State, k: Key, f: Flight)
    requires Inv(s)
    requires NewId(s.Fly(k, f), k) == NewId(s, k) && Horizon(s, k) <= Horizon(s.Fly(k, f), k) < |s.Versions(k)|
    ensures Moves(s, s.Fly(k, f), k) && GlobalInv(s.Fly(k, f))
  {
    hide HorizonInv, OwnInv, RemovalInv, MatchInv, OriginInv, WakeInv, Shape, Finalizer, WorkInv, NewId, Horizon;
    assert KeyInv(s, k);
  }

  /** A version that the cache shows, not marked and with the finalizer, is still attached. */
  lemma StillAttached(s: State, k: Key, ver: nat)
    requires TrackInv(s, k) && RemovalInv(s, k) && s.Holds(k, ver) && Horizon(s, k) == ver
    requires !s.Obj(k, ver).deleting && Attached(k.kind, s.Obj(k, ver))
    ensures SameObject(s.Versions(k)[ver], Last(s.Versions(k))) && Attached(k.kind, Last(s.Versions(k)).Value())
  {
    hide GoodObject, Finalizer;
    var versions := s.Versions(k);
    forall i | 0 <= i <= ver && SameObject(versions[i], versions[ver])
      ensures !versions[i].Value().deleting
    {
    }
    assert !DeletionSeen(s, k, versions[ver].Value().uid);
  }

  /** The branch that a Get leads to. */
  ghost predicate Fetched(kind: Kind, v: Version, f: Flight) {
    && (f.Returning? ==>
          f.result.Again() || v.Absent? || (v.Value().deleting && !Attached(kind, v.Value())))
    && (!f.Returning? ==>
          && v.Present?
          && (f.Removing? || f.Detaching? || f.Attaching? || (f.Gathering? && f.Got() == []))
          && (f.Removing? ==> v.Value().deleting && Attached(kind, v.Value()) && v.Value().status.id != "")
          && (f.Detaching? ==> v.Value().deleting && Attached(kind, v.Value()) && v.Value().status.id == "")
          && (f.Attaching? ==> !v.Value().deleting && !Attached(kind, v.Value()))
          && (f.Gathering? ==> !v.Value().deleting && Attached(kind, v.Value())))
  }

  lemma FetchIs(s: State, k: Key, t: Turn) returns (f: Flight)
    requires s.TrackOf(k).seen < |s.Versions(k)|
    ensures Fetch(s, k, t) == s.Fly(k, f)
    ensures !f.Idle? && f.Ver() == s.TrackOf(k).seen && Fetched(k.kind, s.Versions(k)[f.Ver()], f)
  {
    hide Finalizer;
    var seen := s.TrackOf(k).seen;
    if t.outcome != Done {
      f := Returning(seen, Result(0, true));
    } else if s.Versions(k)[seen].Absent? {
      f := Returning(seen, Result(0, false));
    } else {
      var o := s.Obj(k, seen);
      f := if !o.deleting then (if Attached(k.kind, o) then Gathering(seen, []) else Attaching(seen))
           else if !Attached(k.kind, o) then Returning(seen, Result(0, false))
           else if o.status.id != "" then Removing(seen) else Detaching(seen);
    }
  }

  lemma FetchFlight(s: State, k: Key, f: Flight)
    requires TrackInv(s, k) && RemovalInv(s, k) && s.FlightOf(k).Idle?
    requires !f.Idle? && f.Ver() == s.TrackOf(k).seen && Fetched(k.kind, s.Versions(k)[f.Ver()], f)
    ensures var after := s.(queued := s.queued - {k}).Fly(k, f);
            && FlightInv(after, k) && FlightMatch(after, k) && WakeInv(after, k)
            && NewId(after, k) == NewId(s, k) && Horizon(after, k) == Horizon(s, k) < |s.Versions(k)|
  {
    hide RemovalInv, Shape, Plan, Finalizer, IsReady, GoodObject, RequestOf, Complete;
    var after := s.(queued := s.queued - {k}).Fly(k, f);
    var versions := s.Versions(k);
    assert after.TrackOf(k) == s.TrackOf(k);
    if f.Gathering? { StillAttached(s, k, f.Ver()); }
    assert |versions| > 0 by { assert TrackInv(s, k); }
    assert f.Ver() == |versions| - 1 ==> versions[f.Ver()] == Last(versions);
  }

  lemma FetchKeeps(s: State, k: Key, t: Turn)
    requires Inv(s) && s.FlightOf(k).Idle? && k in s.queued
    ensures Inv(Fetch(s.(queued := s.queued - {k}), k, t))
  {
    hide Shape, HorizonInv, OwnInv, RemovalInv, OriginInv, MatchInv, FlightInv, FlightMatch, WakeInv, Fetch, Fetched,
         NewId, Horizon, Moves, GlobalInv, Finalizer;
    InvKey(s, k);
    var f := FetchIs(s.(queued := s.queued - {k}), k, t);
    FetchFlight(s, k, f);
    FetchMoves(s, k, f);
    MoveKeeps(s, s.(queued := s.queued - {k}).Fly(k, f), k);
  }

  lemma FetchMoves(s: State, k: Key, f: Flight)
    requires GlobalInv(s) && s.TrackOf(k).seen < |s.Versions(k)|
    ensures var after := s.(queued := s.queued - {k}).Fly(k, f);
            NewId(after, k) == NewId(s, k) && Horizon(after, k) == Horizon(s, k) < |s.Versions(k)| ==>
              Moves(s, after, k) && GlobalInv(after)
  {
    hide NewId, Horizon;
  }

  // -------------------------------------------------------- towards a status write

  ghost predicate GoodVerdict(s: State, k: Key, o: Object, verdict: Verdict) {
    && (verdict.ok ==> verdict.id != "" && verdict.reason == SYNCED && RemoteMatches(s, k, o, verdict.id))
    && (!verdict.ok && verdict.reason == UNSUPPORTED ==> Physical(o))
  }

  lemma ReportFlight(s: State, k: Key, verdict: Verdict)
    requires FlightInv(s, k) && OwnInv(s, k) && Active(s.FlightOf(k)) && !s.FlightOf(k).Reporting?
    requires var f := s.FlightOf(k);
             && verdict.id == (if f.Gathering? then s.Obj(k, f.Ver()).status.id else f.id)
             && GoodVerdict(s, k, s.Obj(k, f.Ver()), verdict)
    ensures var t := s.Fly(k, Reporting(s.FlightOf(k).Ver(), verdict));
            FlightInv(t, k) && FlightMatch(t, k) && WakeInv(t, k) && NewId(t, k) == NewId(s, k) &&
            Horizon(t, k) == Horizon(s, k) < |s.Versions(k)|
  {
    hide Plan, Complete, Finalizer, RequestOf, RecordMatches, ConfigMatches, HealthcheckMatches, Physical;
    var f := s.FlightOf(k);
    var t := s.Fly(k, Reporting(f.Ver(), verdict));
    assert t.TrackOf(k) == s.TrackOf(k);
    var o := s.Obj(k, f.Ver());
    assert o == s.Versions(k)[f.Ver()].Value();
    RemoteStays(s, t, k, o, verdict.id);
  }

  lemma ReportKeeps(s: State, k: Key, verdict: Verdict)
    requires Inv(s) && Active(s.FlightOf(k)) && !s.FlightOf(k).Reporting? && s.Holds(k, s.FlightOf(k).Ver())
    requires var f := s.FlightOf(k);
             && verdict.id == (if f.Gathering? then s.Obj(k, f.Ver()).status.id else f.id)
             && GoodVerdict(s, k, s.Obj(k, f.Ver()), verdict)
    ensures Inv(s.Fly(k, Reporting(s.FlightOf(k).Ver(), verdict)))
  {
    hide Shape, HorizonInv, RemovalInv, OriginInv, FlightMatch, ReadyMatch, WakeInv, OwnInv, FlightInv, GoodVerdict, NewId;
    assert KeyInv(s, k);
    ReportFlight(s, k, verdict);
    FlyMoves(s, k, Reporting(s.FlightOf(k).Ver(), verdict));
    MoveKeeps(s, s.Fly(k, Reporting(s.FlightOf(k).Ver(), verdict)), k);
  }

  // ------------------------------------------------------------------- reads

  /** A plan only rejects with the physical-backup reason when the spec asks for physical backups. */
  lemma RejectedPhysical(spec: Spec, i: nat)
    requires i < |Plan(spec)| && Plan(spec)[i].Reason() == UNSUPPORTED
    ensures spec.ForBackup? && WantsPhysicalBackups(spec.databaseBackup.database)
  {
    match spec
    case ForStorage(storage) =>
    case ForNotifier(notifier) => HeadersOnlyRead(if notifier.webhook.Some? then notifier.webhook.value.headers else []);
    case ForBackup(backup) =>
  }

  lemma {:induction false} HeadersOnlyRead(headers: seq<WebhookHeader>)
    ensures forall i :: 0 <= i < |HeaderPlan(headers)| ==> HeaderPlan(headers)[i].Value?
  {
    if headers != [] { HeadersOnlyRead(headers[..|headers| - 1]); }
  }

  lemma GatherFails(s: State, k: Key, ver: nat, got: seq<string>, message: string)
    requires Inv(s) && s.FlightOf(k) == Gathering(ver, got) && s.Holds(k, ver) && |got| < |Plan(s.Obj(k, ver).spec)|
    ensures var o := s.Obj(k, ver);
            Inv(s.Fly(k, Reporting(ver, Failure(o, Plan(o.spec)[|got|].Reason(), message, o.status.id))))
  {
    hide Inv, Plan;
    var o := s.Obj(k, ver);
    if Plan(o.spec)[|got|].Reason() == UNSUPPORTED { RejectedPhysical(o.spec, |got|); }
    ReportKeeps(s, k, Failure(o, Plan(o.spec)[|got|].Reason(), message, o.status.id));
  }

  lemma GatheredFlight(s: State, k: Key, ver: nat, got: seq<string>, value: string)
    requires FlightInv(s, k) && s.FlightOf(k) == Gathering(ver, got) && s.Holds(k, ver)
    requires |got| < |Plan(s.Obj(k, ver).spec)| && !Plan(s.Obj(k, ver).spec)[|got|].Reject?
    ensures var o := s.Obj(k, ver);
            var r := Read(Owner(k, o.uid), o.generation, |got|, Plan(o.spec)[|got|], value);
            var t := s.(readings := s.readings + {r}).Fly(k, Gathering(ver, got + [value]));
            FlightInv(t, k) && FlightMatch(t, k) && WakeInv(t, k) && NewId(t, k) == NewId(s, k) &&
            Horizon(t, k) == Horizon(s, k) < |s.Versions(k)| && t.TrackOf(k) == s.TrackOf(k)
  {
    hide Plan, Complete, Finalizer, RequestOf;
    var o := s.Obj(k, ver);
    var t := s.(readings := s.readings + {Read(Owner(k, o.uid), o.generation, |got|, Plan(o.spec)[|got|], value)})
              .Fly(k, Gathering(ver, got + [value]));
    assert t.TrackOf(k) == s.TrackOf(k);
    assert ReadBy(s, k, o, got);
  }

  /** The ID of a Storage or Notifier that a read returns was issued for that very resource. */
  lemma FoundReference(s: State, namespace: string, need: Need)
    requires Inv(s) && need.Reference? && Lookup(s, namespace, need).Some?
    ensures var ref := Ref(need.kind, Lookup(s, namespace, need).value);
            ref in s.issued && s.issued[ref].key == Key(need.kind, namespace, need.name)
  {
    hide Shape, FlightInv, HorizonInv, RemovalInv, MatchInv, OriginInv, WakeInv, GlobalInv, IsReady, NewId;
    var k := Key(need.kind, namespace, need.name);
    assert KeyInv(s, k);
    var seen := s.TrackOf(k).seen;
    assert s.Versions(k)[seen].Present?;
  }

  lemma ReadingMoves(s: State, k: Key, r: Read, f: Flight)
    requires Inv(s)
    requires r.need.Reference? ==>
               && Ref(r.need.kind, r.value) in s.issued
               && s.issued[Ref(r.need.kind, r.value)].key == Key(r.need.kind, r.owner.key.namespace, r.need.name)
    requires var t := s.(readings := s.readings + {r}).Fly(k, f);
             NewId(t, k) == NewId(s, k) && Horizon(s, k) <= Horizon(t, k) < |s.Versions(k)|
    ensures var t := s.(readings := s.readings + {r}).Fly(k, f); Moves(s, t, k) && GlobalInv(t)
  {
    hide HorizonInv, OwnInv, RemovalInv, MatchInv, OriginInv, WakeInv, Shape, Finalizer, WorkInv, NewId, Horizon;
    InvKey(s, k);
    assert s.TrackOf(k).seen < |s.Versions(k)| by { InvTrack(s, k); }
    hide Inv, KeyInv, FlightInv, TrackInv;
    ReadingGlobal(s, k, r, f);
    hide GlobalInv, Frame;
  }

  lemma ReadingGlobal(s: State, k: Key, r: Read, f: Flight)
    requires GlobalInv(s)
    requires r.need.Reference? ==>
               && Ref(r.need.kind, r.value) in s.issued
               && s.issued[Ref(r.need.kind, r.value)].key == Key(r.need.kind, r.owner.key.namespace, r.need.name)
    ensures var t := s.(readings := s.readings + {r}).Fly(k, f); GlobalInv(t) && Frame(s, t, k)
  {
  }

  lemma GatherKeeps(s: State, k: Key, ver: nat, got: seq<string>, t: Turn)
    requires Inv(s) && s.FlightOf(k) == Gathering(ver, got) && s.Holds(k, ver) && |got| < |Plan(s.Obj(k, ver).spec)|
    ensures Inv(Gather(s, k, ver, got, t))
  {
    hide Plan, TrackInv, HorizonInv, RemovalInv, OriginInv, FlightMatch, ReadyMatch, WakeInv, OwnInv, FlightInv, NewId,
         Horizon, Lookup, GlobalInv, Moves;
    var o := s.Obj(k, ver);
    var need := Plan(o.spec)[|got|];
    var found := Lookup(s, k.namespace, need);
    if t.outcome == Done && found.Some? {
      assert KeyInv(s, k);
      if need.Reference? { FoundReference(s, k.namespace, need); }
      assert !need.Reject? by { LookupReads(s, k.namespace, need); }
      var r := Read(Owner(k, o.uid), o.generation, |got|, need, found.value);
      GatheredFlight(s, k, ver, got, found.value);
      ReadingMoves(s, k, r, Gathering(ver, got + [found.value]));
      MoveKeeps(s, s.(readings := s.readings + {r}).Fly(k, Gathering(ver, got + [found.value])), k);
    } else {
      GatherFails(s, k, ver, got, if need == Reject(UNSUPPORTED) then UNSUPPORTED_MESSAGE else t.message);
    }
  }

  lemma LookupReads(s: State, namespace: string, need: Need)
    ensures Lookup(s, namespace, need).Some? ==> !need.Reject?
  {
  }

  // ------------------------------------------- saves that revise what is stored under one ID

  /** The call replaced, under the ID `id` of `k`, the record, the backup config or the healthcheck
      config, and what it stored is what object `o` asks for. */
  ghost predicate Revises(s: State, t: State, k: Key, o: Object, id: string) {
    && t == s.(records := t.records, backupConfigs := t.backupConfigs, healthchecks := t.healthchecks)
    && Ref(k.kind, id) in s.records
    && t.records.Keys == s.records.Keys
    && (forall ref :: ref in s.records && ref != Ref(k.kind, id) ==> t.records[ref] == s.records[ref])
    && (forall i :: i != id || k.kind != BackupKind ==>
          && (i in t.backupConfigs <==> i in s.backupConfigs)
          && (i in s.backupConfigs ==> t.backupConfigs[i] == s.backupConfigs[i])
          && (i in t.healthchecks <==> i in s.healthchecks)
          && (i in s.healthchecks ==> t.healthchecks[i] == s.healthchecks[i]))
    && (RecordMatches(t, k, o, id) || t.records == s.records)
    && ((ConfigMatches(t, k, o, id)) || t.backupConfigs == s.backupConfigs)
    && ((HealthcheckMatches(t, o, id)) || t.healthchecks == s.healthchecks)
  }

  lemma RevisionImproves(s: State, t: State, k: Key, o: Object, id: string)
    requires Revises(s, t, k, o, id)
    ensures RecordMatches(s, k, o, id) ==> RecordMatches(t, k, o, id)
    ensures ConfigMatches(s, k, o, id) ==> ConfigMatches(t, k, o, id)
    ensures HealthcheckMatches(s, o, id) ==> HealthcheckMatches(t, o, id)
  {
    hide RequestOf, Complete, Plan, BackupConfigOf, HealthcheckOf;
    if RecordMatches(s, k, o, id) && t.records == s.records { RecordStays(s, t, k, o, id); }
    if ConfigMatches(s, k, o, id) && t.backupConfigs == s.backupConfigs { ConfigStays(s, t, k, o, id); }
  }

  lemma RevisionElsewhere(s: State, t: State, k: Key, o: Object, id: string, b: Object, other: string)
    requires Revises(s, t, k, o, id) && other != id
    ensures RecordMatches(s, k, b, other) ==> RecordMatches(t, k, b, other)
    ensures ConfigMatches(s, k, b, other) ==> ConfigMatches(t, k, b, other)
    ensures HealthcheckMatches(s, b, other) ==> HealthcheckMatches(t, b, other)
  {
    hide RequestOf, Complete, Plan, BackupConfigOf, HealthcheckOf;
    if RecordMatches(s, k, b, other) { RecordStays(s, t, k, b, other); }
    if ConfigMatches(s, k, b, other) { ConfigStays(s, t, k, b, other); }
  }

  /** If the current status says Ready at the current generation, a flight on the same object
      works on that generation, hence on the same spec. */
  lemma SameGeneration(s: State, k: Key)
    requires TrackInv(s, k) && HorizonInv(s, k) && !s.FlightOf(k).Idle?
    requires s.Holds(k, s.FlightOf(k).Ver()) && SameObject(s.Versions(k)[s.FlightOf(k).Ver()], Last(s.Versions(k)))
    requires ReadyAtItsGeneration(Last(s.Versions(k)).Value())
    ensures var o, last := s.Obj(k, s.FlightOf(k).Ver()), Last(s.Versions(k)).Value();
            o.generation == last.generation && o.spec == last.spec
  {
    hide IsReady, Finalizer, GoodCondition;
    var versions := s.Versions(k);
    var n := |versions| - 1;
    assert versions[n].Present? && versions[n].Value().generation > 0;
    assert SameObject(versions[s.FlightOf(k).Ver()], versions[n]);
  }

  lemma RevisionKeepsReady(s: State, t: State, k: Key, id: string)
    requires TrackInv(s, k) && HorizonInv(s, k) && FlightInv(s, k) && ReadyMatch(s, k)
    requires Active(s.FlightOf(k)) && s.Holds(k, s.FlightOf(k).Ver())
    requires Revises(s, t, k, s.Obj(k, s.FlightOf(k).Ver()), id)
    ensures ReadyMatch(t, k)
  {
    hide RecordMatches, ConfigMatches, HealthcheckMatches, Shape, HorizonInv, IsReady, Finalizer, Plan, Complete, Revises;
    var o := s.Obj(k, s.FlightOf(k).Ver());
    assert t.Versions(k) == s.Versions(k) by { RevisionShape(s, t, k, o, id); }
    var last := Last(s.Versions(k));
    assert last.Present?;
    if ReadyAtItsGeneration(last.Value()) {
      SameGeneration(s, k);
      if last.Value().status.id == id {
        RevisionImproves(s, t, k, o, id);
        SameMatch(s, k, o, last.Value(), id);
        SameMatch(t, k, o, last.Value(), id);
      } else {
        RevisionElsewhere(s, t, k, o, id, last.Value(), last.Value().status.id);
      }
    }
  }

  lemma RevisionShape(s: State, t: State, k: Key, o: Object, id: string)
    requires Revises(s, t, k, o, id)
    ensures t.tracks == s.tracks && t.flights == s.flights && t.queued == s.queued && t.issued == s.issued &&
            t.lost == s.lost && t.readings == s.readings && t.workspace == s.workspace &&
            t.records.Keys == s.records.Keys
  {
    hide RecordMatches, ConfigMatches, HealthcheckMatches;
  }

  lemma RevisionKeepsFlight(s: State, t: State, k: Key, id: string)
    requires FlightInv(s, k) && FlightMatch(s, k) && WakeInv(s, k)
    requires Active(s.FlightOf(k)) && s.Holds(k, s.FlightOf(k).Ver()) && FlightId(s.FlightOf(k)) in {"", id}
    requires !s.FlightOf(k).Reporting? && Revises(s, t, k, s.Obj(k, s.FlightOf(k).Ver()), id)
    ensures FlightInv(t, k) && FlightMatch(t, k) && WakeInv(t, k)
  {
    hide RecordMatches, ConfigMatches, HealthcheckMatches, Finalizer, Plan, Complete, Revises;
    var o := s.Obj(k, s.FlightOf(k).Ver());
    RevisionShape(s, t, k, o, id);
    RevisionImproves(s, t, k, o, id);
    forall got | ReadBy(s, k, o, got) ensures ReadBy(t, k, o, got) { ReadingsStay(s, t, k, o, got); }
    assert t.TrackOf(k) == s.TrackOf(k);
  }

  lemma RevisionKeepsOrigin(s: State, t: State, k: Key, id: string)
    requires TrackInv(s, k) && OriginInv(s, k) && !s.FlightOf(k).Idle? && s.Holds(k, s.FlightOf(k).Ver())
    requires Revises(s, t, k, s.Obj(k, s.FlightOf(k).Ver()), id)
    requires forall ref :: ref in s.issued ==> ref.kind == s.issued[ref].key.kind
    requires Ref(k.kind, id) in s.issued && s.issued[Ref(k.kind, id)] == Owner(k, s.Obj(k, s.FlightOf(k).Ver()).uid)
    ensures OriginInv(t, k)
  {
    hide RecordMatches, ConfigMatches, HealthcheckMatches, Shape;
    var versions := s.Versions(k);
    var ver := s.FlightOf(k).Ver();
    var o := s.Obj(k, ver);
    assert t.Versions(k) == versions;
    forall ref | ref in t.records && ref in t.issued && t.issued[ref].key == k
      ensures exists v :: 0 <= v < |t.Versions(k)| && t.Versions(k)[v].Present? &&
                          t.Versions(k)[v].Value().uid == t.issued[ref].uid &&
                            RecordMatches(t, k, t.Versions(k)[v].Value(), ref.id)
    {
      var v :| 0 <= v < |versions| && versions[v].Present? && versions[v].Value().uid == s.issued[ref].uid &&
               RecordMatches(s, k, versions[v].Value(), ref.id);
      if ref.id != id {
        RevisionElsewhere(s, t, k, o, id, versions[v].Value(), ref.id);
        assert t.Versions(k)[v].Present?;
      } else if t.records == s.records {
        RecordStays(s, t, k, versions[v].Value(), ref.id);
        assert t.Versions(k)[v].Present?;
      } else {
        assert t.Versions(k)[ver].Present?;
      }
    }
    if k.kind == BackupKind {
      forall ref | ref in t.issued && t.issued[ref].key == k && ref.id in t.backupConfigs
        ensures exists v :: 0 <= v < |t.Versions(k)| && t.Versions(k)[v].Present? &&
                            t.Versions(k)[v].Value().uid == t.issued[ref].uid &&
                              ConfigMatches(t, k, t.Versions(k)[v].Value(), ref.id)
      {
        if ref.id == id && t.backupConfigs != s.backupConfigs {
          assert t.Versions(k)[ver].Present?;
        } else {
          var v :| 0 <= v < |versions| && versions[v].Present? &&
                   versions[v].Value().uid == s.issued[ref].uid && ConfigMatches(s, k, versions[v].Value(), ref.id);
          ConfigStays(s, t, k, versions[v].Value(), ref.id);
          assert t.Versions(k)[v].Present?;
        }
      }
    }
  }

  lemma RevisionKeepsOwn(s: State, t: State, k: Key, o: Object, id: string)
    requires OwnInv(s, k) && RemovalInv(s, k) && HorizonInv(s, k) && Revises(s, t, k, o, id)
    ensures OwnInv(t, k) && RemovalInv(t, k) && HorizonInv(t, k)
  {
    hide Revises, Finalizer, NewId;
    RevisionShape(s, t, k, o, id);
    assert t.Versions(k) == s.Versions(k);
    assert NewId(t, k) == NewId(s, k) by { SameNewId(s, t, k); }
    assert forall uid, i :: Committed(t, k, uid, i) <==> Committed(s, k, uid, i);
  }

  lemma SameNewId(s: State, t: State, k: Key)
    requires t.FlightOf(k) == s.FlightOf(k) && t.Versions(k) == s.Versions(k)
    ensures NewId(t, k) == NewId(s, k)
  {
  }

  lemma RevisionFrame(s: State, t: State, k: Key, o: Object, id: string)
    requires GlobalInv(s) && Revises(s, t, k, o, id) && OwnedBy(s, k, id)
    ensures Frame(s, t, k) && GlobalInv(t)
  {
    hide RecordMatches, ConfigMatches, HealthcheckMatches;
  }

  lemma RevisionKeeps(s: State, t: State, k: Key, id: string)
    requires Inv(s) && Active(s.FlightOf(k)) && !s.FlightOf(k).Reporting?
    requires s.Holds(k, s.FlightOf(k).Ver()) && FlightId(s.FlightOf(k)) in {"", id}
    requires Revises(s, t, k, s.Obj(k, s.FlightOf(k).Ver()), id)
    requires Ref(k.kind, id) in s.issued && s.issued[Ref(k.kind, id)] == Owner(k, s.Obj(k, s.FlightOf(k).Ver()).uid)
    ensures Inv(t)
  {
    hide Revises, HorizonInv, RemovalInv, OriginInv, FlightMatch, ReadyMatch, WakeInv, OwnInv, FlightInv, Shape, Frame;
    assert KeyInv(s, k);
    var o := s.Obj(k, s.FlightOf(k).Ver());
    RevisionShape(s, t, k, o, id);
    assert t.Versions(k) == s.Versions(k) && t.TrackOf(k) == s.TrackOf(k);
    RevisionKeepsReady(s, t, k, id);
    RevisionKeepsFlight(s, t, k, id);
    RevisionKeepsOrigin(s, t, k, id);
    RevisionKeepsOwn(s, t, k, o, id);
    RevisionFrame(s, t, k, o, id);
    OneKey(s, t, k);
  }

  /** A flight's ID belongs to its object, and so does the ID in the status it read. */
  lemma FlightOwns(s: State, k: Key)
    requires Inv(s) && Active(s.FlightOf(k)) && s.Holds(k, s.FlightOf(k).Ver())
    ensures var f := s.FlightOf(k);
            var o := s.Obj(k, f.Ver());
            && (FlightId(f) != "" ==>
                  Ref(k.kind, FlightId(f)) in s.issued && s.issued[Ref(k.kind, FlightId(f))] == Owner(k, o.uid))
            && (o.status.id != "" ==>
                  Ref(k.kind, o.status.id) in s.issued && s.issued[Ref(k.kind, o.status.id)] == Owner(k, o.uid))
            && (f.Configuring? || f.Probing? ==> Complete(o.spec, f.Got()) && ReadBy(s, k, o, f.Got()))
            && (f.Gathering? ==> ReadBy(s, k, o, f.Got()))
            && (f.Configuring? || f.Probing? || f.Refreshing? ==> k.kind == BackupKind && f.id != "")
            && FlightMatch(s, k) && o.spec.Kind() == k.kind
  {
    hide Shape, HorizonInv, RemovalInv, OriginInv, FlightMatch, ReadyMatch, WakeInv, NewId, Plan, Complete, Finalizer;
    assert KeyInv(s, k);
    assert s.Versions(k)[s.FlightOf(k).Ver()].Present?;
    assert GoodObject(k.kind, s.Obj(k, s.FlightOf(k).Ver())) by { TrackGood(s, k, s.FlightOf(k).Ver()); }
  }

  lemma TrackGood(s: State, k: Key, i: nat)
    requires TrackInv(s, k) && s.Holds(k, i)
    ensures GoodObject(k.kind, s.Obj(k, i)) && 0 < s.Obj(k, i).uid <= i
  {
    hide GoodObject;
  }

  ghost predicate Sending(s: State, k: Key, ver: nat, got: seq<string>) {
    s.FlightOf(k) == Gathering(ver, got) && s.Holds(k, ver) && Complete(s.Obj(k, ver).spec, got)
  }

  lemma SaveFails(s: State, k: Key, verdict: Verdict)
    requires Inv(s) && Active(s.FlightOf(k)) && !s.FlightOf(k).Reporting? && s.Holds(k, s.FlightOf(k).Ver())
    requires var f := s.FlightOf(k);
             verdict.id == if f.Gathering? then s.Obj(k, f.Ver()).status.id else f.id
    requires !verdict.ok && verdict.reason != UNSUPPORTED
    ensures Inv(s.Fly(k, Reporting(s.FlightOf(k).Ver(), verdict)))
  {
    hide Inv;
    ReportKeeps(s, k, verdict);
  }

  /** After a save under `id`: on to the backup config, or to the status. */
  lemma AfterSaveFlight(s: State, k: Key, ver: nat, got: seq<string>)
    requires Inv(s) && Sending(s, k, ver, got) && s.Obj(k, ver).status.id != ""
    requires RecordMatches(s, k, s.Obj(k, ver), s.Obj(k, ver).status.id)
    ensures Inv(s.Fly(k, AfterSave(k, ver, got, s.Obj(k, ver).status.id, s.Obj(k, ver))))
  {
    hide Shape, HorizonInv, RemovalInv, OriginInv, ReadyMatch, WakeInv, OwnInv, Inv, Plan, Complete,
         RecordMatches, ConfigMatches, HealthcheckMatches, Finalizer, Physical;
    var o := s.Obj(k, ver);
    var id := o.status.id;
    FlightOwns(s, k);
    if k.kind == BackupKind {
      var t := s.Fly(k, Configuring(ver, got, id));
      assert KeyInv(s, k) by { InvKey(s, k); }
      assert t.TrackOf(k) == s.TrackOf(k);
      RemoteStays(s, t, k, o, id);
      ReadingsStay(s, t, k, o, got);
      assert FlightInv(t, k);
      assert FlightMatch(t, k) by { assert t.Obj(k, ver) == o; }
      FlyMoves(s, k, Configuring(ver, got, id));
      assert WakeInv(t, k) by { NotResting(s, t, k); }
      MoveKeeps(s, t, k);
    } else {
      ReportKeeps(s, k, Success(k.kind, id, o.status.vitals));
    }
  }

  lemma InvKey(s: State, k: Key)
    requires Inv(s)
    ensures KeyInv(s, k) && GlobalInv(s)
  {
  }

  lemma NotResting(s: State, t: State, k: Key)
    requires KeyInv(s, k) && t.TrackOf(k) == s.TrackOf(k) && !t.FlightOf(k).Idle? && !t.FlightOf(k).Returning?
    ensures WakeInv(t, k)
  {
    hide Shape, HorizonInv, RemovalInv, OriginInv, FlightMatch, ReadyMatch, FlightInv, OwnInv, Finalizer;
  }

  lemma UpdateKeeps(s: State, k: Key, ver: nat, got: seq<string>, t: Turn)
    requires Inv(s) && Sending(s, k, ver, got) && s.Obj(k, ver).status.id != ""
    ensures Inv(UpdateRecord(s, k, ver, got, t))
  {
    hide Inv, Plan, Complete, Finalizer, RequestOf, Revises;
    var o := s.Obj(k, ver);
    var id := o.status.id;
    var ref := Ref(k.kind, id);
    var failure := Failure(o, SYNC_FAILED, t.message, id);
    if t.outcome == Failed || ref !in s.records {
      SaveFails(s, k, failure);
    } else {
      var u := s.(records := s.records[ref := RequestOf(s.workspace, o.spec, got).WithId(id)]);
      FlightOwns(s, k);
      ReadingsStay(s, u, k, o, got);
      assert RecordMatches(u, k, o, id);
      assert Revises(s, u, k, o, id) by { UpdateRevises(s, u, k, o, id, u.records[ref]); }
      RevisionKeeps(s, u, k, id);
      if t.outcome == Lost { SaveFails(u, k, failure); } else { AfterSaveFlight(u, k, ver, got); }
    }
  }

  lemma UpdateRevises(s: State, u: State, k: Key, o: Object, id: string, r: Request)
    requires u == s.(records := u.records) && Ref(k.kind, id) in s.records && RecordMatches(u, k, o, id)
    requires u.records == s.records[Ref(k.kind, id) := r]
    ensures Revises(s, u, k, o, id)
  {
    hide RecordMatches, ConfigMatches, HealthcheckMatches;
  }

  lemma ConfigureKeeps(s: State, k: Key, ver: nat, got: seq<string>, id: string, t: Turn)
    requires Inv(s) && s.FlightOf(k) == Configuring(ver, got, id) && s.Holds(k, ver)
    requires s.Obj(k, ver).spec.ForBackup? && |got| > 0
    ensures Inv(Configure(s, k, ver, got, id, t))
  {
    hide Inv, Complete, Finalizer, RequestOf, Revises, BackupConfigOf, PasswordPlan, SslPlan, WantsPhysicalBackups;
    var o := s.Obj(k, ver);
    var spec := o.spec.databaseBackup;
    var failure := Failure(o, CONFIG_FAILED, t.message, id);
    if t.outcome == Failed || Ref(BackupKind, id) !in s.records {
      SaveFails(s, k, failure);
    } else {
      var u := s.(backupConfigs := s.backupConfigs[id := BackupConfigOf(spec, id, got[0])]);
      FlightOwns(s, k);
      assert ConfigMatches(u, k, o, id) by {
        assert Plan(o.spec)[0] == Reference(StorageKind, spec.backup.storageRef);
        assert Read(Owner(k, o.uid), o.generation, 0, Plan(o.spec)[0], got[0]) in s.readings;
      }
      assert Revises(s, u, k, o, id) by { ConfigRevises(s, u, k, o, id, u.backupConfigs[id]); }
      RevisionKeeps(s, u, k, id);
      RevisionImproves(s, u, k, o, id);
      if t.outcome == Lost { SaveFails(u, k, failure); }
      else { ConfiguredFlight(u, k, ver, got, id); }
    }
  }

  lemma ConfigRevises(s: State, u: State, k: Key, o: Object, id: string, r: BackupConfigRequest)
    requires u == s.(backupConfigs := u.backupConfigs) && k.kind == BackupKind && Ref(k.kind, id) in s.records
    requires ConfigMatches(u, k, o, id)
    requires u.backupConfigs == s.backupConfigs[id := r]
    ensures Revises(s, u, k, o, id)
  {
    hide RecordMatches, ConfigMatches, HealthcheckMatches;
  }

  /** With the backup config stored, the healthcheck config is next if the spec has one. */
  lemma ConfiguredFlight(s: State, k: Key, ver: nat, got: seq<string>, id: string)
    requires Inv(s) && s.FlightOf(k) == Configuring(ver, got, id) && s.Holds(k, ver)
    requires s.Obj(k, ver).spec.ForBackup? && ConfigMatches(s, k, s.Obj(k, ver), id)
    ensures Inv(s.Fly(k, if s.Obj(k, ver).spec.databaseBackup.healthcheck.Some? then Probing(ver, got, id)
                         else Refreshing(ver, id)))
  {
    hide Shape, HorizonInv, RemovalInv, OriginInv, MatchInv, WakeInv, OwnInv, Inv, Plan, Complete, FlightInv, FlightMatch,
         RecordMatches, ConfigMatches, Finalizer, TrackInv, GlobalInv, Moves;
    var o := s.Obj(k, ver);
    var f := if o.spec.databaseBackup.healthcheck.Some? then Probing(ver, got, id) else Refreshing(ver, id);
    var t := s.Fly(k, f);
    InvKey(s, k);
    assert t.TrackOf(k) == s.TrackOf(k);
    ConfiguredFits(s, k, ver, got, id);
    ConfiguredMatches(s, k, ver, got, id);
    InvTrack(s, k);
    FlyMoves(s, k, f);
    NotResting(s, t, k);
    hide KeyInv;
    MoveKeeps(s, t, k);
  }

  lemma ConfiguredFits(s: State, k: Key, ver: nat, got: seq<string>, id: string)
    requires Inv(s) && s.FlightOf(k) == Configuring(ver, got, id) && s.Holds(k, ver)
    requires s.Obj(k, ver).spec.ForBackup? && ConfigMatches(s, k, s.Obj(k, ver), id)
    ensures var t := s.Fly(k, if s.Obj(k, ver).spec.databaseBackup.healthcheck.Some? then Probing(ver, got, id)
                              else Refreshing(ver, id));
            FlightInv(t, k)
  {
    hide Shape, HorizonInv, RemovalInv, OriginInv, ReadyMatch, WakeInv, OwnInv, Inv, Plan, Complete,
         RecordMatches, ConfigMatches, Finalizer, Physical, HealthcheckOf, FlightMatch;
    var o := s.Obj(k, ver);
    var f := if o.spec.databaseBackup.healthcheck.Some? then Probing(ver, got, id) else Refreshing(ver, id);
    var t := s.Fly(k, f);
    FlightOwns(s, k);
    InvKey(s, k);
    assert t.TrackOf(k) == s.TrackOf(k);
    ReadingsStay(s, t, k, o, got);
  }

  lemma ConfiguredMatches(s: State, k: Key, ver: nat, got: seq<string>, id: string)
    requires Inv(s) && s.FlightOf(k) == Configuring(ver, got, id) && s.Holds(k, ver)
    requires s.Obj(k, ver).spec.ForBackup? && ConfigMatches(s, k, s.Obj(k, ver), id)
    ensures var t := s.Fly(k, if s.Obj(k, ver).spec.databaseBackup.healthcheck.Some? then Probing(ver, got, id)
                              else Refreshing(ver, id));
            FlightMatch(t, k)
  {
    hide Shape, HorizonInv, RemovalInv, OriginInv, ReadyMatch, WakeInv, OwnInv, Inv, Plan, Complete,
         RecordMatches, ConfigMatches, Finalizer, Physical, HealthcheckOf, FlightInv;
    var o := s.Obj(k, ver);
    var f := if o.spec.databaseBackup.healthcheck.Some? then Probing(ver, got, id) else Refreshing(ver, id);
    var t := s.Fly(k, f);
    FlightOwns(s, k);
    InvKey(s, k);
    assert t.TrackOf(k) == s.TrackOf(k);
    RemoteStays(s, t, k, o, id);
    assert FlightMatch(t, k) by { assert t.Obj(k, ver) == o; }
  }

  lemma ProbeKeeps(s: State, k: Key, ver: nat, got: seq<string>, id: string, t: Turn)
    requires Inv(s) && s.FlightOf(k) == Probing(ver, got, id) && s.Holds(k, ver)
    requires s.Obj(k, ver).spec.ForBackup? && s.Obj(k, ver).spec.databaseBackup.healthcheck.Some?
    ensures Inv(Probe(s, k, ver, id, t))
  {
    hide Inv, Complete, Finalizer, RequestOf, Revises, HealthcheckOf, Plan;
    var o := s.Obj(k, ver);
    var failure := Failure(o, PROBE_FAILED, t.message, id);
    if t.outcome == Failed || Ref(BackupKind, id) !in s.records {
      SaveFails(s, k, failure);
    } else {
      var u := s.(healthchecks := s.healthchecks[id := HealthcheckOf(o.spec.databaseBackup.healthcheck.value, id)]);
      FlightOwns(s, k);
      assert Revises(s, u, k, o, id) by { ProbeRevises(s, u, k, o, id, u.healthchecks[id]); }
      RevisionKeeps(s, u, k, id);
      if t.outcome == Lost { SaveFails(u, k, failure); } else { ProbedFlight(u, k, ver, got, id); }
    }
  }

  lemma ProbeRevises(s: State, u: State, k: Key, o: Object, id: string, r: HealthcheckRequest)
    requires u == s.(healthchecks := u.healthchecks) && k.kind == BackupKind && Ref(k.kind, id) in s.records
    requires HealthcheckMatches(u, o, id)
    requires u.healthchecks == s.healthchecks[id := r]
    ensures Revises(s, u, k, o, id)
  {
    hide RecordMatches, ConfigMatches, HealthcheckMatches;
  }

  lemma ProbedFlight(s: State, k: Key, ver: nat, got: seq<string>, id: string)
    requires Inv(s) && s.FlightOf(k) == Probing(ver, got, id) && s.Holds(k, ver)
    requires s.Obj(k, ver).spec.ForBackup? && HealthcheckMatches(s, s.Obj(k, ver), id)
    ensures Inv(s.Fly(k, Refreshing(ver, id)))
  {
    hide Shape, HorizonInv, RemovalInv, OriginInv, ReadyMatch, WakeInv, OwnInv, Inv, Plan, Complete,
         RecordMatches, ConfigMatches, HealthcheckMatches, Finalizer, Physical;
    var o := s.Obj(k, ver);
    var t := s.Fly(k, Refreshing(ver, id));
    FlightOwns(s, k);
    InvKey(s, k);
    assert t.TrackOf(k) == s.TrackOf(k);
    RemoteStays(s, t, k, o, id);
    assert FlightInv(t, k);
    assert FlightMatch(t, k) by { assert t.Obj(k, ver) == o; }
    FlyMoves(s, k, Refreshing(ver, id));
    NotResting(s, t, k);
    MoveKeeps(s, t, k);
  }

  lemma RefreshKeeps(s: State, k: Key, ver: nat, id: string, t: Turn)
    requires Inv(s) && s.FlightOf(k) == Refreshing(ver, id) && s.Holds(k, ver)
    ensures Inv(Refresh(s, k, ver, id, t))
  {
    hide Inv, RecordMatches, ConfigMatches, HealthcheckMatches, Finalizer, Plan;
    FlightOwns(s, k);
    var o := s.Obj(k, ver);
    var vitals := o.status.vitals;
    var fetched := t.outcome == Done && Ref(BackupKind, id) in s.records;
    ReportKeeps(s, k, Success(k.kind, id, if fetched then Merge(vitals, s.ReportOf(id)) else vitals));
  }

  // ------------------------------------------------------------------ creates

  /** No version of `k` carries an ID that was never issued. */
  lemma NeverCommitted(s: State, k: Key, id: string)
    requires OwnInv(s, k) && id != "" && Ref(k.kind, id) !in s.issued
    ensures forall i :: 0 <= i < |s.Versions(k)| && s.Versions(k)[i].Present? ==> s.Versions(k)[i].Value().status.id != id
    ensures forall uid :: !Committed(s, k, uid, id)
  {
    hide NewId;
  }

  /** databasus created the record `r` under a fresh ID for object `o`; the flight goes on as `f`, or
      never learns the ID. */
  function Created(s: State, k: Key, o: Object, id: string, r: Request, unknown: bool, f: Flight): State {
    var ref := Ref(k.kind, id);
    s.(records := s.records[ref := r], issued := s.issued[ref := Owner(k, o.uid)],
       lost := if unknown then s.lost + {ref} else s.lost).Fly(k, f)
  }

  ghost predicate Creating(s: State, k: Key, id: string, r: Request, unknown: bool, f: Flight) {
    var g := s.FlightOf(k);
    && g.Gathering? && s.Holds(k, g.Ver()) && Unused(s, k.kind, id)
    && var o := s.Obj(k, g.Ver());
       && o.status.id == "" && Complete(o.spec, g.Got())
       && r == RequestOf(s.workspace, o.spec, g.Got()).WithId(id)
       && (if unknown then
             f.Reporting? && f.Ver() == g.Ver() && f.verdict.id == "" && !f.verdict.ok && f.verdict.reason != UNSUPPORTED
           else f == AfterSave(k, g.Ver(), g.Got(), id, o))
  }

  lemma CreatedFrame(s: State, k: Key, o: Object, id: string, r: Request, unknown: bool, f: Flight)
    requires GlobalInv(s) && Unused(s, k.kind, id)
    ensures Frame(s, Created(s, k, o, id, r, unknown, f), k) && GlobalInv(Created(s, k, o, id, r, unknown, f))
  {
  }

  lemma CreatedMatches(s: State, k: Key, id: string, r: Request, unknown: bool, f: Flight)
    requires Creating(s, k, id, r, unknown, f) && FlightInv(s, k)
    ensures var o := s.Obj(k, s.FlightOf(k).Ver());
            RecordMatches(Created(s, k, o, id, r, unknown, f), k, o, id)
  {
    hide Plan, Complete, RequestOf, AfterSave, Finalizer;
    var g := s.FlightOf(k);
    var o := s.Obj(k, g.Ver());
    assert ReadBy(s, k, o, g.Got());
    ReadingsStay(s, Created(s, k, o, id, r, unknown, f), k, o, g.Got());
  }

  lemma CreatedFlight(s: State, k: Key, id: string, r: Request, unknown: bool, f: Flight)
    requires Creating(s, k, id, r, unknown, f) && FlightInv(s, k) && TrackInv(s, k)
    ensures var u := Created(s, k, s.Obj(k, s.FlightOf(k).Ver()), id, r, unknown, f);
            && FlightInv(u, k) && FlightMatch(u, k) && WakeInv(u, k)
            && NewId(u, k) == (if unknown then "" else id) && Horizon(u, k) == Horizon(s, k)
            && u.TrackOf(k) == s.TrackOf(k)
  {
    hide Plan, Complete, RequestOf, RecordMatches, ConfigMatches, HealthcheckMatches, Finalizer, Physical, Shape;
    var g := s.FlightOf(k);
    var o := s.Obj(k, g.Ver());
    var u := Created(s, k, o, id, r, unknown, f);
    assert u.TrackOf(k) == s.TrackOf(k) && u.Obj(k, g.Ver()) == o;
    TrackGood(s, k, g.Ver());
    CreatedMatches(s, k, id, r, unknown, f);
    ReadingsStay(s, u, k, o, g.Got());
  }

  lemma CreatedOwn(s: State, k: Key, id: string, r: Request, unknown: bool, f: Flight)
    requires Creating(s, k, id, r, unknown, f) && FlightInv(s, k) && TrackInv(s, k) && OwnInv(s, k) && GlobalInv(s)
    ensures OwnInv(Created(s, k, s.Obj(k, s.FlightOf(k).Ver()), id, r, unknown, f), k)
  {
    hide FlightInv, Plan, Complete, RequestOf, Finalizer, Shape, FlightMatch, WakeInv, NewId, AfterSave, GoodObject, Horizon;
    var o := s.Obj(k, s.FlightOf(k).Ver());
    var u := Created(s, k, o, id, r, unknown, f);
    CreatedFlight(s, k, id, r, unknown, f);
    NeverCommitted(s, k, id);
    assert NewId(s, k) == "" by { GatheringIsNew(s, k); }
    assert u.Versions(k) == s.Versions(k);
    assert forall uid, i :: Committed(u, k, uid, i) <==> Committed(s, k, uid, i);
    TrackGood(s, k, s.FlightOf(k).Ver());
    hide Committed, TrackInv;
  }

  lemma GatheringIsNew(s: State, k: Key)
    requires s.FlightOf(k).Gathering? || s.FlightOf(k).Removing? || s.FlightOf(k).Detaching? || s.FlightOf(k).Attaching?
    ensures NewId(s, k) == ""
  {
  }

  lemma CreatedRest(s: State, k: Key, id: string, r: Request, unknown: bool, f: Flight)
    requires Creating(s, k, id, r, unknown, f) && FlightInv(s, k) && TrackInv(s, k) && OwnInv(s, k)
    requires HorizonInv(s, k) && RemovalInv(s, k)
    requires GlobalInv(s)
    ensures var u := Created(s, k, s.Obj(k, s.FlightOf(k).Ver()), id, r, unknown, f);
            HorizonInv(u, k) && RemovalInv(u, k)
  {
    hide FlightInv, Plan, Complete, RequestOf, Finalizer, Shape, FlightMatch, WakeInv, NewId, AfterSave, GoodObject,
         Committed, Horizon;
    var o := s.Obj(k, s.FlightOf(k).Ver());
    var u := Created(s, k, o, id, r, unknown, f);
    CreatedFlight(s, k, id, r, unknown, f);
    NeverCommitted(s, k, id);
    assert u.Versions(k) == s.Versions(k);
    assert forall uid :: DeletionSeen(u, k, uid) <==> DeletionSeen(s, k, uid);
  }

  /** What matched under another ID still matches after a create. */
  lemma CreatedElsewhere(s: State, k: Key, o: Object, id: string, r: Request, unknown: bool, f: Flight, b: Object, other: string)
    requires other != id
    ensures RecordMatches(s, k, b, other) ==> RecordMatches(Created(s, k, o, id, r, unknown, f), k, b, other)
    ensures ConfigMatches(s, k, b, other) ==>
              ConfigMatches(Created(s, k, o, id, r, unknown, f), k, b, other)
    ensures HealthcheckMatches(s, b, other) ==>
              HealthcheckMatches(Created(s, k, o, id, r, unknown, f), b, other)
  {
    hide RecordMatches, RequestOf, Complete, Plan, BackupConfigOf, HealthcheckOf;
    var u := Created(s, k, o, id, r, unknown, f);
    if RecordMatches(s, k, b, other) {
      assert Ref(k.kind, other) in s.records by { MatchedRecord(s, k, b, other); }
      RecordStays(s, u, k, b, other);
    }
  }

  lemma MatchedRecord(s: State, k: Key, o: Object, id: string)
    requires RecordMatches(s, k, o, id)
    ensures Ref(k.kind, id) in s.records
  {
    hide RequestOf, Complete, Plan;
  }

  lemma CreatedReady(s: State, k: Key, id: string, r: Request, unknown: bool, f: Flight)
    requires Creating(s, k, id, r, unknown, f) && TrackInv(s, k) && OwnInv(s, k) && ReadyMatch(s, k)
    ensures ReadyMatch(Created(s, k, s.Obj(k, s.FlightOf(k).Ver()), id, r, unknown, f), k)
  {
    hide Plan, Complete, RequestOf, RecordMatches, ConfigMatches, HealthcheckMatches, Finalizer, AfterSave, IsReady,
         OwnInv, Shape;
    var o := s.Obj(k, s.FlightOf(k).Ver());
    NeverCommitted(s, k, id);
    var last := Last(s.Versions(k));
    assert last == s.Versions(k)[|s.Versions(k)| - 1];
    assert Created(s, k, o, id, r, unknown, f).Versions(k) == s.Versions(k);
    if last.Present? {
      CreatedElsewhere(s, k, o, id, r, unknown, f, last.Value(), last.Value().status.id);
    }
    hide Created, Creating, Committed;
  }

  lemma CreatedOrigin(s: State, k: Key, id: string, r: Request, unknown: bool, f: Flight)
    requires Creating(s, k, id, r, unknown, f) && FlightInv(s, k) && OriginInv(s, k) && GlobalInv(s)
    ensures OriginInv(Created(s, k, s.Obj(k, s.FlightOf(k).Ver()), id, r, unknown, f), k)
  {
    hide Plan, Complete, RequestOf, RecordMatches, ConfigMatches, HealthcheckMatches, Finalizer, AfterSave, FlightInv;
    var ver := s.FlightOf(k).Ver();
    var o := s.Obj(k, ver);
    var u := Created(s, k, o, id, r, unknown, f);
    CreatedMatches(s, k, id, r, unknown, f);
    var versions := s.Versions(k);
    assert u.Versions(k) == versions;
    forall ref | ref in u.records && ref in u.issued && u.issued[ref].key == k
      ensures exists v :: 0 <= v < |u.Versions(k)| && u.Versions(k)[v].Present? &&
                          u.Versions(k)[v].Value().uid == u.issued[ref].uid &&
                            RecordMatches(u, k, u.Versions(k)[v].Value(), ref.id)
    {
      if ref == Ref(k.kind, id) {
        assert u.Versions(k)[ver].Present?;
      } else {
        var v :| 0 <= v < |versions| && versions[v].Present? && versions[v].Value().uid == s.issued[ref].uid &&
                 RecordMatches(s, k, versions[v].Value(), ref.id);
        CreatedElsewhere(s, k, o, id, r, unknown, f, versions[v].Value(), ref.id);
        assert u.Versions(k)[v].Present?;
      }
    }
    if k.kind == BackupKind {
      forall ref | ref in u.issued && u.issued[ref].key == k && ref.id in u.backupConfigs
        ensures exists v :: 0 <= v < |u.Versions(k)| && u.Versions(k)[v].Present? &&
                            u.Versions(k)[v].Value().uid == u.issued[ref].uid &&
                              ConfigMatches(u, k, u.Versions(k)[v].Value(), ref.id)
      {
        assert ref.id != id && ref in s.issued;
        var v :| 0 <= v < |versions| && versions[v].Present? &&
                 versions[v].Value().uid == s.issued[ref].uid && ConfigMatches(s, k, versions[v].Value(), ref.id);
        CreatedElsewhere(s, k, o, id, r, unknown, f, versions[v].Value(), ref.id);
        assert u.Versions(k)[v].Present?;
      }
    }
  }

  lemma CreatedKeeps(s: State, k: Key, id: string, r: Request, unknown: bool, f: Flight)
    requires Inv(s) && Creating(s, k, id, r, unknown, f)
    ensures Inv(Created(s, k, s.Obj(k, s.FlightOf(k).Ver()), id, r, unknown, f))
  {
    hide HorizonInv, RemovalInv, OriginInv, FlightMatch, ReadyMatch, WakeInv, OwnInv, FlightInv, Shape, Frame, GlobalInv,
         RequestOf, Complete, Plan, AfterSave;
    InvKey(s, k);
    var o := s.Obj(k, s.FlightOf(k).Ver());
    var u := Created(s, k, o, id, r, unknown, f);
    assert u.TrackOf(k) == s.TrackOf(k);
    CreatedFrame(s, k, o, id, r, unknown, f);
    CreatedFlight(s, k, id, r, unknown, f);
    CreatedOwn(s, k, id, r, unknown, f);
    CreatedRest(s, k, id, r, unknown, f);
    CreatedReady(s, k, id, r, unknown, f);
    CreatedOrigin(s, k, id, r, unknown, f);
    OneKey(s, u, k);
  }

  lemma CreateKeeps(s: State, k: Key, ver: nat, got: seq<string>, t: Turn)
    requires Inv(s) && Sending(s, k, ver, got) && s.Obj(k, ver).status.id == ""
    ensures Inv(CreateRecord(s, k, ver, got, t))
  {
    hide Inv, Plan, Complete, Finalizer, RequestOf, AfterSave;
    var o := s.Obj(k, ver);
    var failure := Failure(o, SYNC_FAILED, t.message, o.status.id);
    if t.outcome == Failed || !Unused(s, k.kind, t.newID) {
      SaveFails(s, k, failure);
    } else {
      var unknown := t.outcome == Lost;
      var f := if unknown then Reporting(ver, failure) else AfterSave(k, ver, got, t.newID, o);
      var r := RequestOf(s.workspace, o.spec, got).WithId(t.newID);
      CreatedKeeps(s, k, t.newID, r, unknown, f);
      assert CreateRecord(s, k, ver, got, t) == Created(s, k, o, t.newID, r, unknown, f);
    }
  }

  // ------------------------------------------------------------------ deletes

  function Removed(s: State, k: Key, id: string, f: Flight): State { Vanished(s, Ref(k.kind, id)).Fly(k, f) }

  ghost predicate Deleting(s: State, k: Key, f: Flight) {
    var g := s.FlightOf(k);
    && g.Removing? && s.Holds(k, g.Ver())
    && ((f.Detaching? && f.Ver() == g.Ver()) || (f.Returning? && f.Ver() == g.Ver() && f.result.Again()))
  }

  lemma RemovedFlight(s: State, k: Key, f: Flight)
    requires Deleting(s, k, f) && FlightInv(s, k)
    ensures var u := Removed(s, k, s.Obj(k, s.FlightOf(k).Ver()).status.id, f);
            && FlightInv(u, k) && FlightMatch(u, k) && WakeInv(u, k) && NewId(u, k) == NewId(s, k)
            && Horizon(u, k) == Horizon(s, k) && u.TrackOf(k) == s.TrackOf(k)
  {
    hide Plan, Complete, RequestOf, RecordMatches, ConfigMatches, HealthcheckMatches, Finalizer, Physical, Shape;
    var u := Removed(s, k, s.Obj(k, s.FlightOf(k).Ver()).status.id, f);
    assert u.TrackOf(k) == s.TrackOf(k);
  }

  lemma RemovedRest(s: State, k: Key, f: Flight)
    requires Deleting(s, k, f) && FlightInv(s, k) && OwnInv(s, k) && HorizonInv(s, k) && RemovalInv(s, k)
    ensures var u := Removed(s, k, s.Obj(k, s.FlightOf(k).Ver()).status.id, f);
            HorizonInv(u, k) && RemovalInv(u, k) && OwnInv(u, k)
  {
    hide Plan, Complete, RequestOf, Finalizer, Shape, FlightMatch, WakeInv, NewId;
    var g := s.FlightOf(k);
    var o := s.Obj(k, g.Ver());
    var u := Removed(s, k, o.status.id, f);
    RemovedFlight(s, k, f);
    assert u.Versions(k) == s.Versions(k);
    RemovedOwn(s, k, f);
    assert s.Versions(k)[g.Ver()].Present?;
    assert s.issued[Ref(k.kind, o.status.id)] == Owner(k, o.uid);
    hide OwnInv, Committed;
    forall uid | DeletionSeen(s, k, uid) ensures DeletionSeen(u, k, uid) {
    }
    assert DeletionSeen(u, k, o.uid);
  }

  lemma RemovedOwn(s: State, k: Key, f: Flight)
    requires Deleting(s, k, f) && FlightInv(s, k) && OwnInv(s, k)
    ensures OwnInv(Removed(s, k, s.Obj(k, s.FlightOf(k).Ver()).status.id, f), k)
  {
    RemovedFlight(s, k, f);
    hide Plan, Complete, RequestOf, Finalizer, FlightInv, FlightMatch, WakeInv, NewId, Horizon;
    var u := Removed(s, k, s.Obj(k, s.FlightOf(k).Ver()).status.id, f);
    assert u.Versions(k) == s.Versions(k);
    assert forall uid, i :: Committed(u, k, uid, i) <==> Committed(s, k, uid, i);
  }

  lemma RemovedElsewhere(s: State, k: Key, id: string, f: Flight, b: Object, other: string)
    requires other != id
    ensures RecordMatches(s, k, b, other) ==> RecordMatches(Removed(s, k, id, f), k, b, other)
    ensures ConfigMatches(s, k, b, other) ==> ConfigMatches(Removed(s, k, id, f), k, b, other)
    ensures HealthcheckMatches(s, b, other) ==> HealthcheckMatches(Removed(s, k, id, f), b, other)
  {
    hide RecordMatches, RequestOf, Complete, Plan, BackupConfigOf, HealthcheckOf;
    if RecordMatches(s, k, b, other) {
      MatchedRecord(s, k, b, other);
      RecordStays(s, Removed(s, k, id, f), k, b, other);
    }
  }

  lemma RemovedReady(s: State, k: Key, f: Flight)
    requires Deleting(s, k, f) && FlightInv(s, k) && TrackInv(s, k) && OwnInv(s, k) && ReadyMatch(s, k)
    ensures ReadyMatch(Removed(s, k, s.Obj(k, s.FlightOf(k).Ver()).status.id, f), k)
  {
    hide Plan, Complete, RequestOf, RecordMatches, ConfigMatches, HealthcheckMatches, Finalizer, IsReady, NewId, Committed;
    var g := s.FlightOf(k);
    var o := s.Obj(k, g.Ver());
    var versions := s.Versions(k);
    var n := |versions| - 1;
    assert versions[g.Ver()].Present?;
    if versions[n].Present? && ReadyAtItsGeneration(versions[n].Value()) {
      var last := versions[n].Value();
      var same := SameObject(versions[g.Ver()], versions[n]);
      RemovedElsewhere(s, k, o.status.id, f, last, last.status.id);
    }
  }

  lemma RemovedOrigin(s: State, k: Key, id: string, f: Flight)
    requires OriginInv(s, k)
    requires forall ref :: ref in s.issued ==> ref.kind == s.issued[ref].key.kind
    ensures OriginInv(Removed(s, k, id, f), k)
  {
    hide RecordMatches, ConfigMatches, HealthcheckMatches;
    var u := Removed(s, k, id, f);
    var versions := s.Versions(k);
    assert u.Versions(k) == versions;
    forall ref | ref in u.records && ref in u.issued && u.issued[ref].key == k
      ensures exists v :: 0 <= v < |u.Versions(k)| && u.Versions(k)[v].Present? &&
                          u.Versions(k)[v].Value().uid == u.issued[ref].uid &&
                            RecordMatches(u, k, u.Versions(k)[v].Value(), ref.id)
    {
      var v :| 0 <= v < |versions| && versions[v].Present? && versions[v].Value().uid == s.issued[ref].uid &&
               RecordMatches(s, k, versions[v].Value(), ref.id);
      RemovedElsewhere(s, k, id, f, versions[v].Value(), ref.id);
      assert u.Versions(k)[v].Present?;
    }
    if k.kind == BackupKind {
      forall ref | ref in u.issued && u.issued[ref].key == k && ref.id in u.backupConfigs
        ensures exists v :: 0 <= v < |u.Versions(k)| && u.Versions(k)[v].Present? &&
                            u.Versions(k)[v].Value().uid == u.issued[ref].uid &&
                              ConfigMatches(u, k, u.Versions(k)[v].Value(), ref.id)
      {
        var v :| 0 <= v < |versions| && versions[v].Present? &&
                 versions[v].Value().uid == s.issued[ref].uid && ConfigMatches(s, k, versions[v].Value(), ref.id);
        RemovedElsewhere(s, k, id, f, versions[v].Value(), ref.id);
        assert u.Versions(k)[v].Present?;
      }
    }
  }

  lemma RemovedFrame(s: State, k: Key, id: string, f: Flight)
    requires GlobalInv(s) && OwnedBy(s, k, id)
    ensures Frame(s, Removed(s, k, id, f), k) && GlobalInv(Removed(s, k, id, f))
  {
  }

  lemma RemovedKeeps(s: State, k: Key, f: Flight)
    requires Inv(s) && Deleting(s, k, f)
    ensures Inv(Removed(s, k, s.Obj(k, s.FlightOf(k).Ver()).status.id, f))
  {
    hide HorizonInv, RemovalInv, OriginInv, FlightMatch, ReadyMatch, WakeInv, Shape, Frame, NewId, Committed, Finalizer;
    InvKey(s, k);
    var ver := s.FlightOf(k).Ver();
    var id := s.Obj(k, ver).status.id;
    assert s.Versions(k)[ver].Present?;
    RemovedFlight(s, k, f);
    RemovedRest(s, k, f);
    RemovedReady(s, k, f);
    RemovedOrigin(s, k, id, f);
    RemovedFrame(s, k, id, f);
    OneKey(s, Removed(s, k, id, f), k);
  }

  lemma ReturnFlight(s: State, k: Key, ver: nat, result: Result)
    requires Inv(s) && !s.FlightOf(k).Idle? && s.FlightOf(k).Ver() == ver && NewId(s, k) == "" && result.Again()
    ensures Inv(s.Fly(k, Returning(ver, result)))
  {
    hide HorizonInv, RemovalInv, OriginInv, OwnInv, ReadyMatch, Shape, Finalizer, WorkInv;
    InvKey(s, k);
    var t := s.Fly(k, Returning(ver, result));
    assert t.TrackOf(k) == s.TrackOf(k);
    FlyMoves(s, k, Returning(ver, result));
    MoveKeeps(s, t, k);
  }

  lemma RemoveKeeps(s: State, k: Key, ver: nat, t: Turn)
    requires Inv(s) && s.FlightOf(k) == Removing(ver) && s.Holds(k, ver)
    ensures Inv(Remove(s, k, ver, t))
  {
    hide Inv;
    GatheringIsNew(s, k);
    match t.outcome
    case Done => RemovedKeeps(s, k, Detaching(ver));
    case Failed => ReturnFlight(s, k, ver, Result(10, false));
    case Lost => RemovedKeeps(s, k, Returning(ver, Result(10, false)));
  }

  // --------------------------------------------------- writes of the operator

  /** The flight ends its writing with a result; the key is not left sleeping by mistake. */
  lemma WrittenFlight(s: State, k: Key, v: Version, result: Result)
    requires TrackInv(s, k) && FlightInv(s, k) && !s.FlightOf(k).Idle?
    ensures var t := s.Push(k, v).Fly(k, Returning(s.FlightOf(k).Ver(), result));
            && FlightInv(t, k) && FlightMatch(t, k) && WakeInv(t, k) && NewId(t, k) == ""
            && Horizon(t, k) == Horizon(s, k) && t.Versions(k) == s.Versions(k) + [v]
  {
    hide Shape, WorkInv, Settled;
  }

  lemma WrittenKeeps(s: State, k: Key, v: Version, result: Result)
    requires Inv(s) && !s.FlightOf(k).Idle?
    requires var t := s.Push(k, v).Fly(k, Returning(s.FlightOf(k).Ver(), result));
             TrackInv(t, k) && HorizonInv(t, k) && OwnInv(t, k) && RemovalInv(t, k) && ReadyMatch(t, k) && OriginInv(t, k)
    ensures Inv(s.Push(k, v).Fly(k, Returning(s.FlightOf(k).Ver(), result)))
  {
    hide TrackInv, HorizonInv, RemovalInv, OriginInv, FlightMatch, ReadyMatch, WakeInv, FlightInv, OwnInv, Frame, GlobalInv;
    InvKey(s, k);
    var t := s.Push(k, v).Fly(k, Returning(s.FlightOf(k).Ver(), result));
    WrittenFlight(s, k, v, result);
    assert Frame(s, t, k) && GlobalInv(t) by { WriteFrame(s, k, v, Returning(s.FlightOf(k).Ver(), result)); }
    OneKey(s, t, k);
  }

  lemma WriteFrame(s: State, k: Key, v: Version, f: Flight)
    requires GlobalInv(s)
    ensures Frame(s, s.Push(k, v).Fly(k, f), k) && GlobalInv(s.Push(k, v).Fly(k, f))
  {
  }

  /** A write of the finalizers, of a flight that holds no new ID. */
  lemma FinalizerWriteKeeps(s: State, k: Key, v: Version, result: Result)
    requires Inv(s) && !s.FlightOf(k).Idle? && NewId(s, k) == ""
    requires |s.Versions(k)| > 0 && StatusKept(k.kind, s.Versions(k), v) && RemovalInv(s.Push(k, v), k)
    ensures Inv(s.Push(k, v).Fly(k, Returning(s.FlightOf(k).Ver(), result)))
  {
    hide TrackInv, HorizonInv, RemovalInv, OriginInv, FlightMatch, ReadyMatch, WakeInv, OwnInv, WorkInv, StatusKept;
    InvKey(s, k);
    var u := s.Push(k, v);
    var t := u.Fly(k, Returning(s.FlightOf(k).Ver(), result));
    StatusKeptKeepsHistory(s, k, v);
    StatusKeptKeepsOwn(s, k, v);
    StatusKeptKeepsReady(s, k, v);
    assert Undisturbed(u, t, k) by {
      assert t.Versions(k) == u.Versions(k) == s.Versions(k) + [v];
      assert NewId(u, k) == "" by { PushNewId(s, k, v); }
    }
    UndisturbedKeeps(u, t, k);
    WrittenKeeps(s, k, v, result);
  }

  lemma DetachRemoval(s: State, k: Key, v: Version)
    requires TrackInv(s, k) && FlightInv(s, k) && RemovalInv(s, k) && OwnInv(s, k)
    requires s.FlightOf(k).Detaching? && s.FlightOf(k).Ver() + 1 == |s.Versions(k)|
    requires StatusKept(k.kind, s.Versions(k), v)
    ensures RemovalInv(s.Push(k, v), k)
  {
    hide Plan, Complete, RequestOf, Finalizer, NewId, Committed, GoodObject;
    var u := s.Push(k, v);
    var versions, n := s.Versions(k), |s.Versions(k)|;
    var o := versions[n - 1].Value();
    assert u.Versions(k) == versions + [v] && Last(u.Versions(k)) == v && Last(versions) == versions[n - 1];
    forall uid | DeletionSeen(s, k, uid) ensures DeletionSeen(u, k, uid) {
      var i :| 0 <= i <= Horizon(s, k) && i < n && versions[i].Present? && versions[i].Value().uid == uid &&
        versions[i].Value().deleting;
      assert u.Versions(k)[i].Value().uid == uid;
    }
    assert u.Versions(k)[n - 1].Value().uid == o.uid;
    assert DeletionSeen(u, k, o.uid);
    forall i | 0 <= i <= n && u.Versions(k)[i].Present?
      ensures Attached(k.kind, u.Versions(k)[i].Value()) && Released(k.kind, u.Versions(k)[i].Value(), v) ==>
                DeletionSeen(u, k, u.Versions(k)[i].Value().uid)
      ensures u.Versions(k)[i].Value().status.id != "" && Released(k.kind, u.Versions(k)[i].Value(), v) ==>
                Ref(k.kind, u.Versions(k)[i].Value().status.id) !in s.records
    {
      var m := if i == n then n - 1 else i;
      var a := versions[m].Value();
      assert SameObject(versions[m], versions[n - 1]) || Released(k.kind, a, Last(versions));
    }
  }

  lemma AttachRemoval(s: State, k: Key, v: Version)
    requires TrackInv(s, k) && RemovalInv(s, k)
    requires v.Present? && Attached(k.kind, v.Value()) && Last(s.Versions(k)).Present? &&
      v.Value().uid == Last(s.Versions(k)).Value().uid
    ensures RemovalInv(s.Push(k, v), k)
  {
    hide Finalizer, GoodObject;
    var u := s.Push(k, v);
    var versions, n := s.Versions(k), |s.Versions(k)|;
    assert u.Versions(k) == versions + [v] && Last(u.Versions(k)) == v;
    forall uid | DeletionSeen(s, k, uid) ensures DeletionSeen(u, k, uid) {
      var i :| 0 <= i <= Horizon(s, k) && i < n && versions[i].Present? && versions[i].Value().uid == uid &&
        versions[i].Value().deleting;
      assert u.Versions(k)[i].Value().uid == uid;
    }
    forall i | 0 <= i <= n && u.Versions(k)[i].Present? && Released(k.kind, u.Versions(k)[i].Value(), v)
      ensures i < n && Released(k.kind, versions[i].Value(), Last(versions))
    {
    }
  }

  lemma DetachKeeps(s: State, k: Key, ver: nat, t: Turn)
    requires Inv(s) && s.FlightOf(k) == Detaching(ver) && s.Holds(k, ver)
    ensures var o := s.Obj(k, ver);
            Inv(WriteObject(s, k, ver, o.(finalizers := RemoveFinalizer(o.finalizers, Finalizer(k.kind))), t))
  {
    hide HorizonInv, RemovalInv, OriginInv, FlightMatch, ReadyMatch, WakeInv, OwnInv, Shape, NewId, Finalizer;
    InvKey(s, k);
    GatheringIsNew(s, k);
    var o := s.Obj(k, ver);
    var w := o.(finalizers := RemoveFinalizer(o.finalizers, Finalizer(k.kind)));
    var result := Result(0, !(Accepted(s, k, ver, t) && t.outcome == Done));
    if Accepted(s, k, ver, t) {
      assert Attached(k.kind, o);
      TrackGood(s, k, ver);
      assert StatusKept(k.kind, s.Versions(k), Stored(w));
      DetachRemoval(s, k, Stored(w));
      FinalizerWriteKeeps(s, k, Stored(w), result);
    } else {
      ReturnFlight(s, k, ver, result);
    }
  }

  lemma AttachKeeps(s: State, k: Key, ver: nat, t: Turn)
    requires Inv(s) && s.FlightOf(k) == Attaching(ver) && s.Holds(k, ver)
    ensures var o := s.Obj(k, ver);
            Inv(WriteObject(s, k, ver, o.(finalizers := AddFinalizer(o.finalizers, Finalizer(k.kind))), t))
  {
    hide HorizonInv, RemovalInv, OriginInv, FlightMatch, ReadyMatch, WakeInv, OwnInv, Shape, NewId, Finalizer;
    InvKey(s, k);
    GatheringIsNew(s, k);
    var o := s.Obj(k, ver);
    var w := o.(finalizers := AddFinalizer(o.finalizers, Finalizer(k.kind)));
    var result := Result(0, !(Accepted(s, k, ver, t) && t.outcome == Done));
    if Accepted(s, k, ver, t) {
      assert !Attached(k.kind, o);
      TrackGood(s, k, ver);
      assert StatusKept(k.kind, s.Versions(k), Present(w));
      AttachRemoval(s, k, Present(w));
      FinalizerWriteKeeps(s, k, Present(w), result);
    } else {
      ReturnFlight(s, k, ver, result);
    }
  }

  // ------------------------------------------------------------ status writes

  /** The new status is a good one, and a later one than the status that was read. */
  lemma GoodStatusOf(kind: Kind, o: Object, verdict: Verdict, now: int)
    requires GoodObject(kind, o) && !o.deleting && Attached(kind, o)
    requires o.status.id != "" ==> verdict.id == o.status.id
    requires verdict.ok ==> verdict.id != "" && verdict.reason == SYNCED
    ensures var w := o.(status := StatusOf(o, verdict, now));
            && GoodObject(kind, w) && Later(kind, o, w)
            && IsReady(w.status.conditions) == verdict.ok
  {
    hide Finalizer;
    var c := ReadyCondition(if verdict.ok then True else False, o.generation, now, verdict.reason, verdict.message);
    var conditions := o.status.conditions;
    SetStatusConditionLaws(conditions, c, now);
    if conditions != [] {
      assert conditions == [conditions[0]] && conditions[0] in conditions;
      assert IndexOf(conditions, "Ready") == 0;
    }
  }

  ghost predicate Writing(s: State, k: Key, ver: nat, verdict: Verdict) {
    && s.FlightOf(k) == Reporting(ver, verdict) && s.Holds(k, ver)
    && TrackInv(s, k) && FlightInv(s, k)
  }

  lemma StatusHistory(s: State, k: Key, ver: nat, verdict: Verdict, now: int)
    requires Writing(s, k, ver, verdict) && HorizonInv(s, k) && ver + 1 == |s.Versions(k)|
    ensures var o := s.Obj(k, ver);
            var v := Present(o.(status := StatusOf(o, verdict, now)));
            && TrackInv(s.Push(k, v), k) && HorizonInv(s.Push(k, v), k) && GoodObject(k.kind, v.Value())
            && IsReady(v.Value().status.conditions) == verdict.ok
  {
    hide Shape, Finalizer, StatusOf, IsReady, GoodObject;
    var o := s.Obj(k, ver);
    var v := Present(o.(status := StatusOf(o, verdict, now)));
    TrackGood(s, k, ver);
    GoodStatusOf(k.kind, o, verdict, now);
    Append(k.kind, s.Versions(k), v);
    var u := s.Push(k, v);
    assert u.Versions(k) == s.Versions(k) + [v];
    GoodLimits(k.kind, v.Value());
    forall j | 0 <= j <= ver + 1 && u.Versions(k)[j].Present? && u.Versions(k)[j].Value().status.observedGeneration > 0
      ensures && u.Versions(k)[j].Value().uid <= ver
              && (SameObject(u.Versions(k)[ver], u.Versions(k)[j]) ==>
                    u.Versions(k)[j].Value().status.observedGeneration <= u.Versions(k)[ver].Value().generation)
    {
    }
  }

  lemma GoodLimits(kind: Kind, o: Object)
    requires GoodObject(kind, o)
    ensures o.status.observedGeneration <= o.generation
  {
  }

  lemma StatusOwn(s: State, k: Key, ver: nat, verdict: Verdict, now: int, result: Result)
    requires Writing(s, k, ver, verdict) && OwnInv(s, k) && ver + 1 == |s.Versions(k)|
    ensures var o := s.Obj(k, ver);
            var v := Present(o.(status := StatusOf(o, verdict, now)));
            OwnInv(s.Push(k, v).Fly(k, Returning(ver, result)), k)
  {
    hide Shape, Finalizer, SetStatusCondition, GoodObject;
    var o := s.Obj(k, ver);
    var v := Present(o.(status := StatusOf(o, verdict, now)));
    var u := s.Push(k, v).Fly(k, Returning(ver, result));
    var versions := s.Versions(k);
    assert u.Versions(k) == versions + [v];
    assert versions[ver] == Present(o);
    forall uid, id | id != ""
      ensures Committed(u, k, uid, id) <==> (Committed(s, k, uid, id) || (uid == o.uid && id == verdict.id))
    {
      if Committed(s, k, uid, id) {
        var i :| 0 <= i <= ver && versions[i].Present? && versions[i].Value().uid == uid && versions[i].Value().status.id == id;
        assert u.Versions(k)[i].Value().uid == uid;
      }
      if uid == o.uid && id == verdict.id { assert u.Versions(k)[ver + 1].Value().uid == uid; }
      if Committed(u, k, uid, id) {
        var i :| 0 <= i <= ver + 1 && u.Versions(k)[i].Present? && u.Versions(k)[i].Value().uid == uid &&
                 u.Versions(k)[i].Value().status.id == id;
        assert i <= ver ==> versions[i].Value().uid == uid;
      }
    }
    assert NewId(u, k) == "";
    assert NewId(s, k) == if o.status.id == "" then verdict.id else "";
  }

  lemma StatusReady(s: State, k: Key, ver: nat, verdict: Verdict, now: int, result: Result)
    requires Writing(s, k, ver, verdict) && ver + 1 == |s.Versions(k)| && FlightMatch(s, k) && OriginInv(s, k)
    ensures var o := s.Obj(k, ver);
            var v := Present(o.(status := StatusOf(o, verdict, now)));
            var u := s.Push(k, v).Fly(k, Returning(ver, result));
            ReadyMatch(u, k) && OriginInv(u, k)
  {
    hide Shape, FlightInv, RecordMatches, ConfigMatches, HealthcheckMatches, Finalizer, StatusOf, IsReady, GoodObject;
    var o := s.Obj(k, ver);
    var v := Present(o.(status := StatusOf(o, verdict, now)));
    var u := s.Push(k, v).Fly(k, Returning(ver, result));
    var versions := s.Versions(k);
    assert u.Versions(k) == versions + [v] && Last(u.Versions(k)) == v;
    forall b, id { RemoteStays(s, u, k, b, id); }
    assert v.Value().status.id == verdict.id by { StatusIds(o, verdict, now); }
    if ReadyAtItsGeneration(v.Value()) {
      assert verdict.ok by { StatusTells(s, k, ver, verdict, now); }
      SameMatch(u, k, o, v.Value(), verdict.id);
    }
    assert forall i :: 0 <= i <= ver ==> u.Versions(k)[i] == versions[i];
  }

  lemma StatusIds(o: Object, verdict: Verdict, now: int)
    ensures StatusOf(o, verdict, now).id == verdict.id
  {
  }

  lemma StatusTells(s: State, k: Key, ver: nat, verdict: Verdict, now: int)
    requires Writing(s, k, ver, verdict)
    ensures IsReady(StatusOf(s.Obj(k, ver), verdict, now).conditions) == verdict.ok
  {
    hide Shape, Finalizer, StatusOf, IsReady, GoodObject;
    TrackGood(s, k, ver);
    GoodStatusOf(k.kind, s.Obj(k, ver), verdict, now);
  }

  lemma StatusPushKeeps(s: State, k: Key, ver: nat, verdict: Verdict, now: int, result: Result)
    requires Inv(s) && s.FlightOf(k) == Reporting(ver, verdict) && s.Holds(k, ver) && ver + 1 == |s.Versions(k)|
    ensures var o := s.Obj(k, ver);
            var v := Present(o.(status := StatusOf(o, verdict, now)));
            Inv(s.Push(k, v).Fly(k, Returning(ver, result)))
  {
    hide HorizonInv, RemovalInv, OriginInv, FlightMatch, ReadyMatch, WakeInv, OwnInv, Shape, StatusOf, NewId, Finalizer,
         GoodObject, IsReady;
    InvKey(s, k);
    var o := s.Obj(k, ver);
    var v := Present(o.(status := StatusOf(o, verdict, now)));
    var u := s.Push(k, v);
    var t := u.Fly(k, Returning(ver, result));
    StatusHistory(s, k, ver, verdict, now);
    StatusOwn(s, k, ver, verdict, now, result);
    StatusReady(s, k, ver, verdict, now, result);
    AttachRemoval(s, k, v);
    assert t.TrackOf(k) == u.TrackOf(k) && t.Versions(k) == u.Versions(k);
    SameHorizon(s, u, t, k);
    WrittenKeeps(s, k, v, result);
  }

  /** Horizon and removals do not depend on what kind of flight holds a version. */
  lemma SameHorizon(s: State, u: State, t: State, k: Key)
    requires HorizonInv(u, k) && RemovalInv(u, k)
    requires t.tracks == u.tracks && t.issued == u.issued && t.records == u.records
    requires Horizon(t, k) == Horizon(u, k)
    ensures HorizonInv(t, k) && RemovalInv(t, k)
  {
    hide Horizon, Finalizer;
    assert t.Versions(k) == u.Versions(k);
    assert forall uid :: DeletionSeen(u, k, uid) <==> DeletionSeen(t, k, uid);
  }

  // ------------------------------------------- flights that end, with or without a trace

  ghost predicate MayRest(s: State, k: Key) {
    && |s.Versions(k)| > 0
    && (k in s.queued || s.TrackOf(k).seen < |s.Versions(k)| - 1 || Settled(k.kind, Last(s.Versions(k))))
  }

  /** The flight is over as far as the protocol goes: it only returns, or is gone. */
  ghost predicate Ends(s: State, k: Key, f: Flight) {
    var g := s.FlightOf(k);
    && !g.Idle?
    && ((f.Idle? && MayRest(s, k)) || (f.Returning? && f.Ver() == g.Ver() && (f.result.Again() || MayRest(s, k))))
  }

  lemma EndedFlight(s: State, k: Key, f: Flight)
    requires FlightInv(s, k) && HorizonInv(s, k) && Ends(s, k, f)
    ensures var u := Abandon(s, k).Fly(k, f);
            && FlightInv(u, k) && FlightMatch(u, k) && WakeInv(u, k) && NewId(u, k) == ""
            && Horizon(s, k) <= Horizon(u, k) < |s.Versions(k)| && u.TrackOf(k) == s.TrackOf(k)
  {
    hide Settled, Finalizer, WorkInv, RecordMatches, ConfigMatches, HealthcheckMatches;
    var left := Abandon(s, k);
    var u := left.Fly(k, f);
    assert left == s.(lost := left.lost);
    hide Abandon;
    assert u.TrackOf(k) == s.TrackOf(k) && u.FlightOf(k) == f;
  }

  lemma EndedOwn(s: State, k: Key, f: Flight)
    requires FlightInv(s, k) && HorizonInv(s, k) && Ends(s, k, f) && OwnInv(s, k)
    ensures OwnInv(Abandon(s, k).Fly(k, f), k)
  {
    hide Settled, Finalizer, WorkInv, FlightInv, FlightMatch, WakeInv, NewId, Ends;
    var u := Abandon(s, k).Fly(k, f);
    EndedFlight(s, k, f);
    assert u.Versions(k) == s.Versions(k);
    assert forall uid, i :: Committed(u, k, uid, i) <==> Committed(s, k, uid, i);
  }

  lemma EndedRest(s: State, k: Key, f: Flight)
    requires FlightInv(s, k) && Ends(s, k, f) && TrackInv(s, k) && HorizonInv(s, k) && RemovalInv(s, k)
    ensures var u := Abandon(s, k).Fly(k, f); HorizonInv(u, k) && RemovalInv(u, k)
  {
    hide Settled, Finalizer, FlightInv, FlightMatch, WakeInv, NewId, Ends, Shape, Horizon;
    var u := Abandon(s, k).Fly(k, f);
    EndedFlight(s, k, f);
    HorizonGrows(s, u, k);
    assert forall uid :: DeletionSeen(s, k, uid) ==> DeletionSeen(u, k, uid);
  }

  lemma EndedMatch(s: State, k: Key, f: Flight)
    requires ReadyMatch(s, k) && OriginInv(s, k)
    ensures ReadyMatch(Abandon(s, k).Fly(k, f), k) && OriginInv(Abandon(s, k).Fly(k, f), k)
  {
    hide ReadyMatch, OriginInv, Abandon;
    AbandonIs(s, k, f);
    SameRemoteKeeps(s, Abandon(s, k).Fly(k, f), k);
  }

  lemma AbandonIs(s: State, k: Key, f: Flight)
    ensures var u := Abandon(s, k).Fly(k, f);
            && u.workspace == s.workspace && u.records == s.records && u.backupConfigs == s.backupConfigs
            && u.healthchecks == s.healthchecks && u.issued == s.issued && u.readings == s.readings
            && u.tracks == s.tracks
  {
    if NewId(s, k) == "" {
      assert Abandon(s, k) == s;
    }
  }

  lemma NewIdOwned(s: State, k: Key)
    requires FlightInv(s, k) && NewId(s, k) != ""
    ensures Ref(k.kind, NewId(s, k)) in s.issued && s.issued[Ref(k.kind, NewId(s, k))].key == k
  {
    hide Plan, Complete, Finalizer, Physical;
    assert Active(s.FlightOf(k)) && FlightId(s.FlightOf(k)) == NewId(s, k);
  }

  lemma LosingFrame(s: State, k: Key, ref: Ref, f: Flight)
    requires GlobalInv(s) && ref in s.issued && s.issued[ref].key == k
    ensures var u := s.(lost := s.lost + {ref}).Fly(k, f); Frame(s, u, k) && GlobalInv(u)
  {
  }

  lemma EndedFrame(s: State, k: Key, f: Flight)
    requires GlobalInv(s) && FlightInv(s, k)
    ensures Frame(s, Abandon(s, k).Fly(k, f), k) && GlobalInv(Abandon(s, k).Fly(k, f))
  {
    if NewId(s, k) == "" {
      hide FlightInv, NewId;
    } else {
      NewIdOwned(s, k);
      hide Frame, GlobalInv, FlightInv, NewId;
      LosingFrame(s, k, Ref(k.kind, NewId(s, k)), f);
    }
  }

  lemma EndKeeps(s: State, k: Key, f: Flight)
    requires Inv(s) && Ends(s, k, f)
    ensures Inv(Abandon(s, k).Fly(k, f))
  {
    hide HorizonInv, RemovalInv, OriginInv, FlightMatch, ReadyMatch, WakeInv, OwnInv, Shape, NewId, FlightInv, Ends,
         Frame, GlobalInv, Abandon;
    InvKey(s, k);
    EndedFlight(s, k, f);
    EndedOwn(s, k, f);
    EndedRest(s, k, f);
    EndedMatch(s, k, f);
    EndedFrame(s, k, f);
    OneKey(s, Abandon(s, k).Fly(k, f), k);
  }

  lemma CrashKeeps(s: State, k: Key)
    requires Inv(s) && !s.FlightOf(k).Idle?
    ensures Inv(Abandon(s, k).Fly(k, Idle).Enqueue(k))
  {
    hide Inv, Abandon, Settled;
    InvTrack(s, k);
    var q := s.Enqueue(k);
    EnqueuedKeeps(s, k, s.TrackOf(k).seen);
    EndKeeps(q, k, Idle);
    assert Abandon(q, k).Fly(k, Idle) == Abandon(s, k).Fly(k, Idle).Enqueue(k) by { AbandonEnqueued(s, k); }
  }

  lemma AbandonEnqueued(s: State, k: Key)
    ensures Abandon(s.Enqueue(k), k) == Abandon(s, k).Enqueue(k)
  {
    assert NewId(s.Enqueue(k), k) == NewId(s, k);
  }

  lemma InvTrack(s: State, k: Key)
    requires Inv(s)
    ensures s.TrackOf(k).seen < |s.Versions(k)|
  {
    hide HorizonInv, RemovalInv, OriginInv, FlightMatch, ReadyMatch, WakeInv, OwnInv, Shape, FlightInv, GlobalInv;
    assert KeyInv(s, k);
  }

  lemma ReturnKeeps(s: State, k: Key, ver: nat, result: Result)
    requires Inv(s) && s.FlightOf(k) == Returning(ver, result)
    ensures Inv(if result.Again() then s.Fly(k, Idle).Enqueue(k) else s.Fly(k, Idle))
  {
    hide HorizonInv, RemovalInv, OriginInv, FlightMatch, ReadyMatch, OwnInv, FlightInv, GlobalInv, Shape, Settled;
    assert Abandon(s, k) == s && Abandon(s.Enqueue(k), k) == s.Enqueue(k);
    InvTrack(s, k);
    if result.Again() {
      EnqueuedKeeps(s, k, s.TrackOf(k).seen);
      EndKeeps(s.Enqueue(k), k, Idle);
    } else {
      InvKey(s, k);
      EndKeeps(s, k, Idle);
    }
  }

  /** A verdict that does not ask for a retry leaves nothing to do. */
  lemma VerdictRests(s: State, k: Key, ver: nat, verdict: Verdict, accepted: bool)
    requires Writing(s, k, ver, verdict) && !ResultOf(k.kind, verdict, accepted).Again()
    requires accepted ==> ver + 1 == |s.Versions(k)| &&
                          exists now :: StatusOf(s.Obj(k, ver), verdict, now) == s.Obj(k, ver).status
    requires verdict.ok ==> verdict.reason == SYNCED
    ensures MayRest(s, k)
  {
    hide Shape, Finalizer, IsReady, GoodObject, Physical, StatusOf;
    var o := s.Obj(k, ver);
    var versions := s.Versions(k);
    if s.TrackOf(k).seen == |versions| - 1 && k !in s.queued {
      assert ver == |versions| - 1 && Last(versions) == Present(o);
      if verdict.ok {
        var now :| StatusOf(o, verdict, now) == o.status;
        StatusTells(s, k, ver, verdict, now);
        StatusGeneration(o, verdict, now);
      }
    }
  }

  lemma StatusGeneration(o: Object, verdict: Verdict, now: int)
    ensures verdict.ok ==> StatusOf(o, verdict, now).observedGeneration == o.generation
  {
  }

  lemma WriteStatusKeeps(s: State, k: Key, ver: nat, verdict: Verdict, t: Turn)
    requires Inv(s) && s.FlightOf(k) == Reporting(ver, verdict) && s.Holds(k, ver)
    ensures Inv(WriteStatus(s, k, ver, verdict, t))
  {
    hide HorizonInv, RemovalInv, OriginInv, FlightMatch, ReadyMatch, WakeInv, OwnInv, Shape, StatusOf, NewId, Finalizer,
         GoodObject, IsReady, GlobalInv, MayRest, Abandon, ResultOf, Physical;
    InvKey(s, k);
    var o := s.Obj(k, ver);
    var status := StatusOf(o, verdict, t.now);
    var accepted := Accepted(s, k, ver, t);
    var result := ResultOf(k.kind, verdict, accepted && t.outcome == Done);
    if accepted && status != o.status {
      StatusPushKeeps(s, k, ver, verdict, t.now, result);
    } else {
      if !result.Again() {
        VerdictRests(s, k, ver, verdict, accepted && t.outcome == Done);
      }
      EndKeeps(s, k, Returning(ver, result));
      if accepted {
        assert Abandon(s, k) == s by { UnchangedIsOld(s, k, ver, verdict, t.now); }
      }
    }
  }

  lemma UnchangedIsOld(s: State, k: Key, ver: nat, verdict: Verdict, now: int)
    requires s.FlightOf(k) == Reporting(ver, verdict) && s.Holds(k, ver)
    requires StatusOf(s.Obj(k, ver), verdict, now) == s.Obj(k, ver).status
    ensures Abandon(s, k) == s
  {
  }

  // ------------------------------------------------------------- all together

  /** The flight's next call lacks what it needs. */
  predicate Blocked(s: State, k: Key) {
    var f := s.FlightOf(k);
    !f.Idle? && !f.Returning? &&
    var o := s.Obj(k, f.Ver());
    || !s.Holds(k, f.Ver())
    || (f.Gathering? && |f.Got()| >= |Plan(o.spec)| && !Complete(o.spec, f.Got()))
    || (f.Configuring? && (!o.spec.ForBackup? || f.Got() == []))
    || (f.Probing? && (!o.spec.ForBackup? || o.spec.databaseBackup.healthcheck.None?))
  }

  lemma BlockedStays(s: State, k: Key, t: Turn)
    requires Blocked(s, k)
    ensures WorkOn(s, k, t) == s
  {
    hide Fetch, Complete, Plan, RequestOf, Finalizer, AddFinalizer, RemoveFinalizer;
  }

  lemma WorkKeeps(s: State, k: Key, t: Turn)
    requires Inv(s)
    ensures Inv(WorkOn(s, k, t))
  {
    if Blocked(s, k) {
      hide Inv, Blocked, WorkOn;
      BlockedStays(s, k, t);
    } else {
      hide Inv, Fetch, Remove, WriteObject, Gather, CreateRecord, UpdateRecord, Configure, Probe, Refresh, WriteStatus,
           Complete, Plan, Finalizer;
      match s.FlightOf(k)
      case Idle => if k in s.queued { FetchKeeps(s, k, t); }
      case Removing(ver) => RemoveKeeps(s, k, ver, t);
      case Detaching(ver) => DetachKeeps(s, k, ver, t);
      case Attaching(ver) => AttachKeeps(s, k, ver, t);
      case Gathering(ver, got) =>
        if |got| < |Plan(s.Obj(k, ver).spec)| { GatherKeeps(s, k, ver, got, t); }
        else if s.Obj(k, ver).status.id == "" { CreateKeeps(s, k, ver, got, t); }
        else { UpdateKeeps(s, k, ver, got, t); }
      case Configuring(ver, got, id) => ConfigureKeeps(s, k, ver, got, id, t);
      case Probing(ver, got, id) => ProbeKeeps(s, k, ver, got, id, t);
      case Refreshing(ver, id) => RefreshKeeps(s, k, ver, id, t);
      case Reporting(ver, verdict) => WriteStatusKeeps(s, k, ver, verdict, t);
      case Returning(ver, result) => ReturnKeeps(s, k, ver, result);
    }
  }

  /** Secrets and databasus's own reports do not matter to the invariant. */
  lemma OutsideKeeps(s: State, t: State)
    requires Inv(s) && t == s.(secrets := t.secrets, reports := t.reports)
    ensures Inv(t)
  {
    hide KeyInv, GlobalInv;
    assert GlobalInv(t) by { OutsideGlobal(s, t); }
    forall j ensures KeyInv(t, j) {
      var k := Key(j.kind, j.namespace, j.name + "x");
      assert |k.name| != |j.name|;
      OthersKeepInv(s, t, k, j);
    }
  }

  lemma OutsideGlobal(s: State, t: State)
    requires GlobalInv(s) && t == s.(secrets := t.secrets, reports := t.reports)
    ensures GlobalInv(t)
  {
  }

  /** No event breaks the invariant. */
  lemma EventKeeps(s: State, e: Event)
    requires Inv(s)
    ensures Inv(Apply(s, e))
  {
    hide Inv, WorkOn, Abandon;
    match e
    case UserCreate(_, _, _) => UserKeeps(s, e);
    case UserEdit(_, _) => UserKeeps(s, e);
    case UserTouch(_, _) => UserKeeps(s, e);
    case UserDelete(_) => UserKeeps(s, e);
    case SetSecret(_, _) => OutsideKeeps(s, Apply(s, e));
    case DropSecret(_) => OutsideKeeps(s, Apply(s, e));
    case SetReport(_, _) => OutsideKeeps(s, Apply(s, e));
    case Observe(k, upTo) => if s.TrackOf(k).seen < upTo < |s.Versions(k)| { EnqueuedKeeps(s, k, upTo); }
    case Wake(k) => InvTrack(s, k); EnqueuedKeeps(s, k, s.TrackOf(k).seen);
    case Crash(k) => if !s.FlightOf(k).Idle? { CrashKeeps(s, k); }
    case Work(k, t) => WorkKeeps(s, k, t);
  }

  lemma InitialInv(workspace: string)
    ensures Inv(Empty(workspace))
  {
    hide KeyInv;
    forall k ensures KeyInv(Empty(workspace), k) { InitialKey(workspace, k); }
  }

  lemma InitialKey(workspace: string, k: Key)
    ensures KeyInv(Empty(workspace), k)
  {
    var s := Empty(workspace);
    assert s.Versions(k) == [Absent] && s.FlightOf(k) == Idle;
  }

  /** Every reachable state satisfies the invariant: any events, in any order. */
  lemma {:induction false} RunKeeps(s: State, events: seq<Event>)
    requires Inv(s)
    ensures Inv(Run(s, events))
  {
    hide Inv, Apply;
    if events != [] {
      RunKeeps(s, events[..|events| - 1]);
      EventKeeps(Run(s, events[..|events| - 1]), events[|events| - 1]);
    }
  }

  lemma Reachable(workspace: string, events: seq<Event>)
    ensures Inv(Run(Empty(workspace), events))
  {
    hide Inv, Run;
    InitialInv(workspace);
    RunKeeps(Empty(workspace), events);
  }
}
