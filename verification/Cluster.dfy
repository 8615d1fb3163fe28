/** The world a reconciler calls into: the API server with its cache, and databasus.

A `Cluster` holds a state of the protocol. Every call first lets anything else happen (users, other
keys' workers, secrets, the watch), then performs the next step of the caller's worker with an outcome
nobody controls, and returns what the caller gets to see of it. A call may only be made where the
protocol expects exactly this call with exactly these arguments, so a reconciler that verifies
against this class takes the steps of the protocol, whatever the interleaving.

`ctx` is the key whose worker calls. Texts of errors are arbitrary.
*/
module Clusters {
  import opened Resources
  import opened Conditions
  import opened Builders
  import opened Client
  import opened Protocol
  import opened Invariants
  import opened Inductive
  import opened Safety
  import opened Accounting
  import opened Locality
  import opened Calls

  /** An event that is not the doing of this worker. */
  predicate Foreign(e: Event, ctx: Key) { (e.Work? || e.Crash?) ==> e.key != ctx }

  ghost predicate Extends(before: seq<Event>, after: seq<Event>, ctx: Key) {
    before <= after && forall i :: |before| <= i < |after| ==> after[i] != Crash(ctx)
  }

  /** All keys of one secret. */
  function SecretData(s: State, namespace: string, name: string): map<string, string> {
    map id | id in s.secrets && id.namespace == namespace && id.name == name :: id.key := s.secrets[id]
  }

  lemma SecretLookup(s: State, namespace: string, ref: SecretKeyRef)
    ensures var data := SecretData(s, namespace, ref.name);
            Lookup(s, namespace, Value(ref)) == if ref.key in data then Some(data[ref.key]) else None
  {
    var data := SecretData(s, namespace, ref.name);
    var id := SecretOf(namespace, ref);
    if id in s.secrets { assert data[id.key] == s.secrets[id]; }
    if ref.key in data { assert id in s.secrets; }
  }

  lemma StaysQueued(s: State, e: Event, ctx: Key)
    requires Foreign(e, ctx) && ctx in s.queued && Inv(s)
    ensures ctx in Apply(s, e).queued
  {
    hide Inv, WorkOn, Abandon, Apply;
    if IsUserEvent(e) { UserEffect(s, e); }
    else if e.Crash? {
      CrashLocal(s, e.key);
      LocalMeans(s, Apply(s, e), e.key, ctx);
    } else if e.Work? {
      WorkApplies(s, e.key, e.turn);
      InvTrack(s, e.key);
      WorkLocal(s, e.key, e.turn);
      LocalMeans(s, Apply(s, e), e.key, ctx);
    } else {
      OutsideQueues(s, e, ctx);
    }
  }

  lemma OutsideQueues(s: State, e: Event, ctx: Key)
    requires !IsUserEvent(e) && !e.Crash? && !e.Work? && ctx in s.queued
    ensures ctx in Apply(s, e).queued
  {
    hide WorkOn, Abandon, Finalizer, Stored;
  }

  lemma ReadLands(s: State, k: Key, need: Need, t: Turn)
    requires var f := s.FlightOf(k);
             f.Gathering? && s.Holds(k, f.ver) && |f.got| < |Plan(s.Obj(k, f.ver).spec)| &&
               Plan(s.Obj(k, f.ver).spec)[|f.got|] == need
    ensures var f := s.FlightOf(k);
            var u := WorkOn(s, k, t).FlightOf(k);
            && u == AfterRead(s.Obj(k, f.ver), f.ver, f.got, if t.outcome == Done then Lookup(s, k.namespace, need) else None, t.message)
            && !u.Idle? && u.Ver() == f.ver
    ensures WorkOn(s, k, t).secrets == s.secrets && WorkOn(s, k, t).tracks == s.tracks
  {
    Lands(s, k, t);
    hide WorkOn, Plan, Lookup, Local;
    Footprints(s, k, t);
  }

  lemma RunExtends(s: State, trace: seq<Event>, e: Event)
    ensures Run(s, trace + [e]) == Apply(Run(s, trace), e)
  {
    hide Apply;
    assert (trace + [e])[..|trace|] == trace;
  }

  class Cluster {
    const workspace: string
    var state: State
    ghost var trace: seq<Event>

    /** The state is the result of a run from the empty cluster. */
    ghost predicate Valid()
      reads this
    {
      state == Run(Empty(workspace), trace)
    }

    /** So everything proved of reachable states holds of this one. */
    lemma Sound()
      requires Valid()
      ensures Inv(state) && state.workspace == workspace
    {
      hide Run, Inv;
      Reachable(workspace, trace);
      WorkspaceFixed(Empty(workspace), trace);
    }

    /** The worker of `ctx` works on `o` and is at `f`. */
    ghost predicate At(ctx: Key, o: Object, f: Flight)
      reads this
    {
      !f.Idle? && state.FlightOf(ctx) == f && state.Holds(ctx, f.Ver()) && state.Obj(ctx, f.Ver()) == o
    }

    /** The worker of `ctx` is about to return this to the work queue. */
    ghost predicate Returns(ctx: Key, result: Result)
      reads this
    {
      state.FlightOf(ctx).Returning? && state.FlightOf(ctx).result == result
    }

    constructor (workspace: string)
      ensures Valid() && this.workspace == workspace && trace == []
    {
      this.workspace := workspace;
      state := Empty(workspace);
      trace := [];
    }

    // ------------------------------------------------------------ everybody else

    /** Any number of foreign events. */
    method Interfere(ctx: Key)
      requires Valid()
      modifies this
      ensures Valid() && Extends(old(trace), trace, ctx)
      ensures state.FlightOf(ctx) == old(state.FlightOf(ctx)) && old(state.Versions(ctx)) <= state.Versions(ctx)
      ensures ctx in old(state.queued) ==> ctx in state.queued
    {
      hide Run, Apply, Inv, Untouched;
      var n: int := *;
      while n > 0
        invariant Valid() && Extends(old(trace), trace, ctx)
        invariant state.FlightOf(ctx) == old(state.FlightOf(ctx)) && old(state.Versions(ctx)) <= state.Versions(ctx)
        invariant ctx in old(state.queued) ==> ctx in state.queued
      {
        n := n - 1;
        var e: Event := *;
        if Foreign(e, ctx) {
          ghost var before := state;
          Reachable(workspace, trace);
          EventUntouched(before, e, ctx);
          UntouchedFlight(before, Apply(before, e), ctx);
          VersionsGrow(before, e, ctx);
          if ctx in before.queued { StaysQueued(before, e, ctx); }
          RunExtends(Empty(workspace), trace, e);
          state := Apply(state, e);
          trace := trace + [e];
        }
      }
    }

    /** The next step of the caller's worker. */
    method Take(ctx: Key, t: Turn)
      requires Valid()
      modifies this
      ensures Valid() && state == WorkOn(old(state), ctx, t) && trace == old(trace) + [Work(ctx, t)]
      ensures old(state.Versions(ctx)) <= state.Versions(ctx)
    {
      hide Run, WorkOn;
      WorkGrows(state, ctx, t);
      WorkApplies(state, ctx, t);
      RunExtends(Empty(workspace), trace, Work(ctx, t));
      state := WorkOn(state, ctx, t);
      trace := trace + [Work(ctx, t)];
    }

    // ------------------------------------------------------------ the API server

    /** Get of the key's own object: an error, or not found, or the object that the cache shows. */
    method Get(ctx: Key) returns (err: bool, obj: Option<Object>)
      requires Valid() && state.FlightOf(ctx).Idle? && ctx in state.queued
      modifies this
      ensures Valid() && Extends(old(trace), trace, ctx)
      ensures err ==> Returns(ctx, Result(0, true))
      ensures !err && obj.None? ==> Returns(ctx, Result(0, false))
      ensures !err && obj.Some? ==>
                obj.value.spec.Kind() == ctx.kind && !state.FlightOf(ctx).Idle? &&
                At(ctx, obj.value, Branch(ctx.kind, obj.value, state.FlightOf(ctx).Ver()))
    {
      hide Run, WorkOn, Inv, Branch;
      Interfere(ctx);
      Reachable(workspace, trace);
      InvTrack(state, ctx);
      var t: Turn := *;
      var seen := state.TrackOf(ctx).seen;
      err := t.outcome != Done;
      obj := if state.Holds(ctx, seen) then Some(state.Obj(ctx, seen)) else None;
      if obj.Some? {
        GetsKind(state, ctx, seen);
        BranchFlies(ctx.kind, state, ctx, seen);
      }
      Lands(state, ctx, t);
      ghost var before := state;
      Take(ctx, t);
      assert obj.Some? ==> state.Versions(ctx)[seen] == before.Versions(ctx)[seen];
    }

    /** Update of the object's metadata. */
    method Update(ctx: Key, obj: Object) returns (err: bool)
      requires Valid() && (state.FlightOf(ctx).Attaching? || state.FlightOf(ctx).Detaching?)
      requires var f := state.FlightOf(ctx);
               && state.Holds(ctx, f.Ver())
               && var o := state.Obj(ctx, f.Ver());
                  obj == o.(finalizers := if f.Attaching? then AddFinalizer(o.finalizers, Finalizer(ctx.kind))
                                          else RemoveFinalizer(o.finalizers, Finalizer(ctx.kind)))
      modifies this
      ensures Valid() && Extends(old(trace), trace, ctx) && Returns(ctx, Result(0, err))
    {
      hide Run, WorkOn, Finalizer;
      Interfere(ctx);
      var t: Turn := *;
      var ver := state.FlightOf(ctx).Ver();
      err := !(Accepted(state, ctx, ver, t) && t.outcome == Done);
      Lands(state, ctx, t);
      Take(ctx, t);
    }

    /** Update of the status, with what the clock showed when the Ready condition was set. */
    method UpdateStatus(ctx: Key, status: Status, now: int) returns (err: bool)
      requires Valid() && state.FlightOf(ctx).Reporting? && state.Holds(ctx, state.FlightOf(ctx).Ver())
      requires status == StatusOf(state.Obj(ctx, state.FlightOf(ctx).Ver()), state.FlightOf(ctx).verdict, now)
      modifies this
      ensures Valid() && Extends(old(trace), trace, ctx)
      ensures Returns(ctx, ResultOf(ctx.kind, old(state.FlightOf(ctx).verdict), !err))
      ensures !err ==> Last(state.Versions(ctx)) == Present(old(state.Obj(ctx, state.FlightOf(ctx).Ver())).(status := status))
    {
      hide Run, WorkOn, StatusOf, ResultOf;
      Interfere(ctx);
      var t: Turn := *;
      t := t.(now := now);
      var ver := state.FlightOf(ctx).Ver();
      err := !(Accepted(state, ctx, ver, t) && t.outcome == Done);
      Lands(state, ctx, t);
      StatusCommits(state, ctx, t);
      Take(ctx, t);
    }

    // ----------------------------------------------------------------- reads

    /** Get of a Secret: an error, or its data. The text is that of whatever error comes of the read. */
    method GetSecret(ctx: Key, namespace: string, ref: SecretKeyRef)
      returns (err: bool, data: map<string, string>, text: string)
      requires Valid() && Reads(ctx, Value(ref)) && namespace == ctx.namespace
      modifies this
      ensures Valid() && Extends(old(trace), trace, ctx)
      ensures At(ctx, old(Worked(ctx)),
                 AfterRead(old(Worked(ctx)), old(state.FlightOf(ctx).Ver()), old(state.FlightOf(ctx).Got()),
                           if !err && ref.key in data then Some(data[ref.key]) else None, text))
      ensures forall key :: !err && key in data ==>
                var id := SecretId(namespace, ref.name, key); id in state.secrets && state.secrets[id] == data[key]
    {
      hide Run, WorkOn, Plan, AfterRead;
      Interfere(ctx);
      var t: Turn := *;
      data := SecretData(state, namespace, ref.name);
      SecretLookup(state, namespace, ref);
      assert forall key :: key in data ==>
          SecretId(namespace, ref.name, key) in state.secrets && state.secrets[SecretId(namespace, ref.name, key)] == data[key];
      hide SecretData, Lookup;
      var missing: bool := *;
      err, text := t.outcome != Done || (data == map[] && missing), t.message;
      ReadLands(state, ctx, Value(ref), t);
      Take(ctx, t);
    }

    /** Get of a Storage or Notifier that a DatabaseBackup refers to. */
    method GetReferenced(ctx: Key, kind: Kind, namespace: string, name: string)
      returns (err: bool, obj: Object, text: string)
      requires Valid() && Reads(ctx, Reference(kind, name)) && namespace == ctx.namespace
      modifies this
      ensures Valid() && Extends(old(trace), trace, ctx)
      ensures At(ctx, old(Worked(ctx)),
                 AfterRead(old(Worked(ctx)), old(state.FlightOf(ctx).Ver()), old(state.FlightOf(ctx).Got()),
                           if !err && obj.status.id != "" && IsReady(obj.status.conditions) then Some(obj.status.id) else None,
                           text))
      ensures var k := Key(kind, namespace, name);
              !err ==> state.Holds(k, state.TrackOf(k).seen) && obj == state.Obj(k, state.TrackOf(k).seen)
    {
      hide Run, WorkOn, Plan, AfterRead;
      Interfere(ctx);
      var t: Turn := *;
      var k := Key(kind, namespace, name);
      var seen := state.TrackOf(k).seen;
      err, text := t.outcome != Done || !state.Holds(k, seen), t.message;
      if !err { obj := state.Obj(k, seen); } else { obj := *; }
      ReadLands(state, ctx, Reference(kind, name), t);
      Take(ctx, t);
    }

    /** Not a call: the place where the code refuses a spec by itself. */
    method Refuse(ctx: Key, reason: string) returns (text: string)
      requires Valid() && Reads(ctx, Reject(reason))
      modifies this
      ensures Valid() && Extends(old(trace), trace, ctx)
      ensures At(ctx, old(Worked(ctx)),
                 AfterRead(old(Worked(ctx)), old(state.FlightOf(ctx).Ver()), old(state.FlightOf(ctx).Got()), None, text))
    {
      hide Run, WorkOn, Plan;
      Interfere(ctx);
      var t: Turn := *;
      text := t.message;
      Lands(state, ctx, t);
      Take(ctx, t);
    }

    // ----------------------------------------------------------- databasus

    /** Delete of the record that the status names. databasus tells the truth about the record, in its own
        words (`Truthful`), and success or error is what the client makes of them. */
    method DeleteRecord(ctx: Key, id: string) returns (reply: Reply, ghost x: Deletion, ghost present: bool)
      requires Valid() && state.FlightOf(ctx).Removing? && state.Holds(ctx, state.FlightOf(ctx).Ver())
      requires id == Worked(ctx).status.id
      modifies this
      ensures Valid() && Extends(old(trace), trace, ctx)
      ensures x.reply == reply && Truthful(present, x)
      ensures if x.reached && reply.Answer? then
                At(ctx, old(Worked(ctx)), Detaching(old(state.FlightOf(ctx).Ver()))) && Ref(ctx.kind, id) !in state.records
              else Returns(ctx, Result(10, false))
    {
      hide Run, WorkOn, IsNotFound, SaysMissing;
      Interfere(ctx);
      var there := Ref(ctx.kind, id) in state.records;
      reply := *;
      var reached: bool := *;
      if reply.Answer? {
        NotFoundIff(reply.status, reply.body);
        var missing := IsNotFound(reply.status, reply.body);
        var honest := if !reached then reply.status !in {200, 204} && !missing
                      else if there then reply.status in {200, 204}
                      else missing;
        if !honest { reply := NoAnswer(""); }
      }
      x, present := Deletion(reached, reply), there;
      AnsweredSucceeds(present, x);
      hide Truthful, DeleteSucceeds;
      var t: Turn := *;
      t := t.(outcome := OutcomeOf(Deletion(reached, reply)));
      Lands(state, ctx, t);
      if t.outcome == Done { DeletionTakes(state, ctx, t); }
      Take(ctx, t);
    }

    /** Create or update of the record. databasus tells whether it saved it (`TruthfulSave`), creates under fresh
        IDs, echoes the ID on update, and updates existing records only. */
    method PostRecord(ctx: Key, req: Request) returns (reply: Reply, ghost x: Saving)
      requires Valid() && Sends(ctx, req)
      modifies this
      ensures Valid() && Extends(old(trace), trace, ctx) && x.reply == reply
      ensures TruthfulSave(if ctx.kind == BackupKind && req.Id() == "" then {200, 201} else {200}, x)
      ensures var o := old(Worked(ctx));
              var ok := x.saved && reply.Answer?;
              && (ok ==> Stored(ctx, req, reply.body.id) && (req.Id() != "" ==> reply.body.id == req.Id()))
              && At(ctx, o, AfterRecord(ctx, o, old(state.FlightOf(ctx).Ver()), old(state.FlightOf(ctx).Got()),
                                        if ok then Some(reply.body.id) else None, ErrorText(reply)))
    {
      hide Run, WorkOn, RequestOf, Complete, Plan, Unused, AfterRecord;
      Interfere(ctx);
      var t: Turn := *;
      reply := *;
      var o := state.Obj(ctx, state.FlightOf(ctx).Ver());
      var creating := o.status.id == "";
      var possible := if creating then Unused(state, ctx.kind, t.newID) else Ref(ctx.kind, o.status.id) in state.records;
      var saved := t.outcome != Failed && possible;
      var id := if creating then t.newID else o.status.id;
      var codes := if ctx.kind == BackupKind && creating then {200, 201} else {200};
      if !TruthfulSave(codes, Saving(saved, reply)) || (saved && reply.Answer? && reply.body.id != id) {
        reply := NoAnswer("");
      }
      x := Saving(saved, reply);
      t := t.(outcome := OutcomeOfSave(Saving(saved, reply)), message := ErrorText(reply));
      PostLands(state, ctx, t, saved, id);
      Sound();
      Resent(state, ctx, id);
      Take(ctx, t);
    }

    /** databasus holds this request under this ID. */
    ghost predicate Stored(ctx: Key, req: Request, id: string)
      reads this
    {
      id != "" && Ref(ctx.kind, id) in state.records && state.records[Ref(ctx.kind, id)] == req.WithId(id)
    }

    /** Save of the backup config. */
    method PostBackupConfig(ctx: Key, req: BackupConfigRequest) returns (reply: Reply, ghost x: Saving)
      requires Valid() && state.FlightOf(ctx).Configuring? && state.Holds(ctx, state.FlightOf(ctx).Ver())
      requires Worked(ctx).spec.ForBackup? && |state.FlightOf(ctx).Got()| > 0
      requires req == BackupConfigOf(Worked(ctx).spec.databaseBackup, state.FlightOf(ctx).id, state.FlightOf(ctx).Got()[0])
      modifies this
      ensures Valid() && Extends(old(trace), trace, ctx) && x.reply == reply && TruthfulSave({200}, x)
      ensures var f := old(state.FlightOf(ctx));
              && (x.saved ==> f.id in state.backupConfigs && state.backupConfigs[f.id] == req)
              && At(ctx, old(Worked(ctx)),
                    AfterConfig(old(Worked(ctx)), f.Ver(), f.Got(), f.id, x.saved && reply.Answer?, ErrorText(reply)))
    {
      hide Run, WorkOn, BackupConfigOf, AfterConfig;
      Interfere(ctx);
      var t: Turn := *;
      reply := *;
      var saved := t.outcome != Failed && Ref(BackupKind, state.FlightOf(ctx).id) in state.records;
      if !TruthfulSave({200}, Saving(saved, reply)) { reply := NoAnswer(""); }
      x := Saving(saved, reply);
      t := t.(outcome := OutcomeOfSave(Saving(saved, reply)), message := ErrorText(reply));
      ConfigLands(state, ctx, t, saved);
      Take(ctx, t);
    }

    /** Save of the healthcheck config. */
    method PostHealthcheckConfig(ctx: Key, req: HealthcheckRequest) returns (reply: Reply, ghost x: Saving)
      requires Valid() && state.FlightOf(ctx).Probing? && state.Holds(ctx, state.FlightOf(ctx).Ver())
      requires Worked(ctx).spec.ForBackup? && Worked(ctx).spec.databaseBackup.healthcheck.Some?
      requires req == HealthcheckOf(Worked(ctx).spec.databaseBackup.healthcheck.value, state.FlightOf(ctx).id)
      modifies this
      ensures Valid() && Extends(old(trace), trace, ctx) && x.reply == reply && TruthfulSave({200}, x)
      ensures var f := old(state.FlightOf(ctx));
              && (x.saved ==> f.id in state.healthchecks && state.healthchecks[f.id] == req)
              && At(ctx, old(Worked(ctx)),
                    AfterCheck(old(Worked(ctx)), f.Ver(), f.id, x.saved && reply.Answer?, ErrorText(reply)))
    {
      hide Run, WorkOn, HealthcheckOf, AfterCheck;
      Interfere(ctx);
      var t: Turn := *;
      reply := *;
      var saved := t.outcome != Failed && Ref(BackupKind, state.FlightOf(ctx).id) in state.records;
      if !TruthfulSave({200}, Saving(saved, reply)) { reply := NoAnswer(""); }
      x := Saving(saved, reply);
      t := t.(outcome := OutcomeOfSave(Saving(saved, reply)), message := ErrorText(reply));
      CheckLands(state, ctx, t, saved);
      Take(ctx, t);
    }

    /** Get of the database: databasus tells the truth about it (`TruthfulGet`). */
    method FetchDatabase(ctx: Key, id: string) returns (reply: Reply, ghost x: Reading, ghost present: bool, ghost report: Report)
      requires Valid() && state.FlightOf(ctx).Refreshing? && state.Holds(ctx, state.FlightOf(ctx).Ver())
      requires id == state.FlightOf(ctx).id
      modifies this
      ensures Valid() && Extends(old(trace), trace, ctx) && x.reply == reply && TruthfulGet(present, report, x)
      ensures (present <==> Ref(BackupKind, id) in state.records) && report == state.ReportOf(id)
      ensures At(ctx, old(Worked(ctx)),
                 AfterRefresh(ctx, old(Worked(ctx)), old(state.FlightOf(ctx).Ver()), id,
                              if x.reached && present && reply.Answer? then Some(report) else None))
    {
      hide Run, WorkOn, IsNotFound, SaysMissing, AfterRefresh;
      Interfere(ctx);
      var t: Turn := *;
      reply := *;
      var there, told := Ref(BackupKind, id) in state.records, state.ReportOf(id);
      var reached: bool := *;
      if reply.Answer? {
        NotFoundIff(reply.status, reply.body);
        var missing := IsNotFound(reply.status, reply.body);
        var honest := if !reached then (reply.status != 200 || reply.body.Garbled?) && !missing
                      else if there then reply.status == 200 && reply.body.Json? && reply.body.report == told
                      else missing;
        if !honest { reply := NoAnswer(""); }
      }
      x, present, report := Reading(reached, reply), there, told;
      t := t.(outcome := if reached && there && reply.Answer? then Done else Failed);
      RefreshLands(state, ctx, t);
      Take(ctx, t);
    }

    lemma Resent(s: State, ctx: Key, id: string)
      requires Saves(s, ctx)
      ensures var o := s.Obj(ctx, s.FlightOf(ctx).Ver());
              var r := RequestOf(workspace, o.spec, s.FlightOf(ctx).Got());
              r.WithId(o.status.id).WithId(id) == r.WithId(id)
    {
      hide RequestOf, Complete, Plan;
    }

    /** The worker sends this, and it is the request of its resolved spec. */
    ghost predicate Sends(ctx: Key, req: Request)
      reads this
    {
      && Saves(state, ctx)
      && req == RequestOf(workspace, Worked(ctx).spec, state.FlightOf(ctx).Got()).WithId(Worked(ctx).status.id)
    }

    /** The object that the worker of `ctx` works on. */
    ghost function Worked(ctx: Key): Object
      requires !state.FlightOf(ctx).Idle? && state.Holds(ctx, state.FlightOf(ctx).Ver())
      reads this
    {
      state.Obj(ctx, state.FlightOf(ctx).Ver())
    }

    /** The next step is a read, of this. */
    ghost predicate Reads(ctx: Key, need: Need)
      reads this
    {
      var f := state.FlightOf(ctx);
      && f.Gathering? && state.Holds(ctx, f.Ver())
      && |f.Got()| < |Plan(Worked(ctx).spec)| && Plan(Worked(ctx).spec)[|f.Got()|] == need
    }
  }

  /** Where a save that databasus made, or not, leads. */
  lemma PostLands(s: State, k: Key, t: Turn, saved: bool, id: string)
    requires Saves(s, k) && (t.outcome == Failed <==> !saved)
    requires var o := s.Obj(k, s.FlightOf(k).Ver());
             && id == (if o.status.id == "" then t.newID else o.status.id)
             && (saved ==> if o.status.id == "" then Unused(s, k.kind, id) else Ref(k.kind, id) in s.records)
    ensures var f, u := s.FlightOf(k), WorkOn(s, k, t);
            var o := s.Obj(k, f.Ver());
            var g := u.FlightOf(k);
            && g == AfterRecord(k, o, f.Ver(), f.Got(), if t.outcome == Done then Some(id) else None, t.message)
            && !g.Idle? && g.Ver() == f.Ver()
            && (saved ==> id != "" && Ref(k.kind, id) in u.records &&
                          u.records[Ref(k.kind, id)] == RequestOf(s.workspace, o.spec, f.Got()).WithId(id))
  {
    hide WorkOn, Complete, Plan, RequestOf, Unused;
    UnusedIsSet(s, k.kind, t.newID);
    SaveLands(s, k, t);
    if saved { SaveStores(s, k, t); }
    hide Failure, AfterSave;
  }

  /** What a save that takes effect leaves at databasus. */
  lemma SaveStores(s: State, k: Key, t: Turn)
    requires Saves(s, k) && t.outcome != Failed
    requires var id := s.Obj(k, s.FlightOf(k).Ver()).status.id;
             if id == "" then Unused(s, k.kind, t.newID) else Ref(k.kind, id) in s.records
    ensures var o := s.Obj(k, s.FlightOf(k).Ver());
            var ref := Ref(k.kind, if o.status.id == "" then t.newID else o.status.id);
            && ref in WorkOn(s, k, t).records
            && WorkOn(s, k, t).records[ref] == RequestOf(s.workspace, o.spec, s.FlightOf(k).Got()).WithId(ref.id)
  {
    hide WorkOn, Complete, Plan, RequestOf, AfterRecord;
    SaveIs(s, k, t);
  }

  lemma ConfigLands(s: State, k: Key, t: Turn, saved: bool)
    requires var f := s.FlightOf(k);
             && f.Configuring? && s.Holds(k, f.Ver()) && s.Obj(k, f.Ver()).spec.ForBackup? && |f.Got()| > 0
             && (t.outcome == Failed <==> !saved) && (saved ==> Ref(BackupKind, f.id) in s.records)
    ensures var f, u := s.FlightOf(k), WorkOn(s, k, t);
            var o, g := s.Obj(k, f.Ver()), u.FlightOf(k);
            && g == AfterConfig(o, f.Ver(), f.Got(), f.id, t.outcome == Done, t.message) && !g.Idle? && g.Ver() == f.Ver()
            && (saved ==> f.id in u.backupConfigs &&
                          u.backupConfigs[f.id] == BackupConfigOf(o.spec.databaseBackup, f.id, f.Got()[0]))
  {
    hide WorkOn, BackupConfigOf;
    WorkIs(s, k, t);
    Lands(s, k, t);
    hide Landing, Failure;
  }

  lemma CheckLands(s: State, k: Key, t: Turn, saved: bool)
    requires var f := s.FlightOf(k);
             && f.Probing? && s.Holds(k, f.Ver()) && s.Obj(k, f.Ver()).spec.ForBackup?
             && s.Obj(k, f.Ver()).spec.databaseBackup.healthcheck.Some?
             && (t.outcome == Failed <==> !saved) && (saved ==> Ref(BackupKind, f.id) in s.records)
    ensures var f, u := s.FlightOf(k), WorkOn(s, k, t);
            var o, g := s.Obj(k, f.Ver()), u.FlightOf(k);
            && g == AfterCheck(o, f.Ver(), f.id, t.outcome == Done, t.message) && !g.Idle? && g.Ver() == f.Ver()
            && (saved ==> f.id in u.healthchecks &&
                          u.healthchecks[f.id] == HealthcheckOf(o.spec.databaseBackup.healthcheck.value, f.id))
  {
    hide WorkOn, HealthcheckOf;
    WorkIs(s, k, t);
    Lands(s, k, t);
    hide Landing, Failure;
  }

  lemma RefreshLands(s: State, k: Key, t: Turn)
    requires s.FlightOf(k).Refreshing? && s.Holds(k, s.FlightOf(k).Ver())
    requires t.outcome != Lost && (t.outcome == Done ==> Ref(BackupKind, s.FlightOf(k).id) in s.records)
    ensures var f, u := s.FlightOf(k), WorkOn(s, k, t);
            var g := u.FlightOf(k);
            && g == AfterRefresh(k, s.Obj(k, f.Ver()), f.Ver(), f.id, if t.outcome == Done then Some(s.ReportOf(f.id)) else None)
            && !g.Idle? && g.Ver() == f.Ver() && u.records == s.records && u.reports == s.reports
  {
    hide WorkOn, Local;
    Footprints(s, k, t);
    Lands(s, k, t);
    hide Merge, Success;
  }

  lemma GetsKind(s: State, k: Key, seen: nat)
    requires Inv(s) && s.Holds(k, seen)
    ensures s.Obj(k, seen).spec.Kind() == k.kind
  {
    InvKey(s, k);
    UnfoldKey(s, k);
    hide Inv, KeyInv;
    TrackGood(s, k, seen);
  }

  lemma BranchFlies(kind: Kind, s: State, k: Key, seen: nat)
    requires s.Holds(k, seen)
    ensures var f := Branch(kind, s.Obj(k, seen), seen); !f.Idle? && f.Ver() == seen
  {
  }

  lemma UnusedIsSet(s: State, kind: Kind, id: string)
    ensures Unused(s, kind, id) ==> id != ""
  {
  }
}
