/** The controller of Notifiers. */
module NotifierController {
  import opened Resources
  import opened Conditions
  import opened Builders
  import opened Protocol
  import opened Invariants
  import opened Calls
  import opened Clusters
  import opened Objects
  import opened Pointers
  import opened Lifecycle
  import opened Secrets
  import opened Reports
  import opened DatabasusApi
  import Inductive

  function EmptyRequest(workspace: string, spec: NotifierSpec): NotifierRequest {
    NotifierRequest("", workspace, spec.name, spec.notifierType, None, None, None, None, None, None)
  }

  // The types that need one secret.
  predicate NeedsOne(spec: NotifierSpec) { spec.notifierType in {NOTIFIER_DISCORD, NOTIFIER_TELEGRAM, NOTIFIER_SLACK, NOTIFIER_TEAMS} }

  predicate HasPayload(spec: NotifierSpec) {
    && (spec.notifierType == NOTIFIER_DISCORD ==> spec.discord.Some?)
    && (spec.notifierType == NOTIFIER_TELEGRAM ==> spec.telegram.Some?)
    && (spec.notifierType == NOTIFIER_SLACK ==> spec.slack.Some?)
    && (spec.notifierType == NOTIFIER_TEAMS ==> spec.teams.Some?)
    && (spec.notifierType == NOTIFIER_EMAIL ==> spec.email.Some?)
    && (spec.notifierType == NOTIFIER_WEBHOOK ==> spec.webhook.Some?)
  }

  lemma PlanWithoutSection(spec: NotifierSpec)
    requires !HasPayload(spec)
    ensures Plan(ForNotifier(spec)) == [Reject(SECRET)]
  {
  }

  lemma DiscordPlan(workspace: string, spec: NotifierSpec, secret: string)
    requires spec.notifierType == NOTIFIER_DISCORD && spec.discord.Some?
    ensures Plan(ForNotifier(spec)) == [Value(spec.discord.value.webhookURLSecretRef)] && Complete(ForNotifier(spec), [secret])
    ensures NotifierRequestOf(workspace, spec, [secret]) ==
            EmptyRequest(workspace, spec).(discord := Some(DiscordRequest(secret)))
  {
  }

  lemma TelegramPlan(workspace: string, spec: NotifierSpec, secret: string)
    requires spec.notifierType == NOTIFIER_TELEGRAM && spec.telegram.Some?
    ensures Plan(ForNotifier(spec)) == [Value(spec.telegram.value.botTokenSecretRef)] && Complete(ForNotifier(spec), [secret])
    ensures var telegram := spec.telegram.value;
            NotifierRequestOf(workspace, spec, [secret]) ==
            EmptyRequest(workspace, spec).(telegram := Some(TelegramRequest(secret, telegram.targetChatID, telegram.threadID)))
  {
  }

  lemma SlackPlan(workspace: string, spec: NotifierSpec, secret: string)
    requires spec.notifierType == NOTIFIER_SLACK && spec.slack.Some?
    ensures Plan(ForNotifier(spec)) == [Value(spec.slack.value.botTokenSecretRef)] && Complete(ForNotifier(spec), [secret])
    ensures NotifierRequestOf(workspace, spec, [secret]) ==
            EmptyRequest(workspace, spec).(slack := Some(SlackRequest(secret, spec.slack.value.targetChatID)))
  {
  }

  lemma TeamsPlan(workspace: string, spec: NotifierSpec, secret: string)
    requires spec.notifierType == NOTIFIER_TEAMS && spec.teams.Some?
    ensures Plan(ForNotifier(spec)) == [Value(spec.teams.value.webhookURLSecretRef)] && Complete(ForNotifier(spec), [secret])
    ensures NotifierRequestOf(workspace, spec, [secret]) ==
            EmptyRequest(workspace, spec).(teams := Some(TeamsRequest(secret)))
  {
  }

  lemma EmailPlan(workspace: string, spec: NotifierSpec, password: string)
    requires spec.notifierType == NOTIFIER_EMAIL && spec.email.Some?
    requires spec.email.value.smtpPasswordSecretRef.None? ==> password == ""
    ensures var email := spec.email.value;
            var got := if email.smtpPasswordSecretRef.Some? then [password] else [];
            && Plan(ForNotifier(spec)) == Optional(email.smtpPasswordSecretRef) && Complete(ForNotifier(spec), got)
            && NotifierRequestOf(workspace, spec, got) ==
               EmptyRequest(workspace, spec).(email := Some(EmailRequest(
                 email.targetEmail, email.smtpHost, email.smtpPort, email.smtpUser, password, email.from,
                 email.isInsecureSkipVerify)))
  {
  }

  lemma {:induction false} HeaderPlanGrows(headers: seq<WebhookHeader>, i: nat)
    requires i <= |headers|
    ensures HeaderPlan(headers[..i]) <= HeaderPlan(headers)
  {
    if i < |headers| {
      HeaderPlanGrows(headers[..|headers| - 1], i);
      assert headers[..|headers| - 1][..i] == headers[..i];
    } else {
      assert headers[..i] == headers;
    }
  }

  /** One more header: its read, if it has one, is the next of the plan, and its place is at the end. */
  lemma HeaderNext(headers: seq<WebhookHeader>, i: nat, got: seq<string>, value: string)
    requires i < |headers| && |got| == |HeaderPlan(headers[..i])|
    requires headers[i].valueSecretRef.None? ==> value == headers[i].value
    ensures headers[i].valueSecretRef.Some? ==>
              |got| < |HeaderPlan(headers)| && HeaderPlan(headers)[|got|] == Value(headers[i].valueSecretRef.value)
    ensures var more := got + if headers[i].valueSecretRef.Some? then [value] else [];
            && |more| == |HeaderPlan(headers[..i + 1])|
            && HeadersOf(headers[..i + 1], more) == HeadersOf(headers[..i], got) + [HeaderRequest(headers[i].key, value)]
  {
    var upTo := headers[..i + 1];
    assert upTo[..|upTo| - 1] == headers[..i] && upTo[|upTo| - 1] == headers[i];
    HeaderPlanGrows(headers, i + 1);
    var more := got + if headers[i].valueSecretRef.Some? then [value] else [];
    assert more[..|got|] == got;
    assert HeaderPlan(upTo) == HeaderPlan(headers[..i]) + Optional(headers[i].valueSecretRef);
  }

  lemma WebhookPlan(workspace: string, spec: NotifierSpec, got: seq<string>)
    requires spec.notifierType == NOTIFIER_WEBHOOK && spec.webhook.Some?
    ensures Plan(ForNotifier(spec)) == HeaderPlan(spec.webhook.value.headers)
    ensures |got| == |HeaderPlan(spec.webhook.value.headers)| ==>
              var webhook := spec.webhook.value;
              && Complete(ForNotifier(spec), got)
              && NotifierRequestOf(workspace, spec, got) ==
                 EmptyRequest(workspace, spec).(webhook := Some(WebhookRequest(
                   webhook.webhookURL, webhook.webhookMethod, webhook.bodyTemplate, HeadersOf(webhook.headers, got))))
  {
    hide HeadersOf, HeaderPlan;
    Inductive.HeadersOnlyRead(spec.webhook.value.headers);
  }

  class NotifierReconciler {
    const cluster: Cluster
    const databasus: DatabasusClient

    ghost predicate Valid()
      reads cluster
    {
      databasus.cluster == cluster && databasus.Valid()
    }

    constructor (databasus: DatabasusClient)
      requires databasus.Valid()
      ensures Valid() && this.databasus == databasus
    {
      this.databasus := databasus;
      this.cluster := databasus.cluster;
    }

    /** The request has been built from what was read, or the first failed read is to be reported. */
    ghost predicate Built(ctx: Key, o: Object, ver: nat, req: Option<NotifierRequest>, text: string)
      requires o.spec.ForNotifier?
      reads cluster
    {
      if req.None? then cluster.At(ctx, o, Reporting(ver, Failure(o, SECRET, text, o.status.id)))
      else
        exists got: seq<string> ::
          && cluster.At(ctx, o, Gathering(ver, got)) && Complete(o.spec, got)
          && req.value == NotifierRequestOf(cluster.workspace, o.spec.notifier, got)
    }

    lemma NotBuilt(ctx: Key, o: Object, ver: nat, text: string)
      requires o.spec.ForNotifier?
      ensures Built(ctx, o, ver, None, text) <==> cluster.At(ctx, o, Reporting(ver, Failure(o, SECRET, text, o.status.id)))
    {
    }

    lemma BuiltFrom(ctx: Key, o: Object, ver: nat, got: seq<string>, req: NotifierRequest, text: string)
      requires o.spec.ForNotifier? && cluster.At(ctx, o, Gathering(ver, got)) && Complete(o.spec, got)
      requires req == NotifierRequestOf(cluster.workspace, o.spec.notifier, got)
      ensures Built(ctx, o, ver, Some(req), text)
    {
    }

    /** The four types whose payload takes one secret. */
    method BuildSimple(ctx: Key, spec: NotifierSpec, req: Pointer<NotifierRequest>, ghost o: Object, ghost ver: nat)
      returns (err: bool, text: string)
      requires Valid() && o.spec == ForNotifier(spec) && NeedsOne(spec) && HasPayload(spec)
      requires cluster.At(ctx, o, Gathering(ver, [])) && req.value == EmptyRequest(cluster.workspace, spec)
      modifies cluster, req
      ensures Valid() && Extends(old(cluster.trace), cluster.trace, ctx)
      ensures Built(ctx, o, ver, if err then None else Some(req.value), text)
    {
      hide Plan, Complete, NotifierRequestOf, Failure, Built, Cluster.Valid, Cluster.At, Run;
      var secret;
      if spec.notifierType == NOTIFIER_DISCORD {
        DiscordPlan(cluster.workspace, spec, "");
        secret, text := ResolveSecretRef(cluster, ctx, ctx.namespace, spec.discord.value.webhookURLSecretRef, o, ver, []);
        NotBuilt(ctx, o, ver, text);
        if secret.None? { return true, text; }
        req.value := req.value.(discord := Some(DiscordRequest(secret.value)));
        DiscordPlan(cluster.workspace, spec, secret.value);
      } else if spec.notifierType == NOTIFIER_TELEGRAM {
        var telegram := spec.telegram.value;
        TelegramPlan(cluster.workspace, spec, "");
        secret, text := ResolveSecretRef(cluster, ctx, ctx.namespace, telegram.botTokenSecretRef, o, ver, []);
        NotBuilt(ctx, o, ver, text);
        if secret.None? { return true, text; }
        req.value := req.value.(telegram := Some(TelegramRequest(secret.value, telegram.targetChatID, telegram.threadID)));
        TelegramPlan(cluster.workspace, spec, secret.value);
      } else if spec.notifierType == NOTIFIER_SLACK {
        SlackPlan(cluster.workspace, spec, "");
        secret, text := ResolveSecretRef(cluster, ctx, ctx.namespace, spec.slack.value.botTokenSecretRef, o, ver, []);
        NotBuilt(ctx, o, ver, text);
        if secret.None? { return true, text; }
        req.value := req.value.(slack := Some(SlackRequest(secret.value, spec.slack.value.targetChatID)));
        SlackPlan(cluster.workspace, spec, secret.value);
      } else {
        TeamsPlan(cluster.workspace, spec, "");
        secret, text := ResolveSecretRef(cluster, ctx, ctx.namespace, spec.teams.value.webhookURLSecretRef, o, ver, []);
        NotBuilt(ctx, o, ver, text);
        if secret.None? { return true, text; }
        req.value := req.value.(teams := Some(TeamsRequest(secret.value)));
        TeamsPlan(cluster.workspace, spec, secret.value);
      }
      assert [] + [secret.value] == [secret.value];
      BuiltFrom(ctx, o, ver, [secret.value], req.value, text);
      return false, text;
    }

    method BuildEmail(ctx: Key, spec: NotifierSpec, req: Pointer<NotifierRequest>, ghost o: Object, ghost ver: nat)
      returns (err: bool, text: string)
      requires Valid() && o.spec == ForNotifier(spec) && spec.notifierType == NOTIFIER_EMAIL && spec.email.Some?
      requires cluster.At(ctx, o, Gathering(ver, [])) && req.value == EmptyRequest(cluster.workspace, spec)
      modifies cluster, req
      ensures Valid() && Extends(old(cluster.trace), cluster.trace, ctx)
      ensures Built(ctx, o, ver, if err then None else Some(req.value), text)
    {
      hide Plan, Complete, NotifierRequestOf, Failure, Built, Cluster.Valid, Cluster.At, Run;
      var email := spec.email.value;
      var emailReq := EmailRequest(
        email.targetEmail, email.smtpHost, email.smtpPort, email.smtpUser, "", email.from, email.isInsecureSkipVerify);
      EmailPlan(cluster.workspace, spec, "");
      var password;
      err, password, text := ResolveOptional(cluster, ctx, ctx.namespace, email.smtpPasswordSecretRef, o, ver, []);
      NotBuilt(ctx, o, ver, text);
      if err { return true, text; }
      emailReq := emailReq.(smtpPassword := password);
      req.value := req.value.(email := Some(emailReq));
      EmailPlan(cluster.workspace, spec, password);
      ghost var got := if email.smtpPasswordSecretRef.Some? then [password] else [];
      assert [] + got == got;
      BuiltFrom(ctx, o, ver, got, req.value, text);
    }

    method BuildWebhook(ctx: Key, spec: NotifierSpec, req: Pointer<NotifierRequest>, ghost o: Object, ghost ver: nat)
      returns (err: bool, text: string)
      requires Valid() && o.spec == ForNotifier(spec) && spec.notifierType == NOTIFIER_WEBHOOK && spec.webhook.Some?
      requires cluster.At(ctx, o, Gathering(ver, [])) && req.value == EmptyRequest(cluster.workspace, spec)
      modifies cluster, req
      ensures Valid() && Extends(old(cluster.trace), cluster.trace, ctx)
      ensures Built(ctx, o, ver, if err then None else Some(req.value), text)
    {
      hide Plan, Complete, NotifierRequestOf, Failure, Built, Cluster.Valid, Cluster.At, Run, HeaderPlan, HeadersOf;
      var webhook := spec.webhook.value;
      var headers := webhook.headers;
      var sent: seq<HeaderRequest> := [];
      ghost var got: seq<string> := [];
      NoHeaders(headers);
      WebhookPlan(cluster.workspace, spec, []);
      text := "";
      var i := 0;
      while i < |headers|
        invariant 0 <= i <= |headers|
        invariant Valid() && Extends(old(cluster.trace), cluster.trace, ctx)
        invariant cluster.At(ctx, o, Gathering(ver, got)) && |got| == |HeaderPlan(headers[..i])|
        invariant sent == HeadersOf(headers[..i], got) && req.value == old(req.value)
      {
        var header := headers[i];
        var headerReq := HeaderRequest(header.key, "");
        HeaderNext(headers, i, got, if header.valueSecretRef.Some? then "" else header.value);
        if header.valueSecretRef.Some? {
          var value;
          value, text := ResolveSecretRef(cluster, ctx, ctx.namespace, header.valueSecretRef.value, o, ver, got);
          NotBuilt(ctx, o, ver, text);
          if value.None? { return true, text; }
          headerReq := headerReq.(value := value.value);
          HeaderNext(headers, i, got, value.value);
          got := got + [value.value];
        } else {
          headerReq := headerReq.(value := header.value);
          assert got + [] == got;
        }
        sent := sent + [headerReq];
        i := i + 1;
      }
      assert headers[..i] == headers;
      req.value := req.value.(webhook := Some(WebhookRequest(
        webhook.webhookURL, webhook.webhookMethod, webhook.bodyTemplate, sent)));
      WebhookPlan(cluster.workspace, spec, got);
      BuiltFrom(ctx, o, ver, got, req.value, text);
      return false, text;
    }

    lemma NoHeaders(headers: seq<WebhookHeader>)
      ensures HeaderPlan(headers[..0]) == [] && HeadersOf(headers[..0], []) == []
    {
    }

    method BuildNotifierRequest(ctx: Key, notifier: Resource, ghost ver: nat)
      returns (err: bool, req: Pointer<NotifierRequest>, text: string)
      requires Valid() && notifier.spec.ForNotifier? && cluster.At(ctx, notifier.Value(), Gathering(ver, []))
      modifies cluster
      ensures Valid() && Extends(old(cluster.trace), cluster.trace, ctx) && fresh(req)
      ensures Built(ctx, notifier.Value(), ver, if err then None else Some(req.value), text)
    {
      hide Plan, Complete, NotifierRequestOf, Failure, Built, Cluster.Valid, Cluster.At, Run;
      var spec := notifier.spec.notifier;
      ghost var o := notifier.Value();
      req := new Pointer(EmptyRequest(databasus.workspaceID, spec));
      if !HasPayload(spec) {
        PlanWithoutSection(spec);
        text := Refuse(cluster, ctx, o, ver, []);
        NotBuilt(ctx, o, ver, text);
        err := true;
      } else if NeedsOne(spec) {
        err, text := BuildSimple(ctx, spec, req, o, ver);
      } else if spec.notifierType == NOTIFIER_EMAIL {
        err, text := BuildEmail(ctx, spec, req, o, ver);
      } else if spec.notifierType == NOTIFIER_WEBHOOK {
        err, text := BuildWebhook(ctx, spec, req, o, ver);
      } else {
        err, text := false, "";
        UnknownType(cluster.workspace, spec);
        BuiltFrom(ctx, o, ver, [], req.value, text);
      }
    }

    lemma UnknownType(workspace: string, spec: NotifierSpec)
      requires !NeedsOne(spec) && spec.notifierType != NOTIFIER_EMAIL && spec.notifierType != NOTIFIER_WEBHOOK
      ensures Complete(ForNotifier(spec), []) && NotifierRequestOf(workspace, spec, []) == EmptyRequest(workspace, spec)
    {
    }

    /** The request that was built, with the ID of the status, is what the protocol sends. */
    lemma BuiltSends(ctx: Key, o: Object, ver: nat, req: NotifierRequest, text: string)
      requires Valid() && o.spec.ForNotifier? && Built(ctx, o, ver, Some(req), text)
      ensures cluster.state.FlightOf(ctx).Gathering? && cluster.state.FlightOf(ctx).Ver() == ver
      ensures cluster.At(ctx, o, cluster.state.FlightOf(ctx))
      ensures var stamped := if req.workspaceID == "" then req.(id := o.status.id, workspaceID := databasus.workspaceID)
                             else req.(id := o.status.id);
              cluster.Sends(ctx, SaveNotifierCall(stamped))
    {
      hide Plan, HeadersOf;
      var got :| cluster.At(ctx, o, Gathering(ver, got)) && Complete(o.spec, got) &&
                 req == NotifierRequestOf(cluster.workspace, o.spec.notifier, got);
    }

    /** One reconcile of a Notifier: it makes the calls of the protocol's worker and returns what that
        returns. */
    method Reconcile(ctx: Key) returns (result: Result)
      requires Valid() && ctx.kind == NotifierKind && cluster.state.FlightOf(ctx).Idle? && ctx in cluster.state.queued
      modifies cluster
      ensures Valid() && Extends(old(cluster.trace), cluster.trace, ctx) && cluster.Returns(ctx, result)
    {
      hide Plan, Run;
      var done, notifier;
      ghost var ver;
      done, notifier, ver := Open(databasus, ctx);
      if done.Some? { return done.value; }
      result := Synchronise(ctx, notifier, ver);
    }

    /** The rest of a reconcile: build the request, save it, write the status. */
    method Synchronise(ctx: Key, notifier: Resource, ghost ver: nat) returns (result: Result)
      requires Valid() && ctx.kind == NotifierKind && notifier.spec.ForNotifier?
      requires cluster.At(ctx, notifier.Value(), Gathering(ver, []))
      modifies cluster, notifier
      ensures Valid() && Extends(old(cluster.trace), cluster.trace, ctx) && cluster.Returns(ctx, result)
      ensures result == Result(0, false) ==>
                var last := Last(cluster.state.Versions(ctx));
                last.Present? && ReadyAtItsGeneration(last.Value()) && last.Value().status.id != ""
    {
      hide Plan, Complete, Finalizer, StatusOf, ResultOf, Failure, Success, RequestOf, NotifierRequestOf, IsReady,
           Cluster.Sends,
           Cluster.Valid, Cluster.Returns, Built, Run;
      ghost var o := notifier.Value();
      var err, req, text := BuildNotifierRequest(ctx, notifier, ver);
      NotBuilt(ctx, o, ver, text);
      if err {
        FailureResults(ctx.kind, o, text, notifier.id);
        ghost var failed := ReportFailure(cluster, ctx, notifier, SECRET, text, o, ver);
        return Result(30, false);
      }

      BuiltSends(ctx, o, ver, req.value, text);
      req.value := req.value.(id := notifier.id);
      var resp;
      ghost var x;
      resp, text, x := databasus.SaveNotifier(ctx, req);
      if resp.None? {
        FailureResults(ctx.kind, o, text, notifier.id);
        ghost var failed := ReportFailure(cluster, ctx, notifier, SYNC_FAILED, text, o, ver);
        return Result(30, false);
      }

      notifier.id := resp.value;
      SuccessResults(ctx.kind, notifier.id, o.status.vitals);
      err := ReportSuccess(cluster, ctx, notifier, o, ver, o.status.vitals);
      return Result(0, err);
    }
  }
}
