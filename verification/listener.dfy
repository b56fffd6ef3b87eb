/**
 * `listener/BuildListener.java`: on build start and completion, the job's
 * site is resolved and every enabled notification rule of the matching type
 * posts one message per listed room (or one to the site's own room). A send
 * that fails marks the build failed when the site says so.
 */
module Listener {
  import opened Wrappers
  import opened Platform
  import opened JavaText
  import J = Jenkins
  import opened Api
  import opened Notifications
  import opened Common
  import opened Sites
  import opened Service

  /**
   * What the listener draws from its host, left abstract: the message
   * bundle, the token-macro expander, the clock reading and the HTTP
   * exchange.
   */
  datatype Host = Host(localize: string -> string, expand: string -> Option<string>, now: int, endpoint: Endpoint)

  /** The build a listener is told about; the listener changes only its result. */
  class Run {
    var result: Option<J.BuildResult>
    /** The previous build, when there is one, with its result. */
    const previous: Option<Option<J.BuildResult>>
    const causes: seq<J.Cause>
    const env: J.EnvVars
    const job: Job<HubotSite>

    constructor (result: Option<J.BuildResult>, previous: Option<Option<J.BuildResult>>,
                 causes: seq<J.Cause>, env: J.EnvVars, job: Job<HubotSite>)
      ensures this.result == result && this.previous == previous
      ensures this.causes == causes && this.env == env && this.job == job
    {
      this.result := result;
      this.previous := previous;
      this.causes := causes;
      this.env := env;
      this.job := job;
    }

    /** `Run.setResult`: the result only gets worse. */
    method SetResult(r: J.BuildResult)
      modifies this
      ensures result == J.Worsen(old(result), r)
    {
      result := J.Worsen(result, r);
    }
  }

  /** The parts of a build and its host that a notification is made from. */
  datatype Context = Context(causes: seq<J.Cause>, env: J.EnvVars, host: Host)

  /** One POST to the bot: the full request URL and the body. */
  datatype Post = Post(url: string, message: Message)

  /** One call of the private `sendMessage`: the request it made, if any, and the exception it caught, if any. */
  datatype Attempt = Attempt(post: Option<Post>, failure: Option<Throwable>)

  /** A rule and one of its rooms (`None`: the site's own room). */
  datatype Target = Target(config: Config, roomName: Option<string>)

  /** The notifications that one event plans: its targets in order, and the exception that cut the plan short. */
  datatype Plan = Plan(targets: seq<Target>, thrown: Option<Throwable>)

  // ------------------------------------------------------------ one send

  /**
   * The copy of the site a send goes through: a given (non-empty) room
   * replaces the site's room and drops its room prefix; otherwise the copy
   * keeps both.
   */
  function TargetSite(site: SiteValue, roomName: Option<string>): (r: SiteValue)
    ensures FixEmpty(roomName).Some? ==> r.room == roomName && r.roomPrefix.None?
    ensures FixEmpty(roomName).None? ==> r == Cloned(site)
    ensures r.url == site.url && r.failOnError == site.failOnError && r.useFolderName == site.useFolderName
  {
    if FixEmpty(roomName).Some? then Cloned(site).(room := roomName, roomPrefix := None) else Cloned(site)
  }

  /** The message for an event, from the data `sendMessage` gathers for it. */
  function EventMessage(t: NotificationType, ctx: Context, tokens: map<string, Option<string>>,
                        buildCause: Option<string>, userId: Option<string>, userName: string): Message
  {
    EmptyMessage.(
      message := Some(Status(t, ctx.host.localize)),
      ts := Some(ctx.host.now),
      envVars := Some(ctx.env),
      status := Some(Name(t)),
      tokens := Some(tokens),
      buildCause := buildCause,
      userId := userId,
      userName := Some(userName),
      stepName := Some(StepName(StepKind.Build)))
  }

  /** The build message; deriving the build cause may throw. */
  function BuildMessage(t: NotificationType, config: Config, ctx: Context): (r: Result<Message, Throwable>)
    ensures r.Err? <==> BuildCause(Some(ctx.causes)).Err?
  {
    match BuildCause(Some(ctx.causes))
    case Err(e) => Err(e)
    case Ok(cause) =>
      Ok(EventMessage(t, ctx, ExpandedTokens(config.tokens, ctx.host.expand), cause,
                      PrepareBuildUserId(Some(ctx.causes)), PrepareBuildUserName(Some(ctx.causes), ctx.env)))
  }

  /**
   * The end of `sendMessage` once the client and the message exist: post
   * to the effective room (a missing room is caught inside the client) and
   * log the response, which aborts under fail-on-error when it is
   * unsuccessful.
   */
  function Delivered(clone: SiteValue, svc: HubotService, message: Message, failOnError: bool, endpoint: Endpoint): (a: Attempt)
    ensures a.post.Some? <==> clone.room.Some?
    ensures a.failure.Some? <==> failOnError && !SendMessage(svc, message, endpoint).successful
  {
    var room := EffectiveRoom(clone);
    var post := if room.Ok? then Some(Post(RequestUrl(svc, room.value), message)) else None;
    match LogResponse(SendMessage(svc, message, endpoint), failOnError)
    case Err(e) => Attempt(post, Some(e))
    case Ok(_) => Attempt(post, None)
  }

  /**
   * `sendMessage` from the client on: make the client for the prepared
   * copy, build the message, post it and log the response, and catch
   * whatever is thrown on the way.
   */
  function SendOn(clone: SiteValue, config: Config, t: NotificationType, ctx: Context, failOnError: bool): (a: Attempt)
    ensures clone.url.None? ==> a == Attempt(None, Some(NullPointer()))
    ensures a.post.Some? ==> clone.url.Some? && BuildMessage(t, config, ctx) == Ok(a.post.value.message)
  {
    match NewService(clone)
    case Err(e) => Attempt(None, Some(e))
    case Ok(svc) =>
      match BuildMessage(t, config, ctx)
      case Err(e) => Attempt(None, Some(e))
      case Ok(message) => Delivered(clone, svc, message, failOnError, ctx.host.endpoint)
  }

  /**
   * The private `sendMessage`: copy the site, point the copy at the room,
   * and send through it.
   */
  function AttemptOf(site: SiteValue, target: Target, t: NotificationType, ctx: Context): (a: Attempt)
    ensures site.url.None? ==> a == Attempt(None, Some(NullPointer()))
    ensures site.failOnError && a.failure.None? ==> a.post.Some?
    ensures !site.failOnError && a.failure.Some? ==> a.post.None?
    ensures a.post.Some? ==> site.url.Some? && BuildMessage(t, target.config, ctx) == Ok(a.post.value.message)
  {
    SendOn(TargetSite(site, target.roomName), target.config, t, ctx, site.failOnError)
  }

  /**
   * A message posted for an event names the event: its localised status
   * text, its type name, the BUILD step, the clock reading, the build's
   * environment and users, and nothing of the approval fields.
   */
  lemma PostedMessageDescribesEvent(site: SiteValue, target: Target, t: NotificationType, ctx: Context)
    requires AttemptOf(site, target, t, ctx).post.Some?
    ensures var m := AttemptOf(site, target, t, ctx).post.value.message;
      && m.message == Some(Status(t, ctx.host.localize))
      && m.status == Some(Name(t))
      && m.stepName == Some("BUILD")
      && m.ts == Some(ctx.host.now)
      && m.envVars == Some(ctx.env)
      && m.userName == Some(PrepareBuildUserName(Some(ctx.causes), ctx.env))
      && m.userId == PrepareBuildUserId(Some(ctx.causes))
      && m.buildCause == BuildCause(Some(ctx.causes)).value
      && m.tokens == Some(ExpandedTokens(target.config.tokens, ctx.host.expand))
      && m.id.None? && m.submitter.None? && m.submitterParameter.None? && m.ok.None? && m.extraData.None?
  {
  }

  /**
   * A room listed in the rule is used as it is (trimmed), whatever the
   * site's room prefix and folder-name setting.
   */
  lemma ExplicitRoomIgnoresPrefix(site: SiteValue, target: Target, t: NotificationType, ctx: Context)
    requires FixEmpty(target.roomName).Some?
    requires AttemptOf(site, target, t, ctx).post.Some?
    ensures AttemptOf(site, target, t, ctx).post.value.url ==
      SanitizeURL(site.url.value.spec) + NotifyPath + Trim(target.roomName.value)
  {
  }

  /**
   * Without a listed room the site's own room is used, with the room prefix
   * in front when the site uses folder names.
   */
  lemma SiteRoomKeepsPrefix(site: SiteValue, target: Target, t: NotificationType, ctx: Context)
    requires FixEmpty(target.roomName).None?
    requires AttemptOf(site, target, t, ctx).post.Some?
    ensures site.room.Some?
    ensures AttemptOf(site, target, t, ctx).post.value.url ==
      SanitizeURL(site.url.value.spec) + NotifyPath + EffectiveRoom(site).value
  {
    var clone := TargetSite(site, target.roomName);
    assert clone == Cloned(site);
  }

  /**
   * Under fail-on-error a completed send fails exactly when the bot's
   * response is unsuccessful.
   */
  lemma FailOnErrorFollowsResponse(site: SiteValue, target: Target, t: NotificationType, ctx: Context)
    requires site.failOnError && site.url.Some?
    requires BuildMessage(t, target.config, ctx).Ok?
    ensures var svc := NewService(TargetSite(site, target.roomName)).value;
      var response := SendMessage(svc, BuildMessage(t, target.config, ctx).value, ctx.host.endpoint);
      AttemptOf(site, target, t, ctx).failure.Some? <==> !response.successful
  {
  }

  // ---------------------------------------------------- rooms and rules

  /**
   * The rooms of a rule: each comma-separated entry, trimmed, when the list
   * is non-empty; otherwise the site's own room. An entry that trims to
   * nothing also falls back to the site's room (see `TargetSite`).
   */
  function RoomTargets(config: Config): (r: seq<Target>)
    ensures FixEmpty(config.roomNames).None? ==> r == [Target(config, None)]
    ensures FixEmpty(config.roomNames).Some? ==>
      |r| == |Split(config.roomNames.value, ',')| &&
      forall k :: 0 <= k < |r| ==> r[k] == Target(config, Some(Trim(Split(config.roomNames.value, ',')[k])))
  {
    if FixEmpty(config.roomNames).None? then [Target(config, None)]
    else
      var names := Split(config.roomNames.value, ',');
      seq(|names|, k requires 0 <= k < |names| => Target(config, Some(Trim(names[k]))))
  }

  /** A room list made only of commas is non-empty, yet names no room: nothing is sent for the rule. */
  lemma OnlyCommasSendsNothing(config: Config, n: nat)
    requires n > 0 && config.roomNames == Some(seq(n, _ => ','))
    ensures FixEmpty(config.roomNames).Some?
    ensures RoomTargets(config) == []
  {
    var s := config.roomNames.value;
    var r := Split(s, ',');
    assert s[0] == ',';
    if r != [] {
      var f := Fields(s, ',');
      JoinFields(s, ',');
      assert r[|r| - 1] == f[|r| - 1];
      FieldsOfSeparators(s, |r| - 1);
    }
  }

  /** Every field of a string of separators is empty. */
  lemma FieldsOfSeparators(s: string, k: nat)
    requires forall i :: 0 <= i < |s| ==> s[i] == ','
    requires k < |Fields(s, ',')|
    ensures Fields(s, ',')[k] == ""
  {
    var f := Fields(s, ',');
    JoinFields(s, ',');
    assert forall i :: 0 <= i < |f| ==> ',' !in f[i];
    if f[k] != "" {
      JoinContains(f, ',', k);
    }
  }

  /** The first character of each non-empty part occurs in the join. */
  lemma {:induction false} JoinContains(parts: seq<string>, sep: char, k: nat)
    requires k < |parts| && parts[k] != ""
    ensures parts[k][0] in Join(parts, sep)
    decreases |parts|
  {
    if |parts| > 1 {
      assert Join(parts, sep) == parts[0] + [sep] + Join(parts[1..], sep);
      if k == 0 {
        assert Join(parts, sep)[0] == parts[0][0];
      } else {
        JoinContains(parts[1..], sep, k - 1);
      }
    }
  }

  /**
   * Whether a rule applies to an event of type `t`: a disabled rule never
   * does; an enabled rule without a type throws.
   */
  function Selects(config: Config, t: NotificationType): (r: Result<bool, Throwable>)
    ensures r.Err? <==> config.notifyEnabled && config.notificationType.None?
    ensures r.Err? ==> r.error == NullPointer()
    ensures r.Ok? ==> (r.value <==> config.notifyEnabled && config.notificationType == Some(t))
  {
    if !config.notifyEnabled then Ok(false)
    else if config.notificationType.None? then Err(NullPointer())
    else Ok(config.notificationType.value == t)
  }

  /**
   * The loop over a site's rules: the rooms of every applying rule, in
   * order, until a rule throws.
   */
  function PlanOf(configs: seq<Config>, t: NotificationType): (p: Plan)
    ensures forall k :: 0 <= k < |p.targets| ==>
      p.targets[k].config.notifyEnabled && p.targets[k].config.notificationType == Some(t)
    ensures p.thrown.Some? ==> p.thrown.value == NullPointer()
    decreases |configs|
  {
    if configs == [] then Plan([], None)
    else
      var p := PlanOf(configs[..|configs| - 1], t);
      var c := configs[|configs| - 1];
      if p.thrown.Some? then p
      else match Selects(c, t)
        case Err(e) => Plan(p.targets, Some(e))
        case Ok(applies) => if applies then Plan(p.targets + RoomTargets(c), None) else p
  }

  /** The plan is cut short exactly when some enabled rule has no type. */
  lemma {:induction false} PlanThrowsOnUntypedRule(configs: seq<Config>, t: NotificationType)
    ensures PlanOf(configs, t).thrown.Some? <==>
      exists k :: 0 <= k < |configs| && configs[k].notifyEnabled && configs[k].notificationType.None?
    decreases |configs|
  {
    if configs != [] {
      var init := configs[..|configs| - 1];
      PlanThrowsOnUntypedRule(init, t);
      if exists k :: 0 <= k < |init| && init[k].notifyEnabled && init[k].notificationType.None? {
        var k :| 0 <= k < |init| && init[k].notifyEnabled && init[k].notificationType.None?;
        assert configs[k] == init[k];
      }
      if PlanOf(configs, t).thrown.None? {
        forall k | 0 <= k < |configs|
          ensures !(configs[k].notifyEnabled && configs[k].notificationType.None?)
        {
          if k < |init| {
            assert configs[k] == init[k];
          }
        }
      }
    }
  }

  /** Rules that are disabled or of another type add nothing to the plan. */
  lemma {:induction false} PlanOfOtherRules(configs: seq<Config>, t: NotificationType)
    requires forall k :: 0 <= k < |configs| ==>
      configs[k].notifyEnabled ==> configs[k].notificationType.Some? && configs[k].notificationType != Some(t)
    ensures PlanOf(configs, t) == Plan([], None)
    decreases |configs|
  {
    if configs != [] {
      PlanOfOtherRules(configs[..|configs| - 1], t);
    }
  }

  // ------------------------------------------------------------ the sends

  function Attempts(site: SiteValue, targets: seq<Target>, t: NotificationType, ctx: Context): (r: seq<Attempt>)
    ensures |r| == |targets|
    ensures forall k :: 0 <= k < |targets| ==> r[k] == AttemptOf(site, targets[k], t, ctx)
  {
    seq(|targets|, k requires 0 <= k < |targets| => AttemptOf(site, targets[k], t, ctx))
  }

  /** The requests the attempts made, in order. */
  function PostsOf(attempts: seq<Attempt>): (r: seq<Post>)
    ensures |r| <= |attempts|
  {
    if attempts == [] then []
    else
      var last := attempts[|attempts| - 1];
      PostsOf(attempts[..|attempts| - 1]) + (if last.post.Some? then [last.post.value] else [])
  }

  /** The build result after the attempts, each failed one under fail-on-error setting FAILURE. */
  function Apply(result: Option<J.BuildResult>, failOnError: bool, attempts: seq<Attempt>): Option<J.BuildResult> {
    if attempts == [] then result
    else
      var before := Apply(result, failOnError, attempts[..|attempts| - 1]);
      if attempts[|attempts| - 1].failure.Some? && failOnError then J.Worsen(before, J.Failure) else before
  }

  /**
   * However many sends fail, the build is set to FAILURE once: the result
   * changes only under fail-on-error, and only when some send failed.
   */
  lemma {:induction false} ApplyWorsensOnce(result: Option<J.BuildResult>, failOnError: bool, attempts: seq<Attempt>)
    ensures Apply(result, failOnError, attempts) ==
      if failOnError && exists k :: 0 <= k < |attempts| && attempts[k].failure.Some?
      then J.Worsen(result, J.Failure) else result
    decreases |attempts|
  {
    if attempts != [] {
      var init := attempts[..|attempts| - 1];
      ApplyWorsensOnce(result, failOnError, init);
      if exists k :: 0 <= k < |init| && init[k].failure.Some? {
        var k :| 0 <= k < |init| && init[k].failure.Some?;
        assert attempts[k] == init[k];
        J.WorsenIdempotent(result, J.Failure);
      }
      if !exists k :: 0 <= k < |attempts| && attempts[k].failure.Some? {
        forall k | 0 <= k < |init|
          ensures init[k].failure.None?
        {
          assert init[k] == attempts[k];
        }
      }
    }
  }

  // ------------------------------------------------------------ the events

  /** What an event of type `t` plans for the job's site: nothing without a site or without rules. */
  function Notified(site: Option<SiteValue>, t: NotificationType): (p: Plan)
    ensures site.None? || site.value.notifications.None? ==> p == Plan([], None)
  {
    if site.None? || site.value.notifications.None? then Plan([], None)
    else PlanOf(site.value.notifications.value, t)
  }

  /**
   * `onCompleted`: a first build notifies nothing; otherwise the type comes
   * from the two results (which throws without a current result) and the
   * rules of that type are served.
   */
  function Completed(site: Option<SiteValue>, previous: Option<Option<J.BuildResult>>,
                     current: Option<J.BuildResult>): (p: Plan)
    ensures previous.None? ==> p == Plan([], None)
    ensures previous.Some? && current.None? ==> p == Plan([], Some(IllegalState("Unable to determine notification type")))
  {
    if previous.None? then Plan([], None)
    else match FromResults(previous.value, current)
      case Err(e) => Plan([], Some(e))
      case Ok(t) => Notified(site, t)
  }

  /** The type of a completion event, when the listener gets as far as classifying it. */
  function CompletionType(previous: Option<Option<J.BuildResult>>, current: Option<J.BuildResult>): (r: Option<NotificationType>)
    ensures r.Some? ==> Completed(None, previous, current) == Plan([], None)
    ensures r.None? <==> previous.None? || current.None?
  {
    if previous.None? then None
    else match FromResults(previous.value, current)
      case Err(_) => None
      case Ok(t) => Some(t)
  }

  /** A completed build never serves the rules meant for build starts. */
  lemma CompletionNeverServesStartRules(site: Option<SiteValue>, previous: Option<Option<J.BuildResult>>,
                                        current: Option<J.BuildResult>, k: nat)
    requires k < |Completed(site, previous, current).targets|
    ensures Completed(site, previous, current).targets[k].config.notificationType != Some(Started)
  {
  }

  function FailOnError(site: Option<SiteValue>): bool {
    site.Some? && site.value.failOnError
  }

  /**
   * The sends for `targets`, continuing from `sent`: `posts0` are the
   * requests already made and `result0` the build result before any send.
   */
  method SendEach(run: Run, t: NotificationType, site: HubotSite, ghost sent: seq<Target>, targets: seq<Target>,
                  host: Host, posts0: seq<Post>, ghost result0: Option<J.BuildResult>)
    returns (posts: seq<Post>)
    requires posts0 == PostsOf(Attempts(site.Value(), sent, t, Context(run.causes, run.env, host)))
    requires run.result == Apply(result0, site.failOnError, Attempts(site.Value(), sent, t, Context(run.causes, run.env, host)))
    modifies run
    ensures posts == PostsOf(Attempts(site.Value(), sent + targets, t, Context(run.causes, run.env, host)))
    ensures run.result == Apply(result0, site.failOnError, Attempts(site.Value(), sent + targets, t, Context(run.causes, run.env, host)))
  {
    ghost var v := site.Value();
    ghost var ctx := Context(run.causes, run.env, host);
    posts := posts0;
    assert sent + targets[..0] == sent;
    for j := 0 to |targets|
      invariant site.Value() == v
      invariant posts == PostsOf(Attempts(v, sent + targets[..j], t, ctx))
      invariant run.result == Apply(result0, v.failOnError, Attempts(v, sent + targets[..j], t, ctx))
    {
      posts := SendNext(run, t, site, v, sent + targets[..j], targets[j], host, posts, result0);
      assert sent + targets[..j + 1] == (sent + targets[..j]) + [targets[j]];
    }
    assert targets[..|targets|] == targets;
  }

  /** One send of the loop, extending the requests and the result of the sends `done` before it. */
  method SendNext(run: Run, t: NotificationType, site: HubotSite, ghost v: SiteValue, ghost done: seq<Target>,
                  target: Target, host: Host, posts0: seq<Post>, ghost result0: Option<J.BuildResult>)
    returns (posts: seq<Post>)
    requires site.Value() == v
    requires posts0 == PostsOf(Attempts(v, done, t, Context(run.causes, run.env, host)))
    requires run.result == Apply(result0, v.failOnError, Attempts(v, done, t, Context(run.causes, run.env, host)))
    modifies run
    ensures site.Value() == v
    ensures posts == PostsOf(Attempts(v, done + [target], t, Context(run.causes, run.env, host)))
    ensures run.result == Apply(result0, v.failOnError, Attempts(v, done + [target], t, Context(run.causes, run.env, host)))
  {
    var post := SendTo(run, t, site, target, host);
    posts := posts0 + (if post.Some? then [post.value] else []);
    SendStep(v, done, target, t, Context(run.causes, run.env, host), result0);
  }

  /** One more target adds its request, if any, and its effect on the result. */
  lemma SendStep(v: SiteValue, xs: seq<Target>, y: Target, t: NotificationType, ctx: Context,
                 result0: Option<J.BuildResult>)
    ensures var a := AttemptOf(v, y, t, ctx);
      var before := Attempts(v, xs, t, ctx);
      var after := Attempts(v, xs + [y], t, ctx);
      && PostsOf(after) == PostsOf(before) + (if a.post.Some? then [a.post.value] else [])
      && Apply(result0, v.failOnError, after) ==
         if a.failure.Some? && v.failOnError then J.Worsen(Apply(result0, v.failOnError, before), J.Failure)
         else Apply(result0, v.failOnError, before)
  {
    var after := Attempts(v, xs + [y], t, ctx);
    assert after[..|after| - 1] == Attempts(v, xs, t, ctx);
  }

  /**
   * The private `sendMessage` on a stored site: the request it made, and
   * FAILURE set on the build when it failed under fail-on-error.
   */
  method SendTo(run: Run, t: NotificationType, site: HubotSite, target: Target, host: Host)
    returns (post: Option<Post>)
    modifies run
    ensures var a := AttemptOf(site.Value(), target, t, Context(run.causes, run.env, host));
      && post == a.post
      && run.result == if a.failure.Some? && site.failOnError then J.Worsen(old(run.result), J.Failure) else old(run.result)
  {
    var clone := site.Clone();
    if FixEmpty(target.roomName).Some? {
      clone.SetRoom(target.roomName);
      clone.SetRoomPrefix(None);
    }
    assert clone.Value() == TargetSite(site.Value(), target.roomName);
    var a := SendThrough(clone.Value(), target.config, t, run.causes, run.env, host, site.failOnError);
    post := a.post;
    if a.failure.Some? && site.failOnError {
      run.SetResult(J.Failure);
    }
  }

  /** The body of `sendMessage`'s `try` once the copy is prepared; an exception ends it early. */
  method SendThrough(clone: SiteValue, config: Config, t: NotificationType, causes: seq<J.Cause>, env: J.EnvVars,
                     host: Host, failOnError: bool)
    returns (a: Attempt)
    ensures a == SendOn(clone, config, t, Context(causes, env, host), failOnError)
  {
    var service := NewService(clone);
    if service.Err? {
      return Attempt(None, Some(service.error));
    }
    var userName := PrepareBuildUserName(Some(causes), env);
    var userId := PrepareBuildUserId(Some(causes));
    var tokens := ExpandMacros(config.tokens, host.expand);
    var cause := PrepareBuildCause(Some(causes));
    if cause.Err? {
      return Attempt(None, Some(cause.error));
    }
    var message := EventMessage(t, Context(causes, env, host), tokens, cause.value, userId, userName);
    a := Delivered(clone, service.value, message, failOnError, host.endpoint);
  }

  /** The loop over the site's rules for an event of type `t`. */
  method Notify(run: Run, t: NotificationType, site: HubotSite, host: Host)
    returns (posts: seq<Post>, thrown: Option<Throwable>)
    requires site.notifications.Some?
    modifies run
    ensures var p := PlanOf(site.notifications.value, t);
      var attempts := Attempts(site.Value(), p.targets, t, Context(run.causes, run.env, host));
      && posts == PostsOf(attempts)
      && thrown == p.thrown
      && run.result == Apply(old(run.result), site.failOnError, attempts)
  {
    ghost var v := site.Value();
    ghost var ctx := Context(run.causes, run.env, host);
    ghost var result0 := run.result;
    var configs := site.notifications.value;
    posts, thrown := [], None;
    for i := 0 to |configs|
      invariant site.Value() == v
      invariant PlanOf(configs[..i], t).thrown.None?
      invariant posts == PostsOf(Attempts(v, PlanOf(configs[..i], t).targets, t, ctx))
      invariant run.result == Apply(result0, v.failOnError, Attempts(v, PlanOf(configs[..i], t).targets, t, ctx))
    {
      ghost var done := PlanOf(configs[..i], t);
      PlanStep(configs, i, t);
      var applies := Selects(configs[i], t);
      if applies.Err? {
        thrown := Some(applies.error);
        PlanAfterThrow(configs, i + 1, t);
        return;
      }
      if applies.value {
        posts := SendEach(run, t, site, done.targets, RoomTargets(configs[i]), host, posts, result0);
      }
    }
    assert configs[..|configs|] == configs;
  }

  /** The rule at `i` extends the plan of the rules before it. */
  lemma PlanStep(configs: seq<Config>, i: nat, t: NotificationType)
    requires i < |configs|
    ensures var p := PlanOf(configs[..i], t);
      PlanOf(configs[..i + 1], t) ==
        if p.thrown.Some? then p
        else match Selects(configs[i], t)
          case Err(e) => Plan(p.targets, Some(e))
          case Ok(applies) => if applies then Plan(p.targets + RoomTargets(configs[i]), None) else p
  {
    assert configs[..i + 1][..i] == configs[..i];
  }

  /** Once a rule has thrown, the plan of any longer prefix is the same. */
  lemma {:induction false} PlanAfterThrow(configs: seq<Config>, i: nat, t: NotificationType)
    requires 0 < i <= |configs|
    requires PlanOf(configs[..i], t).thrown.Some?
    ensures PlanOf(configs, t) == PlanOf(configs[..i], t)
    decreases |configs| - i
  {
    if i < |configs| {
      assert configs[..i + 1][..i] == configs[..i];
      PlanAfterThrow(configs, i + 1, t);
    } else {
      assert configs[..i] == configs;
    }
  }

  /**
   * `onStarted`: the rules for build starts of the job's site are served;
   * the site itself and every stored site are left as they were.
   */
  method OnStarted(run: Run, globals: seq<HubotSite>, host: Host) returns (posts: seq<Post>, thrown: Option<Throwable>)
    modifies run
    ensures var site := ResolveForJob(Job(run.job.property, old(Snapshot(run.job.ancestors))), old(Values(globals)));
      var p := Notified(site, Started);
      var attempts := if site.None? then [] else Attempts(site.value, p.targets, Started, Context(run.causes, run.env, host));
      && posts == PostsOf(attempts)
      && thrown == p.thrown
      && run.result == Apply(old(run.result), FailOnError(site), attempts)
  {
    var site := GetForJob(run.job, globals);
    ghost var resolved := ResolveForJob(Job(run.job.property, old(Snapshot(run.job.ancestors))), old(Values(globals)));
    if site != null && site.notifications.Some? {
      posts, thrown := Notify(run, Started, site, host);
      assert site.Value() == resolved.value;
    } else {
      posts, thrown := [], None;
    }
  }

  /**
   * `onCompleted`: for a build with a predecessor, the rules of the type
   * its results give are served; a build without a result throws before
   * any send.
   */
  method OnCompleted(run: Run, globals: seq<HubotSite>, host: Host) returns (posts: seq<Post>, thrown: Option<Throwable>)
    modifies run
    ensures var site := ResolveForJob(Job(run.job.property, old(Snapshot(run.job.ancestors))), old(Values(globals)));
      var p := Completed(site, run.previous, old(run.result));
      var t := CompletionType(run.previous, old(run.result));
      var attempts := if site.None? || t.None? then []
                      else Attempts(site.value, p.targets, t.value, Context(run.causes, run.env, host));
      && posts == PostsOf(attempts)
      && thrown == p.thrown
      && run.result == Apply(old(run.result), FailOnError(site), attempts)
  {
    var site := GetForJob(run.job, globals);
    ghost var resolved := ResolveForJob(Job(run.job.property, old(Snapshot(run.job.ancestors))), old(Values(globals)));
    posts, thrown := [], None;
    if run.previous.Some? {
      var t := FromResults(run.previous.value, run.result);
      if t.Err? {
        thrown := Some(t.error);
      } else if site != null && site.notifications.Some? {
        posts, thrown := Notify(run, t.value, site, host);
        assert site.Value() == resolved.value;
      }
    }
  }
}
