/**
 * `util/HubotAbstractSynchronousNonBlockingStepExecution.java`: the state a
 * pipeline step execution builds up, and `verifyCommon`, which validates the
 * step and fills in the room, URL and fail-on-error setting from the step,
 * the job's site or the `HUBOT_*` environment variables.
 */
module Execution {
  import opened Wrappers
  import opened Platform
  import opened JavaText
  import opened Jenkins
  import opened Api
  import opened Common
  import opened Sites
  import opened Service

  /** The parameters every Hubot step shares (`steps/BasicHubotStep.java`); unset ones are `None`. */
  datatype StepParams = StepParams(
    room: Option<string>,
    message: Option<string>,
    failOnError: Option<string>,
    url: Option<string>,
    status: Option<string>,
    site: Option<string>,
    extraData: Option<map<string, string>>,
    tokens: Option<string>)

  /** The execution's fields, as a value; the site is the value of the site object it holds. */
  datatype Fields = Fields(
    hubotService: Option<HubotService>,
    failOnError: bool,
    room: Option<string>,
    buildUserName: Option<string>,
    buildCause: Option<string>,
    buildUserId: Option<string>,
    site: Option<SiteValue>,
    failOnErrorStr: Option<string>,
    url: Option<string>)

  /** How `verifyCommon` ends: `null` (passed), an error response, or an exception it does not catch. */
  datatype Checked = Passed | Rejected(response: ResponseData<()>) | Raised(error: Throwable)

  /** What the execution reads from its context: the build, the environment and URL syntax. */
  datatype Setting = Setting(causes: Option<seq<Cause>>, env: EnvVars, syntax: UrlSyntax)

  const NoMessage := "Hubot: Message is empty or null."
  const NoUrl := "Hubot: HUBOT_URL or step parameter equivalent is empty or null."
  const BadUrl := "Hubot: Malformed HUBOT_URL."
  const NoRoom := "Hubot: HUBOT_DEFAULT_ROOM or step parameter equivalent is empty or null."

  function NoSiteUrl(name: Option<string>): string {
    "Hubot: url is empty or null on site: " + Str(name)
  }

  function NoSiteRoom(name: Option<string>): string {
    "Hubot: Room is empty or null on site: " + Str(name)
  }

  /** The error response for a validation message. */
  function ErrorResponse(text: string): (r: ResponseData<()>)
    ensures !r.successful && r.code == -1 && r.error == Some(text)
  {
    ErrorResponseOfMessage<()>(text);
    BuildErrorResponse(RuntimeError(text))
  }

  // -------------------------------------------------------- without a site

  /** The settings after the fallback to the environment, when no site was found. */
  datatype Fallback = Fallback(
    room: Option<string>,
    url: Option<string>,
    failOnErrorStr: Option<string>,
    failOnError: bool,
    mainUrl: Option<Url>,
    error: Option<string>)

  /**
   * Without a site: each missing step value is read from `HUBOT_URL`,
   * `HUBOT_DEFAULT_ROOM` or `HUBOT_FAIL_ON_ERROR`; the URL must be present
   * and well-formed once sanitised, and the room present, a missing room
   * overriding any URL error; a fail-on-error text, when there is one, sets
   * the flag whether or not there is an error.
   */
  function Siteless(room: Option<string>, url: Option<string>, failOnErrorStr: Option<string>,
                    failOnError: bool, env: EnvVars, syntax: UrlSyntax): (f: Fallback)
    ensures f.room == if room.Some? then room else EnvGet(env, "HUBOT_DEFAULT_ROOM")
    ensures f.url == if url.Some? then url else EnvGet(env, "HUBOT_URL")
    ensures f.failOnErrorStr == if failOnErrorStr.Some? then failOnErrorStr else EnvGet(env, "HUBOT_FAIL_ON_ERROR")
    ensures f.failOnError == if f.failOnErrorStr.Some? then ParseBoolean(f.failOnErrorStr) else failOnError
    ensures f.error.None? <==> f.room.Some? && FixEmpty(f.url).Some? && syntax(SanitizeURL(f.url.value))
    ensures f.room.None? ==> f.error == Some(NoRoom)
    ensures f.room.Some? && FixEmpty(f.url).None? ==> f.error == Some(NoUrl)
    ensures f.room.Some? && FixEmpty(f.url).Some? && !syntax(SanitizeURL(f.url.value)) ==> f.error == Some(BadUrl)
    ensures f.error.None? ==> f.mainUrl == Some(Url(SanitizeURL(f.url.value)))
  {
    var url' := if url.None? then EnvGet(env, "HUBOT_URL") else url;
    var room' := if room.None? then EnvGet(env, "HUBOT_DEFAULT_ROOM") else room;
    var str' := if failOnErrorStr.None? then EnvGet(env, "HUBOT_FAIL_ON_ERROR") else failOnErrorStr;
    var urlCheck: Result<Url, string> :=
      if FixEmpty(url').None? then Err(NoUrl)
      else if syntax(SanitizeURL(url'.value)) then Ok(Url(SanitizeURL(url'.value)))
      else Err(BadUrl);
    var error := if room'.None? then Some(NoRoom) else if urlCheck.Err? then Some(urlCheck.error) else None;
    var failOnError' := if str'.Some? then ParseBoolean(str') else failOnError;
    Fallback(room', url', str', failOnError', if urlCheck.Ok? then Some(urlCheck.value) else None, error)
  }

  /** The site `setHubotService` builds when there is none: only the URL and the room are set. */
  function LocalSite(url: Option<Url>, room: Option<string>): SiteValue {
    SiteValue(false, None, url, room, None, false, false, None)
  }

  // ----------------------------------------------------------- with a site

  /** The found site after the step's overrides, and the validation it gave or the exception it threw. */
  datatype SiteCheck = SiteCheck(site: SiteValue, outcome: Result<Option<string>, Throwable>)

  /**
   * With a site: a step room and a step fail-on-error text override the
   * site's; a site without a URL throws; an empty URL and then an empty
   * room are errors, the room error winning.
   */
  function OnSite(site: SiteValue, room: Option<string>, failOnErrorStr: Option<string>): (c: SiteCheck)
    ensures c.site == site.(room := if room.Some? then room else site.room,
                            failOnError := if failOnErrorStr.Some? then ParseBoolean(failOnErrorStr) else site.failOnError)
    ensures c.outcome.Err? <==> site.url.None?
    ensures c.outcome.Err? ==> c.outcome.error == NullPointer()
    ensures c.outcome.Ok? ==> (c.outcome.value.None? <==> site.url.value.spec != "" && FixEmpty(c.site.room).Some?)
    ensures c.outcome.Ok? && FixEmpty(c.site.room).None? ==> c.outcome.value == Some(NoSiteRoom(site.name))
  {
    var s1 := if room.Some? then site.(room := room) else site;
    var s2 := if failOnErrorStr.Some? then s1.(failOnError := ParseBoolean(failOnErrorStr)) else s1;
    if s2.url.None? then SiteCheck(s2, Err(NullPointer()))
    else
      var e1 := if FixEmpty(Some(s2.url.value.spec)).None? then Some(NoSiteUrl(s2.name)) else None;
      var e2 := if FixEmpty(s2.room).None? then Some(NoSiteRoom(s2.name)) else e1;
      SiteCheck(s2, Ok(e2))
  }

  // --------------------------------------------------------- verifyCommon

  /**
   * Validation once the step's values are in place (`s.site` is the site
   * found, if any): the new fields, the outcome so far, and the URL a
   * siteless service is made for.
   */
  function Validated(s: Fields, setting: Setting): (Fields, Checked, Option<Url>) {
    if s.site.None? then SitelessChecked(s, setting)
    else var (s', c) := SiteChecked(s, s.site.value); (s', c, None)
  }

  /** Validation without a site. */
  function SitelessChecked(s: Fields, setting: Setting): (Fields, Checked, Option<Url>) {
    var f := Siteless(s.room, s.url, s.failOnErrorStr, s.failOnError, setting.env, setting.syntax);
    var s' := s.(room := f.room, url := f.url, failOnErrorStr := f.failOnErrorStr, failOnError := f.failOnError);
    (s', if f.error.Some? then Rejected(ErrorResponse(f.error.value)) else Passed, f.mainUrl)
  }

  /** Validation with the found site `site`. */
  function SiteChecked(s: Fields, site: SiteValue): (Fields, Checked) {
    var c := OnSite(site, s.room, s.failOnErrorStr);
    match c.outcome
    case Err(e) => (s.(site := Some(c.site)), Raised(e))
    case Ok(error) =>
      var s' := s.(site := Some(c.site), room := c.site.room, failOnError := c.site.failOnError);
      (s', if error.Some? then Rejected(ErrorResponse(error.value)) else Passed)
  }

  /** The site a service is made for: the held site, or one of the URL and room. */
  function ServiceSite(s: Fields, mainUrl: Option<Url>): SiteValue {
    if s.site.None? then LocalSite(mainUrl, s.room) else s.site.value
  }

  /** A service for the site, unless one is already set; a site without a URL throws. */
  function WithService(s: Fields, mainUrl: Option<Url>): (Fields, Checked) {
    if s.hubotService.Some? then (s, Passed)
    else match NewService(ServiceSite(s, mainUrl))
      case Err(e) => (s, Raised(e))
      case Ok(svc) => (s.(hubotService := Some(svc)), Passed)
  }

  /** The build's user, user id and cause; deriving the cause may throw. */
  function WithBuildData(s: Fields, setting: Setting): (Fields, Checked) {
    var s' := s.(buildUserName := Some(PrepareBuildUserName(setting.causes, setting.env)),
                 buildUserId := PrepareBuildUserId(setting.causes));
    match BuildCause(setting.causes)
    case Err(e) => (s', Raised(e))
    case Ok(cause) => (s'.(buildCause := cause), Passed)
  }

  /**
   * `verifyCommon`, given the site the step's site name resolves to (or the
   * one held from before when the step names a URL): the new fields and
   * the outcome.
   */
  function VerifySpec(pre: Fields, found: Option<SiteValue>, step: StepParams, setting: Setting): (Fields, Checked) {
    if FixEmpty(step.message).None? then (pre, Rejected(ErrorResponse(NoMessage)))
    else Checks(pre.(room := FixEmpty(step.room), url := FixEmpty(step.url),
                     failOnErrorStr := FixEmpty(step.failOnError), site := found), setting)
  }

  /** Validation, the service and the build data, in turn, stopping at the first that does not pass. */
  function Checks(s: Fields, setting: Setting): (Fields, Checked) {
    var (s1, c1, mainUrl) := Validated(s, setting);
    if !c1.Passed? then (s1, c1)
    else
      var (s2, c2) := WithService(s1, mainUrl);
      if !c2.Passed? then (s2, c2)
      else WithBuildData(s2, setting)
  }

  /** An empty message is reported before anything else is looked at, and no field changes. */
  lemma EmptyMessageRejectedFirst(pre: Fields, found: Option<SiteValue>, step: StepParams, setting: Setting)
    requires step.message.None? || step.message == Some("")
    ensures var (post, c) := VerifySpec(pre, found, step, setting);
      post == pre && c.Rejected? && c.response.error == Some(NoMessage) && !c.response.successful
  {
  }

  /**
   * Without a site, a room missing from both the step and the environment
   * is the error reported, whatever the URL.
   */
  lemma RoomErrorOverridesUrlError(pre: Fields, step: StepParams, setting: Setting)
    requires FixEmpty(step.message).Some?
    requires FixEmpty(step.room).None? && EnvGet(setting.env, "HUBOT_DEFAULT_ROOM").None?
    ensures var (post, c) := VerifySpec(pre, None, step, setting);
      c == Rejected(ErrorResponse(NoRoom)) && post.room.None?
  {
  }

  /**
   * Without a site and with a room, an empty URL and then a malformed one
   * are the errors reported.
   */
  lemma UrlErrorsWithRoom(pre: Fields, step: StepParams, setting: Setting)
    requires FixEmpty(step.message).Some?
    requires FixEmpty(step.room).Some? || EnvGet(setting.env, "HUBOT_DEFAULT_ROOM").Some?
    ensures var url := if FixEmpty(step.url).Some? then FixEmpty(step.url) else EnvGet(setting.env, "HUBOT_URL");
      var c := VerifySpec(pre, None, step, setting).1;
      && (FixEmpty(url).None? ==> c == Rejected(ErrorResponse(NoUrl)))
      && (FixEmpty(url).Some? && !setting.syntax(SanitizeURL(url.value)) ==> c == Rejected(ErrorResponse(BadUrl)))
  {
  }

  /**
   * Without a site, a fail-on-error text (the step's, else the
   * environment's) decides the flag even when validation fails, so a
   * rejected step with "false" does not abort.
   */
  lemma FailOnErrorParsedEvenOnError(pre: Fields, step: StepParams, setting: Setting)
    requires FixEmpty(step.message).Some?
    requires FixEmpty(step.failOnError) == Some("false")
    ensures var (post, c) := VerifySpec(pre, None, step, setting);
      post.failOnErrorStr == Some("false") && (c.Rejected? ==> !post.failOnError)
  {
    assert !EqualsIgnoreCase("false", "true");
  }

  /**
   * Without a site, the step's room and URL win over the environment's, and
   * a passed validation makes the service for exactly that room and the
   * sanitised URL.
   */
  lemma ParametersOverrideEnvironment(pre: Fields, step: StepParams, setting: Setting)
    requires FixEmpty(step.message).Some? && FixEmpty(step.room).Some? && FixEmpty(step.url).Some?
    requires pre.hubotService.None?
    ensures var (post, c) := VerifySpec(pre, None, step, setting);
      && post.room == FixEmpty(step.room) && post.url == FixEmpty(step.url)
      && (c.Passed? ==>
            post.hubotService.Some? &&
            post.hubotService.value.site.room == FixEmpty(step.room) &&
            post.hubotService.value.baseUrl == SanitizeURL(FixEmpty(step.url).value))
  {
    var s := pre.(room := FixEmpty(step.room), url := FixEmpty(step.url),
                  failOnErrorStr := FixEmpty(step.failOnError), site := None);
    var (s1, c1, mainUrl) := Validated(s, setting);
    if c1.Passed? {
      var u := SanitizeURL(FixEmpty(step.url).value);
      assert mainUrl == Some(Url(u));
      SanitizeIdempotent(FixEmpty(step.url).value);
      assert NewService(LocalSite(mainUrl, s1.room)).value.baseUrl == SanitizeURL(u);
    }
  }

  /** The service and build-data steps keep the site, room and flag that validation left. */
  lemma ChecksKeepValidatedSite(s: Fields, setting: Setting)
    ensures var post := Checks(s, setting).0;
      var v := Validated(s, setting).0;
      post.site == v.site && post.room == v.room && post.failOnError == v.failOnError
  {
    var (s1, c1, mainUrl) := Validated(s, setting);
    if c1.Passed? {
      var (s2, c2) := WithService(s1, mainUrl);
      if c2.Passed? {
        var (s3, c3) := WithBuildData(s2, setting);
        assert s3.site == s1.site && s3.room == s1.room && s3.failOnError == s1.failOnError;
      }
    }
  }

  /**
   * With a site found, the step's room and fail-on-error text replace the
   * site's, on the held site as on the execution, and a site without a URL
   * throws.
   */
  lemma SiteParametersOverride(pre: Fields, site: SiteValue, step: StepParams, setting: Setting)
    requires FixEmpty(step.message).Some?
    ensures var (post, c) := VerifySpec(pre, Some(site), step, setting);
      var room := if FixEmpty(step.room).Some? then FixEmpty(step.room) else site.room;
      var flag := if FixEmpty(step.failOnError).Some? then ParseBoolean(FixEmpty(step.failOnError)) else site.failOnError;
      && post.site == Some(site.(room := room, failOnError := flag))
      && (site.url.None? ==> c == Raised(NullPointer()))
      && (site.url.Some? ==> post.room == room && post.failOnError == flag)
  {
    var s := pre.(room := FixEmpty(step.room), url := FixEmpty(step.url),
                  failOnErrorStr := FixEmpty(step.failOnError), site := Some(site));
    assert VerifySpec(pre, Some(site), step, setting) == Checks(s, setting);
    ChecksKeepValidatedSite(s, setting);
    var check := OnSite(site, s.room, s.failOnErrorStr);
    assert Validated(s, setting).0.site == Some(check.site);
    if site.url.None? {
      assert Validated(s, setting).1 == Raised(NullPointer());
    } else {
      assert Validated(s, setting).0.room == check.site.room;
      assert Validated(s, setting).0.failOnError == check.site.failOnError;
    }
  }

  /** A service set beforehand (an injected one) is kept, whatever the outcome. */
  lemma InjectedServiceKept(pre: Fields, found: Option<SiteValue>, step: StepParams, setting: Setting)
    requires pre.hubotService.Some?
    ensures VerifySpec(pre, found, step, setting).0.hubotService == pre.hubotService
  {
    if FixEmpty(step.message).Some? {
      var s := pre.(room := FixEmpty(step.room), url := FixEmpty(step.url),
                    failOnErrorStr := FixEmpty(step.failOnError), site := found);
      var (s1, c1, mainUrl) := Validated(s, setting);
      assert s1.hubotService == pre.hubotService;
    }
  }

  /** A rejection carries the unsuccessful code -1 response with the validation message. */
  lemma RejectionIsErrorResponse(pre: Fields, found: Option<SiteValue>, step: StepParams, setting: Setting)
    ensures var c := VerifySpec(pre, found, step, setting).1;
      c.Rejected? ==>
        !c.response.successful && c.response.code == -1 && c.response.error.Some? &&
        c.response == ErrorResponse(c.response.error.value)
  {
  }

  /**
   * A passed validation leaves a service, a room (non-empty on a site), and
   * the build's user, user id and cause; the cause derivation did not throw.
   */
  lemma PassedDerivesBuildData(pre: Fields, found: Option<SiteValue>, step: StepParams, setting: Setting)
    ensures var (post, c) := VerifySpec(pre, found, step, setting);
      c.Passed? ==>
        && FixEmpty(step.message).Some?
        && post.hubotService.Some?
        && post.room.Some?
        && (found.Some? ==> FixEmpty(post.room).Some? && post.site.Some? && post.site.value.url.Some?)
        && BuildCause(setting.causes).Ok?
        && post.buildCause == BuildCause(setting.causes).value
        && post.buildUserName == Some(PrepareBuildUserName(setting.causes, setting.env))
        && post.buildUserId == PrepareBuildUserId(setting.causes)
  {
    var (post, c) := VerifySpec(pre, found, step, setting);
    if c.Passed? {
      var s := pre.(room := FixEmpty(step.room), url := FixEmpty(step.url),
                    failOnErrorStr := FixEmpty(step.failOnError), site := found);
      var (s1, c1, mainUrl) := Validated(s, setting);
      var (s2, c2) := WithService(s1, mainUrl);
      assert (post, c) == WithBuildData(s2, setting);
      if found.Some? {
        var k := OnSite(found.value, s.room, s.failOnErrorStr);
        assert k.outcome == Ok(None);
      }
    }
  }

  /**
   * A room of "" in `HUBOT_DEFAULT_ROOM` passes validation without a site:
   * only a missing room is refused there, unlike an empty room on a site.
   */
  lemma EmptyEnvironmentRoomPasses(pre: Fields, step: StepParams, setting: Setting)
    requires FixEmpty(step.message).Some? && FixEmpty(step.room).None?
    requires EnvGet(setting.env, "HUBOT_DEFAULT_ROOM") == Some("")
    requires FixEmpty(step.url).Some? && setting.syntax(SanitizeURL(FixEmpty(step.url).value))
    ensures var (post, c) := VerifySpec(pre, None, step, setting);
      !c.Rejected? && post.room == Some("")
  {
  }

  /** The site `verifyCommon` works with: the resolved one when the step has no URL, otherwise the one already held. */
  function FoundSite(held: Option<SiteValue>, resolved: Option<SiteValue>, step: StepParams): Option<SiteValue> {
    if FixEmpty(step.url).None? then resolved else held
  }

  /** A step execution: its context, and the fields `verifyCommon` fills in for the step to use. */
  class StepExecution {
    var hubotService: Option<HubotService>
    var failOnError: bool
    var room: Option<string>
    var buildUserName: Option<string>
    var buildCause: Option<string>
    var buildUserId: Option<string>
    var site: HubotSite?
    var failOnErrorStr: Option<string>
    var url: Option<string>
    const causes: Option<seq<Cause>>
    const env: EnvVars
    const job: Job<HubotSite>
    const globals: seq<HubotSite>
    const syntax: UrlSyntax

    function State(): Fields
      reads this, site
    {
      Fields(hubotService, failOnError, room, buildUserName, buildCause, buildUserId,
             if site == null then None else Some(site.Value()), failOnErrorStr, url)
    }

    function Context(): Setting {
      Setting(causes, env, syntax)
    }

    /** A new execution: fail-on-error is on, and everything else is unset. */
    constructor (causes: Option<seq<Cause>>, env: EnvVars, job: Job<HubotSite>, globals: seq<HubotSite>, syntax: UrlSyntax)
      ensures State() == Fields(None, true, None, None, None, None, None, None, None)
      ensures site == null
      ensures this.causes == causes && this.env == env && this.job == job && this.globals == globals
      ensures this.syntax == syntax
    {
      hubotService := None;
      failOnError := true;
      room := None;
      buildUserName := None;
      buildCause := None;
      buildUserId := None;
      site := null;
      failOnErrorStr := None;
      url := None;
      this.causes := causes;
      this.env := env;
      this.job := job;
      this.globals := globals;
      this.syntax := syntax;
    }

    /** The public `setHubotService`, through which a service is injected. */
    method InjectService(service: HubotService)
      modifies this
      ensures State() == old(State()).(hubotService := Some(service))
      ensures site == old(site)
    {
      hubotService := Some(service);
    }

    /**
     * `verifyCommon`: the new fields and the outcome are those of
     * `VerifySpec` for the site found (a fresh copy when it was looked up).
     */
    method VerifyCommon(step: StepParams) returns (r: Checked)
      modifies this, site
      ensures (State(), r) ==
        VerifySpec(old(State()),
                   FoundSite(old(State()).site, Resolve(old(Snapshot(job.ancestors)), old(Values(globals)), step.site), step),
                   step, Context())
      ensures site != null && site != old(site) ==> fresh(site)
    {
      ghost var pre := State();
      ghost var resolved := Resolve(Snapshot(job.ancestors), Values(globals), step.site);
      if FixEmpty(step.message).None? {
        return Rejected(ErrorResponse(NoMessage));
      }
      // The lookup reads none of the fields assigned beside it, so it is done first.
      if FixEmpty(step.url).None? {
        site := Get(job.ancestors, globals, step.site);
      }
      room := FixEmpty(step.room);
      url := FixEmpty(step.url);
      failOnErrorStr := FixEmpty(step.failOnError);
      ghost var found := FoundSite(pre.site, resolved, step);
      assert State() == pre.(room := FixEmpty(step.room), url := FixEmpty(step.url),
                             failOnErrorStr := FixEmpty(step.failOnError), site := found);
      r := RunChecks();
    }

    /** Validation, the service and the build data. */
    method RunChecks() returns (r: Checked)
      modifies this, site
      ensures site == old(site)
      ensures (State(), r) == Checks(old(State()), Context())
    {
      var mainUrl: Option<Url> := None;
      if site == null {
        r, mainUrl := Fallback();
      } else {
        r := Override();
      }
      if !r.Passed? {
        return;
      }
      r := SetHubotService(mainUrl);
      if !r.Passed? {
        return;
      }
      r := PrepareBuildData();
    }

    /** The siteless branch. */
    method Fallback() returns (r: Checked, mainUrl: Option<Url>)
      requires site == null
      modifies this
      ensures site == null
      ensures (State(), r, mainUrl) == SitelessChecked(old(State()), Context())
    {
      var error: Option<string> := None;
      mainUrl := None;
      if url.None? {
        url := EnvGet(env, "HUBOT_URL");
      }
      if room.None? {
        room := EnvGet(env, "HUBOT_DEFAULT_ROOM");
      }
      if failOnErrorStr.None? {
        failOnErrorStr := EnvGet(env, "HUBOT_FAIL_ON_ERROR");
      }
      if FixEmpty(url).None? {
        error := Some(NoUrl);
      } else if syntax(SanitizeURL(url.value)) {
        mainUrl := Some(Url(SanitizeURL(url.value)));
      } else {
        error := Some(BadUrl);
      }
      if room.None? {
        error := Some(NoRoom);
      }
      if failOnErrorStr.Some? {
        failOnError := ParseBoolean(failOnErrorStr);
      }
      r := if error.Some? then Rejected(ErrorResponse(error.value)) else Passed;
    }

    /** The site branch; the overrides change the held site. */
    method Override() returns (r: Checked)
      requires site != null
      modifies this, site
      ensures site == old(site)
      ensures (State(), r) == SiteChecked(old(State()), old(site.Value()))
    {
      ghost var pre := State();
      ghost var c := OnSite(site.Value(), room, failOnErrorStr);
      if room.Some? {
        site.SetRoom(room);
      }
      if failOnErrorStr.Some? {
        site.SetFailOnError(ParseBoolean(failOnErrorStr));
      }
      assert site.Value() == c.site;
      assert State() == pre.(site := Some(c.site));
      var v := site.Value();
      if v.url.None? {
        assert c.outcome == Err(NullPointer());
        assert SiteChecked(pre, old(site.Value())) == (pre.(site := Some(c.site)), Raised(NullPointer()));
        return Raised(NullPointer());
      }
      var error: Option<string> := None;
      if FixEmpty(Some(v.url.value.spec)).None? {
        error := Some(NoSiteUrl(v.name));
      }
      if FixEmpty(v.room).None? {
        error := Some(NoSiteRoom(v.name));
      }
      assert c.outcome == Ok(error);
      Adopt(v);
      r := if error.Some? then Rejected(ErrorResponse(error.value)) else Passed;
    }

    /** Takes the room and fail-on-error setting of the held site. */
    method Adopt(v: SiteValue)
      modifies this
      ensures site == old(site)
      ensures State() == old(State()).(room := v.room, failOnError := v.failOnError)
    {
      room := v.room;
      failOnError := v.failOnError;
    }

    /** The private `setHubotService`: a service for the held site, or for a site of the URL and room. */
    method SetHubotService(mainUrl: Option<Url>) returns (r: Checked)
      modifies this
      ensures site == old(site)
      ensures (State(), r) == WithService(old(State()), mainUrl)
    {
      r := Passed;
      if hubotService.None? {
        var service := NewService(if site == null then LocalSite(mainUrl, room) else site.Value());
        if service.Err? {
          return Raised(service.error);
        }
        hubotService := Some(service.value);
      }
    }

    /** The build user, user id and cause. */
    method PrepareBuildData() returns (r: Checked)
      modifies this
      ensures site == old(site)
      ensures (State(), r) == WithBuildData(old(State()), Context())
    {
      buildUserName := Some(PrepareBuildUserName(causes, env));
      buildUserId := PrepareBuildUserId(causes);
      var cause := PrepareBuildCause(causes);
      if cause.Err? {
        return Raised(cause.error);
      }
      buildCause := cause.value;
      r := Passed;
    }
  }
}
