/**
 * `steps/SendStep.java` and `steps/ApproveStep.java`: the `hubotSend` and
 * `hubotApprove` pipeline steps. Both validate with `verifyCommon`, post one
 * message when validation passes, and log the response, which aborts the
 * step when it is unsuccessful and fail-on-error is on; the approve step
 * then pauses the build on an input gate.
 */
module Steps {
  import opened Wrappers
  import opened Platform
  import opened JavaText
  import opened Jenkins
  import opened Api
  import opened Common
  import opened Sites
  import opened Service
  import opened Execution

  /** What a step reaches outside the model: the token expander, the clock and the HTTP exchange. */
  datatype StepHost = StepHost(expand: string -> Option<string>, now: int, endpoint: Endpoint)

  /** How a step ends: with a value, or with an exception. */
  datatype Outcome<+T> = Returned(value: T) | Threw(error: Throwable)

  /** `logResponse`, as the end of a step: the success flag, or the abort. */
  function Logged(response: ResponseData<()>, failOnError: bool): (o: Outcome<bool>)
    ensures o.Threw? <==> !response.successful && failOnError
    ensures o.Threw? ==> o.error == Abort(response.error)
    ensures o.Returned? ==> o.value == response.successful
  {
    match LogResponse(response, failOnError)
    case Err(e) => Threw(e)
    case Ok(r) => Returned(r.successful)
  }

  /** The status a message is sent with: the step's, by default "SUCCESS". */
  function StatusOf(step: StepParams): string {
    if step.status.Some? then step.status.value else "SUCCESS"
  }

  /** The message both steps post: the step's text and data, the build's user and cause, the expanded tokens. */
  function BaseMessage(step: StepParams, s: Fields, env: EnvVars, host: StepHost, kind: StepKind): (m: Message)
    ensures m.message == step.message && m.extraData == step.extraData
    ensures m.status == Some(StatusOf(step)) && m.stepName == Some(StepName(kind))
    ensures m.userName == s.buildUserName && m.userId == s.buildUserId && m.buildCause == s.buildCause
    ensures m.envVars == Some(env) && m.ts == Some(host.now)
    ensures m.tokens == Some(ExpandedTokens(step.tokens, host.expand))
    ensures m.id.None? && m.submitter.None? && m.submitterParameter.None? && m.ok.None?
  {
    EmptyMessage.(message := step.message, userName := s.buildUserName, userId := s.buildUserId,
                  envVars := Some(env), buildCause := s.buildCause, status := Some(StatusOf(step)),
                  tokens := Some(ExpandedTokens(step.tokens, host.expand)), extraData := step.extraData,
                  stepName := Some(StepName(kind)), ts := Some(host.now))
  }

  /** A post through the execution's service; calling a missing service throws. */
  function Posted(s: Fields, m: Message, host: StepHost): Result<ResponseData<()>, Throwable> {
    if s.hubotService.None? then Err(NullPointer()) else Ok(SendMessage(s.hubotService.value, m, host.endpoint))
  }

  // ------------------------------------------------------------- hubotSend

  /** What `hubotSend` did: the message it posted, if any, and how it ended. */
  datatype Sent = Sent(message: Option<Message>, outcome: Outcome<bool>)

  /**
   * `run` of the send step after `verifyCommon` (fields `s`, outcome `c`): an
   * exception propagates; a rejection is logged; a pass posts the message and
   * logs the reply.
   */
  function SendRun(s: Fields, c: Checked, step: StepParams, env: EnvVars, host: StepHost): Sent {
    match c
    case Raised(e) => Sent(None, Threw(e))
    case Rejected(response) => Sent(None, Logged(response, s.failOnError))
    case Passed =>
      var m := BaseMessage(step, s, env, host, Send);
      match Posted(s, m, host)
      case Err(e) => Sent(None, Threw(e))
      case Ok(response) => Sent(Some(m), Logged(response, s.failOnError))
  }

  /** `SendStepExecution.run`: validation on the execution, then `SendRun`. */
  method RunSend(exec: StepExecution, step: StepParams, host: StepHost) returns (sent: Option<Message>, outcome: Outcome<bool>)
    modifies exec, exec.site
    ensures var (post, c) :=
      VerifySpec(old(exec.State()),
                 FoundSite(old(exec.State()).site, Resolve(old(Snapshot(exec.job.ancestors)), old(Values(exec.globals)), step.site), step),
                 step, exec.Context());
      exec.State() == post && Sent(sent, outcome) == SendRun(post, c, step, exec.env, host)
  {
    var c := exec.VerifyCommon(step);
    sent, outcome := SendAfter(exec, c, step, host);
  }

  /** The part of `run` after `verifyCommon`, on the execution's fields. */
  method SendAfter(exec: StepExecution, c: Checked, step: StepParams, host: StepHost)
    returns (sent: Option<Message>, outcome: Outcome<bool>)
    ensures Sent(sent, outcome) == SendRun(exec.State(), c, step, exec.env, host)
  {
    sent := None;
    if c.Raised? {
      return None, Threw(c.error);
    }
    var response := if c.Rejected? then c.response else ErrorResponse("");
    if c.Passed? {
      var tokens := ExpandMacros(step.tokens, host.expand);
      var message := EmptyMessage.(message := step.message, userName := exec.buildUserName, userId := exec.buildUserId,
                                   envVars := Some(exec.env), buildCause := exec.buildCause, status := Some(StatusOf(step)),
                                   tokens := Some(tokens), extraData := step.extraData,
                                   stepName := Some(StepName(Send)), ts := Some(host.now));
      if exec.hubotService.None? {
        return None, Threw(NullPointer());
      }
      sent := Some(message);
      response := SendMessage(exec.hubotService.value, message, host.endpoint);
    }
    outcome := Logged(response, exec.failOnError);
  }

  /** A message is posted exactly when validation passed. */
  lemma SendsOnlyAfterValidation(pre: Fields, found: Option<SiteValue>, step: StepParams, setting: Setting, host: StepHost)
    ensures var (post, c) := VerifySpec(pre, found, step, setting);
      SendRun(post, c, step, setting.env, host).message.Some? <==> c.Passed?
  {
    PassedDerivesBuildData(pre, found, step, setting);
  }

  /**
   * The posted message carries the step's text and status ("SUCCESS" by
   * default) under the step name "SEND", with the build's user and cause.
   */
  lemma SentMessageDescribesStep(s: Fields, c: Checked, step: StepParams, env: EnvVars, host: StepHost)
    ensures var m := SendRun(s, c, step, env, host).message;
      m.Some? ==>
        && m.value.message == step.message
        && m.value.status == Some(if step.status.None? then "SUCCESS" else step.status.value)
        && m.value.stepName == Some("SEND")
        && m.value.userName == s.buildUserName && m.value.buildCause == s.buildCause
        && m.value.tokens == Some(ExpandedTokens(step.tokens, host.expand))
  {
  }

  /**
   * The step returns whether the reply was a success, unless it was not and
   * fail-on-error is on: then it aborts with the reply's error text.
   */
  lemma SendOutcomeFollowsReply(s: Fields, step: StepParams, env: EnvVars, host: StepHost)
    requires s.hubotService.Some?
    ensures var reply := SendMessage(s.hubotService.value, BaseMessage(step, s, env, host, Send), host.endpoint);
      SendRun(s, Passed, step, env, host).outcome ==
        if !reply.successful && s.failOnError then Threw(Abort(reply.error)) else Returned(reply.successful)
  {
  }

  /**
   * A validation failure is returned as `false` without fail-on-error and
   * aborts with the validation message with it.
   */
  lemma RejectedSendReportsValidation(pre: Fields, found: Option<SiteValue>, step: StepParams, setting: Setting, host: StepHost)
    ensures var (post, c) := VerifySpec(pre, found, step, setting);
      c.Rejected? ==>
        SendRun(post, c, step, setting.env, host).outcome ==
          if post.failOnError then Threw(Abort(c.response.error)) else Returned(false)
  {
    RejectionIsErrorResponse(pre, found, step, setting);
  }

  // ---------------------------------------------------------- hubotApprove

  /** A parameter definition of the input gate, by name. */
  datatype Parameter = Parameter(name: string)

  /** `ApproveStep`: the common parameters and those of the input gate. */
  datatype ApproveParams = ApproveParams(
    common: StepParams,
    id: Option<string>,
    submitter: Option<string>,
    ok: Option<string>,
    submitterParameter: Option<string>,
    parameters: Option<seq<Parameter>>)

  /** The input step the approval pauses on, as configured. */
  datatype InputRequest = InputRequest(
    message: Option<string>,
    id: string,
    submitter: Option<string>,
    ok: Option<string>,
    parameters: Option<seq<Parameter>>,
    submitterParameter: Option<string>)

  /** Starting the input step: whether it completed at once, or the exception it threw. */
  type Gate = InputRequest -> Result<bool, Throwable>

  /** The approval's id: the trimmed step id, "Proceed" when it is missing or empty. */
  function StepId(id: Option<string>): (r: string)
    ensures FixEmpty(id).None? ==> r == "Proceed"
    ensures FixEmpty(id).Some? ==> r == Trim(id.value) && IsTrimmedString(r)
  {
    if FixEmpty(id).None? then "Proceed" else Trim(id.value)
  }

  /** No character of `s` is one `trim` removes at the ends. */
  predicate IsTrimmedString(s: string) {
    s == [] || (!IsTrimmed(s[0]) && !IsTrimmed(s[|s| - 1]))
  }

  function Request(step: ApproveParams): InputRequest {
    InputRequest(step.common.message, StepId(step.id), step.submitter, step.ok, step.parameters, step.submitterParameter)
  }

  /** The approval message: the common message plus the gate's id, submitter, submitter parameter and button text. */
  function ApprovalMessage(step: ApproveParams, s: Fields, env: EnvVars, host: StepHost): (m: Message)
    ensures m.message == step.common.message && m.stepName == Some("APPROVE") && m.id == Some(StepId(step.id))
    ensures m.submitter == step.submitter && m.submitterParameter == step.submitterParameter && m.ok == step.ok
  {
    BaseMessage(step.common, s, env, host, Approve).(id := Some(StepId(step.id)), submitter := step.submitter,
                                                     submitterParameter := step.submitterParameter, ok := step.ok)
  }

  /** What `hubotApprove` did: the message it posted, the gate it started, and how it ended. */
  datatype Approved = Approved(message: Option<Message>, request: Option<InputRequest>, outcome: Outcome<bool>)

  /**
   * `start` of the approve step after `verifyCommon`: an exception
   * propagates; the response (the rejection, or the reply to the posted
   * message) is logged, which may abort; then the gate is started, and an
   * exception from it aborts with fail-on-error and returns `false` without.
   */
  function ApproveStart(s: Fields, c: Checked, step: ApproveParams, env: EnvVars, host: StepHost, gate: Gate): (a: Approved)
    ensures a.message.Some? ==> c.Passed? && a.message.value == ApprovalMessage(step, s, env, host)
    ensures a.request.Some? ==> a.request.value == Request(step)
    ensures c.Raised? ==> a == Approved(None, None, Threw(c.error))
  {
    if c.Raised? then Approved(None, None, Threw(c.error))
    else
      var response := ApprovalResponse(s, c, step, env, host);
      var message := if c.Passed? && response.Ok? then Some(ApprovalMessage(step, s, env, host)) else None;
      if response.Err? then Approved(message, None, Threw(response.error))
      else match LogResponse(response.value, s.failOnError)
        case Err(e) => Approved(message, None, Threw(e))
        case Ok(_) => Approved(message, Some(Request(step)), GateOutcome(step, gate, s.failOnError))
  }

  /** The response `logResponse` is given: the rejection, or the reply to the posted approval message. */
  function ApprovalResponse(s: Fields, c: Checked, step: ApproveParams, env: EnvVars, host: StepHost)
    : Result<ResponseData<()>, Throwable>
  {
    if c.Rejected? then Ok(c.response) else Posted(s, ApprovalMessage(step, s, env, host), host)
  }

  /** How the gate ends the step: its result, or on failure an abort under fail-on-error and `false` without. */
  function GateOutcome(step: ApproveParams, gate: Gate, failOnError: bool): Outcome<bool> {
    match gate(Request(step))
    case Ok(done) => Returned(done)
    case Err(e) =>
      if failOnError then Threw(Abort(Some("Error while sending message: " + Str(e.message)))) else Returned(false)
  }

  /** `ApproveStepExecution.start`: validation on the execution, then `ApproveStart`. */
  method StartApprove(exec: StepExecution, step: ApproveParams, host: StepHost, gate: Gate)
    returns (sent: Option<Message>, request: Option<InputRequest>, outcome: Outcome<bool>)
    modifies exec, exec.site
    ensures var (post, c) :=
      VerifySpec(old(exec.State()),
                 FoundSite(old(exec.State()).site, Resolve(old(Snapshot(exec.job.ancestors)), old(Values(exec.globals)), step.common.site), step.common),
                 step.common, exec.Context());
      exec.State() == post && Approved(sent, request, outcome) == ApproveStart(post, c, step, exec.env, host, gate)
  {
    var c := exec.VerifyCommon(step.common);
    sent, request, outcome := ApproveAfter(exec, c, step, host, gate);
  }

  /** The part of `start` after `verifyCommon`, on the execution's fields. */
  method ApproveAfter(exec: StepExecution, c: Checked, step: ApproveParams, host: StepHost, gate: Gate)
    returns (sent: Option<Message>, request: Option<InputRequest>, outcome: Outcome<bool>)
    ensures Approved(sent, request, outcome) == ApproveStart(exec.State(), c, step, exec.env, host, gate)
  {
    if c.Raised? {
      return None, None, Threw(c.error);
    }
    var response;
    sent, response := PostApproval(exec, c, step, host);
    if response.Err? {
      return sent, None, Threw(response.error);
    }
    var logged := LogResponse(response.value, exec.failOnError);
    if logged.Err? {
      return sent, None, Threw(logged.error);
    }
    request, outcome := AwaitInput(exec, step, gate);
  }

  /** Builds and posts the approval message when validation passed; a rejection is handed on as it is. */
  method PostApproval(exec: StepExecution, c: Checked, step: ApproveParams, host: StepHost)
    returns (sent: Option<Message>, response: Result<ResponseData<()>, Throwable>)
    requires !c.Raised?
    ensures response == ApprovalResponse(exec.State(), c, step, exec.env, host)
    ensures sent == if c.Passed? && response.Ok? then Some(ApprovalMessage(step, exec.State(), exec.env, host)) else None
  {
    if c.Rejected? {
      return None, Ok(c.response);
    }
    var tokens := ExpandMacros(step.common.tokens, host.expand);
    var stepId := if FixEmpty(step.id).None? then "Proceed" else Trim(step.id.value);
    var message := EmptyMessage.(message := step.common.message, userName := exec.buildUserName,
                                 userId := exec.buildUserId, buildCause := exec.buildCause,
                                 status := Some(StatusOf(step.common)), tokens := Some(tokens),
                                 extraData := step.common.extraData, envVars := Some(exec.env),
                                 stepName := Some(StepName(Approve)), ts := Some(host.now),
                                 id := Some(stepId), submitter := step.submitter,
                                 submitterParameter := step.submitterParameter, ok := step.ok);
    assert message == ApprovalMessage(step, exec.State(), exec.env, host);
    if exec.hubotService.None? {
      return None, Err(NullPointer());
    }
    sent := Some(message);
    response := Ok(SendMessage(exec.hubotService.value, message, host.endpoint));
  }

  /** Starts the input gate with the step's message, id, submitter, button text and parameters. */
  method AwaitInput(exec: StepExecution, step: ApproveParams, gate: Gate)
    returns (request: Option<InputRequest>, outcome: Outcome<bool>)
    ensures request == Some(Request(step))
    ensures outcome == GateOutcome(step, gate, exec.failOnError)
  {
    var input := InputRequest(step.common.message, if FixEmpty(step.id).Some? then Trim(step.id.value) else "Proceed",
                              step.submitter, step.ok, step.parameters, step.submitterParameter);
    request := Some(input);
    var started := gate(input);
    if started.Err? {
      if exec.failOnError {
        return request, Threw(Abort(Some("Error while sending message: " + Str(started.error.message))));
      }
      return request, Returned(false);
    }
    outcome := Returned(started.value);
  }

  /** The message and the gate share the id: "Proceed" by default, otherwise the trimmed step id. */
  lemma ApprovalIdDefaultsToProceed(s: Fields, c: Checked, step: ApproveParams, env: EnvVars, host: StepHost, gate: Gate)
    ensures var a := ApproveStart(s, c, step, env, host, gate);
      && (a.message.Some? ==> a.message.value.id == Some(StepId(step.id)) && a.message.value.stepName == Some("APPROVE"))
      && (a.request.Some? ==> a.request.value.id == StepId(step.id))
      && (FixEmpty(step.id).None? ==> StepId(step.id) == "Proceed")
  {
  }

  /** A non-empty id of blanks only is not defaulted: it is trimmed to the empty id. */
  lemma BlankIdIsNotDefaulted(id: string)
    requires id != [] && forall i :: 0 <= i < |id| ==> IsTrimmed(id[i])
    ensures StepId(Some(id)) == ""
  {
  }

  /**
   * An unsuccessful response under fail-on-error aborts with the response's
   * error text before the gate is started.
   */
  lemma ApprovalAbortsBeforeGate(s: Fields, c: Checked, step: ApproveParams, env: EnvVars, host: StepHost, gate: Gate)
    requires s.failOnError && !c.Raised?
    requires c.Rejected? ==> !c.response.successful
    requires c.Passed? ==>
      s.hubotService.Some? &&
      !SendMessage(s.hubotService.value, ApprovalMessage(step, s, env, host), host.endpoint).successful
    ensures var a := ApproveStart(s, c, step, env, host, gate);
      var response := if c.Rejected? then c.response
                      else SendMessage(s.hubotService.value, ApprovalMessage(step, s, env, host), host.endpoint);
      a.request.None? && a.outcome == Threw(Abort(response.error))
  {
  }

  /**
   * Without fail-on-error the gate is always started once validation did
   * not throw, and its failure makes the step return `false`.
   */
  lemma GateFailureWithoutFailOnError(s: Fields, c: Checked, step: ApproveParams, env: EnvVars, host: StepHost, gate: Gate)
    requires !s.failOnError && !c.Raised? && (c.Passed? ==> s.hubotService.Some?)
    ensures var a := ApproveStart(s, c, step, env, host, gate);
      && a.request == Some(Request(step))
      && (gate(Request(step)).Err? ==> a.outcome == Returned(false))
      && (gate(Request(step)).Ok? ==> a.outcome == Returned(gate(Request(step)).value))
  {
  }

  /** The execution a new approve step runs with, before any service is injected. */
  function Initial(): Fields {
    Fields(None, true, None, None, None, None, None, None, None)
  }

  /**
   * With a room but an empty `HUBOT_URL` and no site, the approval aborts
   * with the URL message; nothing is posted and the gate is not started.
   */
  lemma ApprovalWithoutUrlAborts(step: ApproveParams, setting: Setting, host: StepHost, gate: Gate)
    requires step.common.message == Some("message") && step.common.room == Some("room")
    requires step.common.url.None? && step.common.failOnError.None?
    requires EnvGet(setting.env, "HUBOT_URL") == Some("") && EnvGet(setting.env, "HUBOT_FAIL_ON_ERROR").None?
    ensures var (post, c) := VerifySpec(Initial(), None, step.common, setting);
      ApproveStart(post, c, step, setting.env, host, gate) == Approved(None, None, Threw(Abort(Some(NoUrl))))
  {
  }

  /**
   * With a URL but no room anywhere, the approval aborts with the room
   * message, whatever the URL.
   */
  lemma ApprovalWithoutRoomAborts(step: ApproveParams, setting: Setting, host: StepHost, gate: Gate)
    requires step.common.message == Some("message") && step.common.room.None?
    requires step.common.url == Some("http://localhost:9090/") && step.common.failOnError.None?
    requires EnvGet(setting.env, "HUBOT_DEFAULT_ROOM").None? && EnvGet(setting.env, "HUBOT_FAIL_ON_ERROR").None?
    ensures var (post, c) := VerifySpec(Initial(), None, step.common, setting);
      ApproveStart(post, c, step, setting.env, host, gate) == Approved(None, None, Threw(Abort(Some(NoRoom))))
  {
    RoomErrorOverridesUrlError(Initial(), step.common, setting);
  }

  /** An empty approval message aborts with the message error. */
  lemma ApprovalWithEmptyMessageAborts(step: ApproveParams, setting: Setting, host: StepHost, gate: Gate)
    requires step.common.message == Some("")
    ensures var (post, c) := VerifySpec(Initial(), None, step.common, setting);
      ApproveStart(post, c, step, setting.env, host, gate) == Approved(None, None, Threw(Abort(Some(NoMessage))))
  {
  }

  /**
   * With "false" as fail-on-error, a failed validation is not fatal: the
   * gate is started, and its failure returns `false`.
   */
  lemma ApprovalFailOnErrorFalseReachesGate(step: ApproveParams, setting: Setting, host: StepHost, gate: Gate)
    requires step.common.message == Some("message") && step.common.failOnError == Some("false")
    requires gate(Request(step)).Err?
    ensures var (post, c) := VerifySpec(Initial(), None, step.common, setting);
      c.Rejected? ==> ApproveStart(post, c, step, setting.env, host, gate) == Approved(None, Some(Request(step)), Returned(false))
  {
    FailOnErrorParsedEvenOnError(Initial(), step.common, setting);
  }

  /**
   * A 400 reply whose error body is "fake error." aborts the approval with
   * that text, after the message was posted.
   */
  lemma ApprovalRejectedByHubotAborts(s: Fields, step: ApproveParams, env: EnvVars, host: StepHost, gate: Gate)
    requires s.hubotService.Some? && s.hubotService.value.site.room.Some? && s.failOnError
    requires forall u ::
      host.endpoint(u, ApprovalMessage(step, s, env, host)) == Ok(HttpResponse(400, "Bad Request", None, Ok("fake error.")))
    ensures ApproveStart(s, Passed, step, env, host, gate) ==
      Approved(Some(ApprovalMessage(step, s, env, host)), None, Threw(Abort(Some("fake error."))))
  {
  }

  /**
   * After a successful post, a gate that throws aborts the approval with
   * "Error while sending message: " and the exception's message.
   */
  lemma ApprovalGateFailureAborts(s: Fields, step: ApproveParams, env: EnvVars, host: StepHost, gate: Gate)
    requires s.hubotService.Some? && s.failOnError
    requires SendMessage(s.hubotService.value, ApprovalMessage(step, s, env, host), host.endpoint).successful
    requires gate(Request(step)).Err?
    ensures var e := gate(Request(step)).error;
      ApproveStart(s, Passed, step, env, host, gate).outcome ==
        Threw(Abort(Some("Error while sending message: " + Str(e.message))))
  {
  }

  /**
   * The setting of the approval tests: `HUBOT_URL` is a well-formed
   * "http://localhost:9090/", no room or fail-on-error in the environment,
   * and a `null` cause list.
   */
  predicate TestSetting(setting: Setting) {
    && setting.causes.None?
    && EnvGet(setting.env, "HUBOT_URL") == Some("http://localhost:9090/")
    && EnvGet(setting.env, "HUBOT_DEFAULT_ROOM").None?
    && EnvGet(setting.env, "HUBOT_FAIL_ON_ERROR").None?
    && setting.syntax("http://localhost:9090/")
  }

  /**
   * With an injected service whose bot answers 400 with the error body
   * "fake error.", an approval with a room passes validation, posts its
   * message, and aborts with that text before the gate.
   */
  lemma ApprovalErrorReplyAborts(step: ApproveParams, setting: Setting, svc: HubotService, host: StepHost, gate: Gate)
    requires step.common.message == Some("message") && step.common.room == Some("room")
    requires step.common.url.None? && step.common.failOnError.None?
    requires TestSetting(setting) && svc.site.room.Some?
    requires forall u, m :: host.endpoint(u, m) == Ok(HttpResponse(400, "Bad Request", None, Ok("fake error.")))
    ensures var (post, c) := VerifySpec(Initial().(hubotService := Some(svc)), None, step.common, setting);
      var a := ApproveStart(post, c, step, setting.env, host, gate);
      c.Passed? && a.message.Some? && a.request.None? && a.outcome == Threw(Abort(Some("fake error.")))
  {
    assert EndsWith("http://localhost:9090/", "/");
  }

  /**
   * With an injected service whose bot answers 200, the approval posts its
   * message once; a gate that then throws aborts the step with "Error while
   * sending message: " and the exception's message.
   */
  lemma ApprovalPostsOnceThenGateAborts(step: ApproveParams, setting: Setting, svc: HubotService, host: StepHost, gate: Gate)
    requires step.common.message == Some("message") && step.common.room == Some("room")
    requires step.common.url.None? && step.common.failOnError.None?
    requires TestSetting(setting) && svc.site.room.Some?
    requires forall u, m :: host.endpoint(u, m) == Ok(HttpResponse(200, "OK", None, Ok("")))
    requires gate(Request(step)).Err?
    ensures var (post, c) := VerifySpec(Initial().(hubotService := Some(svc)), None, step.common, setting);
      var a := ApproveStart(post, c, step, setting.env, host, gate);
      && c.Passed? && a.message.Some? && a.request == Some(Request(step))
      && a.outcome == Threw(Abort(Some("Error while sending message: " + Str(gate(Request(step)).error.message))))
  {
    assert EndsWith("http://localhost:9090/", "/");
  }
}
