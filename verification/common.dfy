/**
 * The helpers of `util/Common.java`: URL sanitising, exception and response
 * normalisation, build user and cause derivation, token expansion and the
 * fail-on-error policy.
 */
module Common {
  import opened Wrappers
  import opened Platform
  import opened JavaText
  import opened Jenkins
  import opened Api

  // ---------------------------------------------------------------- URLs

  /** `sanitizeURL`: appends "/" unless the URL already ends with one. */
  function SanitizeURL(url: string): (r: string)
    ensures EndsWith(r, "/")
    ensures EndsWith(url, "/") ==> r == url
    ensures |url| <= |r| <= |url| + 1 && r[..|url|] == url
  {
    if EndsWith(url, "/") then url else url + "/"
  }

  lemma SanitizeIdempotent(url: string)
    ensures SanitizeURL(SanitizeURL(url)) == SanitizeURL(url)
  {
  }

  // ---------------------------------------------------------- exceptions

  /** The exception followed by its causes, outermost first. */
  function CauseChain(t: Throwable): (r: seq<Throwable>)
    ensures |r| >= 1 && r[0] == t
    decreases t
  {
    match t.cause
    case None => [t]
    case Some(c) => [t] + CauseChain(c)
  }

  /** `getRootCause`: follows `getCause()` until an exception has none. */
  function GetRootCause(t: Throwable): (r: Throwable)
    ensures r.cause.None?
    decreases t
  {
    match t.cause
    case None => t
    case Some(c) => GetRootCause(c)
  }

  /**
   * The root cause is the last link of the cause chain, and it is the only
   * link without a cause.
   */
  lemma {:induction false} RootCauseIsLastLink(t: Throwable)
    ensures var chain := CauseChain(t);
      && GetRootCause(t) == chain[|chain| - 1]
      && forall i :: 0 <= i < |chain| - 1 ==> chain[i].cause.Some?
    decreases t
  {
    match t.cause
    case None =>
    case Some(c) =>
      RootCauseIsLastLink(c);
  }

  // ----------------------------------------------------------- responses

  /**
   * `buildErrorResponse`: an unsuccessful response with code -1 whose error
   * is the root cause's message.
   */
  function BuildErrorResponse<T>(e: Throwable): (r: ResponseData<T>)
    ensures !r.successful && r.code == -1
    ensures r.error == GetRootCause(e).message
    ensures r.message.None? && r.data.None?
  {
    ResponseData(false, -1, None, GetRootCause(e).message, None)
  }

  /** An exception raised with a message and no cause becomes exactly that error text. */
  lemma ErrorResponseOfMessage<T>(text: string)
    ensures var r: ResponseData<T> := BuildErrorResponse(RuntimeError(text));
      !r.successful && r.code == -1 && r.error == Some(text)
  {
  }

  /**
   * `parseResponse`: copies success, code and status line; a failure carries
   * the error body and no data, a success the body and no error. Reading the
   * error body can throw, and then so does the parse.
   */
  function ParseResponse<T>(response: HttpResponse<T>): (r: Result<ResponseData<T>, Throwable>)
    ensures r.Err? <==> !IsSuccessful(response) && response.errorBody.Err?
    ensures r.Err? ==> r.error == response.errorBody.error
    ensures r.Ok? ==> && r.value.successful == IsSuccessful(response)
                      && r.value.code == response.code
                      && r.value.message == Some(response.statusLine)
    ensures r.Ok? && r.value.successful ==> r.value.error.None? && r.value.data == response.body
    ensures r.Ok? && !r.value.successful ==> r.value.data.None? && r.value.error == Some(response.errorBody.value)
  {
    if IsSuccessful(response) then
      Ok(ResponseData(true, response.code, Some(response.statusLine), None, response.body))
    else
      match response.errorBody
      case Err(e) => Err(e)
      case Ok(text) => Ok(ResponseData(false, response.code, Some(response.statusLine), Some(text), None))
  }

  // ------------------------------------------------------ build user data

  /**
   * The cause a build was originally triggered by: the first cause, where an
   * upstream cause is replaced by the first of its own causes, and so on.
   * Absent when the walk reaches an empty cause list.
   */
  function OriginCause(causes: seq<Cause>): (r: Option<Cause>)
    ensures r.Some? ==> !r.value.UpstreamCause?
    decreases causes
  {
    if causes == [] then None
    else match causes[0]
      case UpstreamCause(upstream) => OriginCause(upstream)
      case _ => Some(causes[0])
  }

  const AnonymousUser := "anonymous"

  /**
   * `prepareBuildUserName` on a non-null cause list. The CHANGE_AUTHOR check
   * is repeated at each level of the recursion, as the source does.
   */
  function UserNameOf(causes: seq<Cause>, env: EnvVars): (r: string)
    decreases causes
  {
    if FixEmpty(EnvGet(env, "CHANGE_AUTHOR")).Some? then env["CHANGE_AUTHOR"]
    else if causes == [] then AnonymousUser
    else match causes[0]
      case UserIdCause(name, _) => name
      case UpstreamCause(upstream) => UserNameOf(upstream, env)
      case OtherCause(_) => AnonymousUser
  }

  /** `prepareBuildUserName`; the cause list itself may be `null`. */
  function PrepareBuildUserName(causes: Option<seq<Cause>>, env: EnvVars): (r: string)
    ensures FixEmpty(EnvGet(env, "CHANGE_AUTHOR")).Some? ==> r == env["CHANGE_AUTHOR"]
    ensures causes.None? && FixEmpty(EnvGet(env, "CHANGE_AUTHOR")).None? ==> r == AnonymousUser
  {
    if causes.Some? then UserNameOf(causes.value, env)
    else if FixEmpty(EnvGet(env, "CHANGE_AUTHOR")).Some? then env["CHANGE_AUTHOR"]
    else AnonymousUser
  }

  /**
   * The build user is a non-empty CHANGE_AUTHOR if there is one, otherwise
   * the name in the originating user cause, otherwise "anonymous".
   */
  lemma {:induction false} UserNameIsOriginUser(causes: seq<Cause>, env: EnvVars)
    ensures UserNameOf(causes, env) ==
      if FixEmpty(EnvGet(env, "CHANGE_AUTHOR")).Some? then env["CHANGE_AUTHOR"]
      else match OriginCause(causes)
        case Some(UserIdCause(name, _)) => name
        case _ => AnonymousUser
    decreases causes
  {
    if FixEmpty(EnvGet(env, "CHANGE_AUTHOR")).None? && causes != [] && causes[0].UpstreamCause? {
      UserNameIsOriginUser(causes[0].upstreamCauses, env);
    }
  }

  /** `prepareBuildUserId` on a non-null cause list. */
  function UserIdOf(causes: seq<Cause>): (r: Option<string>)
    decreases causes
  {
    if causes == [] then None
    else match causes[0]
      case UserIdCause(_, id) => id
      case UpstreamCause(upstream) => UserIdOf(upstream)
      case OtherCause(_) => None
  }

  /** `prepareBuildUserId`; no CHANGE_AUTHOR override and `null` by default. */
  function PrepareBuildUserId(causes: Option<seq<Cause>>): (r: Option<string>)
    ensures causes.None? ==> r.None?
  {
    if causes.Some? then UserIdOf(causes.value) else None
  }

  /** The build user id is the id in the originating user cause, if any. */
  lemma {:induction false} UserIdIsOriginUser(causes: seq<Cause>)
    ensures UserIdOf(causes) ==
      match OriginCause(causes)
      case Some(UserIdCause(_, id)) => id
      case _ => None
    decreases causes
  {
    if causes != [] && causes[0].UpstreamCause? {
      UserIdIsOriginUser(causes[0].upstreamCauses);
    }
  }

  // ------------------------------------------------------------ build cause

  /** `replace("Cause", "")` applied to the final text. */
  function StripCause(text: Option<string>): (r: Option<string>)
    ensures r.Some? <==> text.Some?
  {
    if text.Some? then Some(RemoveAll(text.value, "Cause")) else None
  }

  /**
   * The text one loop iteration of `prepareBuildCause` assigns for `c`, in
   * a list whose first cause is `first`. A user cause reads the FIRST cause
   * cast to a user cause, which throws when the first cause is of another kind.
   */
  function CauseLabel(c: Cause, first: Cause): Result<Option<string>, Throwable>
    decreases c, 0
  {
    match c
    case UserIdCause(_, _) =>
      if first.UserIdCause? then Ok(Some(first.userName)) else Err(ClassCast())
    case UpstreamCause(upstream) => BuildCauseOfList(upstream)
    case OtherCause(name) => Ok(Some(name))
  }

  /** The exception of the first cause at or after index `from` whose text throws. */
  function FirstLabelError(causes: seq<Cause>, from: nat): Option<Throwable>
    requires from <= |causes|
    decreases causes, 1, |causes| - from
  {
    if from == |causes| then None
    else match CauseLabel(causes[from], causes[0])
      case Err(e) => Some(e)
      case Ok(_) => FirstLabelError(causes, from + 1)
  }

  /**
   * `prepareBuildCause` on a non-null list: empty gives `null`; otherwise the
   * first cause whose text throws ends it with that exception, and if none
   * does, the LAST cause's text decides, with every "Cause" removed.
   */
  function BuildCauseOfList(causes: seq<Cause>): Result<Option<string>, Throwable>
    decreases causes, 2
  {
    if causes == [] then Ok(None)
    else match FirstLabelError(causes, 0)
      case Some(e) => Err(e)
      case None =>
        match CauseLabel(causes[|causes| - 1], causes[0])
        case Ok(text) => Ok(StripCause(text))
        case Err(e) => Err(e)
  }

  /** `prepareBuildCause`; a `null` list gives `null`. */
  function BuildCause(causes: Option<seq<Cause>>): Result<Option<string>, Throwable> {
    if causes.Some? then BuildCauseOfList(causes.value) else Ok(None)
  }

  /** If no text from `from` on throws, nothing is reported; otherwise the first one is. */
  lemma {:induction false} FirstLabelErrorFound(causes: seq<Cause>, from: nat, j: nat)
    requires from <= j <= |causes|
    requires forall k :: from <= k < j ==> CauseLabel(causes[k], causes[0]).Ok?
    ensures j == |causes| ==> FirstLabelError(causes, from).None?
    ensures j < |causes| && CauseLabel(causes[j], causes[0]).Err? ==>
      FirstLabelError(causes, from) == Some(CauseLabel(causes[j], causes[0]).error)
    decreases j - from
  {
    if from < j {
      FirstLabelErrorFound(causes, from + 1, j);
    }
  }

  /**
   * When no cause's text throws, the build cause is the last cause's text
   * with "Cause" removed: earlier causes never decide.
   */
  lemma LastCauseDecides(causes: seq<Cause>, text: Option<string>)
    requires causes != []
    requires forall k :: 0 <= k < |causes| ==> CauseLabel(causes[k], causes[0]).Ok?
    requires CauseLabel(causes[|causes| - 1], causes[0]) == Ok(text)
    ensures BuildCauseOfList(causes) == Ok(StripCause(text))
  {
    FirstLabelErrorFound(causes, 0, |causes|);
  }

  /**
   * A user cause anywhere in a list that does not start with one makes the
   * derivation throw, unless an earlier cause already threw.
   */
  lemma UserCauseAfterOtherThrows(causes: seq<Cause>, j: nat)
    requires j < |causes| && causes[j].UserIdCause? && !causes[0].UserIdCause?
    requires forall k :: 0 <= k < j ==> CauseLabel(causes[k], causes[0]).Ok?
    ensures BuildCauseOfList(causes) == Err(ClassCast())
  {
    FirstLabelErrorFound(causes, 0, j);
  }

  /**
   * The removal is not limited to a suffix: an occurrence of "Cause" after a
   * text that cannot start one goes, and the pass goes on over the rest.
   */
  lemma {:induction false} CauseRemovedAnywhere(a: string, b: string)
    requires 'C' !in a
    ensures RemoveAll(a + "Cause" + b, "Cause") == a + RemoveAll(b, "Cause")
    decreases |a|
  {
    var s := a + "Cause" + b;
    if a == [] {
      assert s[..5] == "Cause" && s[5..] == b;
    } else {
      assert s[0] == a[0] && s[..5][0] != 'C';
      assert s[1..] == a[1..] + "Cause" + b;
      CauseRemovedAnywhere(a[1..], b);
      assert a == [a[0]] + a[1..];
    }
  }

  /**
   * The loop of `prepareBuildCause`: each cause overwrites the text, an
   * upstream cause by recursion into its own causes.
   */
  method PrepareBuildCause(causes: Option<seq<Cause>>) returns (r: Result<Option<string>, Throwable>)
    ensures r == BuildCause(causes)
  {
    if causes.None? {
      return Ok(None);
    }
    r := PrepareBuildCauseOfList(causes.value);
  }

  method PrepareBuildCauseOfList(causes: seq<Cause>) returns (r: Result<Option<string>, Throwable>)
    ensures r == BuildCauseOfList(causes)
    decreases causes
  {
    var buildCause: Option<string> := None;
    if causes == [] {
      return Ok(None);
    }
    for i := 0 to |causes|
      invariant forall k :: 0 <= k < i ==> CauseLabel(causes[k], causes[0]).Ok?
      invariant i > 0 ==> CauseLabel(causes[i - 1], causes[0]) == Ok(buildCause)
    {
      var cause := causes[i];
      match cause {
        case UserIdCause(_, _) =>
          if !causes[0].UserIdCause? {
            FirstLabelErrorFound(causes, 0, i);
            return Err(ClassCast());
          }
          buildCause := Some(causes[0].userName);
        case UpstreamCause(upstream) =>
          var inner := PrepareBuildCauseOfList(upstream);
          if inner.Err? {
            FirstLabelErrorFound(causes, 0, i);
            return inner;
          }
          buildCause := inner.value;
        case OtherCause(name) =>
          buildCause := Some(name);
      }
    }
    FirstLabelErrorFound(causes, 0, |causes|);
    r := Ok(StripCause(buildCause));
  }

  // ------------------------------------------------------- token expansion

  /** The `${name}` text handed to the token-macro expander. */
  function MacroOf(token: string): string {
    "${" + token + "}"
  }

  /** The trimmed comma-separated token names, in order. */
  function TokenNames(tokens: string): (r: seq<string>)
    ensures |r| == |Split(tokens, ',')|
    ensures forall i :: 0 <= i < |r| ==> r[i] == Trim(Split(tokens, ',')[i])
  {
    var parts := Split(tokens, ',');
    seq(|parts|, i requires 0 <= i < |parts| => Trim(parts[i]))
  }

  /**
   * The token map `expandMacros` builds: keyed by the trimmed token names,
   * each bound to its expansion (`None` when the expander fails); empty when
   * the token list is null or empty.
   */
  function ExpandedTokens(tokens: Option<string>, expand: string -> Option<string>): (m: map<string, Option<string>>)
    ensures FixEmpty(tokens).None? ==> m == map[]
    ensures FixEmpty(tokens).Some? ==> forall t :: t in m <==> t in TokenNames(tokens.value)
    ensures forall t :: t in m ==> m[t] == expand(MacroOf(t))
  {
    if FixEmpty(tokens).None? then map[]
    else map t | t in TokenNames(tokens.value) :: expand(MacroOf(t))
  }

  /** `expandMacros`: fills the map one token at a time; the expander is a parameter. */
  method ExpandMacros(tokens: Option<string>, expand: string -> Option<string>)
    returns (m: map<string, Option<string>>)
    ensures m == ExpandedTokens(tokens, expand)
  {
    m := map[];
    if FixEmpty(tokens).Some? {
      m := ExpandEach(TokenNames(tokens.value), expand);
    }
  }

  /** No token key keeps surrounding blanks: trimming a key changes nothing. */
  lemma TokenKeysAreTrimmed(tokens: Option<string>, expand: string -> Option<string>, t: string)
    requires t in ExpandedTokens(tokens, expand)
    ensures Trim(t) == t
    ensures t != [] ==> !IsTrimmed(t[0]) && !IsTrimmed(t[|t| - 1])
  {
    var names := TokenNames(tokens.value);
    var k :| 0 <= k < |names| && names[k] == t;
  }

  /** The loop of `expandMacros` over the token names. */
  method ExpandEach(names: seq<string>, expand: string -> Option<string>)
    returns (m: map<string, Option<string>>)
    ensures forall t :: t in m <==> t in names
    ensures forall t :: t in m ==> m[t] == expand(MacroOf(t))
  {
    m := map[];
    for i := 0 to |names|
      invariant forall t :: t in m <==> t in names[..i]
      invariant forall t :: t in m ==> m[t] == expand(MacroOf(t))
    {
      m := m[names[i] := expand(MacroOf(names[i]))];
      assert names[..i + 1] == names[..i] + [names[i]];
    }
    assert names[..|names|] == names;
  }

  // ------------------------------------------------------ fail-on-error

  /**
   * `logResponse`: hands the response back unchanged, except that an
   * unsuccessful one under fail-on-error aborts with exactly its error text.
   */
  function LogResponse<T>(response: ResponseData<T>, failOnError: bool): (r: Result<ResponseData<T>, Throwable>)
    ensures r.Err? <==> !response.successful && failOnError
    ensures r.Ok? ==> r.value == response
    ensures r.Err? ==> r.error == Abort(response.error)
  {
    if !response.successful && failOnError then Err(Abort(response.error)) else Ok(response)
  }

  /** `Common.STEP`: which kind of step sent a message. */
  datatype StepKind = Send | Approve | Build | Test

  function StepName(k: StepKind): string {
    match k
    case Send => "SEND"
    case Approve => "APPROVE"
    case Build => "BUILD"
    case Test => "TEST"
  }
}
