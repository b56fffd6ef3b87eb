/**
 * Values owned by the Jenkins host that the plugin reads: build results,
 * the causes that triggered a build, and environment variables.
 */
module Jenkins {
  import opened Wrappers

  /** `hudson.model.Result`; an absent result is `None` where it may occur. */
  datatype BuildResult = Success | Unstable | Failure | NotBuilt | Aborted

  /** `Result.toString()`. */
  function ResultName(b: BuildResult): string {
    match b
    case Success => "SUCCESS"
    case Unstable => "UNSTABLE"
    case Failure => "FAILURE"
    case NotBuilt => "NOT_BUILT"
    case Aborted => "ABORTED"
  }

  /** The severity order of results, best first. */
  function Ordinal(b: BuildResult): nat {
    match b
    case Success => 0
    case Unstable => 1
    case Failure => 2
    case NotBuilt => 3
    case Aborted => 4
  }

  /**
   * `Run.setResult`: a result can only get worse, so the new result is the
   * worse of the current one (none while a build runs) and the one set.
   */
  function Worsen(current: Option<BuildResult>, r: BuildResult): (n: Option<BuildResult>)
    ensures n.Some?
    ensures n.value == r || n == current
    ensures Ordinal(r) <= Ordinal(n.value)
    ensures current.Some? ==> Ordinal(current.value) <= Ordinal(n.value)
  {
    if current.None? || Ordinal(r) > Ordinal(current.value) then Some(r) else current
  }

  /** Setting the same result twice is setting it once. */
  lemma WorsenIdempotent(current: Option<BuildResult>, r: BuildResult)
    ensures Worsen(Worsen(current, r), r) == Worsen(current, r)
  {
  }

  /** A failure marks a running or succeeded build failed, but never hides an abort. */
  lemma FailureOverrides(current: Option<BuildResult>)
    ensures current == Some(Aborted) ==> Worsen(current, Failure) == Some(Aborted)
    ensures current == Some(NotBuilt) ==> Worsen(current, Failure) == Some(NotBuilt)
    ensures current.None? || current.value in {Success, Unstable, Failure} ==> Worsen(current, Failure) == Some(Failure)
  {
  }

  /**
   * `hudson.model.Cause`: a user-started build, a build started by upstream
   * builds (with their own causes), or any other cause, known only by the
   * simple name of its class.
   */
  datatype Cause =
    | UserIdCause(userName: string, userId: Option<string>)
    | UpstreamCause(upstreamCauses: seq<Cause>)
    | OtherCause(simpleName: string)

  /** `EnvVars` as a map; `get` of a missing key is `null`. */
  type EnvVars = map<string, string>

  function EnvGet(env: EnvVars, key: string): (r: Option<string>)
    ensures r.Some? <==> key in env
    ensures r.Some? ==> r.value == env[key]
  {
    if key in env then Some(env[key]) else None
  }
}
