/**
 * Notification types (`config/notifications/Type.java`) and the per-site
 * notification rules (`config/notifications/Config.java`).
 */
module Notifications {
  import opened Wrappers
  import opened Platform
  import J = Jenkins

  /** The seven event types a site can be notified about. */
  datatype NotificationType = Started | Aborted | Success | Failure | NotBuilt | BackToNormal | Unstable

  /** `Type.name()`, sent as a message's `status`. */
  function Name(t: NotificationType): string {
    match t
    case Started => "STARTED"
    case Aborted => "ABORTED"
    case Success => "SUCCESS"
    case Failure => "FAILURE"
    case NotBuilt => "NOT_BUILT"
    case BackToNormal => "BACK_TO_NORMAL"
    case Unstable => "UNSTABLE"
  }

  /**
   * The message key behind `Type.getStatus()`: each constant reads one entry
   * of the plugin's localised message bundle.
   */
  function StatusKey(t: NotificationType): string {
    match t
    case Started => "Started"
    case Aborted => "Aborted"
    case Success => "Success"
    case Failure => "Failure"
    case NotBuilt => "NotBuilt"
    case BackToNormal => "BackToNormal"
    case Unstable => "Unstable"
  }

  /** `Type.getStatus()`; the bundle lookup is a parameter. */
  function Status(t: NotificationType, localize: string -> string): string {
    localize(StatusKey(t))
  }

  /** No two types share a name or a status message. */
  lemma TagsDistinct(t1: NotificationType, t2: NotificationType)
    ensures t1 != t2 ==> Name(t1) != Name(t2) && StatusKey(t1) != StatusKey(t2)
  {
  }

  /**
   * `Type.fromResults`: classifies a completed build from the previous
   * build's result and its own. A missing current result is an error,
   * never a default, and `Started` is never produced.
   */
  function FromResults(previous: Option<J.BuildResult>, current: Option<J.BuildResult>): (r: Result<NotificationType, Throwable>)
    ensures r.Err? <==> current.None?
    ensures r.Err? ==> r.error == IllegalState("Unable to determine notification type")
    ensures r.Ok? ==> r.value != Started
  {
    match current
    case None => Err(IllegalState("Unable to determine notification type"))
    case Some(c) =>
      if c == J.BuildResult.Aborted then Ok(Aborted)
      else if c == J.BuildResult.Failure then Ok(Failure)
      else if c == J.BuildResult.NotBuilt then Ok(NotBuilt)
      else if c == J.BuildResult.Unstable then Ok(Unstable)
      else if previous.Some? && previous.value != J.BuildResult.Success then Ok(BackToNormal)
      else Ok(Success)
  }

  /**
   * Every present result is classified. The type is `BackToNormal` exactly
   * when a success follows a present non-success result (aborted and not-built
   * included); otherwise it is the type named like the current result,
   * whatever the previous result was.
   */
  lemma ClassificationFollowsCurrent(previous: Option<J.BuildResult>, current: J.BuildResult)
    ensures FromResults(previous, Some(current)).Ok?
    ensures var t := FromResults(previous, Some(current)).value;
      && (t == BackToNormal <==> current == J.BuildResult.Success && previous.Some? && previous.value != J.BuildResult.Success)
      && (t != BackToNormal ==> Name(t) == J.ResultName(current))
  {
  }

  /** A notification rule of a site. */
  datatype Config = Config(
    notifyEnabled: bool,
    roomNames: Option<string>,
    notificationType: Option<NotificationType>,
    tokens: Option<string>)
}
