/**
 * The few Java platform values the plugin relies on: exceptions with their cause
 * chain, and URLs whose well-formedness is decided outside the model.
 */
module Platform {
  import opened Wrappers

  /** A Java exception: its class, its (nullable) message and its (nullable) cause. */
  datatype Throwable = Throwable(className: string, message: Option<string>, cause: Option<Throwable>)

  /** A parsed `java.net.URL`; `spec` is its string form. */
  datatype Url = Url(spec: string)

  /**
   * Whether `new URL(s)` succeeds. The URL grammar is not modelled: every
   * operation that parses a URL takes the predicate as a parameter.
   */
  type UrlSyntax = string -> bool

  function NullPointer(): Throwable {
    Throwable("java.lang.NullPointerException", None, None)
  }

  function RuntimeError(message: string): Throwable {
    Throwable("java.lang.RuntimeException", Some(message), None)
  }

  function IllegalState(message: string): Throwable {
    Throwable("java.lang.IllegalStateException", Some(message), None)
  }

  function ClassCast(): Throwable {
    Throwable("java.lang.ClassCastException", None, None)
  }

  /** `hudson.AbortException`: ends a build step with the given message. */
  function Abort(message: Option<string>): Throwable {
    Throwable("hudson.AbortException", message, None)
  }
}
