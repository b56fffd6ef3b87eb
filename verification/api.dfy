/**
 * The wire payload (`api/Message.java`, with the fields its builders set),
 * the uniform response (`api/ResponseData.java`) and the completed HTTP
 * exchange the response is made from.
 */
module Api {
  import opened Wrappers
  import opened Platform

  /** The JSON body posted to the bot; every field left unset by a builder is `null`. */
  datatype Message = Message(
    message: Option<string>,
    status: Option<string>,
    extraData: Option<map<string, string>>,
    userName: Option<string>,
    buildCause: Option<string>,
    userId: Option<string>,
    stepName: Option<string>,
    envVars: Option<map<string, string>>,
    tokens: Option<map<string, Option<string>>>,
    ts: Option<int>,
    id: Option<string>,
    submitter: Option<string>,
    submitterParameter: Option<string>,
    ok: Option<string>)

  /** `Message.builder().build()` with nothing set. */
  const EmptyMessage: Message :=
    Message(None, None, None, None, None, None, None, None, None, None, None, None, None, None)

  /** What every send returns: never an exception, always this record. */
  datatype ResponseData<T> = ResponseData(
    successful: bool,
    code: int,
    message: Option<string>,
    error: Option<string>,
    data: Option<T>)

  /**
   * A completed HTTP exchange as the client library reports it: the status
   * code and line, the decoded body, and the error body, whose reading may
   * itself fail.
   */
  datatype HttpResponse<T> = HttpResponse(
    code: int,
    statusLine: string,
    body: Option<T>,
    errorBody: Result<string, Throwable>)

  /** The client library counts every 2xx status as successful. */
  predicate IsSuccessful<T>(response: HttpResponse<T>) {
    200 <= response.code < 300
  }
}
