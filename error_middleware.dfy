/**
 * The Express error handler of backend/src/middleware/error.middleware.ts:
 * every error that reaches it becomes a status code and a body
 * `{ success: false, error }`. Logging is left out.
 */
module ErrorMiddleware {
  import opened Wrappers
  import opened AppErrors

  datatype ErrorBody = ErrorBody(success: bool, error: string)

  datatype ErrorReply = ErrorReply(status: int, body: ErrorBody)

  /** What a route sends: a body of its own with a status, or the handler's reply for the error passed to `next`. */
  datatype Response<B> = Sent(status: int, body: B) | Errored(reply: ErrorReply) {
    function Status(): int {
      if Sent? then status else reply.status
    }
  }

  const InternalServerError: string := "Internal server error"

  /** The reply for `err`; `production` is `process.env.NODE_ENV === 'production'`. */
  function HandleError(err: Error, production: bool): (r: ErrorReply)
    ensures !r.body.success
    ensures err.App? ==> r.status == err.app.statusCode && r.body.error == err.app.message
    ensures err.Plain? && err.name == "ValidationError" ==> r.status == 400 && r.body.error == err.message
    ensures err.Plain? && err.name != "ValidationError" ==>
      r.status == 500 && r.body.error == (if production then InternalServerError else err.message)
  {
    match err
    case App(a) => ErrorReply(a.statusCode, ErrorBody(false, a.message))
    case Plain(name, message) =>
      if name == "ValidationError" then ErrorReply(400, ErrorBody(false, message))
      else ErrorReply(500, ErrorBody(false, if production then InternalServerError else message))
  }

  /** Outside production the client always sees the error's own message. */
  lemma DevelopmentShowsMessage(err: Error)
    ensures HandleError(err, false).body.error == err.Message()
  {
  }

  /** In production an unknown error's message never reaches the client. */
  lemma ProductionHidesUnknownErrors(name: string, message: string)
    requires name != "ValidationError"
    ensures HandleError(Plain(name, message), true) == ErrorReply(500, ErrorBody(false, InternalServerError))
  {
  }

  /** The status a client sees for each error class is the class's own status code. */
  lemma SubclassReplies(m: string, o: Option<string>, production: bool)
    ensures HandleError(ValidationError(m), production) == ErrorReply(400, ErrorBody(false, m))
    ensures HandleError(YouTubeError(m), production).status == 400
    ensures HandleError(UnauthorizedError(o), production).status == 401
    ensures HandleError(InsufficientCreditsError(), production) == ErrorReply(402, ErrorBody(false, InsufficientCreditsMessage))
    ensures HandleError(ForbiddenError(o), production).status == 403
    ensures HandleError(NotFoundError(o), production).status == 404
    ensures HandleError(TranscriptionError(m), production).status == 500
    ensures HandleError(ContentGenerationError(m), production).body.error == "Content Generation Error: " + m
  {
  }
}
