/**
 * The AppError class hierarchy of backend/src/utils/errors.ts and the other
 * errors that reach the error middleware (thrown `Error`s, store errors).
 */
module AppErrors {
  import opened Wrappers

  /** Which class of the hierarchy an AppError was built by. */
  datatype AppKind =
    | Base
    | Validation
    | Unauthorized
    | Forbidden
    | NotFound
    | InsufficientCredits
    | YouTube
    | Transcription
    | ContentGeneration

  datatype AppError = AppError(kind: AppKind, message: string, statusCode: int, isOperational: bool)

  /** Anything a handler can throw: an AppError, or another error with its `name` and `message`. */
  datatype Error =
    | App(app: AppError)
    | Plain(name: string, message: string)
  {
    function Message(): string {
      match this
      case App(a) => a.message
      case Plain(_, m) => m
    }
  }

  /** `new AppError(message, statusCode = 500)`. */
  function NewAppError(message: string, statusCode: Option<int>): (e: AppError)
    ensures e.message == message && e.isOperational
    ensures statusCode.None? ==> e.statusCode == 500
    ensures statusCode.Some? ==> e.statusCode == statusCode.value
  {
    AppError(Base, message, statusCode.GetOr(500), true)
  }

  function ValidationError(message: string): (e: Error)
    ensures e.App? && e.app.kind == Validation && e.app.statusCode == 400 && e.Message() == message
  {
    App(AppError(Validation, message, 400, true))
  }

  /** `new UnauthorizedError(message = 'Unauthorized')`. */
  function UnauthorizedError(message: Option<string>): (e: Error)
    ensures e.App? && e.app.kind == Unauthorized && e.app.statusCode == 401
    ensures e.Message() == message.GetOr("Unauthorized")
  {
    App(AppError(Unauthorized, message.GetOr("Unauthorized"), 401, true))
  }

  function ForbiddenError(message: Option<string>): (e: Error)
    ensures e.App? && e.app.kind == Forbidden && e.app.statusCode == 403
    ensures e.Message() == message.GetOr("Forbidden")
  {
    App(AppError(Forbidden, message.GetOr("Forbidden"), 403, true))
  }

  function NotFoundError(message: Option<string>): (e: Error)
    ensures e.App? && e.app.kind == NotFound && e.app.statusCode == 404
    ensures e.Message() == message.GetOr("Resource not found")
  {
    App(AppError(NotFound, message.GetOr("Resource not found"), 404, true))
  }

  const InsufficientCreditsMessage: string := "Insufficient credits. Please upgrade your plan."

  function InsufficientCreditsError(): (e: Error)
    ensures e.App? && e.app.kind == InsufficientCredits && e.app.statusCode == 402
    ensures e.Message() == InsufficientCreditsMessage
  {
    App(AppError(InsufficientCredits, InsufficientCreditsMessage, 402, true))
  }

  function YouTubeError(message: string): (e: Error)
    ensures e.App? && e.app.kind == YouTube && e.app.statusCode == 400
    ensures e.Message() == "YouTube Error: " + message
  {
    App(AppError(YouTube, "YouTube Error: " + message, 400, true))
  }

  function TranscriptionError(message: string): (e: Error)
    ensures e.App? && e.app.kind == Transcription && e.app.statusCode == 500
    ensures e.Message() == "Transcription Error: " + message
  {
    App(AppError(Transcription, "Transcription Error: " + message, 500, true))
  }

  function ContentGenerationError(message: string): (e: Error)
    ensures e.App? && e.app.kind == ContentGeneration && e.app.statusCode == 500
    ensures e.Message() == "Content Generation Error: " + message
  {
    App(AppError(ContentGeneration, "Content Generation Error: " + message, 500, true))
  }

  /** The errors built by the subclasses: every one is operational and carries a client or server error status. */
  predicate BuiltBySubclass(e: Error) {
    e.App? && e.app.kind != Base
  }

  lemma SubclassStatuses(m: string, o: Option<string>)
    ensures ValidationError(m).app.statusCode == 400 && YouTubeError(m).app.statusCode == 400
    ensures UnauthorizedError(o).app.statusCode == 401 && InsufficientCreditsError().app.statusCode == 402
    ensures ForbiddenError(o).app.statusCode == 403 && NotFoundError(o).app.statusCode == 404
    ensures TranscriptionError(m).app.statusCode == 500 && ContentGenerationError(m).app.statusCode == 500
  {
  }
}
