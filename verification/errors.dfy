/**
 * The service-layer error classes: `ServiceError` and its subclass
 * `ValidationError`, their constructor defaults and their JSON projections.
 */
module Errors {
  import opened Wrappers

  const DefaultMessage: string := "An error occurred while processing your request."
  const DefaultStatus: int := 500
  const DefaultValidationMessage: string := "Invalid arguments."
  const ValidationStatus: int := 400

  /** A JSON value as it appears in an error body. */
  datatype JsonValue = JString(text: string) | JStringArray(items: seq<string>)

  /**
   * An error object of the service layer. `Generic` is a plain ServiceError;
   * `Validation` is a ValidationError, which is also a ServiceError (the two
   * cases of one type), so a check for "is a ServiceError" accepts both.
   */
  datatype ServiceError =
    | Generic(message: string, code: int)
    | Validation(message: string, invalidArgs: seq<string>)
  {
    /** The HTTP status the error carries. */
    function Status(): int {
      if Validation? then ValidationStatus else code
    }

    /** The `name` property set by the constructor. */
    function Name(): string {
      if Validation? then "ValidationError" else "ServiceError"
    }

    /** The body sent to clients: the message, plus the offending fields for a validation error. */
    function ToJSON(): (body: map<string, JsonValue>)
      ensures "status" !in body && "name" !in body
      ensures "message" in body && body["message"] == JString(message)
      ensures Generic? ==> body.Keys == {"message"}
      ensures Validation? ==>
        body.Keys == {"message", "invalidArgs"} && body["invalidArgs"] == JStringArray(invalidArgs)
    {
      match this
      case Generic(m, _) => map["message" := JString(m)]
      case Validation(m, args) => map["message" := JString(m), "invalidArgs" := JStringArray(args)]
    }
  }

  /** `new ServiceError(message?, status?)`: an omitted argument takes its default. */
  function NewServiceError(message: Option<string>, status: Option<int>): (e: ServiceError)
    ensures e.Name() == "ServiceError"
    ensures e.Status() == (if status.Some? then status.value else 500)
    ensures e.message == (if message.Some? then message.value else DefaultMessage)
    ensures e.ToJSON().Keys == {"message"}
  {
    Generic(if message.Some? then message.value else DefaultMessage,
            if status.Some? then status.value else DefaultStatus)
  }

  /** `new ValidationError(message?, invalidArgs)`: the status is 400 whatever is passed. */
  function NewValidationError(message: Option<string>, invalidArgs: seq<string>): (e: ServiceError)
    ensures e.Name() == "ValidationError"
    ensures e.Status() == 400
    ensures e.message == (if message.Some? then message.value else DefaultValidationMessage)
    ensures e.ToJSON().Keys == {"message", "invalidArgs"}
    ensures e.ToJSON()["invalidArgs"] == JStringArray(invalidArgs)
  {
    Validation(if message.Some? then message.value else DefaultValidationMessage, invalidArgs)
  }

  /** The default ServiceError shows only the default message and hides its 500 status. */
  lemma DefaultServiceErrorBody()
    ensures NewServiceError(None, None).Status() == 500
    ensures NewServiceError(None, None).ToJSON() == map["message" := JString(DefaultMessage)]
  {
  }

  /** A ValidationError is 400 whichever message and fields it is built with. */
  lemma ValidationStatusIsFixed(m1: Option<string>, a1: seq<string>, m2: Option<string>, a2: seq<string>)
    ensures NewValidationError(m1, a1).Status() == NewValidationError(m2, a2).Status() == 400
  {
  }
}
