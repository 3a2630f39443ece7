/**
 * What the handlers see of a request and what they answer, with URL
 * parsing, header maps, CORS headers and message texts abstracted away.
 */
module Http {
  import opened Wrappers

  /**
   * What `const { username, password } = await request.json()` yields:
   * `Unparsable` when the body is not JSON or cannot be destructured
   * (`null`); a field is `None` when it is missing or not a string, and
   * so can never be `===` to a stored string.
   */
  datatype LoginBody = Unparsable | Fields(username: Option<string>, password: Option<string>)

  /**
   * One request: its method (`verb`), `new URL(request.url).pathname`, the
   * `Authorization` header (`None` when absent), what `request.text()`
   * resolves to (`None` when it rejects) and what `request.json()` gives.
   */
  datatype Request = Request(
    verb: string,
    path: string,
    authorization: Option<string>,
    text: Option<string>,
    json: LoginBody)

  /** The body of a response, by kind; the message texts are not modelled. */
  datatype Payload =
    | NoContent                     // `null` body (CORS preflight)
    | Document(text: string)        // the stored JSON document, verbatim
    | Issued(token: string)         // `{success: true, token}`
    | LoginState(loggedIn: bool)    // `{loggedIn}`
    | Succeeded                     // `{success: true}`
    | Failed                        // `{success: false, message}`
    | NotFoundText                  // "Not Found"
    | SavedText                     // "Saved"

  /**
   * A response with its status code, or `Threw` when the handler's
   * promise rejects and the platform, not the handler, answers.
   */
  datatype Response = Respond(status: nat, payload: Payload) | Threw
}
