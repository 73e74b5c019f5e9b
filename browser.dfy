/** What the client components see of the browser and of the network library:
    the durable `token` entry of local storage, the requests a component issues,
    and the shape of a reply or of a rejected request. */
module Browser {
  import opened Common

  /** The service origin every request and every processed-image link is built on. */
  const ApiBase: string := "http://localhost:8000"

  /** The `token` entry of local storage; `None` when it was never set or was removed. */
  class TokenSlot {
    var token: Option<string>

    constructor (initial: Option<string>)
      ensures token == initial
    {
      token := initial;
    }
  }

  /** JavaScript truthiness of `localStorage.getItem('token')`: `null` and `''` are false. */
  predicate HasToken(stored: Option<string>)
  {
    stored.Some? && stored.value != ""
  }

  /** The profile the service returns for `GET /profile/`. */
  datatype Profile = Profile(name: string, email: string)

  /** The session object handed to `onLogin` and held by the application. */
  datatype UserData = UserData(token: string, user: Profile)

  /** A file picked in the browser: its name, its declared MIME type and its size in bytes. */
  datatype FileBlob = FileBlob(name: string, mimeType: string, size: nat)

  /** The requests the client can issue; the body of each holds exactly these fields. */
  datatype Request =
    | PostLogin(email: string, password: string)
    | PostRegister(name: string, email: string, password: string)
    | GetProfile(bearer: string)
    | PostUpload(file: FileBlob, bearer: string, timeoutMs: nat)

  /** `error.response`: the status and the `detail` field of the JSON body, if it has one. */
  datatype ErrorResponse = ErrorResponse(status: int, detail: Option<string>)

  /** A rejected request as the network library reports it: the response if one arrived,
      the error `code` (`ECONNABORTED` on a timeout), whether the request went out, and
      the error's own message. */
  datatype RequestError = RequestError(
    response: Option<ErrorResponse>,
    code: Option<string>,
    requestSent: bool,
    message: string)

  /** What an awaited request settles to. */
  datatype Outcome<+T> = Success(data: T) | Failure(error: RequestError)

  /** JavaScript `error.response?.data?.detail || fallback`: a missing or empty detail
      gives the fallback. */
  function DetailOr(e: RequestError, fallback: string): (text: string)
    ensures e.response.Some? && e.response.value.detail.Some? && e.response.value.detail.value != ""
            ==> text == e.response.value.detail.value
    ensures !(e.response.Some? && e.response.value.detail.Some? && e.response.value.detail.value != "")
            ==> text == fallback
  {
    if e.response.Some? && e.response.value.detail.Some? && e.response.value.detail.value != ""
    then e.response.value.detail.value
    else fallback
  }

  /** The sign that opens every error message of the client. */
  const ErrorMark: string := "❌ "

  /** `'❌'` marks a message the components render as an error (`message.includes('❌')`). */
  predicate IsErrorMessage(message: string)
  {
    '❌' in message
  }

  lemma ErrorMarkShowsError(text: string)
    ensures IsErrorMessage(ErrorMark + text)
  {
    assert (ErrorMark + text)[0] == '❌';
  }
}
