# DataCleaner: session, form, upload and service logic in Dafny

DataCleaner is a small web application for anonymising images. A React client signs a user
in or up against a FastAPI service, keeps the bearer token in the browser's local storage,
and uploads a picture. The service blurs demonstration "face" regions and a band at the
bottom, and returns a link to the processed copy. This project models the decision logic of
both sides and proves properties of it:

- `common.dfy` (`Common`): option and result types, `startsWith`, JavaScript's UTF-16
  `.length`, and the decimal text of a count.
- `browser.dfy` (`Browser`): what the client components see of the browser and the network
  library. This is the `token` entry of local storage (`TokenSlot`), the requests a component
  issues, and the shape of a rejected request (`RequestError`: response status and `detail`,
  error `code`, whether the request went out, the error message).
- `auth.dfy` (`AuthComponent`, from `frontend/src/Auth.js`): the password-strength meter, the
  ordered local checks of the sign-up form, and the two-step exchange. That exchange trades
  credentials for a token, stores the token, fetches the profile with it, and only then calls
  `onLogin`.
- `cleaner.dfy` (`CleanerComponent`, from `frontend/src/DataCleaner.js`): choosing a file,
  the upload, and the five-way classification of a failed upload. A 401 also calls `onLogout`.
- `app.dfy` (`AppComponent`, from `frontend/src/App.js`): restoring a session from storage at
  start-up, `handleLogin`, `handleLogout`, and the choice of screen. It also wires
  `onLogin`/`onLogout` between the shell and the two components.
- `backend.dfy` (`Backend`, from `backend/main.py`): the in-memory `users_db` behind
  `/register/`, `/login/` and `/profile/`. It also covers the demonstration face regions,
  their count, and the reply and error statuses of `/upload/`.

Each component whose state React keeps in `useState` is a class. Its fields are those state
variables, and its handlers are methods. Each method's postcondition states the whole new
state. Requests a component issues are appended to its ghost field `sent`. That field is a record
kept for the proofs, not state of the component, and "no request is made" is a statement
about it. The network's answer to each request is an input of the handler
(`Outcome<T>`: a reply or a `RequestError`). A callback the component calls (`onLogin`,
`onLogout`) is returned to the caller. The shell's `SignIn`, `SignUp` and `Upload` methods
then pass it on, as the markup of `App.js` does.

JavaScript details kept in the model:
- `if (token)` is false for an empty stored token.
- `detail || fallback` falls back on an empty detail too.
- A missing `detail` in a template string is written `undefined`.
- `.length` counts UTF-16 code units, so a character outside the Basic Multilingual Plane
  counts twice.

Python details kept in the model:
- `int(width / 2 - 50)` truncates a float. `HalfPlusOffset` proves it equals
  `width / 2 - 50` in integer division for the sizes involved.
- The content-type check raises inside the handler's `try`, so its 400 is caught and the
  client receives a 500 whose detail starts with `Processing error: `. `UploadFile` states
  this. The text of the caught exception is modelled as Starlette prints an `HTTPException`:
  `"400: File must be an image"`.

Behaviour of the code that is easy to misread:
- Choosing a non-image after an image keeps the earlier image selected. The next upload sends
  the earlier image, so it is not a no-op (`DataCleaner.HandleFileChange`).
- `handleUpload` does not check the token, and it does not check `loading`. Only the disabled
  button (`UploadEnabled`: not loading and a file chosen) prevents a second submission.
- A token stored after a successful credential exchange stays stored when the profile fetch
  fails, but no session opens. A reload then restores a session from it with the placeholder
  profile (`SignIn`, `Start`).
- The session-expired message a 401 sets on the upload screen is never seen. `onLogout` clears
  the user in the same handler, so the shell replaces the upload screen with a fresh sign-in form.
  That form starts with an empty message (`Upload`).

## Model

| member | source | states |
|---|---|---|
| `AuthComponent.PasswordStrength` | frontend/src/Auth.js:27-34 | the score is one of 0, 25, 50, 75, 100; it is 0 exactly when no criterion holds and 100 exactly when all four hold (length of at least 6 UTF-16 units, a lower-case and an upper-case ASCII letter, a digit, any other character); the empty password scores 0 |
| `AuthComponent.LowercaseOnlyEarnsLengthOnly` | frontend/src/Auth.js:29-32 | a password made only of lower-case letters earns nothing for mixed case, digits or symbols, so its score is just the length point |
| `AuthComponent.StrengthGrowsWithTyping` | frontend/src/Auth.js:27-34 | appending a character never lowers the score |
| `AuthComponent.RegisterProblem` | frontend/src/Auth.js:76-86 | the local checks in their order: a mismatch gives the mismatch message whatever the length; matching passwords shorter than 6 UTF-16 units give the length message; otherwise there is no problem (both directions of each case) |
| `AuthComponent.AcceptedPasswordEarnsLengthPoint` | frontend/src/Auth.js:82-86 | any password the sign-up form lets through scores at least 25 on the meter |
| `AuthComponent.MessageStyles` | frontend/src/Auth.js:145 | the form's failure messages render as errors and its two success messages do not |
| `AuthComponent.Auth.constructor` | frontend/src/Auth.js:8-20 | the initial state: the sign-in form, not loading, no message, empty forms, meter at 0, nothing sent |
| `AuthComponent.Auth.SwitchForm` | frontend/src/Auth.js:22-25 | the named form becomes active and the message is cleared; nothing else changes |
| `AuthComponent.Auth.EditLogin` | frontend/src/Auth.js:165-177 | the sign-in inputs update the sign-in data only |
| `AuthComponent.Auth.EditRegisterDetails` | frontend/src/Auth.js:210-256 | the name, e-mail and confirmation inputs update those fields only; the meter keeps matching the password |
| `AuthComponent.Auth.HandlePasswordChange` | frontend/src/Auth.js:119-122 | the password is stored and the meter shows its strength (the invariant `Valid`) |
| `AuthComponent.Auth.Exchange` | frontend/src/Auth.js:41-68 | the first request is sent; on a token it is stored and stays stored whatever the profile fetch returns, and the profile is fetched with that same token; `onLogin` receives the token and the profile exactly when both succeed; the message is the server's non-empty detail or the fallback after the prefix on failure; `loading` ends false; the message renders as an error exactly when `onLogin` is not called |
| `AuthComponent.Auth.HandleLoginSubmit` | frontend/src/Auth.js:36-69 | sign-in sends exactly `{email, password}` from the form, then behaves as `Exchange` with the sign-in messages and fallback |
| `AuthComponent.Auth.HandleRegisterSubmit` | frontend/src/Auth.js:71-117 | a failed local check sets its message, sends nothing, leaves the stored token alone and ends with `loading` false; otherwise exactly `{name, email, password}` is sent (never the confirmation), followed by the same exchange with the sign-up messages and fallback |
| `CleanerComponent.Classify` | frontend/src/DataCleaner.js:56-67 | a failure is classified by the first test that holds, in this order: status 401, code `ECONNABORTED`, any response (its detail, or `undefined`), a request with no response, anything else (its message); each kind is characterised in both directions |
| `CleanerComponent.FailureMessageIdentifiesFailure` | frontend/src/DataCleaner.js:56-67 | every failure message renders as an error, and different failures never show the same message |
| `CleanerComponent.SucceededMessage` | frontend/src/DataCleaner.js:52 | the success message starts with its fixed text, continues with decimal digits that read back as the count, and never renders as an error |
| `CleanerComponent.DataCleaner.constructor` | frontend/src/DataCleaner.js:8-12 | the initial state: no file, no result, not loading, no message, count 0, nothing sent |
| `CleanerComponent.DataCleaner.HandleFileChange` | frontend/src/DataCleaner.js:14-27 | an event without a file changes nothing; a non-image sets the refusal message and keeps file, result and count; an image becomes the file and clears result, message and count; `loading` and `sent` never change; a non-image chosen when no file was chosen before leaves the upload button disabled |
| `CleanerComponent.DataCleaner.HandleUpload` | frontend/src/DataCleaner.js:29-71 | without a file it sets the "choose a file first" message, sends nothing and leaves `loading` alone; otherwise it sends the file with the user's token and the 30000 ms timeout; on success the result is the origin followed by the relative link, and the count is the reply's; on failure result and count are kept, the message is that of the classified failure, and `onLogout` is called exactly on a 401; `loading` ends false; the message is an error exactly when the upload failed; after every attempt with a file the upload button is enabled again |
| `CleanerComponent.DataCleaner.UploadEnabled` | frontend/src/DataCleaner.js:105-109 | the upload button is enabled exactly when a file is chosen and no upload runs |
| `AppComponent.App.constructor` | frontend/src/App.js:7-8 | the shell starts with no user and loading |
| `AppComponent.App.Mount` | frontend/src/App.js:10-18 | a stored non-empty token restores a session with that token and the placeholder profile; otherwise the user is unchanged; loading ends either way |
| `AppComponent.App.HandleLogin` | frontend/src/App.js:20-22 | the user becomes exactly the data handed over |
| `AppComponent.App.HandleLogout` | frontend/src/App.js:24-27 | the stored token is removed and the user cleared, whatever the state before |
| `AppComponent.App.Screen` | frontend/src/App.js:29-44 | the spinner exactly while loading, then the form exactly when there is no user, and the upload screen exactly when there is one |
| `AppComponent.Start` | frontend/src/App.js:7-18 | after start-up the upload screen shows exactly when storage holds a non-empty token, and otherwise the user is null and the form shows |
| `AppComponent.LogoutTwice` | frontend/src/App.js:24-27 | logging out twice leaves the same state as logging out once |
| `AppComponent.SignIn` | frontend/src/App.js:40-41 | the shell opens the upload screen with exactly the token and profile only when both requests succeed; a token from a successful first step stays stored even when the profile fetch fails |
| `AppComponent.SignUp` | frontend/src/App.js:40-41 | a failed local check leaves the user and the stored token untouched; otherwise sign-up opens a session as sign-in does |
| `AppComponent.Upload` | frontend/src/App.js:42-43 | a 401 on an upload removes the stored token, clears the user and brings the form back; the upload screen's message becomes the session-expired text, but that screen is no longer rendered; any other outcome leaves the session and the token as they were |
| `Common.Utf16Length` | frontend/src/Auth.js:29 | the length JavaScript reports lies between the number of characters and twice that |
| `Common.NatToStringRoundTrip` | frontend/src/DataCleaner.js:52 | the decimal text of the count reads back as the count |
| `Backend.VerifyToken` | backend/main.py:75-90 | a token is accepted exactly when it decodes and carries a subject, which is then the e-mail address; otherwise 401 "Invalid authentication credentials" |
| `Backend.CreateAccessToken` | backend/main.py:64-72 | an issued token verifies as the e-mail address it was issued for |
| `Backend.HalfPlusOffset` | backend/main.py:101-104 | Python's `int(w / 2 + k)` equals `w / 2 + k` in integer division whenever the result is non-negative |
| `Backend.CreateSampleFaceRegions` | backend/main.py:94-111 | no region unless both sides exceed 200, one when both exceed 200 but not both 400, three when both exceed 400; every region is 100 by 100 and lies inside the image |
| `Backend.SampleRegionsApart` | backend/main.py:99-109 | no two generated regions overlap |
| `Backend.FacesDetected` | backend/main.py:114-124 | the reported count equals the number of regions and is 0, 1 or 3, with 0 and 3 characterised in both directions |
| `Backend.ProcessedUrl` | backend/main.py:210-218 | the link starts with `/static/processed_` and the uploaded file name can be read back from the rest |
| `Backend.UploadFile` | backend/main.py:189-225 | a bad token gives 401; the upload succeeds exactly with a good token, an `image/` content type and a readable picture; every other failure is a 500 whose detail starts with `Processing error: `, a wrong content type included; on success the link is the processed link of the file name and the count is the number of regions |
| `Backend.Server.constructor` | backend/main.py:61 | the user table starts empty |
| `Backend.Server.Register` | backend/main.py:141-161 | a taken address gives 400 "Email already registered" and leaves the table unchanged; a new address adds exactly one entry under that address with the given name, address and password, and returns a bearer token for it; after success, signing in with the same address and password succeeds, and the token fetches the stored name and address |
| `Backend.Server.Login` | backend/main.py:164-177 | accepted exactly when the address is in the table and the stored password equals the given one, with a bearer token that verifies as the address; otherwise 401 "Incorrect email or password" |
| `Backend.Server.GetProfile` | backend/main.py:180-185 | 401 for a token that does not verify, 404 "User not found" for an unknown address, otherwise the stored name and e-mail address |
| `Backend.Server.LoginThenProfile` | backend/main.py:164-185 | the token a successful sign-in returns fetches the profile of that same address |

## Left out

- Network transport, routing, CORS and static-file serving: each request's outcome is an input
  of the handler that awaits it.
- Interleaving of asynchronous handlers: each handler runs to completion with its outcomes
  given. Events between a request and its reply are not modelled, so `loading` is never seen
  true between events. Examples are a new file chosen during an upload, or a form switch
  during sign-in.
- The 1000 ms delay before `onLogin`: it is treated as immediate.
- JWT encoding and signing, and token expiry (a wall clock): a token is either a decodable
  payload with or without a subject, or undecodable. `CreateAccessToken` ignores the expiry
  time.
- Image work in `blur_faces_pil`, `blur_license_plates_pil` and `upload_file`: cropping,
  blurring, pasting, colour conversion, and reading and saving files. Opening the upload is
  an input: a size, or the text of the exception raised. Failures while saving are not
  modelled. The band height of `blur_license_plates_pil` is a float computation and is not
  modelled.
- `Backend.HalfPlusOffset`: Python float division is treated as exact. This holds for image
  sides below 2^53.
- `Backend.UploadFile`: a missing content type (Python `None`) is not modelled; the content
  type is always a string.
- The `detail` of an error reply is taken to be a string or absent. A list-valued detail, as
  FastAPI returns for malformed bodies, would print differently in the client.
- Preview URLs for the chosen file, file-size formatting (floating point), the strength bar's
  colours, and all markup and styling.
- The static history screen of `frontend/src/MainApp.js`; it holds no logic.
- The `print` and `console.error` logging calls.
- `CleanerComponent.SucceededMessage`: the count is an unbounded natural number written in
  plain decimal. JavaScript writes numbers from 10^21 upwards with an exponent, and its numbers
  are doubles. This does not arise here, because the service only reports 0, 1 or 3.
