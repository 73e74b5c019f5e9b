/** The service (backend/main.py): the in-memory user table behind `/register/`, `/login/`
    and `/profile/`, the demonstration face regions, and the reply of `/upload/`. */
module Backend {
  import opened Common

  datatype UserRecord = UserRecord(name: string, email: string, password: string)

  /** `users_db`: e-mail address to stored user. */
  type UsersDb = map<string, UserRecord>

  datatype UserRegister = UserRegister(name: string, email: string, password: string)

  datatype UserLogin = UserLogin(email: string, password: string)

  datatype HttpException = HttpException(status: int, detail: string)

  /** A bearer token as the service reads it: a payload that decodes, with or without a
      `sub` claim, or a string that does not decode. */
  datatype Token = Signed(sub: Option<string>) | Undecodable

  datatype TokenReply = TokenReply(accessToken: Token, tokenType: string)

  datatype ProfileReply = ProfileReply(name: string, email: string)

  const InvalidCredentials: HttpException := HttpException(401, "Invalid authentication credentials")
  const EmailTaken: HttpException := HttpException(400, "Email already registered")
  const WrongCredentials: HttpException := HttpException(401, "Incorrect email or password")
  const UserNotFound: HttpException := HttpException(404, "User not found")

  /** `verify_token`: the e-mail address in the token's `sub` claim, or 401. */
  function VerifyToken(t: Token): (r: Result<string, HttpException>)
    ensures r.Ok? <==> t.Signed? && t.sub.Some?
    ensures r.Ok? ==> r.value == t.sub.value
    ensures r.Err? ==> r.error == InvalidCredentials
  {
    if t.Signed? && t.sub.Some? then Ok(t.sub.value) else Err(InvalidCredentials)
  }

  /** `create_access_token(data={"sub": email})`: a token that verifies as `email`. */
  function CreateAccessToken(email: string): (t: Token)
    ensures VerifyToken(t) == Ok(email)
  {
    Signed(Some(email))
  }

  /** The reply of `/register/` and `/login/` once the credentials are accepted. */
  function Issue(email: string): TokenReply
  {
    TokenReply(CreateAccessToken(email), "bearer")
  }

  // ---------------------------------------------------------------------------------
  // Demonstration face regions

  /** Python's `int(x)`: truncation toward zero. */
  function PyInt(x: real): int
  {
    if x >= 0.0 then x.Floor else -((-x).Floor)
  }

  /** For a non-negative result, `int(w / 2 + k)` on Python floats is `w / 2 + k` in
      Euclidean integer division. */
  lemma HalfPlusOffset(w: int, k: int)
    requires w >= 0 && w / 2 + k >= 0
    ensures PyInt(w as real / 2.0 + k as real) == w / 2 + k
  {
    var q := w / 2;
    var x := w as real / 2.0 + k as real;
    assert w == 2 * q + w % 2;
    assert x == (q + k) as real + (w % 2) as real / 2.0;
    assert (q + k) as real <= x < (q + k + 1) as real;
  }

  /** A rectangle `(left, top, right, bottom)` in pixel coordinates. */
  datatype Box = Box(left: int, top: int, right: int, bottom: int)

  predicate Inside(b: Box, width: int, height: int)
  {
    0 <= b.left && b.right <= width && 0 <= b.top && b.bottom <= height
  }

  /** The two boxes share no interior point. */
  predicate Apart(a: Box, b: Box)
  {
    a.right <= b.left || b.right <= a.left || a.bottom <= b.top || b.bottom <= a.top
  }

  /** `create_sample_face_regions`: a centred box on images larger than 200 in both
      directions, and two more near the top corners on images larger than 400. */
  function CreateSampleFaceRegions(width: nat, height: nat): (regions: seq<Box>)
    ensures |regions| == (if width > 400 && height > 400 then 3
                          else if width > 200 && height > 200 then 1
                          else 0)
    ensures forall i | 0 <= i < |regions| ::
      regions[i].right - regions[i].left == 100 && regions[i].bottom - regions[i].top == 100
    ensures forall i | 0 <= i < |regions| :: Inside(regions[i], width, height)
  {
    var centre :=
      if width > 200 && height > 200 then
        HalfPlusOffset(width, -50);
        HalfPlusOffset(height, -50);
        HalfPlusOffset(width, 50);
        HalfPlusOffset(height, 50);
        [Box(PyInt(width as real / 2.0 - 50.0), PyInt(height as real / 2.0 - 50.0),
             PyInt(width as real / 2.0 + 50.0), PyInt(height as real / 2.0 + 50.0))]
      else [];
    if width > 400 && height > 400 then
      centre + [Box(50, 50, 150, 150), Box(width - 150, 50, width - 50, 150)]
    else
      centre
  }

  /** No two generated regions overlap. */
  lemma SampleRegionsApart(width: nat, height: nat)
    ensures var r := CreateSampleFaceRegions(width, height);
            forall i, j | 0 <= i < j < |r| :: Apart(r[i], r[j])
  {
    var r := CreateSampleFaceRegions(width, height);
    if width > 400 && height > 400 {
      HalfPlusOffset(width, -50);
      HalfPlusOffset(width, 50);
      assert r[0].left == width / 2 - 50 && r[0].right == width / 2 + 50;
      assert r[1].right <= r[0].left;
      assert r[0].right <= r[2].left;
      assert r[1].right <= r[2].left;
    }
  }

  /** The count `blur_faces_pil` reports: one per generated region. */
  function FacesDetected(width: nat, height: nat): (n: nat)
    ensures n == |CreateSampleFaceRegions(width, height)|
    ensures n in {0, 1, 3}
    ensures n == 0 <==> width <= 200 || height <= 200
    ensures n == 3 <==> width > 400 && height > 400
  {
    |CreateSampleFaceRegions(width, height)|
  }

  // ---------------------------------------------------------------------------------
  // Upload

  /** The uploaded part: the client's file name and declared content type. */
  datatype UploadedFile = UploadedFile(filename: string, contentType: string)

  /** What opening the uploaded bytes as an image gives: its size, or the text of the
      exception raised. */
  datatype Picture = Picture(width: nat, height: nat) | Unreadable(error: string)

  datatype UploadReply = UploadReply(
    message: string,
    originalFilename: string,
    processedFilename: string,
    processedUrl: string,
    facesDetected: nat,
    status: string)

  const ProcessedUrlPrefix: string := "/static/processed_"
  const ProcessingErrorPrefix: string := "Processing error: "
  /** `str(HTTPException(status_code=400, detail="File must be an image"))` */
  const NotAnImageText: string := "400: File must be an image"

  /** `f"processed_{file.filename}"` */
  function ProcessedFilename(filename: string): string
  {
    "processed_" + filename
  }

  /** `f"/static/{processed_filename}"`: the file name can be read back from the link. */
  function ProcessedUrl(filename: string): (url: string)
    ensures StartsWith(url, ProcessedUrlPrefix)
    ensures url[|ProcessedUrlPrefix|..] == filename
  {
    var url := "/static/" + ProcessedFilename(filename);
    assert url == ProcessedUrlPrefix + filename;
    StartsWithAppend(ProcessedUrlPrefix, filename);
    url
  }

  /** The body of the `try` in `upload_file`: the reply, or the text `str(e)` of the
      exception raised. An `HTTPException` prints as `"<status>: <detail>"`. */
  function ProcessUpload(file: UploadedFile, picture: Picture): Result<UploadReply, string>
  {
    if !StartsWith(file.contentType, "image/") then Err(NotAnImageText)
    else if picture.Unreadable? then Err(picture.error)
    else Ok(UploadReply(
      "File processed successfully",
      file.filename,
      ProcessedFilename(file.filename),
      ProcessedUrl(file.filename),
      FacesDetected(picture.width, picture.height),
      "success"))
  }

  /** `upload_file`: the token is checked first (401); every failure inside the handler,
      the content-type check included, reaches the client as a 500. */
  function UploadFile(file: UploadedFile, picture: Picture, credentials: Token)
    : (r: Result<UploadReply, HttpException>)
    ensures VerifyToken(credentials).Err? ==> r == Err(InvalidCredentials)
    ensures r.Ok? <==>
      VerifyToken(credentials).Ok? && StartsWith(file.contentType, "image/") && picture.Picture?
    ensures r.Err? ==>
      r.error == InvalidCredentials
      || (r.error.status == 500 && StartsWith(r.error.detail, ProcessingErrorPrefix))
    ensures VerifyToken(credentials).Ok? && !StartsWith(file.contentType, "image/") ==>
      r == Err(HttpException(500, ProcessingErrorPrefix + NotAnImageText))
    ensures r.Ok? ==>
      && r.value.processedUrl == ProcessedUrl(file.filename)
      && r.value.facesDetected == |CreateSampleFaceRegions(picture.width, picture.height)|
  {
    match VerifyToken(credentials)
    case Err(e) => Err(e)
    case Ok(_) =>
      match ProcessUpload(file, picture)
      case Ok(reply) => Ok(reply)
      case Err(text) =>
        StartsWithAppend(ProcessingErrorPrefix, text);
        Err(HttpException(500, ProcessingErrorPrefix + text))
  }

  // ---------------------------------------------------------------------------------
  // Users

  /** The service process, holding `users_db`. */
  class Server {
    var usersDb: UsersDb

    /** Every user is filed under its own e-mail address. */
    ghost predicate Valid()
      reads this
    {
      forall e | e in usersDb :: usersDb[e].email == e
    }

    constructor ()
      ensures Valid() && usersDb == map[]
    {
      usersDb := map[];
    }

    /** `register`: a taken address is refused with 400 and the table is left alone;
        otherwise exactly one entry is added. */
    method Register(user: UserRegister) returns (r: Result<TokenReply, HttpException>)
      requires Valid()
      modifies this
      ensures Valid()
      ensures user.email in old(usersDb) ==> r == Err(EmailTaken) && usersDb == old(usersDb)
      ensures user.email !in old(usersDb) ==>
        && usersDb == old(usersDb)[user.email := UserRecord(user.name, user.email, user.password)]
        && r == Ok(Issue(user.email))
      ensures r.Ok? ==> Login(UserLogin(user.email, user.password)) == Ok(Issue(user.email))
      ensures r.Ok? ==> GetProfile(r.value.accessToken) == Ok(ProfileReply(user.name, user.email))
    {
      if user.email in usersDb {
        return Err(EmailTaken);
      }
      usersDb := usersDb[user.email := UserRecord(user.name, user.email, user.password)];
      r := Ok(Issue(user.email));
    }

    /** `login`: accepted exactly when the address is known and the password matches. */
    function Login(user: UserLogin): (r: Result<TokenReply, HttpException>)
      reads this
      ensures r.Ok? <==> user.email in usersDb && usersDb[user.email].password == user.password
      ensures r.Ok? ==> r.value.tokenType == "bearer" && VerifyToken(r.value.accessToken) == Ok(user.email)
      ensures r.Err? ==> r.error == WrongCredentials
    {
      if user.email !in usersDb || usersDb[user.email].password != user.password then
        Err(WrongCredentials)
      else
        Ok(Issue(user.email))
    }

    /** `get_profile`: 401 for a bad token, 404 for an unknown address, otherwise the
        stored name and e-mail address. */
    function GetProfile(t: Token): (r: Result<ProfileReply, HttpException>)
      reads this
      ensures VerifyToken(t).Err? ==> r == Err(InvalidCredentials)
      ensures VerifyToken(t).Ok? && VerifyToken(t).value !in usersDb ==> r == Err(UserNotFound)
      ensures VerifyToken(t).Ok? && VerifyToken(t).value in usersDb ==>
        r == Ok(ProfileReply(usersDb[VerifyToken(t).value].name, usersDb[VerifyToken(t).value].email))
    {
      match VerifyToken(t)
      case Err(e) => Err(e)
      case Ok(email) =>
        if email !in usersDb then Err(UserNotFound)
        else Ok(ProfileReply(usersDb[email].name, usersDb[email].email))
    }

    /** The token handed out at sign-in fetches the profile of the address it was issued for. */
    lemma LoginThenProfile(user: UserLogin)
      requires Valid()
      requires Login(user).Ok?
      ensures GetProfile(Login(user).value.accessToken).Ok?
      ensures GetProfile(Login(user).value.accessToken).value.email == user.email
    {
    }
  }
}
