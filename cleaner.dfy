/** The upload screen (frontend/src/DataCleaner.js): picking an image, sending it with
    the session's bearer token, and turning the reply or the failure into what is shown. */
module CleanerComponent {
  import opened Common
  import opened Browser

  /** The request timeout of the upload, in milliseconds. */
  const UploadTimeoutMs: nat := 30000

  const ChooseImageMsg: string := ErrorMark + "Пожалуйста, выберите файл изображения"
  const ChooseFileFirstMsg: string := ErrorMark + "Пожалуйста, выберите файл сначала"
  const ProcessingMsg: string := "🔄 Обрабатываем изображение..."
  const SucceededPrefix: string := "✅ Успешно обработано! Размыто областей: "
  const SessionExpiredMsg: string := ErrorMark + "Ошибка авторизации. Пожалуйста, войдите снова."
  const TimeoutMsg: string := ErrorMark + "Таймаут запроса. Попробуйте еще раз."
  const ServerErrorPrefix: string := ErrorMark + "Ошибка сервера: "
  const UnreachableMsg: string := ErrorMark + "Не удалось подключиться к серверу."
  const OtherErrorPrefix: string := ErrorMark + "Ошибка: "

  /** `type.startsWith('image/')` */
  predicate IsImageType(mimeType: string)
  {
    StartsWith(mimeType, "image/")
  }

  /** The JSON reply of `POST /upload/` that the screen reads. */
  datatype UploadReply = UploadReply(processedUrl: string, facesDetected: nat)

  /** The five kinds of failed upload the screen tells apart. */
  datatype UploadFailure =
    | SessionExpired
    | Timeout
    | ServerError(detail: string)
    | Unreachable
    | Other(message: string)

  predicate IsUnauthorized(e: RequestError)
  {
    e.response.Some? && e.response.value.status == 401
  }

  predicate IsTimedOut(e: RequestError)
  {
    e.code == Some("ECONNABORTED")
  }

  /** `${error.response.data.detail}`: a missing detail is written as `undefined`. */
  function DetailText(detail: Option<string>): string
  {
    if detail.Some? then detail.value else "undefined"
  }

  /** The `catch` of `handleUpload`: the first of its five tests that holds decides. */
  function Classify(e: RequestError): (f: UploadFailure)
    ensures f.SessionExpired? <==> IsUnauthorized(e)
    ensures f.Timeout? <==> !IsUnauthorized(e) && IsTimedOut(e)
    ensures f.ServerError? <==> !IsUnauthorized(e) && !IsTimedOut(e) && e.response.Some?
    ensures f.Unreachable? <==> !IsTimedOut(e) && e.response.None? && e.requestSent
    ensures f.Other? <==> !IsTimedOut(e) && e.response.None? && !e.requestSent
    ensures f.ServerError? ==> f.detail == DetailText(e.response.value.detail)
    ensures f.Other? ==> f.message == e.message
  {
    if IsUnauthorized(e) then SessionExpired
    else if IsTimedOut(e) then Timeout
    else if e.response.Some? then ServerError(DetailText(e.response.value.detail))
    else if e.requestSent then Unreachable
    else Other(e.message)
  }

  /** The message shown for each kind of failure. */
  function FailureMessage(f: UploadFailure): string
  {
    match f
    case SessionExpired => SessionExpiredMsg
    case Timeout => TimeoutMsg
    case ServerError(detail) => ServerErrorPrefix + detail
    case Unreachable => UnreachableMsg
    case Other(message) => OtherErrorPrefix + message
  }

  /** The two characters after "❌ Ошибка" (or at the same place in the other messages)
      tell the failure messages apart. */
  function Marks(f: UploadFailure): (char, char)
  {
    match f
    case SessionExpired => (' ', 'а')
    case Timeout => ('т', ' ')
    case ServerError(_) => (' ', 'с')
    case Unreachable => ('л', 'о')
    case Other(_) => (':', ' ')
  }

  lemma MessageMarks(f: UploadFailure)
    ensures |FailureMessage(f)| >= 10
    ensures FailureMessage(f)[0] == '❌'
    ensures (FailureMessage(f)[8], FailureMessage(f)[9]) == Marks(f)
  {
    var m := FailureMessage(f);
    match f {
      case SessionExpired =>
        assert m[0] == '❌' && m[8] == ' ' && m[9] == 'а';
      case Timeout =>
        assert m[0] == '❌' && m[8] == 'т' && m[9] == ' ';
      case ServerError(d) =>
        assert m[..|ServerErrorPrefix|] == ServerErrorPrefix;
        assert m[0] == '❌' && m[8] == ' ' && m[9] == 'с';
      case Unreachable =>
        assert m[0] == '❌' && m[8] == 'л' && m[9] == 'о';
      case Other(text) =>
        assert m[..|OtherErrorPrefix|] == OtherErrorPrefix;
        assert m[0] == '❌' && m[8] == ':' && m[9] == ' ';
    }
  }

  /** The message tells the kind of failure apart, and every one renders as an error. */
  lemma FailureMessageIdentifiesFailure(f: UploadFailure, g: UploadFailure)
    ensures IsErrorMessage(FailureMessage(f))
    ensures FailureMessage(f) == FailureMessage(g) ==> f == g
  {
    var m, n := FailureMessage(f), FailureMessage(g);
    MessageMarks(f);
    MessageMarks(g);
    if m == n {
      assert Marks(f) == Marks(g);
      if f.ServerError? {
        assert g.ServerError?;
        assert f.detail == m[|ServerErrorPrefix|..] == n[|ServerErrorPrefix|..] == g.detail;
      } else if f.Other? {
        assert g.Other?;
        assert f.message == m[|OtherErrorPrefix|..] == n[|OtherErrorPrefix|..] == g.message;
      }
    }
  }

  /** The success message: the prefix and the decimal count; it never renders as an error. */
  function SucceededMessage(faces: nat): (message: string)
    ensures !IsErrorMessage(message)
    ensures StartsWith(message, SucceededPrefix)
    ensures forall i | |SucceededPrefix| <= i < |message| :: IsDigit(message[i])
    ensures DecimalValue(message[|SucceededPrefix|..]) == faces
  {
    var digits := NatToString(faces);
    assert '❌' !in SucceededPrefix;
    assert '❌' !in digits;
    NatToStringRoundTrip(faces);
    StartsWithAppend(SucceededPrefix, digits);
    assert (SucceededPrefix + digits)[|SucceededPrefix|..] == digits;
    SucceededPrefix + digits
  }

  /** The upload screen for a signed-in `user`. */
  class DataCleaner {
    const user: UserData
    var file: Option<FileBlob>
    var processedImage: Option<string>
    var loading: bool
    var message: string
    var facesDetected: nat
    /** Every request this screen has issued, oldest first: a record kept for the
        proofs, not state of the component. */
    ghost var sent: seq<Request>

    constructor (user: UserData)
      ensures this.user == user
      ensures file == None && processedImage == None && !loading && message == ""
      ensures facesDetected == 0 && sent == []
    {
      this.user := user;
      file := None;
      processedImage := None;
      loading := false;
      message := "";
      facesDetected := 0;
      sent := [];
    }

    /** The upload button is enabled only when no upload runs and a file is chosen. */
    predicate UploadEnabled(): (enabled: bool)
      reads this
      ensures enabled ==> file.Some? && !loading
      ensures file.Some? && !loading ==> enabled
    {
      !(loading || file.None?)
    }

    /** `handleFileChange`, given the first file of the change event (if any).
        A non-image is refused with a message and nothing else changes; an image
        replaces the file and clears the previous result. */
    method HandleFileChange(selected: Option<FileBlob>)
      modifies this
      ensures loading == old(loading) && sent == old(sent)
      ensures selected.None? ==>
        file == old(file) && processedImage == old(processedImage)
        && message == old(message) && facesDetected == old(facesDetected)
      ensures selected.Some? && !IsImageType(selected.value.mimeType) ==>
        file == old(file) && processedImage == old(processedImage)
        && message == ChooseImageMsg && facesDetected == old(facesDetected)
      ensures selected.Some? && IsImageType(selected.value.mimeType) ==>
        file == selected && processedImage == None && message == "" && facesDetected == 0
      ensures old(file).None? && selected.Some? && !IsImageType(selected.value.mimeType) ==> !UploadEnabled()
      ensures !loading && selected.Some? && IsImageType(selected.value.mimeType) ==> UploadEnabled()
    {
      if selected.Some? {
        if !IsImageType(selected.value.mimeType) {
          message := ChooseImageMsg;
          return;
        }
        file := selected;
        processedImage := None;
        message := "";
        facesDetected := 0;
      }
    }

    /** `handleUpload`, with the reply to `POST /upload/` given. Returns whether `onLogout`
        was called, which happens on a 401 only. */
    method HandleUpload(reply: Outcome<UploadReply>) returns (onLogout: bool)
      modifies this
      ensures file == old(file)
      ensures old(file).None? ==>
        && message == ChooseFileFirstMsg && !onLogout
        && sent == old(sent) && loading == old(loading)
        && processedImage == old(processedImage) && facesDetected == old(facesDetected)
      ensures old(file).Some? ==>
        && sent == old(sent) + [PostUpload(old(file).value, user.token, UploadTimeoutMs)]
        && !loading
      ensures old(file).Some? && reply.Success? ==>
        && processedImage == Some(ApiBase + reply.data.processedUrl)
        && facesDetected == reply.data.facesDetected
        && message == SucceededMessage(reply.data.facesDetected)
        && !onLogout
      ensures old(file).Some? && reply.Failure? ==>
        && processedImage == old(processedImage) && facesDetected == old(facesDetected)
        && message == FailureMessage(Classify(reply.error))
        && onLogout == IsUnauthorized(reply.error)
      ensures old(file).Some? ==> (IsErrorMessage(message) <==> reply.Failure?)
      ensures old(file).Some? ==> UploadEnabled()
    {
      onLogout := false;
      if file.None? {
        message := ChooseFileFirstMsg;
        return;
      }

      loading := true;
      message := ProcessingMsg;
      sent := sent + [PostUpload(file.value, user.token, UploadTimeoutMs)];

      match reply {
        case Success(data) =>
          processedImage := Some(ApiBase + data.processedUrl);
          facesDetected := data.facesDetected;
          message := SucceededMessage(data.facesDetected);
        case Failure(e) =>
          var failure := Classify(e);
          FailureMessageIdentifiesFailure(failure, failure);
          message := FailureMessage(failure);
          if failure.SessionExpired? {
            onLogout := true;
          }
      }
      loading := false;
    }
  }
}
