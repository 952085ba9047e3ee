/** The session state machine of the app shell (App.tsx): three screens and
    the data they show, changed only by the upload, rerun and reset handlers
    and by the render-time fallback. Each handler is a pure function of the
    session and of how the asynchronous work it waits on turned out. */
module App {
  import opened Js
  import opened JsString
  import opened Fashion
  import ImageUtil
  import FashionAI

  datatype Screen = Home | Loading | Result

  /** The five pieces of React state of the app. */
  datatype Session = Session(screen: Screen, userImage: Option<string>,
                             analysisResult: Option<FashionAnalysisResult>,
                             generatedImages: Option<seq<string>>, error: Option<string>)

  const Initial: Session := Session(Home, None, None, None, None)

  /** The square bound the upload handler resizes to. */
  const UploadBound: nat := 1024
  /** The type the rerun handler declares for the stored image, whatever it was. */
  const RerunMimeType := "image/jpeg"
  const UnknownError := "An unknown error occurred."
  const ReadFailedMessage := "Failed to read the image file."
  const BannerLead := "오류가 발생했습니다: "
  const BannerTail := ". 다시 시도해주세요."

  /** The arguments a handler passes to the AI hook. */
  datatype AiCall = AiCall(base64Image: Option<string>, mimeType: string)

  /** What a handler did: the states it showed while waiting (in order), the
      state it left once everything settled, and the AI call it made. */
  datatype Handled = Handled(waiting: seq<Session>, final: Session, sent: Option<AiCall>)

  /** The browser's part in `resizeImage`, as inputs (see ImageUtil.ResizeImage). */
  datatype ResizeEnv = ResizeEnv(image: ImageUtil.ImageLoad, hasContext: bool,
                                 toBlob: ImageUtil.EncodeRequest -> Option<ImageUtil.Bytes>, now: int)

  /** How `FileReader.readAsDataURL` ended: `onload` with the data URL, or `onerror`. */
  datatype ReadOutcome = ReadLoaded(dataUrl: string) | ReadFailed

  /** The localized message a `catch` block stores: the thrown Error's
      message (or the generic one for a non-Error) inside a fixed lead and tail. */
  function ErrorBanner(e: Thrown): (m: string)
    ensures |m| == |BannerLead| + |MessageOr(e, UnknownError)| + |BannerTail|
    ensures m[..|BannerLead|] == BannerLead
    ensures m[|m| - |BannerTail|..] == BannerTail
    ensures m[|BannerLead|..|m| - |BannerTail|] == MessageOr(e, UnknownError)
  {
    BannerLead + MessageOr(e, UnknownError) + BannerTail
  }

  /** `handleReset`: back to the initial session, from any session. */
  function Reset(s: Session): (r: Session)
    ensures r.screen == Home
    ensures r.userImage.None? && r.analysisResult.None? && r.generatedImages.None? && r.error.None?
  {
    Initial
  }

  /** The first two statements of `handleImageUpload`: clear the error and
      show the loading screen; nothing else changes. */
  function UploadStart(s: Session): (r: Session)
    ensures r.screen == Loading && r.error.None?
    ensures r.userImage == s.userImage && r.analysisResult == s.analysisResult
    ensures r.generatedImages == s.generatedImages
  {
    s.(error := None, screen := Loading)
  }

  /** A handler's `catch` block: back home with the banner; the stored image
      and the previous results are kept. */
  function Failed(s: Session, e: Thrown): (r: Session)
    ensures r.screen == Home && r.error == Some(ErrorBanner(e))
    ensures r.userImage == s.userImage && r.analysisResult == s.analysisResult
    ensures r.generatedImages == s.generatedImages
  {
    s.(error := Some(ErrorBanner(e)), screen := Home)
  }

  /** A handler's success branch: store the analysis and the images and show
      the result screen; the image and the error are left as they are. */
  function Succeeded(s: Session, result: FashionAI.AiResult): (r: Session)
    ensures r.screen == Result
    ensures r.analysisResult == Some(result.analysis) && r.generatedImages == Some(result.generatedImages)
    ensures r.userImage == s.userImage && r.error == s.error
  {
    s.(analysisResult := Some(result.analysis), generatedImages := Some(result.generatedImages), screen := Result)
  }

  /** The resize step of the upload handler. */
  function Resized(file: ImageUtil.File, env: ResizeEnv): Outcome<ImageUtil.File> {
    ImageUtil.ResizeImage(file, UploadBound, UploadBound, env.image, env.hasContext, env.toBlob, env.now)
  }

  /** `handleImageUpload(file)` as written. Only a rejection of the resize
      reaches the `catch`: the read and the AI call run in FileReader
      callbacks after the `try` has finished, so their failures are uncaught
      and leave the loading screen up. `ai` is how the AI hook settled. */
  function HandleImageUpload(s: Session, file: ImageUtil.File, env: ResizeEnv,
                             read: ReadOutcome, ai: Outcome<FashionAI.AiResult>): (h: Handled)
    // the error is cleared and the loading screen shown before any work
    ensures |h.waiting| >= 1 && h.waiting[0] == UploadStart(s)
    ensures Resized(file, env).Rejected? ==>
              && h.final == Failed(UploadStart(s), Resized(file, env).reason)
              && h.sent.None?
    ensures Resized(file, env).Resolved? && read.ReadLoaded? ==>
              h.sent == Some(AiCall(SecondField(read.dataUrl, ','), file.mimeType))
    // once read, the data URL is stored as userImage while the loading screen stays up
    ensures Resized(file, env).Resolved? && read.ReadLoaded? ==>
              h.waiting == [UploadStart(s), UploadStart(s).(userImage := Some(read.dataUrl))]
    ensures Resized(file, env).Resolved? && read.ReadLoaded? && ai.Resolved? ==>
              && h.final.screen == Result
              && h.final.userImage == Some(read.dataUrl)
              && h.final.analysisResult == Some(ai.value.analysis)
              && h.final.generatedImages == Some(ai.value.generatedImages)
              && h.final.error.None?
    ensures Resized(file, env).Resolved? && (read.ReadFailed? || ai.Rejected?) ==>
              h.final.screen == Loading && h.final.error.None?
    // a failed read is uncaught: nothing is sent and the session stays as UploadStart left it
    ensures Resized(file, env).Resolved? && read.ReadFailed? ==>
              h.final == UploadStart(s) && h.sent.None?
    // a failed AI call is uncaught: the data URL stays stored and earlier results are kept
    ensures Resized(file, env).Resolved? && read.ReadLoaded? && ai.Rejected? ==>
              h.final == UploadStart(s).(userImage := Some(read.dataUrl))
  {
    var loading := UploadStart(s);
    match Resized(file, env)
    case Rejected(e) => Handled([loading], Failed(loading, e), None)
    case Resolved(resized) =>
      match read
      case ReadFailed => Handled([loading], loading, None)
      case ReadLoaded(dataUrl) =>
        var stored := loading.(userImage := Some(dataUrl));
        var call := AiCall(SecondField(dataUrl, ','), resized.mimeType);
        match ai
        case Resolved(result) => Handled([loading, stored], Succeeded(stored, result), Some(call))
        case Rejected(_) => Handled([loading, stored], stored, Some(call))
  }

  /** `handleImageUpload(file)` as evidently intended: every failure of the
      chain ends on the home screen with a banner, as the `catch` block and
      the error thrown in `onerror` suggest. */
  function HandleImageUploadIntended(s: Session, file: ImageUtil.File, env: ResizeEnv,
                                     read: ReadOutcome, ai: Outcome<FashionAI.AiResult>): (h: Handled)
    ensures |h.waiting| >= 1 && h.waiting[0] == UploadStart(s)
    // the handler always settles: it never leaves the loading screen up
    ensures h.final.screen != Loading
    ensures h.final.screen == Home <==> (Resized(file, env).Rejected? || read.ReadFailed? || ai.Rejected?)
    ensures h.final.screen == Home ==> h.final.error.Some?
    ensures Resized(file, env).Resolved? && read.ReadLoaded? ==>
              h.sent == Some(AiCall(SecondField(read.dataUrl, ','), file.mimeType))
    // each failure shows its own banner and keeps what the session already held
    ensures Resized(file, env).Rejected? ==>
              h.final == Failed(UploadStart(s), Resized(file, env).reason) && h.sent.None?
    ensures Resized(file, env).Resolved? && read.ReadFailed? ==>
              h.final == Failed(UploadStart(s), ErrorObject(ReadFailedMessage)) && h.sent.None?
    ensures Resized(file, env).Resolved? && read.ReadLoaded? && ai.Rejected? ==>
              h.final == Failed(UploadStart(s).(userImage := Some(read.dataUrl)), ai.reason)
  {
    var loading := UploadStart(s);
    match Resized(file, env)
    case Rejected(e) => Handled([loading], Failed(loading, e), None)
    case Resolved(resized) =>
      match read
      case ReadFailed => Handled([loading], Failed(loading, ErrorObject(ReadFailedMessage)), None)
      case ReadLoaded(dataUrl) =>
        var stored := loading.(userImage := Some(dataUrl));
        var call := AiCall(SecondField(dataUrl, ','), resized.mimeType);
        match ai
        case Resolved(result) => Handled([loading, stored], Succeeded(stored, result), Some(call))
        case Rejected(e) => Handled([loading, stored], Failed(stored, e), Some(call))
  }

  /** The discrepancy: once the photo is resized and read, an AI failure
      leaves the written handler on the loading screen with no error, while
      the intended one goes home with the banner. */
  lemma UploadAiFailureStaysLoading(s: Session, file: ImageUtil.File, env: ResizeEnv,
                                    dataUrl: string, e: Thrown)
    requires Resized(file, env).Resolved?
    ensures HandleImageUpload(s, file, env, ReadLoaded(dataUrl), Rejected(e)).final.screen == Loading
    ensures HandleImageUpload(s, file, env, ReadLoaded(dataUrl), Rejected(e)).final.error.None?
    ensures HandleImageUploadIntended(s, file, env, ReadLoaded(dataUrl), Rejected(e)).final
              == Failed(UploadStart(s).(userImage := Some(dataUrl)), e)
  {
  }

  /** `handleRerun()`: with a stored image, re-run the AI on the field after
      the first comma of the stored data URL, declared as JPEG; without one
      (null or ""), do nothing. `ai` is how the AI hook settled. */
  function HandleRerun(s: Session, ai: Outcome<FashionAI.AiResult>): (h: Handled)
    ensures !Truthy(s.userImage) ==> h.waiting == [] && h.final == s && h.sent.None?
    ensures Truthy(s.userImage) ==>
              && h.waiting == [s.(screen := Loading, error := None)]
              && h.sent == Some(AiCall(SecondField(s.userImage.value, ','), "image/jpeg"))
              && h.final.userImage == s.userImage
    ensures Truthy(s.userImage) && ai.Resolved? ==>
              && h.final.screen == Result
              && h.final.analysisResult == Some(ai.value.analysis)
              && h.final.generatedImages == Some(ai.value.generatedImages)
              && h.final.error.None?
    // a failure goes home with the banner but keeps the previous results
    ensures Truthy(s.userImage) && ai.Rejected? ==>
              && h.final.screen == Home
              && h.final.error == Some(ErrorBanner(ai.reason))
              && h.final.analysisResult == s.analysisResult
              && h.final.generatedImages == s.generatedImages
  {
    if !Truthy(s.userImage) then Handled([], s, None)
    else
      var loading := s.(screen := Loading, error := None);
      var call := AiCall(SecondField(s.userImage.value, ','), RerunMimeType);
      match ai
      case Resolved(result) => Handled([loading], Succeeded(loading, result), Some(call))
      case Rejected(e) => Handled([loading], Failed(loading, e), Some(call))
  }

  /** Which screen component `renderScreen` returns, with what it is given. */
  datatype View = HomeView(error: Option<string>) | LoadingView
                | ResultView(userImage: string, analysis: FashionAnalysisResult, images: seq<string>)

  datatype Rendered = Rendered(view: View, next: Session)

  /** The result screen has everything it needs (JavaScript truthiness: the
      image must also be non-empty). */
  predicate HasResultData(s: Session) {
    s.analysisResult.Some? && s.generatedImages.Some? && Truthy(s.userImage)
  }

  /** A session the result screen can render. */
  predicate Consistent(s: Session) {
    s.screen == Result ==> HasResultData(s)
  }

  /** `renderScreen()`: the view it returns, and the session after the
      fallback that resets a result screen whose data is missing. The
      fallback returns the home view with the current error, but it calls
      `handleReset` during the render, so React discards that view and
      renders again (see Displayed). */
  function Render(s: Session): (r: Rendered)
    ensures s.screen == Result && HasResultData(s) ==>
              r == Rendered(ResultView(s.userImage.value, s.analysisResult.value, s.generatedImages.value), s)
    ensures s.screen == Result && !HasResultData(s) ==> r.view == HomeView(s.error) && r.next == Reset(s)
    ensures s.screen == Loading ==> r == Rendered(LoadingView, s)
    ensures s.screen == Home ==> r == Rendered(HomeView(s.error), s)
  {
    match s.screen
    case Loading => Rendered(LoadingView, s)
    case Result =>
      if HasResultData(s) then
        Rendered(ResultView(s.userImage.value, s.analysisResult.value, s.generatedImages.value), s)
      else Rendered(HomeView(s.error), Reset(s))
    case Home => Rendered(HomeView(s.error), s)
  }

  /** What the user sees for a session: React discards the output of a
      render that set its own state and renders the new state instead, so
      after the fallback the reset session is what is displayed. */
  function Displayed(s: Session): (v: View)
    ensures Consistent(s) ==> v == Render(s).view
    // the fallback shows the home screen with no error, whatever error the session held
    ensures !Consistent(s) ==> v == HomeView(None)
  {
    var r := Render(s);
    if r.next == s then r.view else Render(r.next).view
  }

  /** The fallback repairs any session, changes exactly the inconsistent ones,
      and a second render changes nothing. */
  lemma RenderRepairs(s: Session)
    ensures Consistent(Render(s).next)
    ensures Render(s).next == s <==> Consistent(s)
    ensures Render(Render(s).next).next == Render(s).next
  {
  }

  /** Every handler keeps a consistent session consistent, provided the
      FileReader data URL is non-empty (a data URL always starts "data:"). */
  lemma HandlersPreserveConsistent(s: Session, file: ImageUtil.File, env: ResizeEnv,
                                   read: ReadOutcome, ai: Outcome<FashionAI.AiResult>)
    requires Consistent(s)
    requires read.ReadLoaded? ==> read.dataUrl != ""
    ensures Consistent(Reset(s))
    ensures Consistent(HandleRerun(s, ai).final)
    ensures Consistent(HandleImageUpload(s, file, env, read, ai).final)
    ensures Consistent(HandleImageUploadIntended(s, file, env, read, ai).final)
  {
  }

  /** Rerun sends back exactly the base64 payload of a stored data URL
      `header,payload`, under the JPEG type. */
  lemma RerunSendsStoredPayload(s: Session, header: string, payload: string,
                                ai: Outcome<FashionAI.AiResult>)
    requires s.userImage == Some(header + [','] + payload)
    requires ',' !in header && ',' !in payload
    ensures HandleRerun(s, ai).sent == Some(AiCall(Some(payload), RerunMimeType))
  {
    assert Truthy(s.userImage) by { assert |s.userImage.value| > 0; }
    SecondFieldOfJoin(header, ',', payload);
  }

  /** After a successful upload, a rerun sends the same payload as the upload
      did, but always declares it JPEG, whatever the file's own type. */
  lemma RerunAfterUploadReusesPayload(s: Session, file: ImageUtil.File, env: ResizeEnv,
                                      dataUrl: string, result: FashionAI.AiResult,
                                      ai: Outcome<FashionAI.AiResult>)
    requires Resized(file, env).Resolved?
    requires dataUrl != ""
    ensures var up := HandleImageUpload(s, file, env, ReadLoaded(dataUrl), Resolved(result));
            var again := HandleRerun(up.final, ai);
            && up.sent.Some? && again.sent.Some?
            && again.sent.value.base64Image == up.sent.value.base64Image
            && up.sent.value.mimeType == file.mimeType
            && again.sent.value.mimeType == RerunMimeType
  {
    var up := HandleImageUpload(s, file, env, ReadLoaded(dataUrl), Resolved(result));
    assert up.final.userImage == Some(dataUrl);
  }

  /** A rerun that fails inside the AI hook always shows the hook's
      normalised, non-empty message in the banner: the app's own fallback for
      non-Error values is never reached on this path. */
  lemma RerunFailureShowsHookMessage(s: Session, response: Outcome<FashionAI.ContentResponse>,
                                     parse: string -> Outcome<FashionAnalysisResult>,
                                     generate: nat -> Outcome<FashionAI.GenerationResponse>,
                                     settledAt: nat -> nat)
    requires Truthy(s.userImage)
    ensures var c := FashionAI.AnalyzeAndGenerate(SecondField(s.userImage.value, ','), RerunMimeType,
                                                 response, parse, generate, settledAt);
            c.outcome.Rejected? ==>
              && c.outcome.reason.message != ""
              && HandleRerun(s, c.outcome).final.error
                   == Some(BannerLead + c.outcome.reason.message + BannerTail)
  {
  }
}
