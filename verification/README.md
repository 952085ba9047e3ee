# AI fashion stylist front-end: a verified model of its local logic

The app lets a user upload a photo of an outfit. It shrinks the photo in the
browser, sends it to a hosted analysis model and then asks a hosted image model
for reference pictures. The hosted models are not part of this model. Three
pieces of local logic are modelled as pure Dafny functions and proved correct:

- **Resizing** (`ImageUtil`, utils/image.ts). This covers the target canvas size
  with `Math.round` written exactly in integers as `(2p+q) div 2q`. It also
  covers how the re-encoded file is built, and the three rejections: a failed
  image load, a missing 2D context and a null blob.
- **The AI hook** (`FashionAI`, hooks/useFashionAI.ts). This is
  `analyzeAndGenerate` with the services as inputs. The inputs are the analysis
  reply, `JSON.parse`, how each image request settled, and when. The hook
  sends one image request per prompt, in order. The join is all-or-nothing and
  reports the earliest-settled rejection. It builds index-aligned
  `data:image/jpeg;base64,` URLs, normalises errors, and brackets the call with
  `isLoading`.
- **The session state machine** (`App`, App.tsx). This is the
  `{screen, userImage, analysisResult, generatedImages, error}` record, with
  the upload, rerun and reset handlers and the render-time fallback as pure
  transitions. Each handler takes how its asynchronous work ended as an input.
  It returns the states shown while waiting, the final state, and the AI call
  it made.

Two small modules hold the JavaScript semantics the code relies on:

- `Js`: nullable values, thrown values (an `Error` with a message, or anything
  else), and settled promises.
- `JsString`: truthiness of `string | null`, `String.prototype.trim` with the
  ECMA-262 white-space set, and `s.split(',')[1]`.

`Fashion` mirrors the `FashionAnalysisResult` record of types.ts.

The model follows the code as written. Points a reader might not expect:

- Only a rejection of `resizeImage` reaches the upload handler's `catch`.
  Failures in the FileReader callbacks, including a failed AI call, leave the
  loading screen up. See Findings.
- `split(',')[1]` is the field between the first and the second comma. On a
  data URL, whose base64 payload has no comma, that is the whole payload
  (`App.RerunSendsStoredPayload`).
- The hook sends one image request for however many prompts the analysis
  returns. The model allows any number and keeps images aligned with prompts.
- Each image reply is read as `res.generatedImages[0].image.imageBytes`. A
  missing list, an empty list or a missing `image` throws a TypeError, and a
  missing `imageBytes` puts the text "undefined" into the data URL.
- With unequal bounds, the shorter side is never checked against its own bound
  (`ImageUtil.UnequalBoundExample`). Both sides fit only for a square bound,
  which is the only way the app calls it (`ImageUtil.SquareBoundFits`).
- A failed image load rejects with the DOM event, which is not an `Error`. So
  the banner shows "An unknown error occurred.".
- The rejection `Promise.all` reports is the one that settles first. Settle
  times are an input, and on a tie the lower index wins.

## Model

| member | source | states |
|---|---|---|
| `ImageUtil.RoundDiv` | utils/image.ts:20 | The integer formula gives the integer nearest p/q, rounding halves up, which is `Math.round` for non-negative operands. |
| `ImageUtil.RoundOfUnique` | utils/image.ts:20 | At most one integer is the rounding of p/q, so the rounding specification pins the result down. |
| `ImageUtil.TargetSize` | utils/image.ts:16-28 | Wider than tall and over maxWidth gives width maxWidth and height round(height*maxWidth/width). Otherwise (square included), over maxHeight gives height maxHeight and width round(width*maxHeight/height). A dominant side within its bound leaves both sides unchanged. The result never exceeds the input on either axis. |
| `ImageUtil.SquareBoundFits` | utils/image.ts:18-28 | With a square bound B, as the upload uses with 1024, both output sides are at most B. For a wider-than-tall input the width stays the longer side. |
| `ImageUtil.LandscapeExample` | utils/image.ts:18-22 | 2000x1000 bounded by 1024x1024 becomes 1024x512. |
| `ImageUtil.UnequalBoundExample` | utils/image.ts:18-22 | With bounds 1000x100, a 300x200 image stays 300x200. The height exceeds its bound because only the dominant side is checked. |
| `ImageUtil.ResizeImage` | utils/image.ts:10-56 | A failed load rejects with a non-Error. A missing 2D context rejects with "Could not get canvas context". A null blob rejects with "Canvas to Blob conversion failed". Otherwise the new file keeps the input's name and type and is stamped with the current time. Its contents are the bytes the canvas returns for a request at the target size, in the input's type, at quality 0.9. |
| `ImageUtil.ResizeWithinSquareBound` | utils/image.ts:16-52 | With a square bound, a resized file exists only for a loaded image with a 2D context. Its contents are the canvas's answer to a request whose both sides fit the bound, in the input's type at quality 0.9. |
| `JsString.Trim` | hooks/useFashionAI.ts:41 | The result is an infix of the text. Everything removed before and after it is white space, and no white space is left at either end. |
| `JsString.TrimOfPadded` | hooks/useFashionAI.ts:41 | Trim removes exactly the padding. With white space before and after a text that neither starts nor ends with white space, the result is that text. |
| `JsString.TrimIdempotent` | hooks/useFashionAI.ts:41 | Trimming an already trimmed text changes nothing. |
| `JsString.SecondField` | App.tsx:66 | `s.split(',')[1]` is undefined exactly when s has no comma. Otherwise it has no comma, it starts right after the first comma, and it ends at the second comma or at the end of s. |
| `JsString.SecondFieldOfJoin` | App.tsx:30 | For a header and a payload with no comma, the second field of `header,payload` is the payload. |
| `FashionAI.ParseAnalysis` | hooks/useFashionAI.ts:21-42 | A failed analysis call passes its reason on. A reply without text fails with a TypeError at `trim`. Otherwise the parser receives the trimmed text. |
| `FashionAI.GenerationRequests` | hooks/useFashionAI.ts:45-55 | There is one image request per prompt, in prompt order. Each carries its prompt, the Imagen model, one image, JPEG output and a 3:4 aspect ratio. |
| `FashionAI.EarliestRejection` | hooks/useFashionAI.ts:57 | None exactly when every request resolved. Otherwise it gives a rejected request that settled no later than any other rejected one, taking the lower index on a tie. |
| `FashionAI.JoinAll` | hooks/useFashionAI.ts:57 | The join succeeds exactly when every promise resolved, and then value i is the value of promise i. Otherwise it fails with the earliest rejection's reason. |
| `FashionAI.ReplyUrl` | hooks/useFashionAI.ts:58-60 | A reply gives a data URL exactly when it has a first entry with an `image`. The URL is `data:image/jpeg;base64,` followed by the bytes, or by "undefined" when the bytes are missing. A missing list, an empty list and a missing `image` each throw their own TypeError, reading '0', 'image' and 'imageBytes'. |
| `FashionAI.FirstMissing` | hooks/useFashionAI.ts:58 | The index of the first reply without an image, or the number of replies when all have one. Every earlier reply has an image. |
| `FashionAI.DataUrls` | hooks/useFashionAI.ts:58-61 | Succeeds exactly when every reply has an image. Then there is one URL per reply, in reply order, and URL i is the data URL of reply i. Otherwise it fails with the TypeError of the first reply without an image, since the map runs in order. |
| `FashionAI.GenerateImages` | hooks/useFashionAI.ts:57-70 | After a successful analysis, the images succeed exactly when every request resolved with an image, and then image i is the data URL of reply i. A rejected request gives the earliest rejection's normalised reason. A reply without an image gives the normalised TypeError of the first such reply. Every failure is an Error with a non-empty message. |
| `FashionAI.Normalize` | hooks/useFashionAI.ts:65-70 | The rethrown message is never empty. It is the caught Error's message when that is non-empty, and "An unknown AI error occurred." otherwise. |
| `FashionAI.NormalizeIdempotent` | hooks/useFashionAI.ts:67-70 | Normalising a normalised message gives it back unchanged. |
| `FashionAI.AnalyzeAndGenerate` | hooks/useFashionAI.ts:17-74 | `isLoading` is written true and then false, on every path. The image and its type go to the analysis model unchanged. Image requests are sent only after a successful analysis, one per prompt. The call succeeds exactly when the analysis and every image request succeed with an image. Then image i is the data URL of reply i. A failed image request fails the whole call with the earliest rejection's normalised reason. When every request succeeds but a reply has no image, the call fails with the normalised TypeError of the first such reply. Every failure is an Error with a non-empty message. |
| `App.ErrorBanner` | App.tsx:78-79 | The banner is the fixed Korean lead, then the Error's message (or "An unknown error occurred." for a non-Error), then the fixed tail. The message can be read back from the banner. |
| `App.Reset` | App.tsx:53-59 | From any session the result is the home screen with image, analysis, images and error all null. |
| `App.UploadStart` | App.tsx:22-23 | Upload first clears the error and shows the loading screen, and changes nothing else. |
| `App.Failed` | App.tsx:76-80 | The catch block moves to the home screen with the banner and keeps the stored image and the previous results. |
| `App.Succeeded` | App.tsx:69-72 | The success branch stores the analysis and the images and shows the result screen. The stored image is left as it is. |
| `App.HandleImageUpload` | App.tsx:21-51 | The first state shown is UploadStart; after a successful read the data URL is stored as `userImage` while the loading screen stays up. A resize rejection goes home with the banner and sends nothing. After a successful read, the hook gets the data URL's second comma field with the file's own type. Success shows the result with the full data URL as the image. A failed read leaves the session exactly as UploadStart left it and sends nothing. A failed AI call leaves that session with the data URL stored, so the loading screen stays up with no error. |
| `App.HandleImageUploadIntended` | App.tsx:21-51 | The corrected upload always settles. It goes home exactly when the resize, the read or the AI call failed. A resize failure shows its own banner and sends nothing. A failed read shows the banner for "Failed to read the image file." and sends nothing. A failed AI call shows the banner for the hook's error with the data URL kept as the image. Earlier results are kept in each case. It makes the same AI call as the written handler. |
| `App.UploadAiFailureStaysLoading` | App.tsx:29-44 | After a successful resize and read, an AI failure leaves the written handler loading with no error. The intended handler goes home with the banner. |
| `App.HandleRerun` | App.tsx:61-82 | With no image (null or ""), nothing happens and nothing is sent. Otherwise the loading screen is shown with the error cleared, and the second comma field of the image is sent as image/jpeg. Success replaces the analysis and images and shows the result while keeping the image. Failure goes home with the banner and keeps the previous results. |
| `App.Render` | App.tsx:84-107 | `renderScreen` returns the result screen only with analysis, images and a non-empty image. Otherwise it returns the home view with the current error and resets the session. The loading and home screens render unchanged. |
| `App.Displayed` | App.tsx:99-102 | A consistent session is displayed as `renderScreen` returns it. After the fallback, React discards the returned view and renders the reset session, so the home screen shows no error whatever error the session held. |
| `App.RenderRepairs` | App.tsx:88-102 | After render, the session is consistent: a result screen always has its data. Render changes a session exactly when it is inconsistent, and a second render changes nothing. |
| `App.HandlersPreserveConsistent` | App.tsx:21-82 | Reset, rerun and both upload handlers turn a consistent session into a consistent one, given a non-empty data URL. |
| `App.RerunSendsStoredPayload` | App.tsx:66-68 | For a stored `header,payload` data URL, rerun sends exactly the payload as image/jpeg. |
| `App.RerunAfterUploadReusesPayload` | App.tsx:30-68 | After a successful upload, a rerun sends the same payload the upload sent. The upload used the file's own type, while the rerun always says image/jpeg. |
| `App.RerunFailureShowsHookMessage` | App.tsx:76-80 | When the hook fails, the rerun banner carries the hook's normalised non-empty message, never the app's fallback for non-Error values. |

## Left out

- Rendering: the React components (HomeScreen, LoadingScreen, ResultScreen), styling, the PNG export through `html-to-image`, `navigator.share`, file-input clicks and the loading-message timer. These are UI and I/O.
- The prompt text and the response schema in constants.ts. They are data handed to the hosted model and have no local behaviour.
- The hosted analysis and image calls, the API-key check at start-up, `FileReader`, canvas drawing, base64 and image codecs, and object URLs. They are foreign calls and appear only as inputs: a reply, a parser, per-request outcomes, a data URL, a blob.
- Floating-point `Math.round`. It is modelled exactly in integers for non-negative operands.
- React's render cycle is modelled only as far as `App.Displayed`: a render that resets the session is discarded and the reset session is rendered. The rest of the React render cycle is not modelled.
- Event-loop timing. Each handler is modelled as running to completion before the next user event. A reset while a call is in flight, and the late results that would then arrive, are not modelled. `Promise.all` timing appears only as the settle-time input.
- JSON shape checking. `JSON.parse` is assumed to produce a well-formed record. A reply missing `imageGenerationPrompts`, which would throw at `.map`, is not modelled.
- The wording of the TypeErrors for a missing reply text and for the three missing parts of an image reply follows V8. Other engines word them differently.
- Image types the canvas cannot encode. `canvas.toBlob` falls back to PNG for a type it does not support, but the new file still declares the input's `file.type`, and the upload sends that type to the hook. The model takes whatever bytes the canvas returns as opaque, so this mismatch is not represented.
- The `else throw` branches at App.tsx:38-40 and App.tsx:73-75. The hook only ever resolves with an object, so these branches cannot be reached. A resolved hook call always leads to the result screen.
- The hook's `isLoading` flag is modelled inside `FashionAI.AnalyzeAndGenerate`. App.tsx destructures it but never reads it.

## Findings

| source | as written | input that shows it | evidently intended | confidence | as-written member | corrected member |
|---|---|---|---|---|---|---|
| App.tsx:29-44 | The read and the AI call run in `reader.onload`/`onerror` callbacks after the `try` has completed. Their `throw`s and rejections are uncaught. | The resize succeeds and the read succeeds, but the AI hook rejects (or the read fails). The session stays on the loading screen with no error. | Every failure of the upload chain returns to the home screen with the banner, as the `catch` block does for the resize. | high; not executed | `App.UploadAiFailureStaysLoading` | `App.HandleImageUploadIntended` |
