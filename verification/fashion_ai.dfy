/** `analyzeAndGenerate` of the AI hook (hooks/useFashionAI.ts) with the hosted
    services abstracted into inputs: the analysis reply, the JSON parser, one
    reply per image request, and the time at which each image request settles.
    What stays is the local logic: one image request per prompt in order, an
    all-or-nothing join, index-aligned data URLs, error normalisation and the
    `isLoading` bracket. */
module FashionAI {
  import opened Js
  import opened JsString
  import opened Fashion

  const AnalysisModel := "gemini-2.5-flash"
  const AnalysisResponseType := "application/json"
  const ImageModel := "imagen-4.0-generate-001"
  const ImagesPerPrompt: nat := 1
  const GeneratedMimeType := "image/jpeg"
  const GeneratedAspectRatio := "3:4"
  const DataUrlPrefix := "data:image/jpeg;base64,"
  const UnknownAiError := "An unknown AI error occurred."
  /** The TypeError a V8-based browser throws for `undefined.trim()`. */
  const MissingTextMessage := "Cannot read properties of undefined (reading 'trim')"
  /** The TypeErrors a V8-based browser throws while reading
      `res.generatedImages[0].image.imageBytes` when a part is missing: no
      image list, an empty list, or an entry without an image. */
  const MissingListMessage := "Cannot read properties of undefined (reading '0')"
  const MissingImageMessage := "Cannot read properties of undefined (reading 'image')"
  const MissingBytesMessage := "Cannot read properties of undefined (reading 'imageBytes')"

  /** The analysis request: the image and its declared type, the model, and the
      JSON response type; the fixed instruction and schema are not modelled.
      `data` is None when the caller passed `undefined`. */
  datatype AnalysisRequest = AnalysisRequest(model: string, mimeType: string, data: Option<string>,
                                             responseMimeType: string)

  /** The analysis reply; `text` is None when the reply carries no text. */
  datatype ContentResponse = ContentResponse(text: Option<string>)

  datatype GenerationRequest = GenerationRequest(model: string, prompt: string, numberOfImages: nat,
                                                 outputMimeType: string, aspectRatio: string)

  /** The image service's reply. Each level is optional, as in the service
      SDK: a reply can come back without images (a filtered prompt, say), an
      entry without an image, an image without bytes. */
  datatype Image = Image(imageBytes: Option<string>)

  datatype GeneratedImage = GeneratedImage(image: Option<Image>)

  datatype GenerationResponse = GenerationResponse(generatedImages: Option<seq<GeneratedImage>>)

  /** What the hook's promise resolves to. */
  datatype AiResult = AiResult(analysis: FashionAnalysisResult, generatedImages: seq<string>)

  /** One run of `analyzeAndGenerate`: the requests it sent, the values it
      wrote to `isLoading` in order, and how its promise settled. */
  datatype Call = Call(analysisRequest: AnalysisRequest, generationRequests: seq<GenerationRequest>,
                       loadingWrites: seq<bool>, outcome: Outcome<AiResult>)

  /** The analysis step: the reply's text is trimmed and handed to
      `JSON.parse` (the `parse` input); a reply without text throws a TypeError
      at `trim`. */
  function ParseAnalysis(response: Outcome<ContentResponse>,
                         parse: string -> Outcome<FashionAnalysisResult>): (r: Outcome<FashionAnalysisResult>)
    ensures response.Rejected? ==> r == Rejected(response.reason)
    ensures response.Resolved? && response.value.text.None? ==> r == Rejected(ErrorObject(MissingTextMessage))
    ensures response.Resolved? && response.value.text.Some? ==>
              r == parse(Trim(response.value.text.value))
  {
    match response
    case Rejected(e) => Rejected(e)
    case Resolved(reply) =>
      match reply.text
      case None => Rejected(ErrorObject(MissingTextMessage))
      case Some(text) => parse(Trim(text))
  }

  /** The image request for one prompt. */
  function ImageRequest(prompt: string): GenerationRequest {
    GenerationRequest(ImageModel, prompt, ImagesPerPrompt, GeneratedMimeType, GeneratedAspectRatio)
  }

  /** `prompts.map(prompt => generateImages(...))`: one request per prompt, in
      the same order, each asking for one 3:4 JPEG image. */
  function GenerationRequests(prompts: seq<string>): (r: seq<GenerationRequest>)
    ensures |r| == |prompts|
    ensures forall i :: 0 <= i < |prompts| ==>
              && r[i].prompt == prompts[i]
              && r[i].model == ImageModel
              && r[i].numberOfImages == 1
              && r[i].outputMimeType == "image/jpeg"
              && r[i].aspectRatio == "3:4"
  {
    if prompts == [] then [] else [ImageRequest(prompts[0])] + GenerationRequests(prompts[1..])
  }

  /** The index of the rejection `Promise.all` reports: the rejected promise
      that settles first (`settledAt` gives each promise's settle time; of two
      settling at the same time the lower index is taken). None when every
      promise resolved. */
  function EarliestRejection<T>(outcomes: seq<Outcome<T>>, settledAt: nat -> nat): (r: Option<nat>)
    ensures r.None? <==> AllResolved(outcomes)
    ensures r.Some? ==> r.value < |outcomes| && outcomes[r.value].Rejected?
    ensures r.Some? ==> forall j :: 0 <= j < |outcomes| && outcomes[j].Rejected? ==>
                          settledAt(r.value) < settledAt(j) || (settledAt(r.value) == settledAt(j) && r.value <= j)
    decreases |outcomes|
  {
    if |outcomes| == 0 then None
    else
      var last := |outcomes| - 1;
      var earlier := EarliestRejection(outcomes[..last], settledAt);
      assert forall j :: 0 <= j < last ==> outcomes[..last][j] == outcomes[j];
      if outcomes[last].Resolved? then earlier
      else if earlier.Some? && settledAt(earlier.value) <= settledAt(last) then earlier
      else Some(last)
  }

  /** The values of a list of resolved promises, in list order. */
  function Values<T>(outcomes: seq<Outcome<T>>): (r: seq<T>)
    requires AllResolved(outcomes)
    ensures |r| == |outcomes|
    ensures forall i :: 0 <= i < |outcomes| ==> outcomes[i] == Resolved(r[i])
  {
    if outcomes == [] then [] else [outcomes[0].value] + Values(outcomes[1..])
  }

  /** `Promise.all(outcomes)`: the values, index-aligned with the promises,
      when all resolve; otherwise the reason of the earliest rejection. */
  function JoinAll<T>(outcomes: seq<Outcome<T>>, settledAt: nat -> nat): (r: Outcome<seq<T>>)
    ensures r.Resolved? <==> AllResolved(outcomes)
    ensures r.Resolved? ==> |r.value| == |outcomes|
    ensures r.Resolved? ==> forall i :: 0 <= i < |outcomes| ==> outcomes[i] == Resolved(r.value[i])
    ensures r.Rejected? ==> exists k :: EarliestRejection(outcomes, settledAt) == Some(k) &&
                                        r.reason == outcomes[k].reason
  {
    match EarliestRejection(outcomes, settledAt)
    case None => Resolved(Values(outcomes))
    case Some(k) => Rejected(outcomes[k].reason)
  }

  /** The reply has a first entry carrying an image, so that
      `res.generatedImages[0].image.imageBytes` can be read without a TypeError. */
  predicate HasFirstImage(res: GenerationResponse) {
    res.generatedImages.Some? && |res.generatedImages.value| > 0 && res.generatedImages.value[0].image.Some?
  }

  /** What a template literal prints for a `string | undefined`. */
  function TemplateText(s: Option<string>): string {
    match s
    case Some(text) => text
    case None => "undefined"
  }

  /** The payload of the reply's first image, as the template literal prints it. */
  function FirstImageBytes(res: GenerationResponse): string
    requires HasFirstImage(res)
  {
    TemplateText(res.generatedImages.value[0].image.value.imageBytes)
  }

  /** The callback of `imageResults.map`: the data URL of the reply's first
      image, or the TypeError of the first missing part on the path to it. */
  function ReplyUrl(res: GenerationResponse): (r: Outcome<string>)
    ensures r.Resolved? <==> HasFirstImage(res)
    ensures r.Resolved? ==> r.value == DataUrlPrefix + FirstImageBytes(res)
    ensures res.generatedImages.None? ==> r == Rejected(ErrorObject(MissingListMessage))
    ensures res.generatedImages == Some([]) ==> r == Rejected(ErrorObject(MissingImageMessage))
    ensures res.generatedImages.Some? && |res.generatedImages.value| > 0 && res.generatedImages.value[0].image.None? ==>
              r == Rejected(ErrorObject(MissingBytesMessage))
  {
    match res.generatedImages
    case None => Rejected(ErrorObject(MissingListMessage))
    case Some(images) =>
      if images == [] then Rejected(ErrorObject(MissingImageMessage))
      else
        match images[0].image
        case None => Rejected(ErrorObject(MissingBytesMessage))
        case Some(image) => Resolved(DataUrlPrefix + TemplateText(image.imageBytes))
  }

  /** The index of the first reply lacking an image (`|responses|` when none does). */
  function FirstMissing(responses: seq<GenerationResponse>): (k: nat)
    ensures k <= |responses|
    ensures forall j :: 0 <= j < k ==> HasFirstImage(responses[j])
    ensures k < |responses| ==> !HasFirstImage(responses[k])
  {
    if responses == [] || !HasFirstImage(responses[0]) then 0
    else 1 + FirstMissing(responses[1..])
  }

  /** `imageResults.map(res => `data:image/jpeg;base64,${res.generatedImages[0].image.imageBytes}`)`:
      one data URL per reply, in reply order. The map runs in order, so the
      first reply lacking an image throws, and its TypeError is the result. */
  function DataUrls(responses: seq<GenerationResponse>): (r: Outcome<seq<string>>)
    ensures r.Resolved? <==> forall i :: 0 <= i < |responses| ==> HasFirstImage(responses[i])
    ensures r.Resolved? ==> |r.value| == |responses|
    ensures r.Resolved? ==> forall i :: 0 <= i < |responses| ==>
              r.value[i] == DataUrlPrefix + FirstImageBytes(responses[i])
    ensures r.Rejected? ==> FirstMissing(responses) < |responses| &&
                            r == Rejected(ReplyUrl(responses[FirstMissing(responses)]).reason)
  {
    if responses == [] then Resolved([])
    else
      match ReplyUrl(responses[0])
      case Rejected(e) => Rejected(e)
      case Resolved(url) =>
        match DataUrls(responses[1..])
        case Rejected(e) => Rejected(e)
        case Resolved(rest) => Resolved([url] + rest)
  }

  /** The message of the Error the hook rethrows from its `catch`: the caught
      Error's message when non-empty, the generic message otherwise. */
  function Normalize(e: Thrown): (m: string)
    ensures m != ""
    ensures e.ErrorObject? && e.message != "" ==> m == e.message
    ensures e.NonError? || e.message == "" ==> m == UnknownAiError
  {
    if e.ErrorObject? && e.message != "" then e.message else UnknownAiError
  }

  /** Normalising an already normalised message changes nothing. */
  lemma NormalizeIdempotent(e: Thrown)
    ensures Normalize(ErrorObject(Normalize(e))) == Normalize(e)
  {
  }

  /** The replies to the image requests, as a list aligned with the prompts. */
  function Replies(count: nat, generate: nat -> Outcome<GenerationResponse>): (r: seq<Outcome<GenerationResponse>>)
    ensures |r| == count && forall i :: 0 <= i < count ==> r[i] == generate(i)
  {
    seq(count, i requires 0 <= i => generate(i))
  }

  /** Steps 2 and 3 of the hook after a successful analysis: wait for every
      image request, turn the replies into data URLs, and normalise whatever
      was thrown on the way. */
  function GenerateImages(analysis: FashionAnalysisResult, replies: seq<Outcome<GenerationResponse>>,
                          settledAt: nat -> nat): (r: Outcome<AiResult>)
    ensures r.Resolved? <==>
              && AllResolved(replies)
              && forall i :: 0 <= i < |replies| ==> HasFirstImage(replies[i].value)
    ensures r.Resolved? ==>
              && r.value.analysis == analysis
              && |r.value.generatedImages| == |replies|
              && forall i :: 0 <= i < |replies| ==>
                   r.value.generatedImages[i] == DataUrlPrefix + FirstImageBytes(replies[i].value)
    ensures !AllResolved(replies) ==>
              var k := EarliestRejection(replies, settledAt).value;
              r == Rejected(ErrorObject(Normalize(replies[k].reason)))
    ensures AllResolved(replies) && r.Rejected? ==>
              FirstMissing(Values(replies)) < |replies| &&
              r == Rejected(ErrorObject(Normalize(ReplyUrl(Values(replies)[FirstMissing(Values(replies))]).reason)))
    ensures r.Rejected? ==> r.reason.ErrorObject? && r.reason.message != ""
  {
    match JoinAll(replies, settledAt)
    case Rejected(e) => Rejected(ErrorObject(Normalize(e)))
    case Resolved(responses) =>
      match DataUrls(responses)
      case Rejected(e) => Rejected(ErrorObject(Normalize(e)))
      case Resolved(urls) => Resolved(AiResult(analysis, urls))
  }

  /** `analyzeAndGenerate(base64Image, mimeType)`. `response` is how the
      analysis call settled, `parse` stands for `JSON.parse`, `generate(i)` is
      how the i-th image request settled and `settledAt(i)` when. */
  function AnalyzeAndGenerate(base64Image: Option<string>, mimeType: string,
                              response: Outcome<ContentResponse>,
                              parse: string -> Outcome<FashionAnalysisResult>,
                              generate: nat -> Outcome<GenerationResponse>,
                              settledAt: nat -> nat): (c: Call)
    // isLoading is set before anything else and cleared on every path
    ensures c.loadingWrites == [true, false]
    // the image goes to the analysis model exactly as given
    ensures c.analysisRequest == AnalysisRequest(AnalysisModel, mimeType, base64Image, AnalysisResponseType)
    ensures var analysis := ParseAnalysis(response, parse);
            && (analysis.Rejected? ==> c.generationRequests == [] &&
                                       c.outcome == Rejected(ErrorObject(Normalize(analysis.reason))))
            && (analysis.Resolved? ==> c.generationRequests == GenerationRequests(analysis.value.imageGenerationPrompts))
    // all or nothing: success exactly when every step succeeded
    ensures var analysis := ParseAnalysis(response, parse);
            c.outcome.Resolved? <==>
              && analysis.Resolved?
              && forall i :: 0 <= i < |analysis.value.imageGenerationPrompts| ==>
                   generate(i).Resolved? && HasFirstImage(generate(i).value)
    // on success, image i is the data URL of the first image of reply i
    ensures c.outcome.Resolved? ==>
              var prompts := c.outcome.value.analysis.imageGenerationPrompts;
              && ParseAnalysis(response, parse) == Resolved(c.outcome.value.analysis)
              && |c.outcome.value.generatedImages| == |prompts|
              && forall i :: 0 <= i < |prompts| ==>
                   c.outcome.value.generatedImages[i] == DataUrlPrefix + FirstImageBytes(generate(i).value)
    // a failed image request fails the call with the earliest rejection's reason
    ensures var analysis := ParseAnalysis(response, parse);
            analysis.Resolved? && !AllResolved(Replies(|analysis.value.imageGenerationPrompts|, generate)) ==>
              exists k :: && 0 <= k < |analysis.value.imageGenerationPrompts|
                          && generate(k).Rejected?
                          && (forall j :: 0 <= j < |analysis.value.imageGenerationPrompts| && generate(j).Rejected? ==>
                                settledAt(k) <= settledAt(j))
                          && c.outcome == Rejected(ErrorObject(Normalize(generate(k).reason)))
    // when every request resolved, the first reply lacking an image fails the call
    ensures var analysis := ParseAnalysis(response, parse);
            analysis.Resolved? && AllResolved(Replies(|analysis.value.imageGenerationPrompts|, generate))
            && c.outcome.Rejected? ==>
              var replies := Values(Replies(|analysis.value.imageGenerationPrompts|, generate));
              && FirstMissing(replies) < |replies|
              && (forall j :: 0 <= j < |replies| ==> replies[j] == generate(j).value)
              && c.outcome == Rejected(ErrorObject(Normalize(ReplyUrl(replies[FirstMissing(replies)]).reason)))
    // whatever failed, the caller sees an Error with a non-empty message
    ensures c.outcome.Rejected? ==> c.outcome.reason.ErrorObject? && c.outcome.reason.message != ""
  {
    var request := AnalysisRequest(AnalysisModel, mimeType, base64Image, AnalysisResponseType);
    match ParseAnalysis(response, parse)
    case Rejected(e) =>
      Call(request, [], [true, false], Rejected(ErrorObject(Normalize(e))))
    case Resolved(analysis) =>
      var prompts := analysis.imageGenerationPrompts;
      Call(request, GenerationRequests(prompts), [true, false],
           GenerateImages(analysis, Replies(|prompts|, generate), settledAt))
  }
}
