/** The POST handler of app/api/ocr/route.js: it checks the JSON request,
    forwards the image to the OCR.space parse endpoint as form parameters and
    turns the provider's answer into a response for the client. The fetch
    itself is a parameter: the handler receives what the provider answered. */
module OcrRoute {
  import opened Wrappers
  import opened Decimal

  const InvalidRequest := "Invalid request format"
  const NoImage := "No image data provided"
  const ProcessingFailed := "OCR processing failed"
  const NoText := "No text detected in the image"
  /** The TypeError the V8 runtime throws for data.image when the body is the JSON null. */
  const NullAccess := "Cannot read properties of null (reading 'image')"

  /** The request body: not JSON at all, the JSON null, or a JSON value whose
      image property is either falsy (None) or a truthy value in its string form. */
  datatype RequestBody = NotJson | NullJson | Json(image: Option<string>)

  /** One result of ParsedResults: ParsedText and TextOverlay?.MeanConfidence. */
  datatype ParsedResult = ParsedResult(parsedText: Option<string>, meanConfidence: Option<real>)

  /** What the provider call produced: fetch threw, a non-OK status with the
      response text, a body that is not JSON, or the parsed JSON result. */
  datatype ProviderReply =
    | Unreachable(message: string)
    | HttpError(status: nat, text: string)
    | BadJson(message: string)
    | Parsed(isErroredOnProcessing: bool, errorMessage: Option<string>, parsedResults: Option<seq<ParsedResult>>)

  /** The JSON the handler answers with, and its status. */
  datatype Body = Failure(error: string) | Success(text: Option<string>, confidence: real)
  datatype RouteResponse = RouteResponse(status: nat, body: Body)

  /** error.message || "OCR processing failed" */
  function MessageOr(m: string): (r: string)
    ensures r != ""
    ensures m != "" ==> r == m
  {
    if m == "" then ProcessingFailed else m
  }

  /** The checks on the request: the image to forward, or the early response. */
  function ValidateRequest(body: RequestBody): (r: Result<string, RouteResponse>)
    ensures body.NotJson? <==> r == Err(RouteResponse(400, Failure(InvalidRequest)))
    ensures body.Json? && body.image.None? <==> r == Err(RouteResponse(400, Failure(NoImage)))
    ensures body.NullJson? <==> r == Err(RouteResponse(500, Failure(NullAccess)))
    ensures r.Ok? <==> body.Json? && body.image.Some?
    ensures r.Ok? ==> r.value == body.image.value
  {
    match body
    case NotJson => Err(RouteResponse(400, Failure(InvalidRequest)))
    case NullJson => Err(RouteResponse(500, Failure(NullAccess)))
    case Json(image) =>
      match image
      case None => Err(RouteResponse(400, Failure(NoImage)))
      case Some(data) => Ok(data)
  }

  /** A form parameter: name and value. */
  type Param = (string, string)

  /** The form parameters, in the order the handler appends them. The names
      are fixed; a missing API key is sent as the empty string, and the image
      is the last value sent. */
  function OcrParams(apiKey: Option<string>, image: string): (p: seq<Param>)
    ensures |p| == 8
    ensures forall k :: 0 <= k < 8 ==> p[k].0 == ["apikey", "language", "isOverlayRequired", "detectOrientation",
      "scale", "OCREngine", "filetype", "base64Image"][k]
    ensures p[0].1 == (if apiKey.Some? then apiKey.value else "")
    ensures p[7].1 == image
  {
    [("apikey", apiKey.GetOr("")), ("language", "eng"), ("isOverlayRequired", "false"),
     ("detectOrientation", "true"), ("scale", "true"), ("OCREngine", "2"),
     ("filetype", "jpg"), ("base64Image", image)]
  }

  /** The URLSearchParams object, built by successive appends. */
  method BuildParams(apiKey: Option<string>, image: string) returns (params: seq<Param>)
    ensures params == OcrParams(apiKey, image)
  {
    params := [];
    params := params + [("apikey", if apiKey.Some? then apiKey.value else "")];
    params := params + [("language", "eng")];
    params := params + [("isOverlayRequired", "false")];
    params := params + [("detectOrientation", "true")];
    params := params + [("scale", "true")];
    params := params + [("OCREngine", "2")];
    params := params + [("filetype", "jpg")];
    params := params + [("base64Image", image)];
  }

  /** Only the key and the image vary: the six options between them are the
      same on every request. */
  lemma OcrParamsFixedOptions(key1: Option<string>, image1: string, key2: Option<string>, image2: string)
    ensures OcrParams(key1, image1)[1..7] == OcrParams(key2, image2)[1..7]
    ensures OcrParams(key1, image1)[1..7] ==
      [("language", "eng"), ("isOverlayRequired", "false"), ("detectOrientation", "true"),
       ("scale", "true"), ("OCREngine", "2"), ("filetype", "jpg")]
  {
  }

  /** The provider's answer classified in the order the handler checks it. */
  function Classify(reply: ProviderReply): (r: RouteResponse)
    ensures r.status == 200 <==> r.body.Success?
    ensures r.status == 500 <==> r.body.Failure?
    ensures r.body.Failure? ==> r.body.error != ""
    ensures reply.HttpError? ==>
      r == RouteResponse(500, Failure("OCR API error: " + NatToString(reply.status) + " - " + reply.text))
    ensures reply.Parsed? && reply.isErroredOnProcessing ==>
      r == RouteResponse(500, Failure(MessageOr(reply.errorMessage.GetOr(""))))
    ensures r.body.Success? <==>
      reply.Parsed? && !reply.isErroredOnProcessing && reply.parsedResults.Some? && |reply.parsedResults.value| > 0
  {
    match reply
    case Unreachable(m) => RouteResponse(500, Failure(MessageOr(m)))
    case HttpError(status, text) =>
      RouteResponse(500, Failure("OCR API error: " + NatToString(status) + " - " + text))
    case BadJson(m) => RouteResponse(500, Failure(MessageOr(m)))
    case Parsed(errored, errorMessage, results) =>
      if errored then RouteResponse(500, Failure(MessageOr(errorMessage.GetOr(""))))
      else if results.None? || |results.value| == 0 then RouteResponse(500, Failure(NoText))
      else
        var first := results.value[0];
        RouteResponse(200, Success(first.parsedText, first.meanConfidence.GetOr(0.0)))
  }

  /** Success reports the first result's text, and its mean confidence with
      0 for an absent one; the other results are ignored. */
  lemma ClassifySuccess(errorMessage: Option<string>, first: ParsedResult, rest: seq<ParsedResult>)
    ensures Classify(Parsed(false, errorMessage, Some([first] + rest))) ==
      RouteResponse(200, Success(first.parsedText, if first.meanConfidence.Some? then first.meanConfidence.value else 0.0))
  {
  }

  /** An empty or missing ParsedResults is reported as "no text". */
  lemma ClassifyNoResults(errorMessage: Option<string>, results: Option<seq<ParsedResult>>)
    requires results.None? || results.value == []
    ensures Classify(Parsed(false, errorMessage, results)) == RouteResponse(500, Failure(NoText))
  {
  }

  /** The HTTP error message carries the status in decimal. */
  lemma HttpErrorMessage(status: nat, text: string)
    ensures var m := Classify(HttpError(status, text)).body.error;
      exists d :: m == "OCR API error: " + d + " - " + text && |d| > 0 && DigitsIn(d, 0, |d|) && SpanValue(d, 0, |d|) == status
  {
    var d := NatToString(status);
    assert Classify(HttpError(status, text)).body.error == "OCR API error: " + d + " - " + text;
  }

  /** POST: the request checks, the parameters sent (None when no request
      was made) and the response. */
  method Post(body: RequestBody, apiKey: Option<string>, reply: ProviderReply)
    returns (response: RouteResponse, sent: Option<seq<Param>>)
    ensures ValidateRequest(body).Err? ==> response == ValidateRequest(body).error && sent.None?
    ensures ValidateRequest(body).Ok? ==>
      sent == Some(OcrParams(apiKey, ValidateRequest(body).value)) && response == Classify(reply)
    ensures response.status == 200 || response.status == 400 || response.status == 500
  {
    match ValidateRequest(body) {
      case Err(early) =>
        return early, None;
      case Ok(image) =>
        var params := BuildParams(apiKey, image);
        return Classify(reply), Some(params);
    }
  }
}
