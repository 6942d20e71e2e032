/** The capture modal of app/components/Camera.js: its state fields and the
    handlers that update them. Browser services (webcam, FileReader, fetch,
    Firestore, timers) are parameters: each handler receives the outcome the
    service produced. */
module Camera {
  import opened Wrappers
  import opened Decimal
  import opened PriceExtractor
  import opened DataUrl
  import opened Store

  const FirebaseNotReady := "Firebase is not properly initialized. Please check your configuration."
  const NoPriceDetected := "Could not detect price in the receipt. Please try again with a clearer image."
  const NotAnImage := "Please select an image file"
  const TooLarge := "Image size should be less than 10MB"
  const ReadFailed := "Error reading the image file"
  const InvalidPrice := "Please enter a valid price"

  /** The largest accepted gallery file: 10 MB. */
  const MaxImageBytes: nat := 10 * 1024 * 1024

  /** The value of confirmedPrice: null, NaN (parseFloat of an empty field) or a number. */
  datatype PriceInput = Blank | NotANumber | Amount(value: real)

  /** What the /api/ocr endpoint gave performOCR: a thrown error (the fetch or
      the JSON parse failed) or a response with its ok flag, status and body. */
  datatype OcrReply =
    | Thrown(message: string)
    | Response(ok: bool, status: nat, error: Option<string>, text: Option<string>)

  /** performOCR: the recognised text, or the message of the error it throws.
      Every error is wrapped as "OCR processing failed: ..."; a missing or
      empty error field of a failed response is replaced by the status, and a
      missing or empty text is an error of its own. */
  function PerformOcr(reply: OcrReply): (r: Result<string, string>)
    ensures r.Ok? ==> reply.Response? && reply.ok && reply.text == Some(r.value) && r.value != ""
    ensures r.Err? ==> "OCR processing failed: " <= r.error
    ensures reply.Response? && reply.ok && reply.text.Some? && reply.text.value != "" ==> r.Ok?
  {
    match reply
    case Thrown(m) => Err("OCR processing failed: " + m)
    case Response(ok, status, error, text) =>
      if !ok then
        var m := if error.Some? && error.value != "" then error.value else "HTTP error! status: " + NatToString(status);
        Err("OCR processing failed: " + m)
      else if text.None? || text.value == "" then Err("OCR processing failed: No text detected in the image")
      else Ok(text.value)
  }

  /** How the OCR outcome ends for the modal. */
  datatype Verdict = OcrFailed(message: string) | NoPrice(text: string) | Priced(text: string, price: real)

  /** The branch the capture and gallery handlers take after performOCR:
      a thrown error, a price that is null or 0 (falsy), or a positive price. */
  function OcrVerdict(ocr: Result<string, string>): (v: Verdict)
    ensures ocr.Err? <==> v.OcrFailed?
    ensures v.OcrFailed? ==> v.message == "Error processing image: " + ocr.error
    ensures ocr.Ok? ==> v.text == ocr.value
    ensures v.Priced? ==> v.price > 0.0 && ExtractedPrice(ocr.value) == Some(v.price)
    ensures v.NoPrice? ==> ExtractedPrice(ocr.value) == None || ExtractedPrice(ocr.value) == Some(0.0)
  {
    match ocr
    case Err(m) => OcrFailed("Error processing image: " + m)
    case Ok(text) => PriceVerdict(text, ExtractedPrice(text))
  }

  /** The branch taken once the price has been extracted from the text:
      if (!price) the "could not detect" error, else the confirmation step. */
  function PriceVerdict(text: string, price: Option<real>): (v: Verdict)
    ensures !v.OcrFailed? && v.text == text
    ensures v.Priced? <==> price.Some? && price.value != 0.0
    ensures v.Priced? ==> v.price == price.value
  {
    match price
    case Some(p) => if p != 0.0 then Priced(text, p) else NoPrice(text)
    case None => NoPrice(text)
  }

  /** Text without a digit, and text whose first price reads as zero, both end
      in the "could not detect price" branch. */
  lemma NoPriceCases(text: string)
    ensures OcrVerdict(Ok(text)).NoPrice? <==>
      (forall k :: 0 <= k < |text| ==> !IsDigit(text[k])) || ExtractedPrice(text) == Some(0.0)
  {
    PriceIffDigit(text);
  }

  /** The gallery checks, in order: the MIME type must start with "image/",
      then the size must not exceed 10 MB. */
  function GalleryCheck(fileType: string, size: nat): (r: Option<string>)
    ensures r.None? <==> "image/" <= fileType && size <= MaxImageBytes
    ensures !("image/" <= fileType) ==> r == Some(NotAnImage)
    ensures "image/" <= fileType && size > MaxImageBytes ==> r == Some(TooLarge)
  {
    if !("image/" <= fileType) then Some(NotAnImage)
    else if size > MaxImageBytes then Some(TooLarge)
    else None
  }

  /** The guard of handlePriceConfirmation: !p || isNaN(p) || p <= 0 rejects.
      What passes is exactly a number greater than 0. */
  predicate PriceGate(p: PriceInput): (b: bool)
    ensures b <==> p.Amount? && p.value > 0.0
  {
    match p
    case Blank => false
    case NotANumber => false
    case Amount(v) => v != 0.0 && v > 0.0
  }

  /** parseFloat(e.target.value) of the price field: a number, or NaN. */
  function FieldPrice(value: string): PriceInput {
    match ParseInputNumber(value)
    case Some(v) => Amount(v)
    case None => NotANumber
  }

  /** The gate on typed prices: 0.01 passes; 0, -5 and "abc" are refused. */
  lemma GateOnTypedPrices(cent: string, zero: string, minusFive: string, letters: string)
    requires cent == "0.01" && zero == "0" && minusFive == "-5" && letters == "abc"
    ensures PriceGate(FieldPrice(cent))
    ensures !PriceGate(FieldPrice(zero)) && !PriceGate(FieldPrice(minusFive)) && !PriceGate(FieldPrice(letters))
  {
    InputCent(cent);
    ParseInputNumberOfNat(0);
    assert NatToString(0) == zero;
    InputNotANumber("5.", letters);
  }

  /** The state fields of the modal, as one value. */
  datatype ModalState = ModalState(
    imgSrc: Option<string>,
    isProcessing: bool,
    error: Option<string>,
    detectedText: Option<string>,
    isFirebaseInitialized: bool,
    detectedPrice: Option<real>,
    showPriceConfirmation: bool,
    confirmedPrice: PriceInput,
    isUploading: bool,
    isGalleryMode: bool,
    showSuccess: bool)

  /** The fields and flags cleared before an OCR run (imgSrc is set separately). */
  function ResetForOcr(m: ModalState): (r: ModalState)
    ensures r.isProcessing && r.error.None? && r.detectedText.None? && r.detectedPrice.None?
    ensures !PriceGate(r.confirmedPrice)
    ensures r.imgSrc == m.imgSrc && r.showPriceConfirmation == m.showPriceConfirmation
    ensures r.isFirebaseInitialized == m.isFirebaseInitialized && r.isUploading == m.isUploading
    ensures r.isGalleryMode == m.isGalleryMode && r.showSuccess == m.showSuccess
  {
    m.(isProcessing := true, error := None, detectedText := None, detectedPrice := None, confirmedPrice := Blank)
  }

  /** The state after the OCR outcome has been handled. */
  function AfterVerdict(m: ModalState, v: Verdict): (r: ModalState)
    ensures !r.isProcessing
    ensures v.Priced? ==> r.showPriceConfirmation && r.detectedPrice == Some(v.price) && r.confirmedPrice == Amount(v.price)
    ensures v.Priced? ==> r.error == m.error && r.detectedText == Some(v.text)
    ensures !v.Priced? ==> r.error.Some? && r.showPriceConfirmation == m.showPriceConfirmation
    ensures !v.Priced? ==> r.detectedPrice == m.detectedPrice && r.confirmedPrice == m.confirmedPrice
    ensures v.NoPrice? ==> r.error == Some(NoPriceDetected) && r.detectedText == Some(v.text)
    ensures v.OcrFailed? ==> r.error == Some(v.message) && r.detectedText == m.detectedText
    ensures r.imgSrc == m.imgSrc && r.isUploading == m.isUploading && r.isGalleryMode == m.isGalleryMode
    ensures r.isFirebaseInitialized == m.isFirebaseInitialized && r.showSuccess == m.showSuccess
  {
    match v
    case OcrFailed(msg) => m.(error := Some(msg), isProcessing := false)
    case NoPrice(text) => m.(detectedText := Some(text), error := Some(NoPriceDetected), isProcessing := false)
    case Priced(text, p) =>
      m.(detectedText := Some(text), detectedPrice := Some(p), confirmedPrice := Amount(p),
         showPriceConfirmation := true, isProcessing := false)
  }

  /** After an OCR run the modal is no longer processing; the confirmation
      step opens only with a positive price, which is then both the detected
      and the confirmed price, and it is the price the patterns extracted. */
  lemma AfterOcrOutcome(m: ModalState, ocr: Result<string, string>)
    ensures var r := AfterVerdict(m, OcrVerdict(ocr));
      && !r.isProcessing
      && (r.showPriceConfirmation ==> m.showPriceConfirmation || OcrVerdict(ocr).Priced?)
      && (OcrVerdict(ocr).Priced? ==>
           r.showPriceConfirmation && r.error == m.error && ocr.Ok? &&
           r.detectedPrice == ExtractedPrice(ocr.value) && r.confirmedPrice == Amount(r.detectedPrice.value) &&
           r.detectedPrice.value > 0.0)
      && (!OcrVerdict(ocr).Priced? ==> r.error.Some? && r.detectedPrice == m.detectedPrice)
  {
  }

  class CameraModal {
    var imgSrc: Option<string>
    var isProcessing: bool
    var error: Option<string>
    var detectedText: Option<string>
    var isFirebaseInitialized: bool
    var detectedPrice: Option<real>
    var showPriceConfirmation: bool
    var confirmedPrice: PriceInput
    var isUploading: bool
    var isGalleryMode: bool
    var showSuccess: bool

    function State(): ModalState
      reads this
    {
      ModalState(imgSrc, isProcessing, error, detectedText, isFirebaseInitialized, detectedPrice,
        showPriceConfirmation, confirmedPrice, isUploading, isGalleryMode, showSuccess)
    }

    /** Mounting: the initial state, then the effect that checks that both
        app and db were initialised. */
    constructor(firebaseReady: bool)
      ensures State() == ModalState(None, false, if firebaseReady then None else Some(FirebaseNotReady),
        None, firebaseReady, None, false, Blank, false, false, false)
    {
      imgSrc := None;
      isProcessing := false;
      error := None;
      detectedText := None;
      isFirebaseInitialized := false;
      detectedPrice := None;
      showPriceConfirmation := false;
      confirmedPrice := Blank;
      isUploading := false;
      isGalleryMode := false;
      showSuccess := false;
      if !firebaseReady {
        error := Some(FirebaseNotReady);
        isFirebaseInitialized := false;
      } else {
        isFirebaseInitialized := true;
      }
    }

    /** The common tail of capture and the reader's onload: performOCR, the
        price-pattern loop, and the three ways it ends. */
    method HandleOcr(ocr: Result<string, string>)
      modifies this
      ensures State() == AfterVerdict(old(State()), OcrVerdict(ocr))
    {
      match ocr {
        case Err(msg) => ApplyVerdict(OcrFailed("Error processing image: " + msg));
        case Ok(text) => HandleText(text);
      }
    }

    /** The try block after performOCR resolved with text. */
    method HandleText(text: string)
      modifies this
      ensures State() == AfterVerdict(old(State()), OcrVerdict(Ok(text)))
    {
      var price := ExtractPrice(text);
      ApplyVerdict(PriceVerdict(text, price));
    }

    /** The state updates of each branch: the catch block's error, the
        "could not detect" error with the text kept, or the confirmation step. */
    method ApplyVerdict(v: Verdict)
      modifies this
      ensures State() == AfterVerdict(old(State()), v)
    {
      match v {
        case OcrFailed(msg) =>
          error := Some(msg);
        case NoPrice(text) =>
          detectedText := Some(text);
          error := Some(NoPriceDetected);
        case Priced(text, p) =>
          detectedText := Some(text);
          detectedPrice := Some(p);
          confirmedPrice := Amount(p);
          showPriceConfirmation := true;
      }
      isProcessing := false;
    }

    /** The state cleared before an OCR run starts. */
    method ResetFields()
      modifies this
      ensures State() == ResetForOcr(old(State()))
    {
      isProcessing := true;
      error := None;
      detectedText := None;
      detectedPrice := None;
      confirmedPrice := Blank;
    }

    /** capture: refused without Firebase; without a webcam nothing happens;
        otherwise the screenshot is taken, the fields are reset and OCR runs. */
    method Capture(screenshot: Option<string>, ocr: OcrReply)
      modifies this
      ensures !old(isFirebaseInitialized) ==> State() == old(State()).(error := Some(FirebaseNotReady))
      ensures old(isFirebaseInitialized) && screenshot.None? ==> State() == old(State())
      ensures old(isFirebaseInitialized) && screenshot.Some? ==>
        State() == AfterVerdict(ResetForOcr(old(State())).(imgSrc := screenshot), OcrVerdict(PerformOcr(ocr)))
    {
      if !isFirebaseInitialized {
        error := Some(FirebaseNotReady);
        return;
      }
      if screenshot.Some? {
        imgSrc := screenshot;
        ResetFields();
        HandleOcr(PerformOcr(ocr));
      }
    }

    /** handleGallerySelect: no file does nothing; a file that fails the
        checks only sets the error; otherwise the fields are reset and the
        file is read (read is None when the reader fails) and sent to OCR. */
    method HandleGallerySelect(file: Option<(string, nat)>, read: Option<string>, ocr: OcrReply)
      modifies this
      ensures file.None? ==> State() == old(State())
      ensures file.Some? && GalleryCheck(file.value.0, file.value.1).Some? ==>
        State() == old(State()).(error := GalleryCheck(file.value.0, file.value.1))
      ensures file.Some? && GalleryCheck(file.value.0, file.value.1).None? && read.None? ==>
        State() == ResetForOcr(old(State())).(error := Some(ReadFailed), isProcessing := false)
      ensures file.Some? && GalleryCheck(file.value.0, file.value.1).None? && read.Some? ==>
        State() == AfterVerdict(ResetForOcr(old(State())).(imgSrc := read), OcrVerdict(PerformOcr(ocr)))
    {
      if file.None? {
        return;
      }
      var (fileType, size) := file.value;
      if !("image/" <= fileType) {
        error := Some(NotAnImage);
        return;
      }
      if size > MaxImageBytes {
        error := Some(TooLarge);
        return;
      }
      ReadAndRecognise(read, ocr);
    }

    /** The accepted file: the fields are reset, then the reader's onerror or
        onload runs. */
    method ReadAndRecognise(read: Option<string>, ocr: OcrReply)
      modifies this
      ensures read.None? ==> State() == ResetForOcr(old(State())).(error := Some(ReadFailed), isProcessing := false)
      ensures read.Some? ==>
        State() == AfterVerdict(ResetForOcr(old(State())).(imgSrc := read), OcrVerdict(PerformOcr(ocr)))
    {
      ResetFields();
      match read {
        case None =>
          error := Some(ReadFailed);
          isProcessing := false;
        case Some(imageSrc) =>
          imgSrc := Some(imageSrc);
          HandleOcr(PerformOcr(ocr));
      }
    }

    /** The onChange of the price field: parseFloat of the input's value,
        which the browser keeps empty or a valid floating-point number. */
    method EditPrice(value: string)
      modifies this
      ensures State() == old(State()).(confirmedPrice := FieldPrice(value))
    {
      match ParseInputNumber(value) {
        case Some(v) => confirmedPrice := Amount(v);
        case None => confirmedPrice := NotANumber;
      }
    }

    /** handlePriceConfirmation: the gate, then the write of the record built
        from the compressed image; stored is the record that reached the
        collection. failure is the message of the write's error, if any. */
    method HandlePriceConfirmation(compressed: string, failure: Option<string>) returns (stored: Option<Receipt>)
      modifies this
      ensures !PriceGate(old(confirmedPrice)) ==>
        stored.None? && State() == old(State()).(error := Some(InvalidPrice))
      ensures PriceGate(old(confirmedPrice)) && failure.Some? ==>
        stored.None? &&
        State() == old(State()).(error := Some("Error saving to database: " + failure.value),
          isProcessing := false, isUploading := false)
      ensures PriceGate(old(confirmedPrice)) && failure.None? ==>
        stored == Some(Receipt(compressed, Some(old(confirmedPrice).value), old(detectedText), ImageUrl(compressed))) &&
        State() == old(State()).(error := None, showSuccess := true, isProcessing := false, isUploading := false)
      ensures stored.Some? ==> stored.value.price.Some? && stored.value.price.value > 0.0
    {
      stored := None;
      if !PriceGate(confirmedPrice) {
        error := Some(InvalidPrice);
        return;
      }
      isProcessing := true;
      error := None;
      isUploading := true;
      var record := Receipt(compressed, Some(confirmedPrice.value), detectedText, ImageUrl(compressed));
      match failure {
        case Some(msg) =>
          error := Some("Error saving to database: " + msg);
        case None =>
          stored := Some(record);
          showSuccess := true;
      }
      isProcessing := false;
      isUploading := false;
    }

    /** retake: back to an empty capture. */
    method Retake()
      modifies this
      ensures State() == old(State()).(imgSrc := None, error := None, detectedText := None,
        detectedPrice := None, confirmedPrice := Blank, showPriceConfirmation := false)
    {
      imgSrc := None;
      error := None;
      detectedText := None;
      detectedPrice := None;
      confirmedPrice := Blank;
      showPriceConfirmation := false;
    }

    /** toggleMode: the same resets as retake, and the other input mode. */
    method ToggleMode()
      modifies this
      ensures State() == old(State()).(isGalleryMode := !old(isGalleryMode), imgSrc := None, error := None,
        detectedText := None, detectedPrice := None, confirmedPrice := Blank, showPriceConfirmation := false)
    {
      isGalleryMode := !isGalleryMode;
      imgSrc := None;
      error := None;
      detectedText := None;
      detectedPrice := None;
      confirmedPrice := Blank;
      showPriceConfirmation := false;
    }
  }
}
