# LazyCashier core, modelled in Dafny

LazyCashier is a small receipt-capture web app. A capture modal photographs a
receipt or takes one from the gallery and sends it to an OCR proxy. The modal
reads a price out of the recognised text with five regular expressions tried
in a fixed order. The user confirms the price, and the downscaled image and the
price are stored as a receipt. A receipts page lists and deletes receipts. An
analytics page sums revenue from the receipts and expenses from a second
collection, and appends new expense records. A start-up module checks the
Firebase configuration before it creates the app and database handles.

The project models that logic and proves what it promises. It is organised as follows.

- `wrappers.dfy` (`Wrappers`): Option and Result.
- `decimal.dfy` (`Decimal`): digit strings, the decimal numeral of a number, and the two
  number conversions the app relies on at its inputs. One is parseFloat of a
  captured numeral. The other is parseFloat/Number of an `<input type="number">` value.
- `price_patterns.dfy` (`PricePatterns`): each of the five regular expressions twice.
  - A greedy scanner, `MatchAt`, gives the match the JavaScript engine reports at a start position.
  - A relational definition, `RegexMatch`, gives every match the expression admits there.
  - `MatchAt`'s contract (soundness) and the lemma `MatchAtComplete` (completeness) connect the two.
- `price_extractor.dfy` (`PriceExtractor`):
  - `String.prototype.match`: the leftmost start position with a match;
  - the loop over the patterns with its early `break`;
  - the properties of the extracted price, with worked examples.
- `image_scale.dfy` (`ImageScale`): the dimension rule of `compressImage`.
- `data_url.dfy` (`DataUrl`): `split(",")`, the stored `imageUrl` and `blobToBase64`.
- `store.dfy` (`Store`): the documents of the `receipts` and `expenses` collections.
- `camera.dfy` (`Camera`): the capture modal as a class with the modal's state fields and its handlers.
- `receipts.dfy` (`Receipts`): the receipts page as a class, and the delete filter with its lemmas.
- `analytics.dfy` (`Analytics`): the analytics page as a class; the snapshot reducers as loops; the
  expenses collection as a class that `addDoc` appends to.
- `ocr_route.dfy` (`OcrRoute`): the POST handler of the OCR proxy.
- `firebase_init.dfy` (`FirebaseInit`): the required-key check and the module's initialisation.

Services outside the app are parameters of the handlers. These are the webcam, `FileReader`,
`fetch`, the Firestore SDK, `window.confirm` and the environment. Each handler receives the
outcome the service produced: a screenshot or none, the file that was read or a read error,
the OCR reply, whether a write failed, and whether the user confirmed. Numbers are exact reals.

## Model

| member | source | states |
|---|---|---|
| Decimal.ParseFloatNumeral | app/components/Camera.js:205 | parseFloat of a captured numeral (digits and dots, starting with a digit) is never negative |
| Decimal.ParseFloatNumeralSplit | app/components/Camera.js:205 | a numeral with one dot reads as its whole part plus its fraction divided by 10 to the number of fraction digits |
| Decimal.ParseFloatNumeralZero | app/components/Camera.js:205 | a numeral parses to 0 exactly when every digit parseFloat reads is '0' |
| Decimal.NatToString | app/components/Camera.js:112 | the decimal numeral of a status code is non-empty, all digits, has no leading zero and reads back as the number |
| Decimal.ParseInputNumber | app/components/Camera.js:494-495 | the value of a number input is a number only if it is non-empty; it is non-negative unless it starts with '-' and at most 0 if it does |
| Decimal.UnsignedInput | app/components/Camera.js:494-495 | an unsigned valid floating-point number (mantissa with digits, optional exponent) reads as a non-negative value |
| Decimal.ParseInputNumberOfNat | app/analytics/page.js:88-97 | writing a whole number into a number input and reading it back gives that number |
| Decimal.ParseInputNumberOfNumeral | app/components/Camera.js:495 | a numeral of digits, with at most one dot followed by digits, reads in the number field as parseFloat reads it in the OCR text |
| Decimal.InputCent | app/components/Camera.js:495 | the field value "0.01" reads as 0.01 |
| Decimal.InputLeadingDot | app/components/Camera.js:495 | the field value ".5" reads as 0.5 |
| Decimal.InputExponent | app/components/Camera.js:495 | "1e2" reads as 100 and "1e-2" as 0.01 |
| Decimal.InputNegative | app/components/Camera.js:495 | "-0.5" reads as -0.5 |
| Decimal.InputNotANumber | app/analytics/page.js:88 | "5.", "abc" and the empty field are not numbers |
| PricePatterns.IsSpace | app/components/Camera.js:194-197 | `\s` never matches a digit, a dot, a colon or an ASCII letter, so each `\s*` stops where the next part of the pattern starts |
| PricePatterns.LiteralAt | app/components/Camera.js:194-197 | a lower-case word occurs under the i flag exactly when each character agrees with it once both are upper-cased |
| PricePatterns.NumeralSpanText | app/components/Camera.js:198 | whatever `\d+\.?\d*` matches is a numeral parseFloat can read |
| PricePatterns.NumeralEndLongest | app/components/Camera.js:194-198 | the greedy end of `\d+\.?\d*` is the end of the longest numeral starting there |
| PricePatterns.NumeralEndUnique | app/components/Camera.js:195 | a numeral followed by a character that is neither a digit nor a dot ends where the greedy one does |
| PricePatterns.NumeralText | app/components/Camera.js:194-198 | the captured group is a non-empty run of digits and dots that starts with a digit |
| PricePatterns.GroupAt | app/components/Camera.js:198 | the group `(\d+\.?\d*)` is reported at a position exactly when the expression matches there, and what it reports is a match |
| PricePatterns.AfterLabel | app/components/Camera.js:196-197 | `Total\s*:?\s*` ends at or after the label and within the text |
| PricePatterns.MatchAt | app/components/Camera.js:193-199 | whatever the engine reports for a pattern at a position is a match of that regular expression there, and its group is a numeral |
| PricePatterns.RmPrefixAt | app/components/Camera.js:194 | the scanner for `RM\s*(\d+\.?\d*)` reports only matches of that expression |
| PricePatterns.RmSuffixAt | app/components/Camera.js:195 | the scanner for `(\d+\.?\d*)\s*RM` reports only matches of that expression |
| PricePatterns.TotalRmAt | app/components/Camera.js:196 | the scanner for `Total\s*:?\s*RM\s*(\d+\.?\d*)` reports only matches of that expression |
| PricePatterns.TotalBareAt | app/components/Camera.js:197 | the scanner for `Total\s*:?\s*(\d+\.?\d*)` reports only matches of that expression |
| PricePatterns.RegexMatch | app/components/Camera.js:194-198 | every match any of the five expressions admits starts inside the text and captures a numeral |
| PricePatterns.RegexMatchGroup | app/components/Camera.js:194-198 | each expression's matches, taken one by one, capture a numeral and start inside the text |
| PricePatterns.MatchAtComplete | app/components/Camera.js:194-198 | whenever the regular expression matches at a position, the scanner reports a match there, and its group is the longest one admitted |
| PricePatterns.AfterLabelLands | app/components/Camera.js:196-197 | any split of the text after "Total" into spaces, optional colon and spaces that stops before a character that is neither a space nor a colon ends where the scanner's does |
| PricePatterns.RmSuffixComplete | app/components/Camera.js:195 | for `(\d+\.?\d*)\s*RM` the match at a position is unique and is the scanner's |
| PricePatterns.LiteralStartsWith | app/components/Camera.js:194-197 | under the i flag an occurrence of "RM" or "Total" starts with its first letter in either case |
| PriceExtractor.FirstSomeFrom | app/components/Camera.js:203 | the first successful attempt from a position on, with every earlier attempt failed, or none when all fail |
| PriceExtractor.Search | app/components/Camera.js:203 | `text.match(pattern)`: a match at the reported position, none at any earlier position, and none anywhere when it reports null |
| PriceExtractor.SearchIsLeftmostMatch | app/components/Camera.js:203 | the reported match is a match of the regular expression, no match starts earlier, its group is the longest at that position, and null means no match anywhere |
| PriceExtractor.FirstMatchFrom | app/components/Camera.js:202-207 | the deciding pattern is the first one in the listed order whose search succeeds; every pattern before it fails |
| PriceExtractor.FirstMatch | app/components/Camera.js:202-207 | the deciding pattern is the first in the listed order whose search succeeds, and there is none exactly when every search fails |
| PriceExtractor.ExtractedPrice | app/components/Camera.js:201-208 | the price after the loop is never negative |
| PriceExtractor.ExtractedPriceIsFirstPattern | app/components/Camera.js:201-208 | the price is null exactly when no pattern matches; otherwise it is parseFloat of the group of the first matching pattern |
| PriceExtractor.ExtractPrice | app/components/Camera.js:201-208 | the loop with its break computes the price the first matching pattern gives |
| PriceExtractor.TotalRmContainsRmPrefix | app/components/Camera.js:194-196 | a match of `Total\s*:?\s*RM\s*(…)` contains a match of `RM\s*(…)` with the same group |
| PriceExtractor.TotalRmNeverDecides | app/components/Camera.js:194-207 | pattern 3 is never the deciding pattern, because pattern 1 matches whatever text it matches |
| PriceExtractor.MatchAtNeedsDigit | app/components/Camera.js:194-198 | every pattern match needs a digit in the text |
| PriceExtractor.PriceIffDigit | app/components/Camera.js:201-216 | a price (possibly 0) is extracted exactly when the text contains a digit |
| PriceExtractor.DigitGivesPrice | app/components/Camera.js:198 | a digit anywhere gives pattern 5 a match, so a price is always extracted |
| PriceExtractor.NoRmNoCurrencyPattern | app/components/Camera.js:194-196 | in a text without the letter r, patterns 1 to 3 never match |
| PriceExtractor.NoRmNoMatchAt | app/components/Camera.js:194-196 | in a text without the letter r, patterns 1 to 3 match at no position |
| PriceExtractor.NoRmDecidesByTotal | app/components/Camera.js:194-197 | in a text without the letter r, the searches of patterns 1 to 3 all fail |
| PriceExtractor.NoMatchBeforeLetter | app/components/Camera.js:194-197 | the patterns starting with "RM" or "Total" cannot match before the first r or t |
| PriceExtractor.SearchFinds | app/components/Camera.js:203 | a match at a position with none before it is what `match` returns |
| PriceExtractor.DecidedFrom | app/components/Camera.js:202-207 | a pattern that matches, with every earlier pattern failing, decides the price whatever the later ones do |
| PriceExtractor.FirstOfTwoPrefixedAmountsDecision | app/components/Camera.js:202-207 | in "RM45.00 RM12.00" pattern 1 decides with "45.00" at position 0 |
| PriceExtractor.FirstOfTwoPrefixedAmounts | app/components/Camera.js:201-208 | "RM45.00 RM12.00" yields 45 |
| PriceExtractor.ReadsFortyFive | app/components/Camera.js:205 | parseFloat("45.00") is 45 |
| PriceExtractor.TotalPhraseBeatsBareNumberDecision | app/components/Camera.js:202-207 | in "Total: RM 12.50 x3" pattern 1 decides with "12.50" |
| PriceExtractor.TotalPhraseBeatsBareNumber | app/components/Camera.js:201-208 | "Total: RM 12.50 x3" yields 12.5 |
| PriceExtractor.ReadsTwelveFifty | app/components/Camera.js:205 | parseFloat("12.50") is 12.5 |
| PriceExtractor.TotalLabelBeatsEarlierBareNumberDecision | app/components/Camera.js:202-207 | in "Box 2 Total 8.90" pattern 4 decides with "8.90", although the bare number 2 comes first |
| PriceExtractor.TotalLabelBeatsEarlierBareNumber | app/components/Camera.js:201-208 | "Box 2 Total 8.90" yields 8.9 |
| PriceExtractor.ReadsEightNinety | app/components/Camera.js:205 | parseFloat("8.90") is 8.9 |
| PriceExtractor.ZeroAmountFirstDecision | app/components/Camera.js:202-207 | in "RM 0.00 RM 12.50" pattern 1 decides with "0.00" |
| PriceExtractor.ZeroAmountFirst | app/components/Camera.js:201-216 | "RM 0.00 RM 12.50" yields 0, the no-price path, although 12.50 follows |
| PriceExtractor.ReadsZero | app/components/Camera.js:205 | parseFloat("0.00") is 0 |
| ImageScale.ScaleOther | app/components/Camera.js:54-64 | scaling the longer edge down to the bound scales the shorter edge by the same factor, and it does not grow |
| ImageScale.CompressDimensions | app/components/Camera.js:49-64 | both edges end within 800 and never grow; the aspect ratio is kept; an image within the bound is unchanged; otherwise its longer edge becomes 800; a square image takes the height branch |
| DataUrl.Split | app/components/Camera.js:79 | split gives at least one piece and no piece holds the separator |
| DataUrl.JoinSplit | app/components/Camera.js:79 | joining the pieces of a split gives the string back |
| DataUrl.SplitJoin | app/components/Camera.js:79 | splitting pieces free of the separator, joined by it, gives the pieces back |
| DataUrl.SplitOfFree | app/components/Camera.js:79 | a string without the separator splits into itself alone |
| DataUrl.SecondField | app/components/Camera.js:147 | `split(",")[1]` is defined exactly when there is a comma, and holds no comma |
| DataUrl.CommaSplits | app/components/Camera.js:147 | a string splits into more than one piece exactly when it holds a comma |
| DataUrl.ImageUrl | app/components/Camera.js:147 | the stored imageUrl always starts with the JPEG data-URL header |
| DataUrl.ImageUrlOfJpeg | app/components/Camera.js:147 | for a JPEG data URL the stored imageUrl is the compressed URL itself |
| DataUrl.SecondFieldOfHeader | app/components/Camera.js:147 | for any data URL the imageUrl is the JPEG header followed by its payload |
| DataUrl.BlobToBase64 | app/components/Camera.js:75-86 | the callback gets null exactly when the reader fails, and otherwise a comma-free field |
| DataUrl.BlobToBase64OfJpeg | app/components/Camera.js:79 | reading a JPEG blob hands the callback exactly its base64 payload |
| Camera.PerformOcr | app/components/Camera.js:88-127 | performOCR returns text only for an OK response with non-empty text, and then always does; every error reads "OCR processing failed: …" |
| Camera.OcrVerdict | app/components/Camera.js:189-226 | a thrown error ends in "Error processing image: …"; a positive extracted price opens the confirmation; a null or 0 price is the no-price path |
| Camera.NoPriceCases | app/components/Camera.js:201-216 | the no-price path is taken exactly when the text has no digit or its first price reads as 0 |
| Camera.GalleryCheck | app/components/Camera.js:243-251 | a file passes exactly when its type starts with "image/" and it is at most 10·1024·1024 bytes; the type is checked first |
| Camera.PriceGate | app/components/Camera.js:130 | the guard that refuses a falsy, NaN or non-positive price lets a price through exactly when it is a number greater than 0 |
| Camera.GateOnTypedPrices | app/components/Camera.js:130-133 | a typed 0.01 passes the gate; 0, -5 and "abc" are refused |
| Camera.PriceVerdict | app/components/Camera.js:210-220 | the confirmation opens exactly when the extracted price is present and not 0, with that price; otherwise the no-price branch |
| Camera.ResetForOcr | app/components/Camera.js:183-187 | the reset starts processing, clears error, text and prices so the gate refuses, and keeps every other field |
| Camera.AfterVerdict | app/components/Camera.js:210-226 | processing ends; a priced outcome opens the confirmation with the price as detected and confirmed; the others set their error and keep the prices |
| Camera.AfterOcrOutcome | app/components/Camera.js:210-226 | after OCR the modal is not processing; the confirmation opens only with a positive price, which is then both the detected and the confirmed price; every other outcome sets an error and keeps the detected price |
| Camera.CameraModal.constructor | app/components/Camera.js:23-32 | the initial state, with the Firebase flag from whether app and db exist and the error when they do not |
| Camera.CameraModal.HandleOcr | app/components/Camera.js:189-226 | the state after the OCR outcome: the catch block's error, the no-price error, or the confirmation step |
| Camera.CameraModal.HandleText | app/components/Camera.js:190-220 | the text is recorded and the price loop's result decides the branch |
| Camera.CameraModal.ApplyVerdict | app/components/Camera.js:210-226 | the state updates of each of the three branches, and processing ends |
| Camera.CameraModal.ResetFields | app/components/Camera.js:183-187 | processing starts and error, text, detected and confirmed price are cleared |
| Camera.CameraModal.Capture | app/components/Camera.js:172-228 | refused with the Firebase error and no reset when uninitialised; no webcam changes nothing; otherwise the screenshot is set, the fields reset and OCR runs |
| Camera.CameraModal.HandleGallerySelect | app/components/Camera.js:239-316 | no file changes nothing; a failed check sets only its error, before any reset; an accepted file resets the fields and is read and recognised |
| Camera.CameraModal.ReadAndRecognise | app/components/Camera.js:253-308 | after the reset a reader error sets "Error reading the image file" and ends processing; a read image is set and sent to OCR |
| Camera.CameraModal.EditPrice | app/components/Camera.js:494-495 | the confirmed price becomes the number in the field, or NaN |
| Camera.CameraModal.HandlePriceConfirmation | app/components/Camera.js:129-170 | a rejected price sets "Please enter a valid price" and writes nothing; otherwise the record holds the compressed image, the confirmed price, the text and the imageUrl, and a write error is reported; a stored price is always positive |
| Camera.CameraModal.Retake | app/components/Camera.js:230-237 | image, error, text, detected and confirmed price and the confirmation flag are cleared; nothing else changes |
| Camera.CameraModal.ToggleMode | app/components/Camera.js:318-326 | the same clears as retake, and the gallery mode flips |
| Receipts.WithoutId | app/receipts/page.js:62 | the filtered list is never longer than the list |
| Receipts.WithoutIdRemoves | app/receipts/page.js:62 | no entry with the deleted id is left, and an entry is left exactly when it was in the list with another id |
| Receipts.WithoutIdIsSubsequence | app/receipts/page.js:62 | the remaining entries keep their relative order |
| Receipts.SubsequenceOfLonger | app/receipts/page.js:62 | order is kept when the list grows at its end |
| Receipts.SubsequenceDropLast | app/receipts/page.js:62 | order is kept when the kept list loses its last entry |
| Receipts.WithoutIdPartition | app/receipts/page.js:62 | the kept and the deleted entries together are the list, as a multiset, and their lengths add up |
| Receipts.WithoutIdAbsent | app/receipts/page.js:62 | deleting an id that is not in the list changes nothing |
| Receipts.WithoutIdIdempotent | app/receipts/page.js:62 | deleting the same id twice is deleting it once |
| Receipts.WithoutIdAppend | app/receipts/page.js:62 | the filter on a concatenation filters each part |
| Receipts.ReceiptsPage.constructor | app/receipts/page.js:16-20 | an empty list, loading, no error, not deleting |
| Receipts.ReceiptsPage.FetchReceipts | app/receipts/page.js:23-49 | one entry per snapshot document, in snapshot order, with its id; a fetch failure sets "Failed to load receipts" and keeps the list; loading ends either way |
| Receipts.ReceiptsPage.HandleDelete | app/receipts/page.js:54-69 | a declined confirm changes nothing and issues no delete; a failure keeps the list and sets "Failed to delete receipt"; a success drops every entry with that id |
| Analytics.PriceOrZero | app/analytics/page.js:40 | a missing price counts as 0, a present one as itself |
| Analytics.AmountOrZero | app/analytics/page.js:66 | a missing amount counts as 0, a present one as itself |
| Analytics.Revenue | app/analytics/page.js:35-40 | the sum of the prices of the snapshot is never negative when no price is |
| Analytics.ExpenseTotal | app/analytics/page.js:63-67 | the sum of the amounts of the snapshot is never negative when no amount is |
| Analytics.RevenueAppend | app/analytics/page.js:35-40 | revenue is additive over concatenation |
| Analytics.ExpenseTotalAppend | app/analytics/page.js:63-67 | total expenses are additive over concatenation |
| Analytics.RevenueAfterDelete | app/analytics/page.js:35-40 | after a delete the revenue drops by exactly the prices of the deleted entries |
| Analytics.DeleteNeverRaisesRevenue | app/analytics/page.js:35-40 | with non-negative prices a delete never raises the revenue |
| Analytics.WithIdFrom | app/receipts/page.js:62 | every deleted entry was in the list |
| Analytics.SumReceipts | app/analytics/page.js:35-45 | the receipts listener's loop sums the prices (missing ones as 0) and rebuilds the list in snapshot order |
| Analytics.SumExpenses | app/analytics/page.js:63-67 | the expenses listener's loop sums the amounts (missing ones as 0) |
| Analytics.Recent | app/analytics/page.js:49 | the recent list is the first two receipts, or all of them when there are fewer |
| Analytics.ExpenseAmount | app/analytics/page.js:88-97 | an accepted amount is the positive number in the field; an empty, non-numeric or non-positive field is refused |
| Analytics.ExpenseAmountOfNat | app/analytics/page.js:88-97 | a whole number in the field is accepted exactly when it is positive |
| Analytics.ExpenseAmountRefusesMinus | app/analytics/page.js:88-91 | a negative amount is always refused |
| Analytics.ExpenseCollection.constructor | app/analytics/page.js:100-104 | the collection starts with the given documents |
| Analytics.ExpenseCollection.Add | app/analytics/page.js:100-104 | addDoc appends one document and keeps the others |
| Analytics.AnalyticsPage.constructor | app/analytics/page.js:17-25 | all totals 0, no recent receipts, loading, no error, an empty field, not submitting |
| Analytics.AnalyticsPage.Subscribe | app/analytics/page.js:28-29 | the effect starts loading and clears the error |
| Analytics.AnalyticsPage.OnReceipts | app/analytics/page.js:34-51 | revenue, count and recent list are recomputed from the snapshot alone, and loading ends |
| Analytics.AnalyticsPage.OnReceiptsError | app/analytics/page.js:52-56 | "Failed to load receipts data" is set and loading ends; the totals are kept |
| Analytics.AnalyticsPage.OnExpenses | app/analytics/page.js:62-71 | total expenses are recomputed from the snapshot, and profit is the revenue held minus that total |
| Analytics.AnalyticsPage.OnExpensesError | app/analytics/page.js:72-75 | "Failed to load expenses data" is set; nothing else changes |
| Analytics.AnalyticsPage.EditExpense | app/analytics/page.js:303 | the field holds the typed value |
| Analytics.AnalyticsPage.HandleExpenseSubmit | app/analytics/page.js:85-113 | an invalid amount sets its error and writes nothing; a valid one appends {amount, "total"} and clears the field, unless the write fails, which keeps the field and sets "Failed to update expenses" |
| Analytics.TwoSubmissionsAdd | app/analytics/page.js:97-104 | after two accepted submissions the expenses total has grown by their sum |
| Analytics.ProfitScenario | app/analytics/page.js:34-104 | on the page, a receipt of 10 and a submitted expense of 4 give revenue 10, expenses 4 and profit 6; a second expense of 1 gives expenses 5 and profit 5 |
| OcrRoute.MessageOr | app/api/ocr/route.js:86 | `error.message || "OCR processing failed"` is never empty and keeps a non-empty message |
| OcrRoute.ValidateRequest | app/api/ocr/route.js:15-33 | a non-JSON body is 400 "Invalid request format"; a falsy image is 400 "No image data provided"; the JSON null fails reading image (500); otherwise the image is forwarded |
| OcrRoute.BuildParams | app/api/ocr/route.js:39-47 | the successive appends build exactly the reference parameter list |
| OcrRoute.OcrParams | app/api/ocr/route.js:39-47 | eight parameters with fixed names in fixed order; the key comes first (empty when missing) and the image last |
| OcrRoute.OcrParamsFixedOptions | app/api/ocr/route.js:40-46 | the six options between key and image are the same on every request: language eng, no overlay, orientation detection, scaling, engine 2, file type jpg |
| OcrRoute.Classify | app/api/ocr/route.js:61-91 | the status is 200 exactly on success and 500 on every failure, with a non-empty message; the HTTP error carries status and text; IsErroredOnProcessing comes before the results check; success needs a non-empty ParsedResults |
| OcrRoute.ClassifySuccess | app/api/ocr/route.js:78-81 | success gives the first result's text and its mean confidence, or 0 when it is absent; later results are ignored |
| OcrRoute.ClassifyNoResults | app/api/ocr/route.js:74-76 | a missing or empty ParsedResults is 500 "No text detected in the image" |
| OcrRoute.HttpErrorMessage | app/api/ocr/route.js:64 | the HTTP error message holds the status written in decimal, between "OCR API error: " and " - " and the response text |
| OcrRoute.Post | app/api/ocr/route.js:5-92 | an invalid request is answered early and sends nothing; a valid one sends the parameter list with its image and answers with the classified reply; the status is 200, 400 or 500 |
| FirebaseInit.MissingFrom | firebase/firebase-init.js:38 | the filter never yields more keys than it is given |
| FirebaseInit.MissingKeys | firebase/firebase-init.js:30-38 | the missing keys are exactly the required keys with a falsy value, in the required order, and there are at most five |
| FirebaseInit.MissingFromMembers | firebase/firebase-init.js:38 | a key is reported exactly when it is one of the keys and its value is missing or empty |
| FirebaseInit.MissingFromOrder | firebase/firebase-init.js:30-38 | the reported keys keep the order of the required list |
| FirebaseInit.NoneMissing | firebase/firebase-init.js:40 | nothing is missing exactly when every required key has a non-empty value |
| FirebaseInit.OnlyRequiredMatter | firebase/firebase-init.js:38 | two configurations that agree on which required keys are falsy report the same missing keys |
| FirebaseInit.OptionalKeysIgnored | firebase/firebase-init.js:10-18 | setting or removing storageBucket or measurementId never changes the missing keys |
| FirebaseInit.JoinNames | firebase/firebase-init.js:43 | `join(", ")` gives the empty string for no names, the name itself for one, and otherwise starts with the first name and a comma and ends with the last name |
| FirebaseInit.MissingMessage | firebase/firebase-init.js:42-44 | the error names the missing keys after "Missing Firebase configuration values: " |
| FirebaseInit.Initialize | firebase/firebase-init.js:24-74 | with a key missing, app, analytics and db all stay null and the error lists the keys; otherwise the app is created; analytics and db only in a browser and only when their SDK calls succeed; any error shows the banner in a browser |
| FirebaseInit.ReadyForCapture | firebase/firebase-init.js:48-53 | app and db both exist exactly when no required key is missing, the code runs in a browser and no SDK call fails |

## Left out

- I/O and services: the webcam, `FileReader`, `fetch`, OCR.space and the Firestore SDK are parameters, as is `window.confirm`. `console` logging, `serverTimestamp`, the download link and `setTimeout(onClose)` are not modelled.
- Floating point: numbers are exact reals. parseFloat rounding, sums of doubles, `toFixed(2)` display, NaN beyond the `NotANumber` input value, and Infinity are not modelled.
- Image encoding: only the width/height arithmetic of `compressImage` is modelled. The canvas truncates dimensions to integers and encodes the JPEG; neither is modelled.
- compressImage: the image has no `onerror` handler, so a decode failure leaves the promise pending for ever. The code is followed here, not a fallback to the original image; a hung compression is a path the model does not have.
- Strings are sequences of code points; JavaScript's UTF-16 code units are not modelled.
- Decimal.UnsignedInput: its contract states only the sign of the value. The value is stated by Decimal.ParseInputNumberOfNumeral for numerals without an exponent, and by worked examples for exponents and a leading dot.
- Decimal.ParseInputNumber: assumes the browser sanitised the value of the `<input type="number">` to the empty string or a valid floating-point number. Other strings are read as NaN.
- Camera.CameraModal.Capture: a webcam that returns a null screenshot is modelled as no webcam. In the source, that case sets imgSrc to null, resets the fields and sets isProcessing. It then calls `compressImage(null)`, whose image never loads, so processing never ends. The model does not have that hung path.
- Camera.PerformOcr: the FormData body that the modal sends, against the JSON the route parses, is not connected; the modal and the route are modelled separately.
- The spread `{ id, ...data }` is modelled as the id beside the data; a document field called `id` that would override it is not modelled.
- OcrRoute.Classify: an `ErrorMessage` array is taken as its string form. `error.stack` in the failure body is not modelled.
- Camera.CameraModal.HandlePriceConfirmation: the compressed image is a parameter, and the write failure is a message parameter.
- The React lifecycle is not modelled. The analytics effect re-subscribes when `totalRevenue` changes. Listener callbacks arrive asynchronously. The profit uses the revenue the page holds when the expenses snapshot arrives.
- `selectedReceipt` and the receipt detail view of the receipts page are presentation and are not modelled.
- The vision route, the backend stubs, the pages' rendering and the configuration files are not part of this model.
- The OPTIONS handler of the OCR route returns fixed CORS headers and is not modelled.
- FirebaseInit.Initialize: the SDK exceptions are represented by which call failed, not by their messages.

Two behaviours of the code look unintended; the model keeps them:
- A price that reads as 0 (an "RM 0.00" first on the receipt) takes the "could not detect price" path, like no match at all, even when a later amount exists (`PriceExtractor.ZeroAmountFirst`).
- Pattern 3 (`Total:RM…`) can never decide the price, because pattern 1 matches first (`PriceExtractor.TotalRmNeverDecides`).

The OCR route reads the confidence from `TextOverlay.MeanConfidence` of the first result, and the model does the same.
