# DLPT22RON dashboard core, modelled in Dafny

DLPT22RON is an assistive dashboard. A React front end streams camera frames to a Flask back end, which runs object and person detectors. It accepts video and image uploads for batch detection, and translates text. This project models the logic around the neural networks, on both sides.

On the back end:

- **YOLO post-processing.** The model sorts the YOLO service's raw boxes into objects, persons (renamed "Person 1", "Person 2", …) and traffic signs. It covers the left/center/right position rule and the optional traffic-sign model.
- **The other two detectors.** The SSD object service and the Faster R-CNN person service are modelled with their own label and position rules.
- **Batch uploads.** Video processing samples one frame in every interval and builds the screenshot records and summary totals. Image processing builds the image response.
- **The upload routes.** They check the extension with Python's `rsplit('.', 1)[1].lower()`, including Python's full lower-casing of the Kelvin sign. They produce the 204/400/200/500 replies.
- **The translation route.** It maps language codes to mBART codes and returns its three error replies.

On the front end:

- **The detection poller** shared by the two camera screens: an interval timer, an `isProcessing` flag, and the requests in flight.
- **The object-detection screen**: reply normalisation, the status line ("2 objects, 1 sign detected"), the box overlay, and the video and image uploads, which write the same status line.
- **The person-counting screen**, with its toggle and its person-count line.
- **The translation screen**: the request guards, reply handling, language swap and read-aloud state.
- **The profile page**: the record, its field updates and the load/save flags.
- **The navigation page**: its start/pause/stop state.

Each module is one Dafny module named after the source unit it models:

- `Yolo`, `ObjectService`, `PersonService`, `VideoService` and `ImageService` model the services.
- `Uploads`, `VideoRoute`, `ImageRoute` and `TranslationRoute` model the routes.
- `Poller`, `StatusText`, `Overlay`, `ObjectScreen`, `PersonScreen`, `TranslationScreen`, `Profile` and `Navigation` model the pages.
- `UploadAgreement` compares the screen's upload checks with the routes' checks.
- `Base`, `Text`, `Detections` and `Arith` hold the shared datatypes, the Python/JavaScript string semantics and the arithmetic facts.

Inputs come in as parameters:

- model outputs and decoded frames or images;
- clock readings;
- the container's frame count;
- the translation service's answer;
- browser events: camera ready or denied, timer ticks, replies, audio callbacks.

Three behaviours of the source are worth knowing:

- **Stop during a request.** Each camera screen has at most one detection request in flight, unless the camera is stopped while a request is pending. `stopDetectionLoop` clears `isProcessing` but does not cancel the request. Stopping and restarting at once therefore leaves two requests in flight (`Poller.RestartDuringRequestDoublesInFlight`); a late reply still updates the screen.
- **Mis-encoded ellipsis.** ObjectDetection.tsx writes its ellipsis as the three characters "â€¦" (U+2026's UTF-8 bytes read as Windows-1252). The status strings model it as written.
- **Screen and route disagree on uploads.**
  - The screen accepts a video by MIME type or by a case-insensitive name match, and an image by MIME type only. The routes look only at the file name.
  - Files typed by the browser but badly named pass the screen and are refused by the route; the reverse also happens (see `UploadAgreement`).
  - The two position rules disagree: the YOLO service uses `w // 3` thirds and the person service `w / 3` thirds. They agree when the width is a multiple of 3 (`PersonService.ThirdsRulesDiffer` gives an input where they differ).

## Model

| member | source | states |
|---|---|---|
| Yolo.PositionOf | DLPT22RON-main/backend/services/yolo_service.py:82-89 | left iff the box centre (x1+x2)/2 is below w // 3, center iff it lies in [w // 3, 2 * (w // 3)), right otherwise |
| Yolo.PositionMonotone | DLPT22RON-main/backend/services/yolo_service.py:82-89 | a box whose centre is further right never gets a position further left |
| Detections.DistanceFor | DLPT22RON-main/backend/services/yolo_service.py:120-132 | a distance is reported iff the label has an average size and that size is non-zero (a zero distance is falsy and becomes null); it is the label's size over the pixel width |
| Detections.FocalDistanceZeroIff | DLPT22RON-main/backend/services/yolo_service.py:78-80 | the focal-length estimate size * 615 / (width + 1e-6) is zero exactly when the size is, for every whole pixel width |
| Detections.DistanceForIsTruthiness | DLPT22RON-main/backend/services/yolo_service.py:120-132 | testing the size decides like the source, which computes the estimate for every known label and keeps it only when it is truthy |
| Yolo.GeneralPass | DLPT22RON-main/backend/services/yolo_service.py:101-149 | person_count equals the number of persons, which are named "Person 1".."Person k" in order; every COCO sign is tagged traffic_sign; the loop is cut short by an IndexError exactly when some id is below -len(classNames) |
| Yolo.GeneralPassBuckets | DLPT22RON-main/backend/services/yolo_service.py:136-146 | without an IndexError each list holds exactly the kept boxes of its class (0 → persons, {9,11,12,13} → signs, others → objects), in input order, with the same records |
| Yolo.BucketsPartitionKept | DLPT22RON-main/backend/services/yolo_service.py:136-146 | every kept box lands in exactly one bucket: the three bucket sizes add up to the number of kept boxes |
| Yolo.DroppedBoxesAbsent | DLPT22RON-main/backend/services/yolo_service.py:115-118 | a box whose class id is not below len(classNames) is skipped |
| Yolo.TrafficPass | DLPT22RON-main/backend/services/yolo_service.py:156-184 | one tagged record per traffic-model box, in order, labelled by the names table or "traffic_sign_<id>", with width 0.6 m |
| Yolo.DetectObjects | DLPT22RON-main/backend/services/yolo_service.py:91-195 | frame size is passed through, person_count equals the number of persons, persons are numbered from 1, every sign is tagged traffic_sign |
| Yolo.TrafficModelOnlyAppendsSigns | DLPT22RON-main/backend/services/yolo_service.py:151-187 | loading the traffic model changes neither objects nor persons nor the count; it appends one sign per traffic box after the COCO signs |
| ObjectService.EdgePosition | DLPT22RON-main/backend/services/object_service.py:41-48 | the SSD service places a box by its left edge x against w // 3 and 2 * (w // 3) |
| ObjectService.EdgeNotRightOfCentre | DLPT22RON-main/backend/services/object_service.py:41-48 | judging by the left edge never puts a box further right than the YOLO service's centre rule |
| ObjectService.CornersRoundTrip | DLPT22RON-main/backend/services/object_service.py:65-87 | [x, y, x+w, y+h] keeps all of (x, y, w, h): both conversions are inverse |
| ObjectService.LabelOf | DLPT22RON-main/backend/services/object_service.py:67-68 | a label exists iff class_id - 1 is a valid Python index; ids are 1-based and id 0 names the last class |
| ObjectService.DescribeAll | DLPT22RON-main/backend/services/object_service.py:63-88 | succeeds iff every kept box's id has a label, then one record per kept box in order |
| ObjectService.DetectObjects | DLPT22RON-main/backend/services/object_service.py:50-94 | no boxes gives an empty list; otherwise success iff every label exists, one record per NMS-kept box, frame size passed through |
| PersonService.ThirdsPosition | DLPT22RON-main/backend/services/person_service.py:47-54 | left iff the centre is below w/3 (true division), center iff below 2w/3, right otherwise |
| PersonService.ThirdsAgreeOnMultiplesOfThree | DLPT22RON-main/backend/services/person_service.py:47-54 | when the width is a multiple of 3 the person rule and the YOLO rule give the same position |
| PersonService.ThirdsRulesDiffer | DLPT22RON-main/backend/services/person_service.py:47-54 | width 11, box 3..4: the YOLO rule says center, the person rule left |
| PersonService.Kept | DLPT22RON-main/backend/services/person_service.py:37-38 | the kept predictions are persons (label 1, score > 0.6) drawn from the input |
| PersonService.KeptIff | DLPT22RON-main/backend/services/person_service.py:37-38 | a prediction is kept iff it is in the input, has label 1 and scores above 0.6 |
| PersonService.Collect | DLPT22RON-main/backend/services/person_service.py:37-63 | the counter equals the number of records, record i describes the i-th kept prediction as "Person i+1" |
| PersonService.DetectPersons | DLPT22RON-main/backend/services/person_service.py:19-71 | person_count equals the number of persons and of kept predictions, persons are numbered from 1, objects repeats persons, frame size passed through |
| VideoService.ProcessVideo | DLPT22RON-main/backend/services/video_service.py:33-114 | an unopenable file gives "Could not open video file"; an interval of 0 fails with a ZeroDivisionError iff the video has a frame; otherwise one screenshot per analysed frame, summary equal to the sum of the screenshots' counts, video frame count as reported |
| VideoService.ShotsAreSampledFrames | DLPT22RON-main/backend/services/video_service.py:52-94 | for interval k > 0, n frames give ceil(n / k) screenshots and screenshot i is frame i * k, analysed as the i-th |
| VideoService.FrameNumbersIncreasing | DLPT22RON-main/backend/services/video_service.py:57-81 | screenshot frame numbers are multiples of the interval and strictly increasing |
| VideoService.ScreenshotNames | DLPT22RON-main/backend/services/video_service.py:73-80 | screenshot i is named frame_<i, 4 digits>_t<timestamp>s.jpg and served from /static/video_results/<run>/ |
| VideoService.SummaryCountsSampledFrames | DLPT22RON-main/backend/services/video_service.py:57-67 | for k > 0 the run succeeds with ceil(n / k) frames processed, and screenshot i counts exactly the objects, persons and signs detected in frame i * k |
| VideoService.RunVideo | DLPT22RON-main/backend/services/video_service.py:45-114 | the imperative frame loop with running totals computes the same response as the functional definition, including both error cases |
| ImageService.ProcessImage | DLPT22RON-main/backend/services/image_service.py:32-73 | fails with "Could not open image file" iff the image is unreadable; the url names the saving second; the summary counts equal the list lengths |
| ImageService.ImagePassesDetectionsThrough | DLPT22RON-main/backend/services/image_service.py:59-73 | the response passes the detector's lists through unchanged and reports its frame size and person_count |
| ImageService.ImageUrlNamesTimestamp | DLPT22RON-main/backend/services/image_service.py:43-60 | the url is the results prefix, the timestamp's digits and ".jpg"; the middle reads back as the timestamp |
| Uploads.AllowedFileIff | DLPT22RON-main/backend/routes/video_route.py:24-25 | a name is allowed iff it has a dot after which no dot follows and the lower-cased rest is an allowed extension |
| Uploads.LowerEndsWithExtension | DLPT22RON-main/backend/routes/video_route.py:43-44 | the temporary file's suffix "." + ext is a suffix of the lower-cased name |
| Uploads.Validate | DLPT22RON-main/backend/routes/video_route.py:31-39 | OPTIONS iff preflight; missing part iff POST without it; invalid file iff the part is present without an allowed extension (so an empty name is invalid); an accepted suffix is "." + an allowed extension ending the lower-cased name |
| VideoRoute.MissingVideoReply | DLPT22RON-main/backend/routes/video_route.py:34-35 | a POST without the "video" part gets a 400 whose error is "No video file in request" |
| VideoRoute.UploadVideo | DLPT22RON-main/backend/routes/video_route.py:28-57 | 204 on OPTIONS, 400 for the two rejections, 500 "Could not open video file" iff an accepted file cannot be opened, otherwise 200 with ceil(n / 30) frames processed |
| Uploads.LastExtensionDecides | DLPT22RON-main/backend/routes/video_route.py:24-44 | for a POSTed name stem + "." + ext with a dotless ext, whatever the stem holds: accepted with suffix "." + lower(ext) when lower(ext) is allowed, refused as an invalid file otherwise |
| VideoRoute.InnerExtensionIgnored | DLPT22RON-main/backend/routes/video_route.py:24-25 | "clip.mp4.zip" is refused: only the last extension counts |
| VideoRoute.DotlessNameRefused | DLPT22RON-main/backend/routes/video_route.py:24-25 | "mp4" without a dot is refused |
| ImageRoute.UploadImage | DLPT22RON-main/backend/routes/image_route.py:28-57 | 204 on OPTIONS, 400 for the two rejections, 500 "Could not open image file" iff an accepted image is unreadable, otherwise 200 with the image's url and size |
| ImageRoute.MissingImageReply | DLPT22RON-main/backend/routes/image_route.py:34-35 | a POST without the "image" part gets a 400 whose error is "No image file in request" |
| TranslationRoute.MbartCode | DLPT22RON-main/backend/routes/translation_route.py:15-25 | a known code maps to its mBART code, a missing or unknown one to en_XX; the result is always one of the six mBART codes |
| TranslationRoute.MbartCodeInjective | DLPT22RON-main/backend/routes/translation_route.py:15-22 | different frontend codes map to different mBART codes |
| TranslationRoute.UnknownCodeIsEnglish | DLPT22RON-main/backend/routes/translation_route.py:24-25 | a missing or unknown code is treated as English |
| TranslationRoute.Plan | DLPT22RON-main/backend/routes/translation_route.py:10-28 | an unreadable body gives 500; a missing or empty text gives 400 "No text provided"; otherwise the service is called with the text and both mapped codes |
| TranslationRoute.Translate | DLPT22RON-main/backend/routes/translation_route.py:10-37 | the service's answer is returned as is: 200 iff it has no "error" key, 500 otherwise |
| Poller.OrElse | DLPT22RON-main/src/pages/dashboard/ObjectDetection.tsx:107-108 | the size fallback of `videoWidth` to `clientWidth`: zero only when both are zero, the first size when it is non-zero |
| Poller.CaptureFrame | DLPT22RON-main/src/pages/dashboard/ObjectDetection.tsx:103-118 | no capture iff the video or canvas is missing, both sizes fall back to zero, or there is no 2D context; a capture has the fallback sizes |
| Poller.Tick | DLPT22RON-main/src/pages/dashboard/ObjectDetection.tsx:100-119 | a tick while a request runs, or without a capture, changes nothing; otherwise the loop becomes busy with one more request in flight |
| Poller.Start | DLPT22RON-main/src/pages/dashboard/ObjectDetection.tsx:158-162 | starting an already running timer does nothing; otherwise one immediate attempt, then the timer is set |
| Poller.Stop | DLPT22RON-main/src/pages/dashboard/ObjectDetection.tsx:92-98 | the timer is cleared and the busy flag reset, but requests in flight stay in flight |
| Poller.Settle | DLPT22RON-main/src/pages/dashboard/ObjectDetection.tsx:153-155 | a finished request leaves the set in flight and clears the busy flag, the timer untouched |
| Poller.StepKeepsGuard | DLPT22RON-main/src/pages/dashboard/ObjectDetection.tsx:92-162 | each event keeps "busy iff one request in flight, never more than one" as long as stops happen only when nothing is in flight |
| Poller.AtMostOneInFlight | DLPT22RON-main/src/pages/dashboard/ObjectDetection.tsx:92-162 | over any event trace that never stops during a request, the guard holds at the end |
| Poller.FromIdleAtMostOneInFlight | DLPT22RON-main/src/pages/dashboard/ObjectDetection.tsx:92-162 | from the first render, such a trace has at most one request in flight |
| Poller.RestartDuringRequestDoublesInFlight | DLPT22RON-main/src/pages/dashboard/ObjectDetection.tsx:92-98 | start, stop during the request, start again: two requests are in flight |
| StatusText.Render | DLPT22RON-main/src/pages/dashboard/ObjectDetection.tsx:145-148 | one part per counted item, "n noun" with an "s" exactly when n > 1 |
| StatusText.Items | DLPT22RON-main/src/pages/dashboard/ObjectDetection.tsx:145-148 | the categories come in the order objects, persons, signs, none repeated; each carries its own count; a category is listed iff its count is positive |
| StatusText.DetectionStatus | DLPT22RON-main/src/pages/dashboard/ObjectDetection.tsx:145-149 | "No detections" iff no objects, no positive person count and no signs; otherwise the listed parts joined by ", " and followed by " detected" |
| StatusText.StatusRoundTrip | DLPT22RON-main/src/pages/dashboard/ObjectDetection.tsx:145-149 | the status line is read back, by a decoder that accepts the categories only in the order objects, persons, signs, into the object, person and sign counts; a non-positive person count reads back as 0 |
| StatusText.DecodeJoined | DLPT22RON-main/src/pages/dashboard/ObjectDetection.tsx:145-149 | parts in ascending category order joined by ", " are read back into the counts they carry |
| StatusText.OutOfOrderRefused | DLPT22RON-main/src/pages/dashboard/ObjectDetection.tsx:145-149 | a part followed by one of the same or an earlier category is refused, whatever follows |
| StatusText.OutOfOrderStatusRefused | DLPT22RON-main/src/pages/dashboard/ObjectDetection.tsx:145-149 | a line such as "1 sign, 2 objects detected" or "1 sign, 2 signs detected" is not one the screen writes |
| StatusText.TwoObjectsOneSign | DLPT22RON-main/src/pages/dashboard/ObjectDetection.tsx:145-149 | 2 objects, 0 persons, 1 sign give "2 objects, 1 sign detected" |
| StatusText.PersonStatus | DLPT22RON-main/src/pages/dashboard/PersonCounting.tsx:97-99 | "No people detected" iff the count is missing or 0; "1 person detected"; "n persons detected" for n > 1; a negative count is truthy and gets the singular |
| StatusText.PersonStatusRoundTrip | DLPT22RON-main/src/pages/dashboard/PersonCounting.tsx:97-99 | the person line reads back as the count, 0 when missing |
| Overlay.OrOne | DLPT22RON-main/src/pages/dashboard/ObjectDetection.tsx:330-333 | the fallback of a size to 1 is never zero and keeps a non-zero size |
| Overlay.OverlayStyle | DLPT22RON-main/src/pages/dashboard/ObjectDetection.tsx:326-343 | the empty style iff there is no result or no video element |
| Overlay.OverlayInvertible | DLPT22RON-main/src/pages/dashboard/ObjectDetection.tsx:334-342 | the placement is the box scaled: scaling back gives all four corners of the box |
| Overlay.SameSizeIsIdentity | DLPT22RON-main/src/pages/dashboard/ObjectDetection.tsx:334-342 | a video shown at its frame's size leaves the box where it is |
| Overlay.OverlayInsideView | DLPT22RON-main/src/pages/dashboard/ObjectDetection.tsx:334-342 | a box inside a positive-size frame is drawn inside the displayed video |
| Overlay.HalfSizeExample | DLPT22RON-main/src/pages/dashboard/ObjectDetection.tsx:326-343 | a 640x480 frame shown at 320x240 draws box [100,100,200,200] at 50,50 sized 50x50 |
| ObjectScreen.Normalize | DLPT22RON-main/src/pages/dashboard/ObjectDetection.tsx:133-140 | missing lists become empty, a missing count 0, a missing or zero frame size the captured size; with a non-empty capture the sizes are non-zero |
| ObjectScreen.NormalizeComplete | DLPT22RON-main/src/pages/dashboard/ObjectDetection.tsx:133-140 | a complete reply with non-zero sizes is shown unchanged |
| ObjectScreen.Detect | DLPT22RON-main/src/pages/dashboard/ObjectDetection.tsx:100-120 | an attempt that sends shows "Analyzing frame…"; one that does not changes nothing |
| ObjectScreen.OnCameraReady | DLPT22RON-main/src/pages/dashboard/ObjectDetection.tsx:173-179 | detection is on, the loop starts, and the status is the ready text unless the first attempt already sent; the result and timestamp are kept |
| ObjectScreen.OnResponse | DLPT22RON-main/src/pages/dashboard/ObjectDetection.tsx:122-155 | a reply replaces the shown result, timestamp and status line; a failure keeps the result and shows the retrying text; both settle the request |
| ObjectScreen.OnStopCamera | DLPT22RON-main/src/pages/dashboard/ObjectDetection.tsx:189-213 | the loop stops, no result or timestamp is shown, the status is "Camera idle"; uploads in progress keep their busy flags |
| ObjectScreen.ScreenRunsPoller | DLPT22RON-main/src/pages/dashboard/ObjectDetection.tsx:92-213 | the screen's loop is exactly the poller run on the screen's events |
| ObjectScreen.ScreenAtMostOneInFlight | DLPT22RON-main/src/pages/dashboard/ObjectDetection.tsx:92-213 | unless the camera is stopped during a request, the screen has at most one detection request in flight |
| ObjectScreen.BoxOverlay | DLPT22RON-main/src/pages/dashboard/ObjectDetection.tsx:326-343 | no style iff no result is shown or there is no video element |
| ObjectScreen.PickVideo | DLPT22RON-main/src/pages/dashboard/ObjectDetection.tsx:221-229 | nothing without a file; a file is sent iff its MIME type is allowed or its name ends, case-insensitively, in an allowed extension |
| ObjectScreen.PickImage | DLPT22RON-main/src/pages/dashboard/ObjectDetection.tsx:272-280 | nothing without a file; a file is sent iff its MIME type is allowed |
| ObjectScreen.ImagePickIgnoresName | DLPT22RON-main/src/pages/dashboard/ObjectDetection.tsx:276-277 | the image decision does not depend on the file name |
| ObjectScreen.SetUploading | DLPT22RON-main/src/pages/dashboard/ObjectDetection.tsx:75-80 | the busy flag of one panel is set; the other panel and the camera part are untouched |
| ObjectScreen.BeginUpload | DLPT22RON-main/src/pages/dashboard/ObjectDetection.tsx:231-233 | that panel is busy and its picker closed; the shared status line reads "Processing video: <name>…" or "Processing image: <name>…"; the other panel and the camera part are untouched |
| ObjectScreen.EndUpload | DLPT22RON-main/src/pages/dashboard/ObjectDetection.tsx:250-263 | the panel is free on both paths; the shared status line gives "Video processed: …" / "Image processed: …" with the totals, or "Video processing failed" / "Image processing failed" |
| ObjectScreen.UploadRoundTrip | DLPT22RON-main/src/pages/dashboard/ObjectDetection.tsx:216-263 | an upload started from a free panel and then finished leaves every field but the status line as it was |
| ObjectScreen.DetectionOverwritesUploadStatus | DLPT22RON-main/src/pages/dashboard/ObjectDetection.tsx:71 | detection and the uploads write one status line: a detection reply during an upload replaces "Processing …" while the upload goes on |
| UploadAgreement.AsciiLowerAgrees | DLPT22RON-main/backend/routes/video_route.py:24-25 | on ASCII names Python's lower() and the `/i` folding agree |
| UploadAgreement.EndingsAreExtensions | DLPT22RON-main/src/pages/dashboard/ObjectDetection.tsx:226 | the endings in the screen's video regular expression are exactly the route's allowed video extensions |
| UploadAgreement.RouteAcceptedVideoNamePassesScreen | DLPT22RON-main/src/pages/dashboard/ObjectDetection.tsx:225-229 | every ASCII name the route accepts passes the screen's check, whatever its MIME type |
| UploadAgreement.TypedNamelessVideoRefusedByRoute | DLPT22RON-main/src/pages/dashboard/ObjectDetection.tsx:225-229 | "clip" typed video/mp4 passes the screen and is refused by the route |
| UploadAgreement.KelvinSignNameOnlyRouteAccepts | DLPT22RON-main/backend/routes/video_route.py:24-25 | "a.mKv" is accepted by the route (the Kelvin sign lowers to k) and refused by the screen without a MIME type |
| UploadAgreement.MistypedImageRefusedByRoute | DLPT22RON-main/src/pages/dashboard/ObjectDetection.tsx:276-280 | "photo.gif" typed image/png is sent and then refused by the route |
| UploadAgreement.UntypedImageRefusedByScreen | DLPT22RON-main/src/pages/dashboard/ObjectDetection.tsx:276-280 | "photo.jpg" without a MIME type is refused by the screen though the route accepts it |
| PersonScreen.Detect | DLPT22RON-main/src/pages/dashboard/PersonCounting.tsx:68-79 | an attempt that sends shows "Analyzing people…"; one that does not changes nothing |
| PersonScreen.OnCameraReady | DLPT22RON-main/src/pages/dashboard/PersonCounting.tsx:134-139 | the screen is active and the loop starts; the status is "Camera ready. Starting detection..." unless the first attempt already sent ("Analyzing people…"); the result and timestamp are kept |
| PersonScreen.OnResponse | DLPT22RON-main/src/pages/dashboard/PersonCounting.tsx:81-105 | a reply is stored as received with its timestamp and person line; a failure keeps the result and shows "Detection failed"; both settle the request |
| PersonScreen.StopCamera | DLPT22RON-main/src/pages/dashboard/PersonCounting.tsx:147-160 | inactive, no result or timestamp, "Camera stopped", loop stopped with requests in flight untouched |
| PersonScreen.StopCameraIdempotent | DLPT22RON-main/src/pages/dashboard/PersonCounting.tsx:147-160 | stopping twice is stopping once |
| PersonScreen.Toggle | DLPT22RON-main/src/pages/dashboard/PersonCounting.tsx:162-168 | an active screen stops; an inactive one asks for the camera and changes nothing else |
| PersonScreen.ScreenRunsPoller | DLPT22RON-main/src/pages/dashboard/PersonCounting.tsx:36-168 | the screen's loop is exactly the poller run on the screen's events |
| PersonScreen.ScreenAtMostOneInFlight | DLPT22RON-main/src/pages/dashboard/PersonCounting.tsx:36-168 | unless counting is stopped during a request, at most one request is in flight |
| PersonScreen.BoxOverlay | DLPT22RON-main/src/pages/dashboard/PersonCounting.tsx:179-199 | no style iff no result is stored or there is no video element |
| PersonScreen.OverlayMatchesObjectScreen | DLPT22RON-main/src/pages/dashboard/PersonCounting.tsx:179-199 | for the same frame and view sizes both screens place a box identically |
| Text.TrimEmptyIffBlank | DLPT22RON-main/src/pages/dashboard/Translation.tsx:51-54 | `trim()` gives "" iff every character is ECMAScript white space or a line terminator |
| TranslationScreen.PickerCodesAreMapped | DLPT22RON-main/src/pages/dashboard/Translation.tsx:12-19 | the picker's codes are exactly the codes the route maps |
| TranslationScreen.DefaultProfileDisablesTranslate | DLPT22RON-main/src/pages/dashboard/Translation.tsx:31-48 | a profile with the default language "en" sets the target equal to the source "en", so Translate stays disabled |
| TranslationScreen.BeginTranslate | DLPT22RON-main/src/pages/dashboard/Translation.tsx:50-62 | blank text is refused first, then equal languages; otherwise the old translation is cleared, the screen is translating and the request carries the text and both codes |
| TranslationScreen.EnabledIffSends | DLPT22RON-main/src/pages/dashboard/Translation.tsx:271 | the Translate button is enabled iff no translation runs and pressing it sends a request |
| TranslationScreen.FinishTranslate | DLPT22RON-main/src/pages/dashboard/Translation.tsx:64-94 | translating ends on every path; completion iff a 2xx JSON reply has no truthy error, and then the text is the translation or ""; failures keep the text and carry the reply's error, "Translation failed", or the browser's message |
| TranslationScreen.TranslateRoundTrip | DLPT22RON-main/src/pages/dashboard/Translation.tsx:50-94 | a request sent and then failed restores the screen as it was before Translate except that the old translation is cleared; a completed one differs only in the translation shown |
| TranslationScreen.ErrorFieldFailsOk | DLPT22RON-main/src/pages/dashboard/Translation.tsx:83-85 | a 2xx reply with a non-empty error fails with that message |
| TranslationScreen.Swap | DLPT22RON-main/src/pages/dashboard/Translation.tsx:97-108 | the languages always change places; the texts change places only when both are non-empty |
| TranslationScreen.SwapInvolution | DLPT22RON-main/src/pages/dashboard/Translation.tsx:97-108 | swapping twice restores the screen |
| TranslationScreen.SpeechStep | DLPT22RON-main/src/pages/dashboard/Translation.tsx:110-152 | speaking blank text or while speaking does nothing; otherwise audio is requested; the audio's arrival starts playing it and adds its object URL to the live ones; a failed request, the end of playback and a playback error each end speaking, the last two revoking the object URL; a callback in any other phase changes nothing |
| TranslationScreen.SpeechNotice | DLPT22RON-main/src/pages/dashboard/Translation.tsx:143-151 | a toast is raised iff a request fails ("Failed to generate speech") or playback fails; the end of playback raises none; each toast comes with the end of speaking |
| TranslationScreen.SpeechAlwaysReleased | DLPT22RON-main/src/pages/dashboard/Translation.tsx:133-152 | along any event trace the only live object URL is the one being played |
| TranslationScreen.TerminalEventsEndSpeaking | DLPT22RON-main/src/pages/dashboard/Translation.tsx:138-152 | each terminal event leaves the buttons enabled (not speaking) with no live object URL |
| Profile.DefaultUserIsBlank | DLPT22RON-main/src/pages/dashboard/Profile.tsx:29-41 | every default field is empty except the language "en", and the contact is empty |
| Profile.UpdateField | DLPT22RON-main/src/pages/dashboard/Profile.tsx:87-89 | the edited field takes the value; every other field and the contact keep theirs |
| Profile.UpdatesCommute | DLPT22RON-main/src/pages/dashboard/Profile.tsx:87-89 | edits of different fields commute, and a later edit of a field overrides an earlier one |
| Profile.UpdateContact | DLPT22RON-main/src/pages/dashboard/Profile.tsx:91-96 | only the edited contact field changes; all top-level fields and the other contact fields keep their values |
| Profile.UpdateContactSameValue | DLPT22RON-main/src/pages/dashboard/Profile.tsx:91-96 | writing a contact field's current value back changes nothing |
| Profile.FinishLoad | DLPT22RON-main/src/pages/dashboard/Profile.tsx:49-62 | loading ends on every path; a record replaces the data, a non-2xx status or a failure keeps it; only a failure shows the toast |
| Profile.FailedLoadKeepsDefaults | DLPT22RON-main/src/pages/dashboard/Profile.tsx:49-62 | when no record arrives the form shows the defaults and is no longer loading |
| Profile.BeginSave | DLPT22RON-main/src/pages/dashboard/Profile.tsx:64-73 | saving is on, the button disabled, and the current record is posted |
| Profile.FinishSave | DLPT22RON-main/src/pages/dashboard/Profile.tsx:74-85 | saving ends on both paths with the success or failure toast; the data are untouched |
| Profile.SaveRestoresPage | DLPT22RON-main/src/pages/dashboard/Profile.tsx:64-85 | a whole save, successful or not, returns the page to its state before with the button enabled |
| Navigation.Offered | DLPT22RON-main/src/pages/dashboard/NavigationAssistance.tsx:31-55 | Start is offered iff not navigating; pause/resume and Stop iff navigating |
| Navigation.Press | DLPT22RON-main/src/pages/dashboard/NavigationAssistance.tsx:31-49 | Start sets navigating, pause/resume flips paused, Stop resets both; a button not shown changes nothing |
| Navigation.PressKeepsConsistent | DLPT22RON-main/src/pages/dashboard/NavigationAssistance.tsx:31-49 | every press keeps "paused only while navigating" |
| Navigation.ReachableIsConsistent | DLPT22RON-main/src/pages/dashboard/NavigationAssistance.tsx:19-49 | along any sequence of presses the page is never paused without navigating |
| Navigation.StopResets | DLPT22RON-main/src/pages/dashboard/NavigationAssistance.tsx:44-49 | Stop returns any navigating state to the first render |
| Navigation.Banner | DLPT22RON-main/src/pages/dashboard/NavigationAssistance.tsx:101-107 | no banner iff not navigating; "Navigation Paused" iff paused; otherwise the guidance text |
| Navigation.BannerMatchesButtons | DLPT22RON-main/src/pages/dashboard/NavigationAssistance.tsx:31-107 | in every state the banner is shown iff Stop is offered, reads "Navigation Paused" iff pause/resume would bring the guidance back, and disappears on Stop |

## Left out

- The neural networks (YOLO, SSD, Faster R-CNN, mBART) and OpenCV's non-maximum suppression are not modelled. Their outputs are inputs: the raw boxes, the NMS-kept boxes, the predictions, and the translation answer.
- Detections.DistanceFor: the distance is kept as the pair (real size, pixel width), not as the floating-point text `f"{d:.1f}m"`. The estimate `Detections.FocalDistance` is computed over the reals, so floating-point rounding and underflow are not modelled. The person service's `calculate_distance` (utils/distance.py) is not part of this model.
- VideoService.ProcessVideo: `fps`, the `round(idx / fps, 1)` timestamps (a `stamp` parameter) and the run id (the text of a clock reading) are not computed. Drawing the boxes and writing JPEGs are left out, and so is deleting the upload.
- ImageService.ProcessImage: the annotated copy is not drawn or saved.
- Uploads.Validate: `request.files` is a map from part name to file name, so repeated parts and a missing file name are not represented.
- Uploads.Validate: the 400 text for an invalid file lists the allowed extensions in Python's set iteration order, which is not modelled (`Reply.ErrorText` gives `None` for it).
- Text.PyLower: Python lower-casing is modelled for ASCII and the Kelvin sign only. Other non-ASCII letters are left unchanged.
- TranslationRoute.Plan: a malformed body (not JSON, null, or a werkzeug error) is one `Malformed` reply with status 500. Its message text is Flask's and is not modelled. Non-string `text` values are not represented.
- The translation service itself, the speech route and the profile route's file storage are not part of this model. Neither are the frame-decoding endpoints, app.py and CORS.
- ObjectScreen.Normalize: a reply's fields are either present or missing. Present values of the wrong JSON type are not represented.
- ObjectScreen.EndUpload: the uploads' result panels (`videoResult`, `imageResult`, the selected screenshot) are not modelled; only the totals that reach the status line are. The upload toasts are not modelled.
- Profile.FinishLoad: a record from the server replaces the data whole. A partial JSON object (fields missing) is not represented. `updateField` applied to `emergencyContact` is not represented; the form never does it.
- TranslationScreen.SpeechStep: a rejected `audio.play()` promise is not caught by the source and is not modelled.
- The copy button, toasts other than the modelled messages, and React's render timing are not modelled (state updates are applied at once). Camera streams, timers and `fetch` are events in the traces.
- Overlay.OverlayStyle: sizes are real numbers. The `px` strings and JavaScript's floating-point rounding are not modelled.
