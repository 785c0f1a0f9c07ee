# Fairlo scanner: a Dafny model of its view state machines and price logic

Fairlo is a React app. The user points the phone's camera at an item and
gets a "fair local price" verdict. The app chains four screens: a rotating
globe, a zoom, a live camera and a result card. This project models the
logic behind those screens:

- **The scanner page** (`src/Pages/Scanner.tsx` and its divergent JavaScript
  variant `src/Pages/Scanner.js`). A `currentView` switches between globe,
  camera and result, and a few flags come with it. The page reacts to
  handler calls, to the one-shot geolocation effect and to its own timers.
  The JavaScript variant adds a camera-permission probe, a "camera is
  blocked" card, a photo upload and hiding of the globe's UI. It has its
  own model.
- **The camera view** (`CameraView.tsx`, with `CameraView.js` as its
  compiled twin):
  - `initCamera`'s status machine, from `initializing` through
    `requesting_permission` and `setting_stream` to `ready`, `play_error`,
    `video_error`, `timeout` or `error`;
  - the debug log, which keeps the five newest entries;
  - the stored stream and the teardown that stops its tracks;
  - the capture guard and the auto-scan timer.
- **The result card** (`ResultCard.tsx` and `ResultCard.js`):
  - the three-way verdict on the stored overprice percentage, and the pill,
    label and marker derived from it;
  - the region-keyed cultural insight;
  - the comparison bar's arithmetic in JavaScript numbers, infinities and
    NaN included;
  - the typewriter that reveals the item's name one UTF-16 code unit per tick.
- **The landing hero** (`HeroGlobe.tsx` and `HeroGlobe.js`): a
  `globe → zooming → camera` mode, moved by a button, by a window event and
  by the globe's zoom-complete callback.

Each twin `.tsx`/`.js` pair with the same logic is modelled once. The
"source" column below cites the TypeScript file, and the "states" column
names the matching JavaScript lines.

Modelling conventions:

- A component whose handlers update state becomes a class with one method
  per handler.
- Browser callbacks and timer firings are methods too, which the
  environment calls. These are the `getUserMedia` settlement, video
  metadata, `play()`, `onerror`, geolocation, and `setTimeout`/`setInterval`
  expiries.
- A pending callback is recorded in the state, so it can only arrive after
  whatever scheduled it. Methods have preconditions that say so.
- A callback created inside a closure sees the values of the render that
  created it. Such captured values travel with the pending callback. This
  is how the backup check in `CameraView` and the auto-scan `takePhoto`
  behave.
- `Math.round` is `RoundHalfUp`: the nearest integer, with halves rounded
  up.

## Model

| member | source | states |
|---|---|---|
| ScanTypes.Geolocate | src/Pages/Scanner.tsx:43-75 | The device coordinate comes with `granted`. A missing API or an error gives the fallback (26.9124, 75.7873) with `denied`. The status is never `loading` afterwards. The same logic is in Scanner.js:22-35. |
| ScanTypes.RoundHalfUp | src/Components/scanner/ResultCard.tsx:107-108 | The result is the integer within half a unit of the argument, as `Math.round` gives. |
| ScanTypes.PercentConsistentInIntegers | src/Components/scanner/ResultCard.tsx:32 | For a positive local price, the stored percentage equals `round((detected − local)·100/local)` iff it equals the integer quotient `(200·(d−l)+l) div 2l`. |
| ScannerPage.FixturesConsistent | src/Pages/Scanner.tsx:104-138 | All three simulated-scan fixtures store the rounded overprice of their own prices: 180/160→13, 300/150→100, 40/35→14. |
| ScannerPage.ScannerPage.constructor | src/Pages/Scanner.tsx:35-40 | The initial state: globe view, no result, no location, both flags false, location `loading`, no timers pending. |
| ScannerPage.ScannerPage.ResolveLocation | src/Pages/Scanner.tsx:43-75 | It is called only while `loading`. It stores exactly the `Geolocate` outcome, and the fallback coordinate whenever the status is `denied`. Afterwards a location is always present. |
| ScannerPage.ScannerPage.PressScanNow | src/Pages/Scanner.tsx:78-81 | Only `isInitiatingScan` changes, and it becomes true. A press while the button is disabled (line 251) changes nothing, so repeated presses act as one. |
| ScannerPage.ScannerPage.ZoomComplete | src/Pages/Scanner.tsx:83-91 | With the globe's props corrected (see Findings), it comes only from a globe asked to zoom. As written it never comes. The view becomes camera, `isInitiatingScan` is cleared and one 500 ms start timer is added. `isScanning` itself is untouched. |
| ScannerPage.ScannerPage.ScanStartTimerFired | src/Pages/Scanner.tsx:86-89 | A pending start timer fires: `isScanning` becomes true, whatever the view is by then. |
| ScannerPage.ScannerPage.ScanComplete | src/Pages/Scanner.tsx:94-99 | The result is stored, the result card is shown (lines 272-278) and `isScanning` is cleared, from any view. |
| ScannerPage.ScannerPage.ScanCompleteFromCamera | src/Pages/Scanner.tsx:94-99 | The corrected handler: the result is accepted only while the camera view is current. In any other view nothing changes. |
| ScannerPage.ScannerPage.SimulateScan | src/Pages/Scanner.tsx:140-146 | The chosen fixture is appended to the pending 2000 ms timers. |
| ScannerPage.ScannerPage.SimulatedScanFired | src/Pages/Scanner.tsx:142-146 | The timer's fixture becomes the shown result, scanning stops and exactly that timer is removed. |
| ScannerPage.ScannerPage.ResetToGlobe | src/Pages/Scanner.tsx:149-155 | Back to the globe with no result, not scanning, not initiating. Neither location field is in the frame, so both stay unchanged. |
| ScannerPage.ScannerPage.ScanAgain | src/Pages/Scanner.tsx:157-162 | Straight to the camera, not the globe. The result is cleared and a 500 ms start timer is added. `isInitiatingScan` is unchanged. |
| ScannerPage.GlobeProps | src/Pages/Scanner.tsx:235-239 | The corrected props: the globe is asked to zoom iff a scan is being initiated. |
| ScannerPage.ScanNowStalls | src/Pages/Scanner.tsx:237 | As written, after Scan Now the globe is not asked to zoom, so no zoom-complete follows. The page stays on the globe with the button disabled. |
| ScannerPage.ScanCycle | src/Pages/Scanner.tsx:78-99 | With the globe's props corrected: press, zoom complete, start timer and scan complete in that order show exactly the reported result. Scanning is off, and the location is the geolocation outcome. |
| ScannerPage.BackThenStaleCapture | src/Components/scanner/CameraView.tsx:136-140 | On this page the camera is reached only with the globe's props corrected. With that fix, an auto-scan scheduled while ready still reports after Back has reset the page, and the page leaves the globe for the result card. |
| ScannerPage.BackThenStaleCaptureGuarded | src/Pages/Scanner.tsx:94-99 | The same sequence with `ScanCompleteFromCamera` leaves the page on the globe. |
| ScannerPageJs.UploadMockConsistent | src/Pages/Scanner.js:56-66 | The upload mock's stored 20 is the rounded overprice of 120 over 100. |
| ScannerPageJs.ScannerPage.constructor | src/Pages/Scanner.js:13-20 | The initial state: globe, no result, not scanning, not initiating, location `loading`, permission `unknown`, UI shown, nothing pending. |
| ScannerPageJs.ScannerPage.ResolveLocation | src/Pages/Scanner.js:22-35 | Same contract as the TypeScript page's geolocation effect. |
| ScannerPageJs.ScannerPage.PressScanNow | src/Pages/Scanner.js:36-39 | An enabled Scan Now starts one camera probe. While `isInitiatingScan` the button is disabled and nothing changes. |
| ScannerPageJs.ScannerPage.ProbeSettled | src/Pages/Scanner.js:36-48 | A stream has every one of its tracks stopped. Then the permission is `granted`, `isInitiatingScan` is set and the UI is hidden, so neither the globe nor the blocked card shows. A failure sets only `denied`; the flags and the UI are unchanged. |
| ScannerPageJs.ScannerPage.TryAgain | src/Pages/Scanner.js:94-97 | The permission goes back to `unknown`, hiding the blocked card, and one more probe starts. |
| ScannerPageJs.ScannerPage.FileSelected | src/Pages/Scanner.js:52-70 | With a file, the result card shows the upload mock. Without one, the result and the view are unchanged. |
| ScannerPageJs.ScannerPage.ZoomComplete | src/Pages/Scanner.js:71-75 | The view becomes camera, `isInitiatingScan` is cleared and one start timer is added. |
| ScannerPageJs.ScannerPage.ScanStartTimerFired | src/Pages/Scanner.js:73 | `isScanning` becomes true when a start timer fires. |
| ScannerPageJs.ScannerPage.ScanComplete | src/Pages/Scanner.js:76-80 | The result is stored and shown, and scanning stops. |
| ScannerPageJs.ScannerPage.ResetToGlobe | src/Pages/Scanner.js:81-88 | Back to the globe with the result and both flags cleared. The permission is `unknown` and a 300 ms UI timer is added. The location is untouched. |
| ScannerPageJs.ScannerPage.ShowUITimerFired | src/Pages/Scanner.js:87 | The UI reappears when that timer fires. |
| ScannerPageJs.ScannerPage.ScanAgain | src/Pages/Scanner.js:89-93 | Straight to the camera with the result cleared and a start timer added. `isInitiatingScan` and the permission are untouched. |
| ScannerPageJs.UploadThenStaleCapture | src/Components/scanner/CameraView.js:110-114 | As written on the JavaScript page: upload, "Scan Another Item", camera ready while scanning, Back to the globe. The uncleared capture then still reports, and the page leaves the globe for the result card. |
| ScannerPageJs.ProbeThenRetry | src/Pages/Scanner.js:94-97 | A failed probe shows the blocked card. Try Again hides it, and a second, successful probe leaves the permission `granted` and the camera track stopped. |
| Media.StopAllTracks | src/Components/scanner/CameraView.tsx:129 | Every track of the stream is stopped, and nothing outside its tracks changes. |
| Camera.AppendDebug | src/Components/scanner/CameraView.tsx:24-27 | The log grows by one up to five entries and then stays at five. The newest message is last. The same logic is in CameraView.js:14-17. |
| Camera.CameraView.AddDebug | src/Components/scanner/CameraView.tsx:24-27 | `addDebug`: the stored log becomes `AppendDebug` of the old log and the message. |
| Camera.DebugLogKeepsNewest | src/Components/scanner/CameraView.tsx:24-27 | From any log of at most five entries, any sequence of messages leaves exactly the five newest entries of everything logged, in order. |
| Camera.AppendAllBounded | src/Components/scanner/CameraView.tsx:24-27 | The log never exceeds five entries. |
| Camera.TakePhoto | src/Components/scanner/CameraView.tsx:106-121 | A result is reported iff the status its closure sees is `ready`. That result is the test item, whose stored 50 is the rounded overprice of 150 over 100. The same logic is in CameraView.js:83-98. |
| Camera.CameraView.Mount | src/Components/scanner/CameraView.tsx:20-22 | The first render: `initializing`, an empty log, no stream, nothing pending. |
| Camera.CameraView.MountEffect | src/Components/scanner/CameraView.tsx:123-125 | The mount effect logs, then runs `initCamera`. Without a media-devices API it ends in `error`. Otherwise it is in `requesting_permission` with one request pending that captured `initializing`. The log contents are given exactly. |
| Camera.CameraView.InitCamera | src/Components/scanner/CameraView.tsx:29-46 | It sets `requesting_permission`. A missing API ends in `error` (lines 35-36 and 100-103). Otherwise one `getUserMedia` request is added, carrying the status this closure saw. Both logged lines are given. Same as CameraView.js:18-32. |
| Camera.CameraView.TryAgain | src/Components/scanner/CameraView.tsx:200-207 | It is offered only in `error` and `timeout`. It reruns `initCamera`: the same new status, request list and log lines as `InitCamera`. |
| Camera.CameraView.OnUserMedia | src/Components/scanner/CameraView.tsx:46-62 | The request is removed. A rejection ends in `error`. A stream replaces `streamRef`'s value without stopping the old one, and the track count and each track are logged. A missing video element then gives `error`; otherwise `setting_stream` with a backup check scheduled that carries the captured status. |
| Camera.CameraView.LogStream | src/Components/scanner/CameraView.tsx:49-52 | The log afterwards equals the old log with the track count and one line per track appended, in track order. |
| Camera.CameraView.OnUserMediaReleasingPrevious | src/Components/scanner/CameraView.tsx:47 | The corrected handler stops the held stream before storing the new one; otherwise its new status, log, request list, backup timers and video binding are exactly those of `OnUserMedia`. It preserves `NoLeak`: every stream the view ever held, except the current one, is stopped. |
| Camera.CameraView.OnMetadataLoaded | src/Components/scanner/CameraView.tsx:65-69 | It logs, records the size and starts one `play()`. Same as CameraView.js:46-49. |
| Camera.CameraView.OnPlaySettled | src/Components/scanner/CameraView.tsx:69-77 | Success gives `ready`; failure gives `play_error`. Each logs its line. |
| Camera.CameraView.OnVideoError | src/Components/scanner/CameraView.tsx:80-83 | It gives `video_error`. |
| Camera.CameraView.OnBackupCheck | src/Components/scanner/CameraView.tsx:89-98 | A non-zero width forces `ready` over any status. A zero width always gives `timeout`, because the captured status is never `ready`. Same as CameraView.js:66-76. |
| Camera.CameraView.AutoScanEffect | src/Components/scanner/CameraView.tsx:136-140 | A 2 s capture is scheduled exactly when scanning and `ready`. Same as CameraView.js:110-114. |
| Camera.CameraView.PhotoTimerFired | src/Components/scanner/CameraView.tsx:137-139 | A scheduled capture always reports the test item, whatever the status is now. |
| Camera.CameraView.PressTakePhoto | src/Components/scanner/CameraView.tsx:221 | The button exists only in `ready`, and pressing it reports the test item. |
| Camera.CameraView.Unmount | src/Components/scanner/CameraView.tsx:127-132 | Every track of the stored stream is stopped and one line is logged; with no stored stream nothing happens. If `NoLeak` held, every stream ever held is now stopped. Same as CameraView.js:102-107. |
| Camera.RetryLeaksFirstStream | src/Components/scanner/CameraView.tsx:47 | As written: a first attempt times out, Try Again obtains a second stream, and after unmount the first stream's track is still live. |
| Camera.RetryReleasingStopsBothStreams | src/Components/scanner/CameraView.tsx:127-132 | With the corrected handler, the same sequence leaves both streams' tracks stopped. |
| ResultCard.Classify | src/Components/scanner/ResultCard.tsx:32-34 | Each verdict is chosen iff its own predicate holds, so overpriced (>20), fair (−10..20) and underpriced (<−10) partition the integers. Same as ResultCard.js:16-18. |
| ResultCard.Thresholds | src/Components/scanner/ResultCard.tsx:32-34 | 20 and −10 are fair, 21 is overpriced and −11 is underpriced. |
| ResultCard.GetStatusConfig | src/Components/scanner/ResultCard.tsx:53-79 | "Great Deal", "Fair Deal" and "Overpriced" each appear iff the matching verdict holds. The warning icon appears iff overpriced. Same as ResultCard.js:33-61. |
| ResultCard.GetEmotionalLabel | src/Components/scanner/ResultCard.tsx:81-89 | Each label appears iff its verdict holds. Same as ResultCard.js:62-72. |
| ResultCard.MarkerIcon | src/Components/scanner/ResultCard.tsx:264 | ⚠️ iff overpriced, ✅ otherwise. Same as ResultCard.js:100. |
| ResultCard.MarkerColor | src/Components/scanner/ResultCard.tsx:257-263 | Orange, emerald and green iff overpriced, underpriced and fair respectively. |
| ResultCard.IndicatorsAgree | src/Components/scanner/ResultCard.tsx:53-89 | For every whole-number percentage, the pill, the label and the marker, written as three separate tests, never disagree. |
| ResultCard.CityBandsOrdered | src/Components/scanner/ResultCard.tsx:93-99 | Every city's low multiplier is positive and below its high one. |
| ResultCard.QuotedBandOrdered | src/Components/scanner/ResultCard.tsx:94-98 | For a non-negative local price, every city's quoted low is at most its quoted high. |
| ResultCard.GetCulturalInsight | src/Components/scanner/ResultCard.tsx:91-102 | The five cities get their templated band. Any other region gets `insight`, or "Local market analysis" when that is empty. The line is never empty. Same as ResultCard.js:73-83. |
| JsString.Utf16 | src/Components/scanner/ResultCard.tsx:39-45 | The name as JavaScript stores it: its length is the character count plus one per astral character. |
| JsString.EncodeChar | src/Components/scanner/ResultCard.tsx:43 | A character takes one code unit, or a high and a low surrogate if it is astral. |
| JsString.DecodeUtf16 | src/Components/scanner/ResultCard.tsx:43 | Decoding the code units of any string gives back that string. |
| JsString.BmpLength | src/Components/scanner/ResultCard.tsx:45 | A name without astral characters has one code unit per character. |
| ResultCard.Prefix | src/Components/scanner/ResultCard.tsx:43 | `slice(0, k)` is a prefix of the text's code units with length `min(k, length)`. |
| ResultCard.ResultCardView.Mount | src/Components/scanner/ResultCard.tsx:37-42 | On mount the typewriter text is empty, the interval runs and the 400 ms timer is pending. |
| ResultCard.ResultCardView.TypewriterTick | src/Components/scanner/ResultCard.tsx:42-48 | Tick k shows the first k code units. The interval stops once the index reaches the name's length in code units. Same as ResultCard.js:24-30. |
| ResultCard.ResultCardView.SkeletonTimerFired | src/Components/scanner/ResultCard.tsx:27-30 | The pending 400 ms timer fires once: `showSkeletons` is set and nothing is pending any more. |
| ResultCard.TypeOut | src/Components/scanner/ResultCard.tsx:37-51 | Running the interval to its end gives one frame per code unit of the name, or one frame for an empty name. Frame k is the first k+1 code units and every frame is a prefix of the name. The last frame is the whole name and decodes back to it. |
| ResultCard.EmojiNameTicks | src/Components/scanner/ResultCard.tsx:43-45 | A name of three characters that starts with an emoji ticks four times, and its first frame is a lone surrogate. |
| PriceBar.Divide | src/Components/scanner/ResultCard.tsx:111-112 | JavaScript division: NaN iff 0/0, the exact quotient for a non-zero divisor, and the infinity of the numerator's sign for a non-zero numerator over 0. |
| PriceBar.RangeBoundsOrdered | src/Components/scanner/ResultCard.tsx:107-109 | For a non-negative local price, `minPrice ≤ maxPrice`. Same as ResultCard.js:86-88. |
| PriceBar.RangePositiveIff | src/Components/scanner/ResultCard.tsx:107-109 | The bar's range is positive iff the local price is. At 0 both positions divide by zero. |
| PriceBar.MarkerClamped | src/Components/scanner/ResultCard.tsx:259 | The marker's offset is a finite value in [1, 99], except NaN, which happens iff the range is 0 and the detected price equals `minPrice`. Same as ResultCard.js:100. |
| PriceBar.BandLeftBounded | src/Components/scanner/ResultCard.tsx:248 | For a positive local price the band's offset is finite and at least 2. It is NaN for a zero local price. Same as ResultCard.js:98. |
| Landing.HeroGlobe.Mount | src/Components/landing/HeroGlobe.tsx:8-15 | The mode starts `globe` with the window listener registered. The globe and call to action show and there is no zoom. Same as HeroGlobe.js:6-12. |
| Landing.HeroGlobe.StartScan | src/Components/landing/HeroGlobe.tsx:17 | The call to action, visible only outside camera mode (line 55), sets `zooming`. The globe shows with its zoom flag set (line 29). |
| Landing.HeroGlobe.DispatchStartScan | src/Components/landing/HeroGlobe.tsx:11-15 | While the listener is registered the event sets `zooming` from any mode, camera included. After unmount it changes nothing. Same as HeroGlobe.js:8-12. |
| Landing.HeroGlobe.ZoomComplete | src/Components/landing/HeroGlobe.tsx:30 | It comes only from a zooming globe, and it gives `camera`. The camera view replaces the globe (lines 23-24), and the call to action disappears. Same as HeroGlobe.js:14. |
| Landing.HeroGlobe.Unmount | src/Components/landing/HeroGlobe.tsx:14 | The listener is removed. |
| Landing.CameraLeftByEvent | src/Components/landing/HeroGlobe.tsx:11-30 | Call to action, then zoom complete, reaches `camera`. A later event brings back a zooming globe with the call to action. |
| Landing.EventAfterUnmountIgnored | src/Components/landing/HeroGlobe.tsx:14 | After unmount a dispatched event leaves the mode in `camera`. |

## Left out

- Debug log text and timestamps are left out. Each message is a `DebugNote` constructor, with `toLocaleTimeString` and the message strings dropped. The track line keeps the kind and label but not `readyState`.
- Floating-point arithmetic is left out:
  - `Math.round` of a fractional product is computed exactly on reals, so IEEE rounding at exact halves is not modelled.
  - Coordinates are opaque pairs.
  - Prices are whole numbers.
- GetCulturalInsight: the band sentence renders prices as decimal integers. The JavaScript rendering of non-integer or exponent-form numbers is not modelled. Region keys inherited from `Object.prototype` (such as "toString") are not modelled either; the lookup is a plain map.
- ResultCard.ResultCardView.TypewriterTick: a change of `result.name` on a mounted card restarts the interval. This is not modelled; the card's result is fixed at mount.
- Presentation is left out: animation props, `priceAnimationComplete`, CSS classes other than the marker colour, and the debug overlay's location display.
- The globe component (`GlobeComponent`) is not part of this model, except that it reads its zoom flag from the prop `zoom`. Its zoom completion is an input event, and how long its zoom and exit animations take is not modelled.
- React scheduling is not modelled beyond what the handlers do:
  - setters inside one handler apply together;
  - a state update after unmount, such as `addDebug` in a late callback, is treated like any other.
- Camera.CameraView.OnUserMedia: the video element's `srcObject`, `load()` and handler installation are one `videoBound` flag. The backup check's width and height are event parameters.
- Camera: a `getUserMedia` failure is one reason, with no distinction between permission and device errors. No other failure inside `initCamera` is modelled beyond a missing API, a rejection and a missing video element.
- ScannerPageJs: the hidden file input's click (`handleUploadPhoto`) is the `FileSelected` event. The file's contents are not read, matching the source.
- `HeroGlobe` renders `CameraView` without props (HeroGlobe.tsx:24), and that use is not modelled. The hero model only switches to it. Without props the camera behaves differently from the scanner page's camera:
  - Take Photo calls an undefined `onScanComplete` and throws (CameraView.tsx:110).
  - `isScanning` is undefined, so the auto-scan never schedules.
  - Back has no handler.
- Image submission to a pricing service and normalisation of its response are not part of this model. The source has neither: `takePhoto` reports a fixed test item, and the result card reads `overpricePercentage` as stored without recomputing it.
- The model follows the code in these points:
  - A second zoom-complete on the JavaScript page is processed again.
  - The backup check always writes the status, whether or not `play()` has settled.
  - Late callbacks are not guarded by the view they were created in.
- ScannerPageJs.ScannerPage.ZoomComplete: whether a zoom-complete follows a successful probe is not modelled. The same update that sets `isInitiatingScan` hides the UI, which removes the globe (Scanner.js:41-43 and 109). The departing globe was last rendered with `zoom` false, so the outcome depends on the animation library's exit behaviour.
- Camera.CameraView.MountEffect: one run of the mount effect is modelled. React's StrictMode runs it twice in development (mount, cleanup, mount). That double run is not modelled; its leak is the one in the first Findings row.
- ResultCard.IndicatorsAgree: the overprice percentage is modelled as a whole number. A result reaches the card untyped (CameraView.tsx:11), and for NaN or a missing percentage all three tests at ResultCard.tsx:32-34 are false. The pill then says "Overpriced" ⚠️ while the marker is green ✅, so the indicators disagree; this case is not modelled.

## Findings

| source | as written | input that shows it | evidently intended | confidence | as-written member | corrected member |
|---|---|---|---|---|---|---|
| src/Components/scanner/CameraView.tsx:47 | Each `initCamera` stores its stream in `streamRef` and overwrites the previous one without stopping it. The unmount cleanup (lines 127-132) stops only the last stored stream. Same as CameraView.js:33 and 102-107. | Mount, first stream arrives, the backup check sees width 0 (`timeout`), Try Again, second stream arrives, unmount: the first stream's video track is still live. The same leak needs no Try Again in development: React's StrictMode (src/main.tsx:8-12) runs the mount effect twice, so two requests are pending and the second stream overwrites the first. | Stop the held stream before replacing it, so that every stream the view acquired is stopped at unmount. | medium, not executed | Camera.RetryLeaksFirstStream | Camera.CameraView.OnUserMediaReleasingPrevious |
| src/Pages/Scanner.tsx:237 | The page passes the zoom flag as `isZooming`, but the globe reads only `zoom`, which defaults to false (GlobeComponent.tsx:264). Its zoom controller reports completion only after `zoom` is set (lines 186-211). | Press Scan Now: the button turns to "Locating..." and stays disabled, the globe never zooms, and the camera never opens. | Pass the flag as `zoom`, so that Scan Now zooms the globe and then opens the camera. | medium, not executed | ScannerPage.ScanNowStalls | ScannerPage.GlobeProps |
| src/Components/scanner/CameraView.tsx:136-140 | The auto-scan `setTimeout(takePhoto, 2000)` is never cleared. Its `takePhoto` sees the `ready` of the render that scheduled it. `handleScanComplete` (Scanner.tsx:94-99) accepts a result in any view. | On Scanner.js: upload a photo, "Scan Another Item", the camera becomes ready while scanning, so a capture is scheduled; Back within 2 s; the capture fires and the page jumps from the globe to the result card. On Scanner.tsx the camera is reachable only once the globe's props are corrected. | A reported result is ignored once the user has left the camera view. | medium, not executed | ScannerPageJs.UploadThenStaleCapture | ScannerPage.ScannerPage.ScanCompleteFromCamera |
