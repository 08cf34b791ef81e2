# RemoveBG client core, modelled in Dafny

RemoveBG is a small Next.js front end. A user drops an image on the page. The
page shows it dimmed under a loading overlay with a synthetic progress
counter, posts it to a background-removal endpoint, and then shows a
draggable before/after comparison of the original and the result. This project
models the three pieces of that front end that carry logic:

- **The page session** (`page.dfy`, module `Page`). It holds the four state
  fields `originalImage`, `processedImage`, `isProcessing` and `progress`.
  `handleFileSelect` starts a 200 ms progress interval, one request and, after
  an OK response, a 500 ms settle timeout. These are events of a sequential
  transition system (`Session`, `Event`, `Step`, `Run`). Each file selection is
  a submission with its own identity, which owns its interval, its request and
  its timeout. The page does not guard against stale callbacks, so a callback
  of a superseded submission still updates the shared state. The lemmas show
  three such interleavings as reachable states. The class `Home` holds the
  same state as fields and updates it step by step, one method per handler or
  callback. Each method is proved equal to `Step`. `View` gives what the page
  renders for a session.
- **The upload intake** (`dropzone.dfy`, module `Dropzone`). `onDrop` clears
  the error and looks only at the first accepted file. It rejects a file
  strictly larger than 10 MiB with a fixed message. Otherwise it sets the
  preview and calls `onFileSelect` once. `removeFile` clears the preview and
  the error. The class records each call of `onFileSelect` in the field
  `selected`.
- **The comparison slider** (`slider.dfy`, module `ComparisonSlider`). It is a
  two-state drag machine (`isResizing`) with a divider position in percent.
  While resizing, the effect keeps the four window listeners attached. The
  position function clamps the pointer's offset into `[0, width]` and scales
  it to `[0, 100]`, using exact reals and requiring `width > 0`.

Object URLs are opaque tokens (`Browser.ObjectUrl`), supplied as parameters
wherever the page calls `URL.createObjectURL`. Files are known by name and
size (`Browser.File`).

Some behaviours of the page that the model keeps as they are:
- a failed request keeps the original image (app/page.tsx:55-60);
- a failure shows an `alert` with a fixed message, and no banner;
- object URLs are never revoked;
- `reset` leaves `isProcessing` as it is (app/page.tsx:73-77);
- callbacks of a superseded submission are not ignored.

## Model

| member | source | states |
|---|---|---|
| `Page.Tick` | app/page.tsx:25-30 | one tick never lowers progress and adds at most 10; it changes progress exactly when progress is below 90 |
| `Page.Ticks` | app/page.tsx:25-30 | n firings of the interval never lower progress and add at most 10 each |
| `Page.TicksFromGrid` | app/page.tsx:25-30 | from a multiple of 10 in [0,90], n ticks give min(p + 10n, 90), again a multiple of 10 in [0,90] |
| `Page.TicksFromZero` | app/page.tsx:22-30 | from 0 the ticker shows min(10n, 90): within [0,90] and a multiple of 10 |
| `Page.TicksNonDecreasing` | app/page.tsx:25-30 | more ticks never show less progress |
| `Page.TicksFixedAboveCeiling` | app/page.tsx:27 | at 90 or above, any number of ticks leaves progress unchanged |
| `Page.Enabled` | app/page.tsx:46-152 | a file can be submitted exactly when the upload view (the dropzone) is shown; reset can be clicked exactly when the result area with "Upload Another" is shown; intervals, responses and timeouts occur only while scheduled, so a cleared interval fires no more |
| `Page.Step` | app/page.tsx:16-77 | only selection and reset change the original; only selection, the settle step and reset change the result; only selection, the settle step and a failure change isProcessing; the settle step and a failure leave progress alone; the per-event effects are stated by SelectEffect through ResetEffect, and every Home method is proved equal to Step |
| `Page.InitialInv` | app/page.tsx:11-14 | the mount state (no images, not processing, progress 0, nothing scheduled) satisfies the session invariant |
| `Page.StepPreservesInv` | app/page.tsx:16-77 | every event that can occur keeps progress a multiple of 10 in [0,100], keeps running intervals within unanswered requests, and keeps awaiting and settling submissions apart |
| `Page.RunPreservesInv` | app/page.tsx:16-77 | every trace of events from an invariant session ends in an invariant session |
| `Page.SelectEffect` | app/page.tsx:16-30 | selecting a file sets the original to the new preview, clears the result, sets processing and resets progress to 0, and starts a fresh submission's ticker and request |
| `Page.OkEffect` | app/page.tsx:43-53 | an OK response stops its ticker and sets progress to exactly 100; it leaves both images and isProcessing unchanged and schedules the settle step with the result |
| `Page.SettleEffect` | app/page.tsx:50-53 | the settle step sets the processed image and isProcessing := false together and changes nothing else |
| `Page.FailureEffect` | app/page.tsx:55-60 | a failure stops its ticker and ends processing; it changes neither image nor progress |
| `Page.ResetEffect` | app/page.tsx:73-77 | reset clears both images and progress, leaves isProcessing untouched, and applying its effect a second time changes nothing |
| `Page.View` | app/page.tsx:110-162 | the overlay is shown iff processing, with the current progress; the upload view iff there is no original; the slider iff both images exist, with them as before and after; the dimmed panel otherwise shows the original; the download button iff a result exists |
| `Page.RunIntervalFirings` | app/page.tsx:25-30 | while a submission's interval runs, k firings advance progress by k ticks and change nothing else |
| `Page.RunStarted` | app/page.tsx:16-30 | selecting a file from the upload view and then k ticks leaves progress at min(10k, 90), with the rest of the state as selection left it |
| `Page.SuccessfulSubmission` | app/page.tsx:16-53 | a successful submission shows 0, 10, ... up to 90 while processing with no result, then exactly 100 with its ticker stopped, then the comparison of the original and the result with no overlay |
| `Page.FailedSubmission` | app/page.tsx:16-60 | a failed submission ends processing with its ticker and request gone, the original kept and no result, so the dimmed original is shown without the download button |
| `Page.ResetThenLateSettle` | app/page.tsx:50-77 | a reset during the settle delay is followed by the late settle, which leaves a processed image with no original, behind the upload view |
| `Page.StaleFailureEndsNewerProcessing` | app/page.tsx:55-60 | after a reset and a second file, the first request's failure ends processing and hides the overlay while the second request is still open |
| `Page.StaleResultShownForNewerOriginal` | app/page.tsx:46-53 | after a reset and a second file, the first request's result is shown next to the second file's original |
| `Page.Home.constructor` | app/page.tsx:11-14 | the page mounts with no images, not processing, progress 0 and nothing scheduled |
| `Page.Home.HandleFileSelect` | app/page.tsx:16-39 | sets the four fields as selection does, returns the new submission's identity and starts its interval and request |
| `Page.Home.IntervalFired` | app/page.tsx:25-30 | applies the tick rule to progress, which does not decrease |
| `Page.Home.ResponseOk` | app/page.tsx:41-53 | clears the interval, sets progress to 100 and schedules the settle step with the result, with both images and isProcessing unchanged |
| `Page.Home.SettleFired` | app/page.tsx:50-53 | publishes the scheduled result and ends processing, keeping the original and progress |
| `Page.Home.RequestFailed` | app/page.tsx:55-60 | ends processing and clears the interval, keeping both images |
| `Page.Home.Reset` | app/page.tsx:73-77 | clears both images and progress and keeps isProcessing |
| `Page.Home.DownloadImage` | app/page.tsx:63-71 | yields no link iff there is no processed image, else a link to it named removed-bg-hd.png |
| `Dropzone.Decide` | components/ui/Dropzone.tsx:18-35 | an empty list is ignored; only the first file is examined; it is rejected iff larger than 10485760 bytes, and accepted otherwise |
| `Dropzone.Drop` | components/ui/Dropzone.tsx:18-35 | the error is the fixed message iff the first file is too large, else cleared; the preview changes only for an accepted file; the callback log grows by exactly the accepted file |
| `Dropzone.LimitIsInclusive` | components/ui/Dropzone.tsx:25 | a file of exactly 10485760 bytes is accepted and one of 10485761 bytes is rejected |
| `Dropzone.CallbackOncePerAcceptedDrop` | components/ui/Dropzone.tsx:18-35 | over any series of drops, onFileSelect receives the first file of each accepted drop exactly once, in order, and nothing else |
| `Dropzone.RejectedDropsKeepPreview` | components/ui/Dropzone.tsx:20-28 | drops that are empty or too large never change the preview and make no callback |
| `Dropzone.Dropzone.constructor` | components/ui/Dropzone.tsx:15-16 | the dropzone starts with no preview and no error |
| `Dropzone.Dropzone.OnDrop` | components/ui/Dropzone.tsx:18-35 | clears the error; an oversized first file sets the fixed message and leaves the preview; an accepted file sets the preview and is handed on exactly once |
| `Dropzone.Dropzone.RemoveFile` | components/ui/Dropzone.tsx:46-50 | clears the preview and the error and hands nothing on |
| `ComparisonSlider.ClientX` | components/ui/ComparisonSlider.tsx:35 | a mouse event is read at its clientX, a touch event at its first touch's clientX |
| `ComparisonSlider.ClampedOffset` | components/ui/ComparisonSlider.tsx:36 | the offset lies in [0, width]: 0 left of the container, width right of it, the pointer's offset inside |
| `ComparisonSlider.Position` | components/ui/ComparisonSlider.tsx:36-37 | the position lies in [0,100]; it is 0 when clientX <= left and 100 when clientX >= left + width |
| `ComparisonSlider.PositionMonotone` | components/ui/ComparisonSlider.tsx:36-37 | the position is non-decreasing in clientX |
| `ComparisonSlider.PositionInverse` | components/ui/ComparisonSlider.tsx:36-37 | inside the container, converting the position back to pixels gives the pointer's clientX |
| `ComparisonSlider.TouchLikeMouse` | components/ui/ComparisonSlider.tsx:35 | a touch event is positioned exactly as a mouse event at its first touch's clientX |
| `ComparisonSlider.AttachedListeners` | components/ui/ComparisonSlider.tsx:44-58 | listeners are attached iff resizing, and then all four |
| `ComparisonSlider.Slider.constructor` | components/ui/ComparisonSlider.tsx:18-19 | the slider starts at 50 and not resizing, with no listeners |
| `ComparisonSlider.Slider.RunEffect` | components/ui/ComparisonSlider.tsx:44-58 | the cleanup removes all four listeners and the effect re-attaches all four exactly when resizing |
| `ComparisonSlider.Slider.HandleMouseDown` | components/ui/ComparisonSlider.tsx:22-24 | mouse down or touch start sets resizing and attaches all four listeners, keeping the position |
| `ComparisonSlider.Slider.HandleMouseUp` | components/ui/ComparisonSlider.tsx:26-28 | mouse up or touch end clears resizing and removes all four listeners, keeping the position |
| `ComparisonSlider.Slider.HandleMouseMove` | components/ui/ComparisonSlider.tsx:30-42 | a move while not resizing or with no container leaves the position; otherwise it becomes the clamped percentage of the pointer; the position stays in [0,100] |
| `ComparisonSlider.Slider.Unmount` | components/ui/ComparisonSlider.tsx:52-57 | the final cleanup removes all four window listeners |

## Left out

- The server route `app/api/remove-bg/route.ts` is not part of this model. It is I/O glue: it parses the upload, checks an environment variable, waits, and echoes the image back.
- `components/ui/LoadingOverlay.tsx` is not part of this model. It only presents the progress number that `Page.View` hands it.
- The request payload is not modelled. The `FormData` built around the file and the `fetch` call are reduced to the events `ResponseOk` and `RequestFailed`.
- The blob read is not a separate step. `await response.blob()` is merged into `ResponseOk`; if it throws, that is a `RequestFailed`.
- The `alert` and `console.error` in the failure path are not modelled. They are I/O and change no state.
- The effect of a download is not modelled. `Page.Home.DownloadImage` returns the link it would click; the DOM element and the click are left out.
- The `e.stopPropagation()` in `removeFile` is not modelled. It keeps the remove click from reaching the dropzone's root, which would otherwise open the file picker; event propagation is not part of this model.
- The picker's type and count filter (`accept`, `maxFiles`) is not modelled. `onDrop` receives its output as any list of files.
- `Dropzone.Dropzone.OnDrop` hands on the first file whatever the list's length, as the code does.
- The rendering between a state update and the slider's effect is not a separate step. `HandleMouseDown` and `HandleMouseUp` run the effect (`RunEffect`) right after they set `isResizing`.
- Floating-point behaviour of the slider is not modelled: IEEE rounding, and NaN for a zero-width container. Positions are exact reals, and `width > 0` is required.
- Object URLs are opaque tokens. Memory they hold is not tracked; the page never revokes them.
- JSX markup, animations, styling and icons are left out, apart from which panels and buttons `Page.View` renders.
