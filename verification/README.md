# Vehicle-detection bookkeeping of the IRIX camera app, in Dafny

The IRIX app shows a live camera preview and runs an object detector on its frames. This
project models the bookkeeping around the detector, not the detector itself. It proves the
model's properties with the Dafny verifier. The parts modelled are:

- **`AiDetection`** (`ai-detection.service.ts`):
  - the vehicle filter over detector predictions (vehicle class, score strictly above 0.5);
  - the fixed-ratio licence-plate heuristic;
  - the empty fallback result when analysis fails;
  - the load-once life cycle of the model (`initializeAI`, the download, the warm-up, `isReady`, `dispose`), with the model marked loaded before the warm-up ends.
- **`DetectionsTable`** (the statistics table component):
  - statistics recomputed from the last ten history entries: totals, a per-type histogram, mean confidence, plate count and mean processing time;
  - the top-five recent list, sorted by confidence;
  - the colour, icon and model-status classifiers, and `clearStats`.
- **`DetectionOverlay`** (the overlay component):
  - the per-frame handler with its `isProcessing` skip flag;
  - the ten-entry window of processing times and the overlay statistics;
  - the start, stop, toggle and reset transitions.
- **`CameraMainPage`** (the camera page):
  - the detection history, which keeps only results with vehicles and is capped at the newest fifty;
  - the decaying header counter and the watchdog that stops detection;
  - the header-action refresh and the header-action dispatcher.
- **`CameraInfoService`**: the plugin camera names, the fallback lists used when the plugin throws, and the choice of the largest resolution.
- **`CameraService`**: the camera state machine (start, stop, flip), capability loading, the zoom clamp, zoom support and the zoom-permission check.
- **`CameraModel`**, **`Wrappers`** and **`Window`**: shared types, `Option`, and the "newest n" window with sums and means.

Every call into a native plugin, the detector, the permission service or the clock is an
input to the model. The permission answer, each plugin reply (a value, or `Threw`), whether
the preview starts, stops or flips, the detector's predictions and the measured processing
time are all parameters. Confidences, coordinates, times and zoom levels are `real`, so they
are exact rationals rather than binary doubles. For example, the mean of 0.9, 0.6 and 0.8 is
exactly 23/30.

Asynchronous handlers are split into two events:

- the synchronous part up to the `await` of the analysis (a frame arriving);
- the part after the `await` (the analysis completing).

A counter `inFlight` records how many analyses have begun and not yet completed. Event traces
(`Run`, `RunGuarded`, `RunModel`, `RunCamera`) then let lemmas talk about arbitrary interleavings.

The page keeps a result that arrives after the camera was stopped. The statistics pass is a
loop-based method (`DetectionsTable.ComputeStats`), and its loop invariants tie it to the
reference definitions (`Describes`).

## Model

| member | source | states |
|---|---|---|
| `AiDetection.ParseVehicleClass` | src/app/core/services/ai-detection.service.ts:39-41 | a class string names a vehicle type exactly when it is one of car, truck, bus, motorcycle, bicycle, and the type's name gives the string back |
| `AiDetection.TypeNameRoundTrip` | src/app/core/services/ai-detection.service.ts:39-41 | every vehicle type's name parses back to that type |
| `AiDetection.ToVehicle` | src/app/core/services/ai-detection.service.ts:177-186 | the vehicle built from a prediction has the prediction's class as its type, its score as confidence and its box unchanged, with no plate yet |
| `AiDetection.FilterVehicles` | src/app/core/services/ai-detection.service.ts:173-187 | the filter never produces more vehicles than predictions, and every vehicle it produces has confidence above 0.5, a vehicle type and no plate |
| `AiDetection.FilterVehiclesAppend` | src/app/core/services/ai-detection.service.ts:174-186 | filtering a concatenation is the concatenation of the filtered parts, so input order is kept |
| `AiDetection.FilterVehiclesMembership` | src/app/core/services/ai-detection.service.ts:174-186 | a vehicle is in the output if and only if some prediction with a vehicle class and score above 0.5 converts to it |
| `AiDetection.FilterThresholdExamples` | src/app/core/services/ai-detection.service.ts:175-176 | scores 0.49 and 0.5 are dropped, 0.51 is kept, and a "person" is dropped whatever its score |
| `AiDetection.EstimatePlateRegion` | src/app/core/services/ai-detection.service.ts:200-208 | the plate region is three fifths of the box wide and one fifth high, horizontally centred, on the bottom edge, with confidence 0.7, and lies inside any box of non-negative size |
| `AiDetection.PlateRegionExample` | src/app/core/services/ai-detection.service.ts:200-208 | the box {0, 0, 100, 50} yields the region {20, 40, 60, 10} at confidence 0.7 |
| `AiDetection.AddPlateRegions` | src/app/core/services/ai-detection.service.ts:193-217 | no vehicle is dropped; each keeps its type, confidence and box, is marked as having a plate, and carries the estimated region of its own box |
| `AiDetection.IsReady` | src/app/core/services/ai-detection.service.ts:234-236 | ready exactly when the loaded flag is set and a model is held; with the life-cycle lemma, exactly when the flag is set |
| `AiDetection.InitializeAI` | src/app/core/services/ai-detection.service.ts:50-63 | a loaded model returns at once, exactly when the loaded flag is set; otherwise the stored promise is awaited with nothing changed exactly when one is stored; otherwise a load starts, storing a pending promise and counting one more load, nothing else changed |
| `AiDetection.LoadFails` | src/app/core/services/ai-detection.service.ts:65-92 | a failing runtime start or model download clears the loaded flag and rejects the stored promise, so the service is not ready and initialising again only awaits that promise |
| `AiDetection.ModelLoaded` | src/app/core/services/ai-detection.service.ts:76-85 | a downloaded model is stored and marked loaded before the warm-up begins, so the service is ready while the promise is still pending |
| `AiDetection.WarmUpSettles` | src/app/core/services/ai-detection.service.ts:85-109 | the end of the warm-up, successful or not, resolves the promise and leaves the loaded flag and the model as they are at that moment |
| `AiDetection.WarmUpFailureLeavesModelReady` | src/app/core/services/ai-detection.service.ts:97-109 | a failed warm-up is swallowed: a load that reached the model ends in the same state as after a successful warm-up, and ready |
| `AiDetection.Dispose` | src/app/core/services/ai-detection.service.ts:252-259 | dispose drops the model and makes the service not ready, but keeps the stored loading promise |
| `AiDetection.DisposeIsPermanent` | src/app/core/services/ai-detection.service.ts:56-62 | after dispose, initialising again only awaits the old promise and the service stays not ready |
| `AiDetection.DisposeDuringWarmUpIsPermanent` | src/app/core/services/ai-detection.service.ts:81-85 | a dispose during the warm-up is not undone when the warm-up ends: the promise resolves, the service stays not ready, and initialising again only awaits that promise |
| `AiDetection.RunModelLoadsAtMostOnce` | src/app/core/services/ai-detection.service.ts:50-92 | over any sequence of initialise, download, warm-up and dispose events, at most one load is ever started and readiness coincides with the loaded flag |
| `AiDetection.InitialModelStateLoadsAtMostOnce` | src/app/core/services/ai-detection.service.ts:35-92 | from the service's initial state (not loaded, no promise), no sequence of events starts a second load, and readiness coincides with the loaded flag |
| `AiDetection.AnalyzeFrame` | src/app/core/services/ai-detection.service.ts:115-168 | when the model is not ready or decoding or detection fails, the result is empty with a 0×0 frame; otherwise it holds the filtered vehicles with their plate regions and the frame's size; every vehicle has confidence above 0.5 and a plate region |
| `DetectionsTable.AccumulateVehicles` | src/app/features/camera/components/ai-detections-table/ai-detections-table.component.ts:221-228 | the inner loop extends the confidence sum, the plate count and the per-type histogram by exactly the vehicles of one result |
| `DetectionsTable.ComputeStats` | src/app/features/camera/components/ai-detections-table/ai-detections-table.component.ts:210-238 | the statistics describe the window: the total is the number of vehicles, the histogram counts each type seen (and only those), the mean confidence and mean processing time are the means of the window's values (0 when empty), and the plate count counts vehicles with a plate |
| `DetectionsTable.FlattenLength` | src/app/features/camera/components/ai-detections-table/ai-detections-table.component.ts:217-218 | the number of vehicles in the window is the sum of the per-result vehicle counts |
| `DetectionsTable.TypeCountsPartition` | src/app/features/camera/components/ai-detections-table/ai-detections-table.component.ts:221-228 | the five per-type counts add up to the number of vehicles, and the plate count never exceeds it |
| `DetectionsTable.StatsTotalsAgree` | src/app/features/camera/components/ai-detections-table/ai-detections-table.component.ts:217-235 | for statistics that describe a window, the histogram entries add up to the total, the plate count is at most the total, and the total is the sum of vehicle counts |
| `DetectionsTable.AverageConfidenceBounds` | src/app/features/camera/components/ai-detections-table/ai-detections-table.component.ts:234 | the mean confidence lies within any bounds on the window's confidences, and is 0 when there are no vehicles |
| `DetectionsTable.AverageConfidenceExample` | src/app/features/camera/components/ai-detections-table/ai-detections-table.component.ts:222-236 | results [0.9, 0.6] (40 ms) and [0.8] (20 ms) give 3 vehicles, mean confidence 23/30, 2 plates and 30 ms mean time |
| `DetectionsTable.Insert` | src/app/features/camera/components/ai-detections-table/ai-detections-table.component.ts:244 | inserting into a list sorted by non-increasing confidence keeps it sorted and adds exactly the one vehicle |
| `DetectionsTable.SortByConfidence` | src/app/features/camera/components/ai-detections-table/ai-detections-table.component.ts:244 | the sorted list is a permutation of the input ordered by non-increasing confidence |
| `DetectionsTable.RecentDetections` | src/app/features/camera/components/ai-detections-table/ai-detections-table.component.ts:240-244 | the recent list holds at most five vehicles, exactly the last five of the window (or all of them when fewer), highest confidence first |
| `DetectionsTable.UpdateStats` | src/app/features/camera/components/ai-detections-table/ai-detections-table.component.ts:205-245 | an empty history changes nothing; otherwise the statistics and the recent list describe the last ten entries and the model information is kept |
| `DetectionsTable.ClearStats` | src/app/features/camera/components/ai-detections-table/ai-detections-table.component.ts:309-319 | clearing yields the statistics of an empty window: every counter 0, no histogram keys, an empty recent list |
| `DetectionsTable.GetConfidenceColor` | src/app/features/camera/components/ai-detections-table/ai-detections-table.component.ts:264-268 | success exactly from 0.8 up, warning exactly on [0.6, 0.8), danger exactly below 0.6 |
| `DetectionsTable.ConfidenceColorMonotone` | src/app/features/camera/components/ai-detections-table/ai-detections-table.component.ts:264-268 | a higher confidence never gets a worse badge |
| `DetectionsTable.GetVehicleIcon` | src/app/features/camera/components/ai-detections-table/ai-detections-table.component.ts:250-259 | the bus icon exactly for "bus", the bicycle icon exactly for "motorcycle" and "bicycle", a prototype member exactly for the keys every object inherits, and the car icon for every other string |
| `DetectionsTable.VehicleTypesHaveIcons` | src/app/features/camera/components/ai-detections-table/ai-detections-table.component.ts:250-259 | each of the five vehicle names finds its own icon: car and truck the car icon, bus the bus icon, motorcycle and bicycle the bicycle icon |
| `DetectionsTable.GetModelStatus` | src/app/features/camera/components/ai-detections-table/ai-detections-table.component.ts:294-304 | "Cargando..." exactly when not loaded, "Excelente" exactly when loaded with accuracy at least 0.8, "Bueno" otherwise, with matching colours; the warning icon while loading and the checkmark icon once loaded |
| `DetectionsTable.DefaultModelStatus` | src/app/features/camera/components/ai-detections-table/ai-detections-table.component.ts:96-104 | with the default accuracy of 85%, a loaded model reads "Excelente" and an unloaded one "Cargando..." |
| `DetectionOverlay.PushTime` | src/app/features/camera/components/ai-detection-overlay/ai-detection-overlay.component.ts:164-167 | pushing a time onto a window of at most ten keeps the newest ten, the new time last |
| `DetectionOverlay.PushAllKeepsLastTen` | src/app/features/camera/components/ai-detection-overlay/ai-detection-overlay.component.ts:164-167 | from an empty window, after any sequence of pushes the window is the last ten times pushed, in order |
| `DetectionOverlay.RecordDetection` | src/app/features/camera/components/ai-detection-overlay/ai-detection-overlay.component.ts:158-171 | one more frame, the result's vehicles added, its time recorded as last, the average equal to the mean of the window, and nothing else changed |
| `DetectionOverlay.ResetStats` | src/app/features/camera/components/ai-detection-overlay/ai-detection-overlay.component.ts:195-204 | every statistic zero and the window empty, nothing else changed |
| `DetectionOverlay.FirstRecordAfterReset` | src/app/features/camera/components/ai-detection-overlay/ai-detection-overlay.component.ts:158-204 | after a reset, the first recorded result alone makes up the statistics: one frame, its vehicles, and its time as the last time, the only window entry and the average |
| `DetectionOverlay.OnFrame` | src/app/features/camera/components/ai-detection-overlay/ai-detection-overlay.component.ts:118-153 | a frame is ignored exactly when AI is disabled or not initialised, analysed exactly when enabled, initialised and not busy; a busy frame is skipped but lowers the flag |
| `DetectionOverlay.BusyFrameIsNotAnalysed` | src/app/features/camera/components/ai-detection-overlay/ai-detection-overlay.component.ts:123 | a frame arriving while the flag is raised starts no analysis |
| `DetectionOverlay.OnAnalysisDone` | src/app/features/camera/components/ai-detection-overlay/ai-detection-overlay.component.ts:129-152 | the flag is lowered and one analysis fewer is in flight; a result with vehicles becomes the current detection and is recorded exactly as `updateStats` records it; an empty one changes nothing else |
| `DetectionOverlay.FlagDownAfterEveryExit` | src/app/features/camera/components/ai-detection-overlay/ai-detection-overlay.component.ts:121-152 | whichever way the handler exits, skipped or analysed with any result, the flag ends lowered |
| `DetectionOverlay.StopAiDetection` | src/app/features/camera/components/ai-detection-overlay/ai-detection-overlay.component.ts:99-112 | the stream is stopped, the current detection cleared and the flag lowered, nothing else changed |
| `DetectionOverlay.StopAiDetectionIdempotent` | src/app/features/camera/components/ai-detection-overlay/ai-detection-overlay.component.ts:99-112 | stopping twice is the same as stopping once |
| `DetectionOverlay.StartAiDetection` | src/app/features/camera/components/ai-detection-overlay/ai-detection-overlay.component.ts:65-94 | each failure (camera inactive, model initialisation, stream start) lowers the flag; a successful start leaves AI initialised, the stream running, the statistics reset and the flag still raised, nothing else changed; the current detection is never touched |
| `DetectionOverlay.ToggleAI` | src/app/features/camera/components/ai-detection-overlay/ai-detection-overlay.component.ts:209-217 | toggling flips the enabled flag; turning off is exactly a stop followed by disabling, turning on is exactly enabling followed by a start |
| `DetectionOverlay.ToggledOffIgnoresFrames` | src/app/features/camera/components/ai-detection-overlay/ai-detection-overlay.component.ts:119 | after toggling off, every arriving frame is ignored |
| `DetectionOverlay.SecondAnalysisStartsWhileFirstPending` | src/app/features/camera/components/ai-detection-overlay/ai-detection-overlay.component.ts:121-152 | three frames arriving while the first analysis is pending leave two analyses in flight |
| `DetectionOverlay.FirstFrameAfterStartIsSkipped` | src/app/features/camera/components/ai-detection-overlay/ai-detection-overlay.component.ts:75-88 | after a successful start the first frame is skipped |
| `DetectionOverlay.OnFrameGuarded` | src/app/features/camera/components/ai-detection-overlay/ai-detection-overlay.component.ts:118-153 | with the busy check before the `try`, a frame is analysed exactly when enabled, initialised and not busy, and a frame not analysed changes nothing |
| `DetectionOverlay.StopAiDetectionGuarded` | src/app/features/camera/components/ai-detection-overlay/ai-detection-overlay.component.ts:99-112 | the stop with the flag left to the frame handler: the stream stopped and the current detection cleared, flag and in-flight count unchanged |
| `DetectionOverlay.StartAiDetectionGuarded` | src/app/features/camera/components/ai-detection-overlay/ai-detection-overlay.component.ts:65-94 | the start with the flag left to the frame handler: flag and in-flight count unchanged, otherwise the same as the written start |
| `DetectionOverlay.ToggleAIGuarded` | src/app/features/camera/components/ai-detection-overlay/ai-detection-overlay.component.ts:209-217 | the toggle built from the guarded stop and start: the enabled flag flips, the busy flag and the in-flight count are kept |
| `DetectionOverlay.FirstFrameAfterGuardedStartIsAnalysed` | src/app/features/camera/components/ai-detection-overlay/ai-detection-overlay.component.ts:75-88 | after a successful guarded start the first frame is analysed when no analysis is pending, and skipped while one is |
| `DetectionOverlay.GuardedRunIsSingleFlight` | src/app/features/camera/components/ai-detection-overlay/ai-detection-overlay.component.ts:99-153 | with the guarded handler, stop and start, over any sequence of frame arrivals, completions and toggles, the flag is raised exactly while one analysis is in flight, and never more than one is |
| `DetectionOverlay.InitialOverlayRunIsSingleFlight` | src/app/features/camera/components/ai-detection-overlay/ai-detection-overlay.component.ts:23-44 | from the component's initial state (flag down, nothing in flight), every guarded trace keeps at most one analysis in flight |
| `CameraMainPage.AppendHistory` | src/app/features/camera/pages/camera-main/camera-main.page.ts:210-216 | a result without vehicles leaves the history alone; one with vehicles is appended and the newest fifty are kept, the new result last |
| `CameraMainPage.HistoryIsNewestNonEmpty` | src/app/features/camera/pages/camera-main/camera-main.page.ts:210-216 | from an empty history, after any sequence of results the history is the newest fifty results that had vehicles, in arrival order, and none of its entries is empty |
| `CameraMainPage.NextDetectionCount` | src/app/features/camera/pages/camera-main/camera-main.page.ts:219-233 | the counter becomes the vehicle count of a result with vehicles, otherwise drops by one, stopping at zero |
| `CameraMainPage.CounterDecaysToZero` | src/app/features/camera/pages/camera-main/camera-main.page.ts:230-233 | k empty results in a row take the counter n to n − k, or to 0 when k ≥ n |
| `CameraMainPage.FrameStartsAnalysis` | src/app/features/camera/pages/camera-main/camera-main.page.ts:204 | a frame is sent to analysis exactly when the camera is active |
| `CameraMainPage.WatchdogAgreesWithFrameGuard` | src/app/features/camera/pages/camera-main/camera-main.page.ts:182-187 | the watchdog tests the same condition as the frame guard: a tick never changes whether frames are accepted, and once they are refused it stops the stream and zeroes the counter |
| `CameraMainPage.OnAnalysisResult` | src/app/features/camera/pages/camera-main/camera-main.page.ts:201-238 | a result updates the history and the counter only; a history of at most fifty non-empty entries stays so |
| `CameraMainPage.StopAiDetection` | src/app/features/camera/pages/camera-main/camera-main.page.ts:243-256 | the interval is cleared, the stream stopped and the counter zeroed; history and camera state are kept |
| `CameraMainPage.StopAiDetectionIdempotent` | src/app/features/camera/pages/camera-main/camera-main.page.ts:243-256 | stopping twice is the same as stopping once |
| `CameraMainPage.OnWatchdogTick` | src/app/features/camera/pages/camera-main/camera-main.page.ts:182-187 | the watchdog stops detection exactly when the camera is inactive, and otherwise changes nothing |
| `CameraMainPage.ResultAfterStopIsKept` | src/app/features/camera/pages/camera-main/camera-main.page.ts:204-216 | a result whose frame was accepted while the camera was active is added to the history even after the camera and detection were stopped |
| `CameraMainPage.UpdateHeaderActions` | src/app/features/camera/pages/camera-main/camera-main.page.ts:295-315 | length, order, ids and labels kept; camera-toggle gets the stop or camera icon, danger or primary colour and active flag; flip-camera and capture are disabled exactly when inactive; other actions unchanged |
| `CameraMainPage.UpdateHeaderActionsLastWins` | src/app/features/camera/pages/camera-main/camera-main.page.ts:295-315 | refreshing twice equals refreshing once with the later camera state |
| `CameraMainPage.InitialHeaderActionsRefresh` | src/app/features/camera/pages/camera-main/camera-main.page.ts:46-77 | refreshing the page's initial five header actions sets the toggle's icon, colour and active flag, disables flip exactly when inactive, and keeps settings, info and stats as declared |
| `CameraMainPage.OnHeaderAction` | src/app/features/camera/pages/camera-main/camera-main.page.ts:261-290 | 'stats' toggles the table and nothing else; camera-toggle asks to stop exactly when active and to start exactly when inactive; flip is asked for exactly on flip-camera with an active camera; info opens the camera information |
| `CameraMainPage.StatsToggleTwiceRestores` | src/app/features/camera/pages/camera-main/camera-main.page.ts:282-286 | pressing 'stats' twice restores the page state |
| `CameraInfoService.PluginCameraName` | src/app/core/services/camera-info.service.ts:18 | the rear camera is asked for as "back" and only it; the front one as "front" and only it |
| `CameraInfoService.GetCameraInfo` | src/app/core/services/camera-info.service.ts:15-25 | no information exactly when the plugin throws; otherwise the plugin's reply for the mapped name |
| `CameraInfoService.GetSupportedResolutions` | src/app/core/services/camera-info.service.ts:30-45 | when the plugin throws, exactly 1920×1080, 1280×720 and 854×480; a reply without resolutions gives none; otherwise the plugin's list |
| `CameraInfoService.GetAvailableCameras` | src/app/core/services/camera-info.service.ts:50-62 | when the plugin throws, exactly camera "0" facing back and "1" facing front; a reply without cameras gives none; otherwise the plugin's list |
| `CameraInfoService.GetMaxResolution` | src/app/core/services/camera-info.service.ts:67-75 | none exactly for an empty list; otherwise an element whose area is at least that of every element and strictly larger than that of every earlier one |
| `CameraInfoService.EqualAreaKeepsEarlier` | src/app/core/services/camera-info.service.ts:70-74 | of 1920×1080 and 1080×1920 the first wins, and the fallback list's maximum is 1920×1080 |
| `CameraService.InitialCameraStateIsIdle` | src/app/core/services/camera.service.ts:12-19 | the service starts with an inactive rear camera, no resolution, no supported resolutions, zoom 1 and no zoom support, so a zoom request is refused |
| `CameraService.ReportedMaxZoom` | src/app/core/services/camera.service.ts:59 | the maximum zoom is 1 when there is no information, no value or the value 0, otherwise exactly the reported value, and so above 1 exactly when the camera reports more than 1 |
| `CameraService.InitializeCameraCapabilities` | src/app/core/services/camera.service.ts:44-71 | on success the camera, its supported resolutions, the largest of them and its maximum zoom are stored; on a swallowed error nothing changes; activity and zoom level are never touched |
| `CameraService.StartCamera` | src/app/core/services/camera.service.ts:76-114 | denied permission returns false with nothing changed; an active camera returns true with nothing changed; with permission, the result is true exactly when the camera ends active, which happens exactly when it was active or the preview starts; starting an inactive camera loads its capabilities first when none are loaded and otherwise changes only the active flag |
| `CameraService.StopCamera` | src/app/core/services/camera.service.ts:119-134 | an active camera whose preview stops becomes inactive at zoom 1; otherwise nothing changes |
| `CameraService.FlipCamera` | src/app/core/services/camera.service.ts:139-156 | an inactive camera or a failed flip returns false with nothing changed; otherwise true, with the other camera's capabilities loaded; activity and zoom level are kept |
| `CameraService.FlipTwiceRestoresCamera` | src/app/core/services/camera.service.ts:145-148 | two successful flips return to the camera started from, and one flip changes it |
| `CameraService.FlipWithSwallowedErrorKeepsState` | src/app/core/services/camera.service.ts:139-156 | when loading the new camera's capabilities fails, the flip still returns true with the state unchanged |
| `CameraService.SetZoom` | src/app/core/services/camera.service.ts:181-215 | refused exactly when inactive or without zoom support, changing nothing; otherwise only the zoom level changes, into [1, maxZoom]: the requested level when in range, maxZoom above it, 1 below it |
| `CameraService.SetZoomIdempotent` | src/app/core/services/camera.service.ts:186 | setting the same zoom twice equals setting it once |
| `CameraService.IsZoomSupported` | src/app/core/services/camera.service.ts:220-223 | zoom is supported exactly when the loaded maximum exceeds 1 |
| `CameraService.CheckZoomPermissions` | src/app/core/services/camera.service.ts:242-260 | permission exactly when the current camera reports a maximum zoom above 1, then digital; otherwise none |
| `CameraService.ZoomSupportAgreesWithPermission` | src/app/core/services/camera.service.ts:220-223 | right after a camera's capabilities are loaded, zoom is supported exactly when the permission check grants zoom |
| `CameraService.ZoomNeverBelowOne` | src/app/core/services/camera.service.ts:186 | whatever each call's device answers, no sequence of starts, stops, flips and zoom requests takes a zoom level of at least 1 below 1 |
| `CameraService.FlipKeepsZoomAboveNewMaximum` | src/app/core/services/camera.service.ts:51-60 | a flip keeps the zoom level even when it exceeds the new camera's maximum |

## Left out

- The detector: TensorFlow.js start-up, COCO-SSD loading and inference, tensors, base64 image decoding and `performance.now` (ai-detection.service.ts). The predictions, the frame size and the elapsed time are inputs, and "decoding or detection threw" is an absent frame.
- `getModelInfo` and the table's `initializeStats` / `updateModelStatus`: these copy backend and memory figures from the runtime. The model-validation record keeps only the loaded flag and the accuracy that the status classifier reads.
- Clocks: the overlay's `fps` and `lastFrameTime`, and the table's `lastUpdate` timestamp.
- Timers, rxjs subscriptions, change detection and logging. The intervals are modelled only as the watchdog tick and the one-second statistics refresh, as plain functions.
- The continuous video stream. `startContinuousVideoStream`, `isContinuousStreamActive` and `stopContinuousVideoStream` are not part of this model; their calls are the `streamActive` / `streamRunning` flags. For the same reason the page's `startAiDetection` is not modelled beyond its watchdog.
- `captureHighQuality`, `buildCameraOptions` and `destroy` in camera.service.ts: preview configuration and capture are plugin calls with no state change beyond what `StopCamera` covers.
- `filterResolutionsByAspect`, `formatConfidence`, the overlay's `getVehicleColor` and the other display getters: string formatting and fixed-point rounding of doubles.
- The Android camera-information plugin, the legacy tab page and the presentational components, configuration and routing.
- The `catch` branches of the two frame handlers. `analyzeFrame` catches its own errors and returns the fallback result, so the handlers' own `catch` is reached only through logging and change detection, which are not modelled.
- `DetectionsTable.SortByConfidence`: states sortedness and permutation but not stability. The source's comparator sort is stable, so equal confidences keep their order there.
- `DetectionsTable.GetVehicleIcon`: for a key inherited from `Object.prototype` the source returns that member itself (a function, or the prototype object for `__proto__`); the model returns only which key it was, not the member's value.
- The overlay's `startAiDetection` is one step: frames or toggles that arrive between its `await`s are not interleaved with it.
- `DetectionsTable.RecentDetections`: gives the recent list up to permutation (a multiset equal to the last five vehicles), for the same reason.
- JavaScript numbers are idealised as exact rationals, and resolution sizes as unbounded integers.
- Discarding results that arrive after detection stops: not modelled, because the page does not do it. It checks `cameraState.isActive` only before the analysis (camera-main.page.ts:204), so a late result is still recorded; the model follows the code (`CameraMainPage.ResultAfterStopIsKept`).
- Other behaviour that holds as written and is recorded, not corrected:
  - the stored loading promise is never cleared, so after `dispose` or a failed load the model is never loaded again (`AiDetection.DisposeIsPermanent`);
  - a flip does not re-clamp the zoom to the new camera's maximum (`CameraService.FlipKeepsZoomAboveNewMaximum`).

## Findings

| source | as written | input that shows it | evidently intended | confidence | as-written member | corrected member |
|---|---|---|---|---|---|---|
| src/app/features/camera/components/ai-detection-overlay/ai-detection-overlay.component.ts:123 | The busy check returns from inside the `try`, so the `finally` lowers `isProcessing` even for a skipped frame. | Three frames arrive while the first analysis is still pending. The second frame is skipped but lowers the flag, so the third starts a second analysis: two are in flight. | At most one analysis in flight, with the flag raised exactly while it runs. This needs the busy check before the `try`, and it needs stop and start to leave the flag to the frame handler: a stop that lowers it while an analysis is pending lets a restart begin a second one. | not executed | `DetectionOverlay.SecondAnalysisStartsWhileFirstPending` | `DetectionOverlay.GuardedRunIsSingleFlight` |
| src/app/features/camera/components/ai-detection-overlay/ai-detection-overlay.component.ts:75 | `startAiDetection` raises `isProcessing` before initialising the model. Only the `catch` lowers it again. | A successful start with the camera active: the first frame that arrives is skipped, not analysed. | Start-up leaves the flag to the frame handler, so the first frame is analysed when no analysis is pending. | not executed | `DetectionOverlay.FirstFrameAfterStartIsSkipped` | `DetectionOverlay.FirstFrameAfterGuardedStartIsAnalysed` |
