/** The per-frame overlay controller. The asynchronous frame handler is split into two
    events: a frame arriving (the synchronous part up to the `await` of the analysis)
    and that analysis completing. `inFlight` counts analyses begun and not yet completed. */
module DetectionOverlay {
  import opened Wrappers
  import opened AiDetection
  import Window

  /** How many processing times the running average covers. */
  const TimesWindow: nat := 10

  datatype OverlayStats = OverlayStats(
    totalFramesProcessed: nat,
    vehiclesDetected: nat,
    averageProcessingTime: real,
    lastProcessingTime: real)

  const ZeroStats := OverlayStats(0, 0, 0.0, 0.0)

  /** Component state; `streamRunning` stands for a non-null stream controller. */
  datatype Overlay = Overlay(
    aiEnabled: bool,
    isAiInitialized: bool,
    isProcessing: bool,
    currentDetection: Option<DetectionResult>,
    stats: OverlayStats,
    processingTimes: seq<real>,
    streamRunning: bool,
    inFlight: nat)

  const InitialOverlay := Overlay(false, false, false, None, ZeroStats, [], false, 0)

  // ---------------------------------------------------------------------------
  // Statistics

  /** `push` one time and `shift` the oldest out when there are more than ten. */
  function PushTime(times: seq<real>, t: real): (r: seq<real>)
    ensures |times| <= TimesWindow ==> r == Window.LastN(times + [t], TimesWindow)
    ensures |r| > 0 && r[|r| - 1] == t
  {
    var pushed := times + [t];
    if |pushed| > TimesWindow then pushed[1..] else pushed
  }

  /** The window after pushing every time of `ts` in order. */
  function PushAll(times: seq<real>, ts: seq<real>): seq<real>
  {
    if |ts| == 0 then times else PushTime(PushAll(times, ts[..|ts| - 1]), ts[|ts| - 1])
  }

  /** Starting from an empty window, the window always holds the last ten times pushed,
      oldest first. */
  lemma {:induction false} PushAllKeepsLastTen(ts: seq<real>)
    ensures PushAll([], ts) == Window.LastN(ts, TimesWindow)
    ensures |PushAll([], ts)| <= TimesWindow
  {
    if |ts| > 0 {
      var init := ts[..|ts| - 1];
      var last := ts[|ts| - 1];
      assert PushAll([], ts) == PushTime(PushAll([], init), last);
      PushAllKeepsLastTen(init);
      Window.LastNOfAppend(init, last, TimesWindow);
      assert init + [last] == ts;
    }
  }

  /** `updateStats`: one more frame, its vehicles, its time and the new running mean. */
  function RecordDetection(o: Overlay, d: DetectionResult): (r: Overlay)
    ensures r.stats.totalFramesProcessed == o.stats.totalFramesProcessed + 1
    ensures r.stats.vehiclesDetected == o.stats.vehiclesDetected + |d.vehicles|
    ensures r.stats.lastProcessingTime == d.processingTime
    ensures |o.processingTimes| <= TimesWindow ==>
      r.processingTimes == Window.LastN(o.processingTimes + [d.processingTime], TimesWindow)
    ensures r.stats.averageProcessingTime == Window.Mean(r.processingTimes)
    ensures r == o.(stats := r.stats, processingTimes := r.processingTimes)
  {
    var times := PushTime(o.processingTimes, d.processingTime);
    o.(stats := OverlayStats(
         o.stats.totalFramesProcessed + 1,
         o.stats.vehiclesDetected + |d.vehicles|,
         Window.Mean(times),
         d.processingTime),
       processingTimes := times)
  }

  function ResetStats(o: Overlay): (r: Overlay)
    ensures r.stats == OverlayStats(0, 0, 0.0, 0.0) && r.processingTimes == []
    ensures r == o.(stats := r.stats, processingTimes := r.processingTimes)
  {
    o.(stats := ZeroStats, processingTimes := [])
  }

  /** After a reset the first recorded detection alone makes up the statistics: one frame,
      its vehicles, and its time as both the last and the average time. */
  lemma FirstRecordAfterReset(o: Overlay, d: DetectionResult)
    ensures var r := RecordDetection(ResetStats(o), d);
      r.stats == OverlayStats(1, |d.vehicles|, d.processingTime, d.processingTime)
      && r.processingTimes == [d.processingTime]
  {
    assert Window.Sum([d.processingTime]) == d.processingTime;
  }

  // ---------------------------------------------------------------------------
  // Frame handling as written

  /** What the handler does with an arriving frame. */
  datatype FrameFate = Ignored | Skipped | Analysing

  /** A frame arrives. Disabled or uninitialised: return before the `try`, nothing
      changes. Busy: the early `return` inside the `try` still runs the `finally`,
      which lowers `isProcessing`. Otherwise an analysis begins. */
  function OnFrame(o: Overlay): (r: (Overlay, FrameFate))
    ensures r.1 == Ignored <==> !o.aiEnabled || !o.isAiInitialized
    ensures r.1 == Analysing <==> o.aiEnabled && o.isAiInitialized && !o.isProcessing
    ensures r.1 == Ignored ==> r.0 == o
    ensures r.1 != Analysing ==> r.0.inFlight == o.inFlight
    ensures r.1 == Skipped ==> r.0 == o.(isProcessing := false)
    ensures r.1 == Analysing ==> r.0 == o.(isProcessing := true, inFlight := o.inFlight + 1)
  {
    if !o.aiEnabled || !o.isAiInitialized then (o, Ignored)
    else if o.isProcessing then (o.(isProcessing := false), Skipped)
    else (o.(isProcessing := true, inFlight := o.inFlight + 1), Analysing)
  }

  /** A frame that arrives while the flag is raised is not analysed. */
  lemma BusyFrameIsNotAnalysed(o: Overlay)
    requires o.isProcessing
    ensures OnFrame(o).1 != Analysing
    ensures OnFrame(o).0.inFlight == o.inFlight
  {
  }

  /** An analysis completes with result `d`. Only a result with vehicles replaces the
      current detection and feeds the statistics; the `finally` lowers the flag. */
  function OnAnalysisDone(o: Overlay, d: DetectionResult): (r: Overlay)
    requires o.inFlight > 0
    ensures !r.isProcessing && r.inFlight == o.inFlight - 1
    ensures |d.vehicles| == 0 ==> r == o.(isProcessing := false, inFlight := o.inFlight - 1)
    ensures |d.vehicles| > 0 ==>
      && r.currentDetection == Some(d)
      && r.stats.totalFramesProcessed == o.stats.totalFramesProcessed + 1
      && r.stats.vehiclesDetected == o.stats.vehiclesDetected + |d.vehicles|
      && r.stats.lastProcessingTime == d.processingTime
    ensures |d.vehicles| > 0 ==>
      r == RecordDetection(o.(currentDetection := Some(d)), d).(isProcessing := false, inFlight := o.inFlight - 1)
    ensures r.aiEnabled == o.aiEnabled && r.isAiInitialized == o.isAiInitialized
    ensures r.streamRunning == o.streamRunning
  {
    var updated := if |d.vehicles| > 0 then RecordDetection(o.(currentDetection := Some(d)), d) else o;
    updated.(isProcessing := false, inFlight := o.inFlight - 1)
  }

  /** Whichever way the handler exits (skipped, or analysed with or without vehicles),
      the flag is down afterwards. */
  lemma FlagDownAfterEveryExit(o: Overlay, d: DetectionResult)
    requires o.aiEnabled && o.isAiInitialized
    ensures !OnFrame(o).0.isProcessing || OnFrame(o).1 == Analysing
    ensures OnFrame(o).1 == Analysing ==> !OnAnalysisDone(OnFrame(o).0, d).isProcessing
  {
  }

  /** `stopAiDetection`: stop the stream, drop the current detection, lower the flag. */
  function StopAiDetection(o: Overlay): (r: Overlay)
    ensures !r.streamRunning && r.currentDetection.None? && !r.isProcessing
    ensures r == o.(streamRunning := false, currentDetection := None, isProcessing := false)
  {
    o.(streamRunning := false, currentDetection := None, isProcessing := false)
  }

  lemma StopAiDetectionIdempotent(o: Overlay)
    ensures StopAiDetection(StopAiDetection(o)) == StopAiDetection(o)
  {
  }

  /** `startAiDetection`, with the camera state and the outcomes of model initialisation
      and of starting the stream as inputs. The flag is raised before initialising and
      lowered only by the `catch`. */
  function StartAiDetection(o: Overlay, cameraActive: bool, initOk: bool, streamOk: bool): (r: Overlay)
    ensures !cameraActive || !initOk ==> r == o.(isProcessing := false)
    ensures cameraActive && initOk && !streamOk ==> r == o.(isAiInitialized := true, isProcessing := false)
    ensures cameraActive && initOk && streamOk ==>
      && r.isAiInitialized && r.isProcessing && r.streamRunning
      && r.stats == ZeroStats && r.processingTimes == []
    ensures cameraActive && initOk && streamOk ==>
      r == ResetStats(o.(isAiInitialized := true, isProcessing := true, streamRunning := true))
    ensures r.currentDetection == o.currentDetection
    ensures r.aiEnabled == o.aiEnabled && r.inFlight == o.inFlight
  {
    if !cameraActive then o.(isProcessing := false)
    else if !initOk then o.(isProcessing := false)
    else if !streamOk then o.(isAiInitialized := true, isProcessing := false)
    else ResetStats(o.(isAiInitialized := true, isProcessing := true, streamRunning := true))
  }

  /** `toggleAI`: stop and disable, or enable and start. */
  function ToggleAI(o: Overlay, cameraActive: bool, initOk: bool, streamOk: bool): (r: Overlay)
    ensures r.aiEnabled == !o.aiEnabled
    ensures o.aiEnabled ==> !r.streamRunning && r.currentDetection.None? && !r.isProcessing
    ensures o.aiEnabled ==> r == StopAiDetection(o).(aiEnabled := false)
    ensures !o.aiEnabled ==> r == StartAiDetection(o.(aiEnabled := true), cameraActive, initOk, streamOk)
  {
    if o.aiEnabled then StopAiDetection(o).(aiEnabled := false)
    else StartAiDetection(o.(aiEnabled := true), cameraActive, initOk, streamOk)
  }

  /** Once toggled off, every frame is ignored. */
  lemma ToggledOffIgnoresFrames(o: Overlay, cameraActive: bool, initOk: bool, streamOk: bool)
    requires o.aiEnabled
    ensures OnFrame(ToggleAI(o, cameraActive, initOk, streamOk)).1 == Ignored
  {
  }

  /** The events the component sees: a frame, the completion of a pending analysis, and
      a press of the toggle with the outcomes of the calls a start makes. */
  datatype OverlayEvent =
    | FrameArrives
    | AnalysisCompletes(result: DetectionResult)
    | TogglePressed(cameraActive: bool, initOk: bool, streamOk: bool)

  /** One event of the as-written component; a completion with nothing in flight cannot occur. */
  function Step(o: Overlay, e: OverlayEvent): Overlay
  {
    match e
    case FrameArrives => OnFrame(o).0
    case AnalysisCompletes(d) => if o.inFlight > 0 then OnAnalysisDone(o, d) else o
    case TogglePressed(c, i, st) => ToggleAI(o, c, i, st)
  }

  function Run(o: Overlay, evs: seq<OverlayEvent>): Overlay
    decreases |evs|
  {
    if |evs| == 0 then o else Run(Step(o, evs[0]), evs[1..])
  }

  /** Three frames in a row while the first analysis is pending: the second is skipped
      but lowers the flag, so the third starts a second concurrent analysis. */
  lemma SecondAnalysisStartsWhileFirstPending(o: Overlay)
    requires o.aiEnabled && o.isAiInitialized && !o.isProcessing && o.inFlight == 0
    ensures Run(o, [FrameArrives, FrameArrives, FrameArrives]).inFlight == 2
  {
    var evs := [FrameArrives, FrameArrives, FrameArrives];
    var o1 := Step(o, FrameArrives);
    var o2 := Step(o1, FrameArrives);
    var o3 := Step(o2, FrameArrives);
    assert o1.inFlight == 1 && o1.isProcessing;
    assert o2.inFlight == 1 && !o2.isProcessing;
    assert o3.inFlight == 2;
    assert evs[1..] == [FrameArrives, FrameArrives];
    assert evs[1..][1..] == [FrameArrives];
    assert Run(o, evs) == Run(o1, [FrameArrives, FrameArrives]);
    assert Run(o1, [FrameArrives, FrameArrives]) == Run(o2, [FrameArrives]);
    assert Run(o2, [FrameArrives]) == Run(o3, []);
  }

  /** After a successful start the flag is still raised, so the first frame is skipped. */
  lemma FirstFrameAfterStartIsSkipped(o: Overlay)
    requires o.aiEnabled
    ensures OnFrame(StartAiDetection(o, true, true, true)).1 == Skipped
  {
  }

  // ---------------------------------------------------------------------------
  // Frame handling with the busy flag owned by the frame handler

  /** The handler with the busy check before the `try`: a busy frame changes nothing. */
  function OnFrameGuarded(o: Overlay): (r: (Overlay, FrameFate))
    ensures r.1 == Analysing <==> o.aiEnabled && o.isAiInitialized && !o.isProcessing
    ensures r.1 != Analysing ==> r.0 == o
    ensures r.1 == Analysing ==> r.0 == o.(isProcessing := true, inFlight := o.inFlight + 1)
  {
    if !o.aiEnabled || !o.isAiInitialized then (o, Ignored)
    else if o.isProcessing then (o, Skipped)
    else (o.(isProcessing := true, inFlight := o.inFlight + 1), Analysing)
  }

  /** `stopAiDetection` without touching the flag: an analysis still pending lowers it
      itself when it completes. */
  function StopAiDetectionGuarded(o: Overlay): (r: Overlay)
    ensures !r.streamRunning && r.currentDetection.None?
    ensures r.isProcessing == o.isProcessing && r.inFlight == o.inFlight
    ensures r == StopAiDetection(o).(isProcessing := o.isProcessing)
  {
    StopAiDetection(o).(isProcessing := o.isProcessing)
  }

  /** `startAiDetection` without touching the flag, so it neither blocks the first frame
      nor releases a pending analysis's hold on it. */
  function StartAiDetectionGuarded(o: Overlay, cameraActive: bool, initOk: bool, streamOk: bool): (r: Overlay)
    ensures r.isProcessing == o.isProcessing && r.inFlight == o.inFlight
    ensures r == StartAiDetection(o, cameraActive, initOk, streamOk).(isProcessing := o.isProcessing)
  {
    StartAiDetection(o, cameraActive, initOk, streamOk).(isProcessing := o.isProcessing)
  }

  /** `toggleAI` built from the guarded stop and start. */
  function ToggleAIGuarded(o: Overlay, cameraActive: bool, initOk: bool, streamOk: bool): (r: Overlay)
    ensures r.aiEnabled == !o.aiEnabled
    ensures r.isProcessing == o.isProcessing && r.inFlight == o.inFlight
    ensures o.aiEnabled ==> r == StopAiDetectionGuarded(o).(aiEnabled := false)
    ensures !o.aiEnabled ==> r == StartAiDetectionGuarded(o.(aiEnabled := true), cameraActive, initOk, streamOk)
  {
    if o.aiEnabled then StopAiDetectionGuarded(o).(aiEnabled := false)
    else StartAiDetectionGuarded(o.(aiEnabled := true), cameraActive, initOk, streamOk)
  }

  /** The flag is raised exactly while one analysis is in flight. */
  predicate SingleFlight(o: Overlay)
  {
    o.inFlight == (if o.isProcessing then 1 else 0)
  }

  /** With the guarded start, the first frame is analysed when no analysis is pending and
      skipped, changing nothing, while one is. */
  lemma FirstFrameAfterGuardedStartIsAnalysed(o: Overlay)
    requires o.aiEnabled && SingleFlight(o)
    ensures var started := StartAiDetectionGuarded(o, true, true, true);
      OnFrameGuarded(started).1 == (if o.inFlight == 0 then Analysing else Skipped)
  {
  }

  function StepGuarded(o: Overlay, e: OverlayEvent): Overlay
  {
    match e
    case FrameArrives => OnFrameGuarded(o).0
    case AnalysisCompletes(d) => if o.inFlight > 0 then OnAnalysisDone(o, d) else o
    case TogglePressed(c, i, st) => ToggleAIGuarded(o, c, i, st)
  }

  function RunGuarded(o: Overlay, evs: seq<OverlayEvent>): Overlay
    decreases |evs|
  {
    if |evs| == 0 then o else RunGuarded(StepGuarded(o, evs[0]), evs[1..])
  }

  /** With the guarded handler, stop and start, any sequence of frame arrivals,
      completions and toggles keeps at most one analysis in flight. */
  lemma {:induction false} GuardedRunIsSingleFlight(o: Overlay, evs: seq<OverlayEvent>)
    requires SingleFlight(o)
    ensures SingleFlight(RunGuarded(o, evs))
    ensures RunGuarded(o, evs).inFlight <= 1
    decreases |evs|
  {
    if |evs| > 0 {
      GuardedRunIsSingleFlight(StepGuarded(o, evs[0]), evs[1..]);
    }
  }

  /** The component starts with the flag down and nothing in flight, so from its real
      starting state every guarded trace keeps at most one analysis in flight. */
  lemma InitialOverlayRunIsSingleFlight(evs: seq<OverlayEvent>)
    ensures SingleFlight(RunGuarded(InitialOverlay, evs))
    ensures RunGuarded(InitialOverlay, evs).inFlight <= 1
  {
    GuardedRunIsSingleFlight(InitialOverlay, evs);
  }
}
