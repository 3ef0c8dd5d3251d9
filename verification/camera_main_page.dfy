/** The camera page: the bounded detection history, the decaying detection counter
    shown in the header, stopping the detection loop, and the header actions. As in the
    overlay, the frame handler is split into the frame arriving and its result arriving;
    this handler has no busy flag at all. */
module CameraMainPage {
  import opened Wrappers
  import opened AiDetection
  import Window

  /** How many results the history keeps. */
  const HistoryCap: nat := 50

  datatype HeaderAction = HeaderAction(
    id: string,
    icon: string,
    actionLabel: string,
    color: Option<string>,
    disabled: Option<bool>,
    active: Option<bool>)

  /** The page state; `watchdogSet` stands for the interval handle, `streamActive` for
      the camera's continuous stream. */
  datatype PageState = PageState(
    cameraActive: bool,
    history: seq<DetectionResult>,
    aiDetections: nat,
    watchdogSet: bool,
    streamActive: bool,
    showAiTable: bool,
    headerActions: seq<HeaderAction>)

  const InitialHeaderActions: seq<HeaderAction> := [
    HeaderAction("camera-toggle", "power-outline", "Encender/Apagar cámara", Some("primary"), None, None),
    HeaderAction("flip-camera", "camera-reverse-outline", "Cambiar cámara", Some("medium"), None, None),
    HeaderAction("settings", "settings-outline", "Configuración", Some("medium"), None, None),
    HeaderAction("info", "information-circle-outline", "Información", Some("tertiary"), None, None),
    HeaderAction("stats", "analytics-outline", "Estadísticas IA", Some("success"), None, None)
  ]

  // ---------------------------------------------------------------------------
  // History and counter

  /** Appends a result that has vehicles and keeps the newest fifty; an empty result is dropped. */
  function AppendHistory(history: seq<DetectionResult>, d: DetectionResult): (r: seq<DetectionResult>)
    ensures |d.vehicles| == 0 ==> r == history
    ensures |d.vehicles| > 0 ==> r == Window.LastN(history + [d], HistoryCap)
    ensures |d.vehicles| > 0 ==> |r| <= HistoryCap && r[|r| - 1] == d
  {
    if |d.vehicles| > 0 then
      var pushed := history + [d];
      if |pushed| > HistoryCap then pushed[|pushed| - HistoryCap..] else pushed
    else history
  }

  predicate AllNonEmpty(history: seq<DetectionResult>)
  {
    forall i :: 0 <= i < |history| ==> |history[i].vehicles| > 0
  }

  /** The results that reach the history: those with at least one vehicle. */
  function NonEmptyResults(ds: seq<DetectionResult>): (r: seq<DetectionResult>)
    ensures AllNonEmpty(r)
  {
    if |ds| == 0 then []
    else NonEmptyResults(ds[..|ds| - 1]) + (if |ds[|ds| - 1].vehicles| > 0 then [ds[|ds| - 1]] else [])
  }

  function AppendAll(history: seq<DetectionResult>, ds: seq<DetectionResult>): seq<DetectionResult>
  {
    if |ds| == 0 then history else AppendHistory(AppendAll(history, ds[..|ds| - 1]), ds[|ds| - 1])
  }

  /** A suffix of a history whose results all have vehicles has the same property. */
  lemma LastNKeepsNonEmpty(history: seq<DetectionResult>, n: nat)
    requires AllNonEmpty(history)
    ensures AllNonEmpty(Window.LastN(history, n))
  {
    var r := Window.LastN(history, n);
    forall i | 0 <= i < |r|
      ensures |r[i].vehicles| > 0
    {
      assert r[i] == history[|history| - |r| + i];
    }
  }

  /** From an empty history, after any sequence of results the history is the newest
      fifty of the results that had vehicles, in arrival order. */
  lemma {:induction false} HistoryIsNewestNonEmpty(ds: seq<DetectionResult>)
    ensures AppendAll([], ds) == Window.LastN(NonEmptyResults(ds), HistoryCap)
    ensures |AppendAll([], ds)| <= HistoryCap
    ensures AllNonEmpty(AppendAll([], ds))
  {
    if |ds| > 0 {
      var init := ds[..|ds| - 1];
      var d := ds[|ds| - 1];
      HistoryIsNewestNonEmpty(init);
      if |d.vehicles| > 0 {
        Window.LastNOfAppend(NonEmptyResults(init), d, HistoryCap);
      }
    }
    LastNKeepsNonEmpty(NonEmptyResults(ds), HistoryCap);
  }

  /** The header counter: the vehicle count of a result with vehicles, otherwise one
      less than before, never below zero. */
  function NextDetectionCount(count: nat, vehicles: nat): (r: nat)
    ensures vehicles > 0 ==> r == vehicles
    ensures vehicles == 0 ==> r <= count && (r == 0 <==> count <= 1)
    ensures vehicles == 0 && count > 0 ==> r == count - 1
  {
    if vehicles > 0 then vehicles else if count > 0 then count - 1 else 0
  }

  /** `k` empty results in a row bring the counter down by `k`, stopping at zero. */
  lemma {:induction false} CounterDecaysToZero(count: nat, k: nat)
    ensures DecayTimes(count, k) == if count >= k then count - k else 0
  {
    if k > 0 {
      CounterDecaysToZero(count, k - 1);
    }
  }

  function DecayTimes(count: nat, k: nat): nat
  {
    if k == 0 then count else NextDetectionCount(DecayTimes(count, k - 1), 0)
  }

  /** Whether an arriving frame is sent to analysis: only while the camera is active. */
  function FrameStartsAnalysis(s: PageState): (r: bool)
    ensures r <==> s.cameraActive
  {
    s.cameraActive
  }

  /** A result arrives: history and counter are updated, whatever the camera state is now. */
  function OnAnalysisResult(s: PageState, d: DetectionResult): (r: PageState)
    ensures r.history == AppendHistory(s.history, d)
    ensures r.aiDetections == NextDetectionCount(s.aiDetections, |d.vehicles|)
    ensures AllNonEmpty(s.history) ==> AllNonEmpty(r.history)
    ensures |s.history| <= HistoryCap ==> |r.history| <= HistoryCap
    ensures r == s.(history := r.history, aiDetections := r.aiDetections)
  {
    s.(history := AppendHistory(s.history, d),
       aiDetections := NextDetectionCount(s.aiDetections, |d.vehicles|))
  }

  /** `stopAiDetection`: clear the interval, stop the stream, zero the counter. */
  function StopAiDetection(s: PageState): (r: PageState)
    ensures !r.watchdogSet && !r.streamActive && r.aiDetections == 0
    ensures r.history == s.history && r.cameraActive == s.cameraActive
    ensures r == s.(watchdogSet := false, streamActive := false, aiDetections := 0)
  {
    s.(watchdogSet := false, streamActive := false, aiDetections := 0)
  }

  lemma StopAiDetectionIdempotent(s: PageState)
    ensures StopAiDetection(StopAiDetection(s)) == StopAiDetection(s)
  {
  }

  /** The once-a-second watchdog: stops detection when the camera is no longer active. */
  function OnWatchdogTick(s: PageState): (r: PageState)
    ensures s.cameraActive ==> r == s
    ensures !s.cameraActive ==> r == StopAiDetection(s)
  {
    if !s.cameraActive then StopAiDetection(s) else s
  }

  /** The frame guard and the watchdog test the same condition: once frames are refused,
      the next tick stops the stream and zeroes the counter, and a tick never changes
      whether frames are accepted. */
  lemma WatchdogAgreesWithFrameGuard(s: PageState)
    ensures FrameStartsAnalysis(OnWatchdogTick(s)) == FrameStartsAnalysis(s)
    ensures !FrameStartsAnalysis(s) ==> !OnWatchdogTick(s).streamActive && OnWatchdogTick(s).aiDetections == 0
    ensures FrameStartsAnalysis(s) ==> OnWatchdogTick(s) == s
  {
  }

  /** A frame analysed while the camera was active whose result arrives after the
      camera and the detection loop were stopped is still added to the history. */
  lemma ResultAfterStopIsKept(s: PageState, d: DetectionResult)
    requires FrameStartsAnalysis(s)
    requires |d.vehicles| > 0
    ensures OnAnalysisResult(StopAiDetection(s.(cameraActive := false)), d).history
            == Window.LastN(s.history + [d], HistoryCap)
  {
  }

  // ---------------------------------------------------------------------------
  // Header actions

  /** Brings one header action in line with the camera state. */
  function RefreshAction(a: HeaderAction, isActive: bool): HeaderAction
  {
    if a.id == "camera-toggle" then
      a.(icon := if isActive then "stop-circle-outline" else "camera-outline",
         color := Some(if isActive then "danger" else "primary"),
         active := Some(isActive))
    else if a.id == "flip-camera" || a.id == "capture" then
      a.(disabled := Some(!isActive))
    else a
  }

  function UpdateHeaderActions(actions: seq<HeaderAction>, isActive: bool): (r: seq<HeaderAction>)
    ensures |r| == |actions|
    ensures forall i :: 0 <= i < |r| ==> r[i].id == actions[i].id && r[i].actionLabel == actions[i].actionLabel
    ensures forall i :: 0 <= i < |r| && actions[i].id == "camera-toggle" ==>
      && r[i].icon == (if isActive then "stop-circle-outline" else "camera-outline")
      && r[i].color == Some(if isActive then "danger" else "primary")
      && r[i].active == Some(isActive)
      && r[i].disabled == actions[i].disabled
    ensures forall i :: 0 <= i < |r| && (actions[i].id == "flip-camera" || actions[i].id == "capture") ==>
      r[i] == actions[i].(disabled := Some(!isActive))
    ensures forall i :: 0 <= i < |r| && !(actions[i].id in {"camera-toggle", "flip-camera", "capture"}) ==>
      r[i] == actions[i]
  {
    seq(|actions|, i requires 0 <= i < |actions| => RefreshAction(actions[i], isActive))
  }

  /** Refreshing the page's initial header: the toggle shows the stop or camera icon and
      its colour, flip is disabled exactly when inactive, and the other three actions keep
      their initial form. */
  lemma InitialHeaderActionsRefresh(isActive: bool)
    ensures var r := UpdateHeaderActions(InitialHeaderActions, isActive);
      && |r| == 5
      && r[0] == InitialHeaderActions[0].(icon := if isActive then "stop-circle-outline" else "camera-outline",
                                          color := Some(if isActive then "danger" else "primary"),
                                          active := Some(isActive))
      && r[1] == InitialHeaderActions[1].(disabled := Some(!isActive))
      && r[2..] == InitialHeaderActions[2..]
  {
    var r := UpdateHeaderActions(InitialHeaderActions, isActive);
    assert r[2] == InitialHeaderActions[2] && r[3] == InitialHeaderActions[3] && r[4] == InitialHeaderActions[4];
  }

  /** Only the latest camera state matters: refreshing twice equals refreshing once with
      the second state, so refreshing is idempotent. */
  lemma UpdateHeaderActionsLastWins(actions: seq<HeaderAction>, s1: bool, s2: bool)
    ensures UpdateHeaderActions(UpdateHeaderActions(actions, s1), s2) == UpdateHeaderActions(actions, s2)
  {
    var lhs := UpdateHeaderActions(UpdateHeaderActions(actions, s1), s2);
    var rhs := UpdateHeaderActions(actions, s2);
    assert forall i :: 0 <= i < |lhs| ==> lhs[i] == rhs[i];
  }

  /** What a header action asks of the camera service. */
  datatype PageCommand = NoCommand | StartCamera | StopCamera | FlipCamera | OpenCameraInfo

  /** `onHeaderAction`: camera commands, the info modal, and the statistics-table toggle. */
  function OnHeaderAction(s: PageState, actionId: string): (r: (PageState, PageCommand))
    ensures actionId == "stats" ==> r.0 == s.(showAiTable := !s.showAiTable) && r.1 == NoCommand
    ensures actionId != "stats" ==> r.0 == s
    ensures r.1 == FlipCamera <==> actionId == "flip-camera" && s.cameraActive
    ensures r.1 == StartCamera <==> actionId == "camera-toggle" && !s.cameraActive
    ensures r.1 == StopCamera <==> actionId == "camera-toggle" && s.cameraActive
    ensures r.1 == OpenCameraInfo <==> actionId == "info"
  {
    if actionId == "camera-toggle" then (s, if s.cameraActive then StopCamera else StartCamera)
    else if actionId == "flip-camera" then (s, if s.cameraActive then FlipCamera else NoCommand)
    else if actionId == "settings" then (s, NoCommand)
    else if actionId == "info" then (s, OpenCameraInfo)
    else if actionId == "stats" then (s.(showAiTable := !s.showAiTable), NoCommand)
    else (s, NoCommand)
  }

  /** Pressing 'stats' twice restores the table visibility. */
  lemma StatsToggleTwiceRestores(s: PageState)
    ensures OnHeaderAction(OnHeaderAction(s, "stats").0, "stats").0 == s
  {
  }
}
