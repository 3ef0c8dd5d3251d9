/** The camera service: the camera state machine (start, stop, flip), zoom clamping
    and zoom support. Every native call is an input: the permission answer, whether the
    preview plugin starts, stops and flips, and the camera-information plugin's replies. */
module CameraService {
  import opened Wrappers
  import opened CameraModel
  import opened CameraInfoService

  /** The outcomes of the native calls the service makes. `capabilitiesFail` stands for
      an error swallowed inside `initializeCameraCapabilities`. */
  datatype Device = Device(
    permissionGranted: bool,
    resolutionsPlugin: string -> PluginReply<Option<seq<Resolution>>>,
    infoPlugin: string -> PluginReply<CameraInfo>,
    capabilitiesFail: bool,
    previewStarts: bool,
    previewStops: bool,
    previewFlips: bool)

  const InitialCameraState := CameraState(false, Rear, None, [], 1.0, 1.0)

  /** The service starts with an inactive rear camera, nothing loaded, zoom 1 and no
      zoom support. */
  lemma InitialCameraStateIsIdle()
    ensures !InitialCameraState.isActive && InitialCameraState.currentCamera == Rear
    ensures InitialCameraState.currentResolution.None? && |InitialCameraState.supportedResolutions| == 0
    ensures InitialCameraState.zoomLevel == 1.0 && !IsZoomSupported(InitialCameraState)
    ensures !SetZoom(InitialCameraState, 2.0).0
  {
  }

  /** `cameraInfo?.maxZoom || 1`: the reported maximum zoom, or 1 when there is no
      information, no value, or the value 0. */
  function ReportedMaxZoom(info: Option<CameraInfo>): (r: real)
    ensures info.None? || info.value.maxZoom.None? || info.value.maxZoom.value == 0.0 ==> r == 1.0
    ensures r > 1.0 <==> info.Some? && info.value.maxZoom.Some? && info.value.maxZoom.value > 1.0
    ensures info.Some? && info.value.maxZoom.Some? && info.value.maxZoom.value != 0.0 ==>
      r == info.value.maxZoom.value
  {
    if info.Some? && info.value.maxZoom.Some? && info.value.maxZoom.value != 0.0
    then info.value.maxZoom.value else 1.0
  }

  /** Loads resolutions and camera information for `camera` into the state. */
  function InitializeCameraCapabilities(s: CameraState, camera: CameraPosition, dev: Device): (r: CameraState)
    ensures dev.capabilitiesFail ==> r == s
    ensures !dev.capabilitiesFail ==>
      && r.currentCamera == camera
      && r.supportedResolutions == GetSupportedResolutions(camera, dev.resolutionsPlugin)
      && r.currentResolution == GetMaxResolution(r.supportedResolutions)
      && r.maxZoom == ReportedMaxZoom(GetCameraInfo(camera, dev.infoPlugin))
    ensures r.isActive == s.isActive && r.zoomLevel == s.zoomLevel
  {
    if dev.capabilitiesFail then s
    else
      var resolutions := GetSupportedResolutions(camera, dev.resolutionsPlugin);
      s.(currentCamera := camera,
         supportedResolutions := resolutions,
         currentResolution := GetMaxResolution(resolutions),
         maxZoom := ReportedMaxZoom(GetCameraInfo(camera, dev.infoPlugin)))
  }

  /** `startCamera`; the result pairs the returned flag with the new state. Permission is
      asked first, so an already active camera is reported as not started when it is denied. */
  function StartCamera(s: CameraState, dev: Device): (r: (bool, CameraState))
    ensures !dev.permissionGranted ==> r == (false, s)
    ensures dev.permissionGranted && s.isActive ==> r == (true, s)
    ensures dev.permissionGranted ==> (r.0 <==> r.1.isActive)
    ensures r.0 <==> dev.permissionGranted && (s.isActive || dev.previewStarts)
    ensures r.1.zoomLevel == s.zoomLevel
    ensures dev.permissionGranted && !s.isActive ==>
      r.1 == (if |s.supportedResolutions| == 0
              then InitializeCameraCapabilities(s, s.currentCamera, dev) else s).(isActive := r.0)
  {
    if !dev.permissionGranted then (false, s)
    else if s.isActive then (true, s)
    else
      var prepared := if |s.supportedResolutions| == 0
                      then InitializeCameraCapabilities(s, s.currentCamera, dev) else s;
      if dev.previewStarts then (true, prepared.(isActive := true))
      else (false, prepared)
  }

  /** `stopCamera`: an active camera whose preview stops becomes inactive at zoom 1;
      anything else leaves the state alone. */
  function StopCamera(s: CameraState, dev: Device): (r: CameraState)
    ensures s.isActive && dev.previewStops ==> r == s.(isActive := false, zoomLevel := 1.0)
    ensures !s.isActive || !dev.previewStops ==> r == s
  {
    if s.isActive && dev.previewStops then s.(isActive := false, zoomLevel := 1.0) else s
  }

  function Other(c: CameraPosition): CameraPosition
  {
    if c == Rear then Front else Rear
  }

  /** `flipCamera`: on an active camera whose preview flips, switch to the other camera
      and reload its capabilities. */
  function FlipCamera(s: CameraState, dev: Device): (r: (bool, CameraState))
    ensures !s.isActive || !dev.previewFlips ==> r == (false, s)
    ensures s.isActive && dev.previewFlips ==>
      r == (true, InitializeCameraCapabilities(s, Other(s.currentCamera), dev))
    ensures r.1.isActive == s.isActive && r.1.zoomLevel == s.zoomLevel
  {
    if !s.isActive || !dev.previewFlips then (false, s)
    else (true, InitializeCameraCapabilities(s, Other(s.currentCamera), dev))
  }

  /** Flipping twice returns to the camera started from. */
  lemma FlipTwiceRestoresCamera(s: CameraState, dev: Device)
    requires s.isActive && dev.previewFlips && !dev.capabilitiesFail
    ensures FlipCamera(s, dev).0 && FlipCamera(FlipCamera(s, dev).1, dev).0
    ensures FlipCamera(FlipCamera(s, dev).1, dev).1.currentCamera == s.currentCamera
    ensures FlipCamera(s, dev).1.currentCamera != s.currentCamera
  {
  }

  /** When the capability reload swallows an error, the flip still reports success
      but the state keeps naming the old camera. */
  lemma FlipWithSwallowedErrorKeepsState(s: CameraState, dev: Device)
    requires s.isActive && dev.previewFlips && dev.capabilitiesFail
    ensures FlipCamera(s, dev) == (true, s)
  {
  }

  /** Zoom is supported exactly when the loaded maximum exceeds 1. */
  function IsZoomSupported(s: CameraState): (r: bool)
    ensures r <==> s.maxZoom > 1.0
  {
    s.maxZoom > 1.0
  }

  function Clamp(z: real, maxZoom: real): real
  {
    var upper := if z < maxZoom then z else maxZoom;
    if 1.0 > upper then 1.0 else upper
  }

  /** `setZoom`: refused when inactive or without zoom support; otherwise the level is
      clamped into [1, maxZoom]. */
  function SetZoom(s: CameraState, z: real): (r: (bool, CameraState))
    ensures r.0 <==> s.isActive && IsZoomSupported(s)
    ensures !r.0 ==> r.1 == s
    ensures r.0 ==> r.1 == s.(zoomLevel := r.1.zoomLevel)
    ensures r.0 ==> 1.0 <= r.1.zoomLevel <= s.maxZoom
    ensures r.0 && 1.0 <= z <= s.maxZoom ==> r.1.zoomLevel == z
    ensures r.0 && z > s.maxZoom ==> r.1.zoomLevel == s.maxZoom
    ensures r.0 && z < 1.0 ==> r.1.zoomLevel == 1.0
  {
    if !s.isActive then (false, s)
    else if !IsZoomSupported(s) then (false, s)
    else (true, s.(zoomLevel := Clamp(z, s.maxZoom)))
  }

  /** Setting the same zoom twice changes nothing the second time. */
  lemma SetZoomIdempotent(s: CameraState, z: real)
    ensures SetZoom(SetZoom(s, z).1, z) == SetZoom(s, z)
  {
  }

  datatype ZoomKind = Digital | Optical | NoZoom

  datatype ZoomPermission = ZoomPermission(hasPermission: bool, kind: ZoomKind)

  /** `checkZoomPermissions`: digital zoom when the current camera reports a maximum
      zoom above 1, otherwise none. */
  function CheckZoomPermissions(s: CameraState, dev: Device): (r: ZoomPermission)
    ensures r.hasPermission <==> r.kind == Digital
    ensures !r.hasPermission ==> r.kind == NoZoom
    ensures r.hasPermission <==>
      var info := GetCameraInfo(s.currentCamera, dev.infoPlugin);
      info.Some? && info.value.maxZoom.Some? && info.value.maxZoom.value > 1.0
  {
    var info := GetCameraInfo(s.currentCamera, dev.infoPlugin);
    if info.None? || info.value.maxZoom.None? || info.value.maxZoom.value == 0.0
       || info.value.maxZoom.value <= 1.0
    then ZoomPermission(false, NoZoom)
    else ZoomPermission(true, Digital)
  }

  /** Right after the capabilities of a camera are loaded, the zoom-support test and the
      zoom-permission check agree. */
  lemma ZoomSupportAgreesWithPermission(s: CameraState, camera: CameraPosition, dev: Device)
    requires !dev.capabilitiesFail
    ensures var loaded := InitializeCameraCapabilities(s, camera, dev);
      IsZoomSupported(loaded) <==> CheckZoomPermissions(loaded, dev).hasPermission
  {
  }

  /** One request to the service; each native call carries its own device answers. */
  datatype CameraOp = Start(dev: Device) | Stop(dev: Device) | Flip(dev: Device) | Zoom(level: real)

  function CameraStep(s: CameraState, op: CameraOp): CameraState
  {
    match op
    case Start(dev) => StartCamera(s, dev).1
    case Stop(dev) => StopCamera(s, dev)
    case Flip(dev) => FlipCamera(s, dev).1
    case Zoom(z) => SetZoom(s, z).1
  }

  function RunCamera(s: CameraState, ops: seq<CameraOp>): CameraState
    decreases |ops|
  {
    if |ops| == 0 then s else RunCamera(CameraStep(s, ops[0]), ops[1..])
  }

  /** Whatever the device answers on each call, no sequence of starts, stops, flips and
      zoom requests takes the zoom level below 1 once it is at least 1, as it is initially. */
  lemma {:induction false} ZoomNeverBelowOne(s: CameraState, ops: seq<CameraOp>)
    requires s.zoomLevel >= 1.0
    ensures RunCamera(s, ops).zoomLevel >= 1.0
    decreases |ops|
  {
    if |ops| > 0 {
      ZoomNeverBelowOne(CameraStep(s, ops[0]), ops[1..]);
    }
  }

  /** A flip keeps the zoom level even when the new camera's maximum is lower. */
  lemma FlipKeepsZoomAboveNewMaximum(s: CameraState, dev: Device)
    requires s.isActive && dev.previewFlips && !dev.capabilitiesFail
    requires s.zoomLevel > ReportedMaxZoom(GetCameraInfo(Other(s.currentCamera), dev.infoPlugin))
    ensures FlipCamera(s, dev).1.zoomLevel > FlipCamera(s, dev).1.maxZoom
  {
  }
}
