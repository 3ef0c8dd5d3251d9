/** The camera records shared by the camera services. */
module CameraModel {
  import opened Wrappers

  /** A picture size in pixels. */
  datatype Resolution = Resolution(width: int, height: int, aspectRatio: Option<string>)

  /** The application's name for a camera: the rear or the front one. */
  datatype CameraPosition = Rear | Front

  /** A camera as the native plugin lists it; `facing` is "back" or "front". */
  datatype CameraDevice = CameraDevice(id: string, facing: string)

  /** Camera details reported by the native plugin. */
  datatype CameraInfo = CameraInfo(id: string, facing: string, supportedResolutions: seq<Resolution>, maxZoom: Option<real>)

  datatype CameraState = CameraState(
    isActive: bool,
    currentCamera: CameraPosition,
    currentResolution: Option<Resolution>,
    supportedResolutions: seq<Resolution>,
    zoomLevel: real,
    maxZoom: real)

  function Area(r: Resolution): int
  {
    r.width * r.height
  }
}
