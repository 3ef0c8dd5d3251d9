/** The camera-information service: requests to the native plugin, their fallbacks
    when the plugin throws, and the choice of the largest resolution. A plugin request
    is an input function from the camera name sent to the reply received. */
module CameraInfoService {
  import opened Wrappers
  import opened CameraModel

  /** A plugin call either replies or throws. */
  datatype PluginReply<T> = Replied(value: T) | Threw

  /** The resolutions assumed when the plugin fails: 1080p, 720p and 480p. */
  const FallbackResolutions: seq<Resolution> := [
    Resolution(1920, 1080, None),
    Resolution(1280, 720, None),
    Resolution(854, 480, None)
  ]

  /** The cameras assumed when the plugin fails: "0" at the back and "1" at the front. */
  const FallbackCameras: seq<CameraDevice> := [CameraDevice("0", "back"), CameraDevice("1", "front")]

  /** The plugin calls the rear camera "back". */
  function PluginCameraName(c: CameraPosition): (r: string)
    ensures c == Rear <==> r == "back"
    ensures c == Front <==> r == "front"
  {
    match c
    case Rear => assert |"back"| != |"front"|; "back"
    case Front => assert |"back"| != |"front"|; "front"
  }

  function GetCameraInfo(c: CameraPosition, plugin: string -> PluginReply<CameraInfo>): (r: Option<CameraInfo>)
    ensures r.None? <==> plugin(PluginCameraName(c)).Threw?
    ensures r.Some? ==> plugin(PluginCameraName(c)) == Replied(r.value)
  {
    match plugin(PluginCameraName(c))
    case Replied(info) => Some(info)
    case Threw => None
  }

  /** The reply's resolutions, [] when the field is missing, the fallback when the call throws. */
  function GetSupportedResolutions(c: CameraPosition, plugin: string -> PluginReply<Option<seq<Resolution>>>): (r: seq<Resolution>)
    ensures plugin(PluginCameraName(c)).Threw? ==> r == FallbackResolutions
    ensures plugin(PluginCameraName(c)) == Replied(None) ==> r == []
    ensures forall rs :: plugin(PluginCameraName(c)) == Replied(Some(rs)) ==> r == rs
  {
    match plugin(PluginCameraName(c))
    case Replied(resolutions) => resolutions.GetOr([])
    case Threw => FallbackResolutions
  }

  function GetAvailableCameras(reply: PluginReply<Option<seq<CameraDevice>>>): (r: seq<CameraDevice>)
    ensures reply.Threw? ==> r == FallbackCameras
    ensures reply == Replied(None) ==> r == []
    ensures reply.Replied? && reply.value.Some? ==> r == reply.value.value
  {
    match reply
    case Replied(cameras) => cameras.GetOr([])
    case Threw => FallbackCameras
  }

  /** `best` is the first of `rs` with the largest area. */
  predicate IsFirstLargest(rs: seq<Resolution>, best: Resolution)
  {
    exists i :: 0 <= i < |rs| && rs[i] == best
      && (forall j :: 0 <= j < |rs| ==> Area(rs[j]) <= Area(best))
      && (forall j :: 0 <= j < i ==> Area(rs[j]) < Area(best))
  }

  /** The `reduce` step: a later resolution replaces the best only when strictly larger. */
  function LargestFrom(best: Resolution, rest: seq<Resolution>): Resolution
    decreases |rest|
  {
    if |rest| == 0 then best
    else LargestFrom(if Area(rest[0]) > Area(best) then rest[0] else best, rest[1..])
  }

  /** Carrying the index of the best element seen so far through the `reduce`. */
  lemma {:induction false} LargestFromIsFirstLargest(rs: seq<Resolution>, k: nat, bi: nat)
    requires bi < k <= |rs|
    requires forall j :: 0 <= j < k ==> Area(rs[j]) <= Area(rs[bi])
    requires forall j :: 0 <= j < bi ==> Area(rs[j]) < Area(rs[bi])
    ensures IsFirstLargest(rs, LargestFrom(rs[bi], rs[k..]))
    decreases |rs| - k
  {
    if k == |rs| {
      assert rs[k..] == [];
    } else {
      assert rs[k..][0] == rs[k] && rs[k..][1..] == rs[k + 1..];
      if Area(rs[k]) > Area(rs[bi]) {
        LargestFromIsFirstLargest(rs, k + 1, k);
      } else {
        LargestFromIsFirstLargest(rs, k + 1, bi);
      }
    }
  }

  /** `getMaxResolution`: none for an empty list, otherwise the first largest by area. */
  function GetMaxResolution(rs: seq<Resolution>): (r: Option<Resolution>)
    ensures r.None? <==> |rs| == 0
    ensures r.Some? ==> r.value in rs && IsFirstLargest(rs, r.value)
  {
    if |rs| == 0 then None
    else
      LargestFromIsFirstLargest(rs, 1, 0);
      Some(LargestFrom(rs[0], rs[1..]))
  }

  /** A portrait and a landscape size of equal area: the earlier one wins. */
  lemma EqualAreaKeepsEarlier()
    ensures GetMaxResolution([Resolution(1920, 1080, None), Resolution(1080, 1920, None)])
            == Some(Resolution(1920, 1080, None))
    ensures GetMaxResolution(FallbackResolutions) == Some(Resolution(1920, 1080, None))
  {
    var rs := [Resolution(1920, 1080, None), Resolution(1080, 1920, None)];
    assert rs[1..][1..] == [];
    var fs := FallbackResolutions;
    assert fs[1..][1..][1..] == [];
  }
}
