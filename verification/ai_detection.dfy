/** The vehicle-detection service: narrowing COCO-SSD predictions to vehicles, the
    fixed-ratio licence-plate heuristic, the fallback result of a failed analysis, and
    the load-once lifecycle of the detector model. The detector itself is an opaque
    list of predictions; elapsed time is an input. */
module AiDetection {
  import opened Wrappers

  datatype VehicleType = Car | Truck | Bus | Motorcycle | Bicycle

  /** The COCO-SSD class names the service looks for. */
  const VehicleClasses: seq<string> := ["car", "truck", "bus", "motorcycle", "bicycle"]

  /** A prediction must score strictly above this to be kept. */
  const ScoreThreshold: real := 0.5

  /** The fixed confidence given to every estimated plate region. */
  const PlateHeuristicConfidence: real := 0.7

  function TypeName(t: VehicleType): string
  {
    match t
    case Car => "car"
    case Truck => "truck"
    case Bus => "bus"
    case Motorcycle => "motorcycle"
    case Bicycle => "bicycle"
  }

  /** Reads a detector class name as a vehicle type; `None` for every non-vehicle class. */
  function ParseVehicleClass(c: string): (r: Option<VehicleType>)
    ensures r.Some? <==> c in VehicleClasses
    ensures r.Some? ==> TypeName(r.value) == c
  {
    if c == "car" then Some(Car)
    else if c == "truck" then Some(Truck)
    else if c == "bus" then Some(Bus)
    else if c == "motorcycle" then Some(Motorcycle)
    else if c == "bicycle" then Some(Bicycle)
    else None
  }

  lemma TypeNameRoundTrip(t: VehicleType)
    ensures ParseVehicleClass(TypeName(t)) == Some(t)
  {
  }

  datatype Box = Box(x: real, y: real, width: real, height: real)

  datatype PlateRegion = PlateRegion(x: real, y: real, width: real, height: real, confidence: real)

  /** A detected vehicle. `hasLicensePlate` is false where the source leaves the field undefined. */
  datatype Vehicle = Vehicle(
    vehicleType: VehicleType,
    confidence: real,
    boundingBox: Box,
    hasLicensePlate: bool,
    licensePlateRegion: Option<PlateRegion>)

  datatype FrameSize = FrameSize(width: real, height: real)

  datatype DetectionResult = DetectionResult(vehicles: seq<Vehicle>, processingTime: real, frameSize: FrameSize)

  /** One COCO-SSD prediction: a class name, a score and a box `[x, y, width, height]`. */
  datatype Prediction = Prediction(className: string, score: real, bbox: Box)

  // ---------------------------------------------------------------------------
  // Vehicle filter

  /** Whether the filter keeps a prediction: a vehicle class and a score above the threshold. */
  predicate Kept(p: Prediction)
  {
    p.className in VehicleClasses && p.score > ScoreThreshold
  }

  /** The vehicle record built from a kept prediction, before any plate estimate. */
  function ToVehicle(p: Prediction): (v: Vehicle)
    requires p.className in VehicleClasses
    ensures TypeName(v.vehicleType) == p.className
    ensures v.confidence == p.score && v.boundingBox == p.bbox
    ensures !v.hasLicensePlate && v.licensePlateRegion.None?
  {
    Vehicle(ParseVehicleClass(p.className).value, p.score, p.bbox, false, None)
  }

  /** What the filter makes of one prediction: its vehicle, or nothing. */
  function KeptVehicle(p: Prediction): seq<Vehicle>
  {
    if Kept(p) then [ToVehicle(p)] else []
  }

  /** The two `filter` passes and the `map` of the source, fused into one pass. */
  function FilterVehicles(preds: seq<Prediction>): (r: seq<Vehicle>)
    ensures |r| <= |preds|
    ensures forall i :: 0 <= i < |r| ==>
      r[i].confidence > ScoreThreshold && TypeName(r[i].vehicleType) in VehicleClasses
      && !r[i].hasLicensePlate && r[i].licensePlateRegion.None?
  {
    if |preds| == 0 then [] else KeptVehicle(preds[0]) + FilterVehicles(preds[1..])
  }

  /** The filter distributes over concatenation, so it keeps the input order. */
  lemma {:induction false} FilterVehiclesAppend(a: seq<Prediction>, b: seq<Prediction>)
    ensures FilterVehicles(a + b) == FilterVehicles(a) + FilterVehicles(b)
  {
    if |a| == 0 {
      assert a + b == b;
    } else {
      var ab := a + b;
      assert ab[0] == a[0];
      assert ab[1..] == a[1..] + b;
      FilterVehiclesAppend(a[1..], b);
      var h, fa, fb := KeptVehicle(a[0]), FilterVehicles(a[1..]), FilterVehicles(b);
      assert FilterVehicles(ab) == h + (fa + fb);
      assert FilterVehicles(a) == h + fa;
      ConcatAssociative(h, fa, fb);
    }
  }

  lemma ConcatAssociative<T>(x: seq<T>, y: seq<T>, z: seq<T>)
    ensures x + (y + z) == (x + y) + z
  {
  }

  /** A vehicle is in the output exactly when some kept prediction converts to it. */
  lemma {:induction false} FilterVehiclesMembership(preds: seq<Prediction>, v: Vehicle)
    ensures v in FilterVehicles(preds) <==>
      exists i :: 0 <= i < |preds| && Kept(preds[i]) && ToVehicle(preds[i]) == v
  {
    if |preds| > 0 {
      FilterVehiclesMembership(preds[1..], v);
      if v in FilterVehicles(preds[1..]) {
        var j :| 0 <= j < |preds[1..]| && Kept(preds[1..][j]) && ToVehicle(preds[1..][j]) == v;
        assert preds[j + 1] == preds[1..][j];
      }
      if exists i :: 0 <= i < |preds| && Kept(preds[i]) && ToVehicle(preds[i]) == v {
        var i :| 0 <= i < |preds| && Kept(preds[i]) && ToVehicle(preds[i]) == v;
        if i > 0 {
          assert preds[1..][i - 1] == preds[i];
        }
      }
    }
  }

  /** The confidence threshold is strict: 0.49 and 0.5 are dropped, 0.51 is kept. */
  lemma FilterThresholdExamples(box: Box)
    ensures FilterVehicles([Prediction("car", 0.49, box)]) == []
    ensures FilterVehicles([Prediction("car", 0.5, box)]) == []
    ensures FilterVehicles([Prediction("car", 0.51, box)]) == [Vehicle(Car, 0.51, box, false, None)]
    ensures FilterVehicles([Prediction("person", 0.99, box)]) == []
  {
    assert "person" != "car" && "person" != "truck" && "person" != "bus";
    assert "person" != "motorcycle" && "person" != "bicycle";
  }

  // ---------------------------------------------------------------------------
  // Plate-region heuristic

  /** Whether `r` lies inside `b`. */
  predicate Inside(r: PlateRegion, b: Box)
  {
    b.x <= r.x && r.x + r.width <= b.x + b.width
    && b.y <= r.y && r.y + r.height <= b.y + b.height
  }

  /** The plate guess: 60% of the box width, 20% of its height, centred and on the bottom edge. */
  function EstimatePlateRegion(b: Box): (r: PlateRegion)
    ensures r.confidence == PlateHeuristicConfidence
    ensures r.x - b.x == (b.x + b.width) - (r.x + r.width)
    ensures r.y + r.height == b.y + b.height
    ensures 5.0 * r.width == 3.0 * b.width && 5.0 * r.height == b.height
    ensures b.width >= 0.0 && b.height >= 0.0 ==> Inside(r, b)
  {
    var plateHeight := b.height * 0.2;
    var plateWidth := b.width * 0.6;
    PlateRegion(b.x + (b.width - plateWidth) / 2.0, b.y + b.height - plateHeight,
                plateWidth, plateHeight, PlateHeuristicConfidence)
  }

  lemma PlateRegionExample()
    ensures EstimatePlateRegion(Box(0.0, 0.0, 100.0, 50.0)) == PlateRegion(20.0, 40.0, 60.0, 10.0, 0.7)
  {
  }

  /** A vehicle with the plate estimate attached. */
  function WithPlate(v: Vehicle): Vehicle
  {
    v.(hasLicensePlate := true, licensePlateRegion := Some(EstimatePlateRegion(v.boundingBox)))
  }

  /** Adds a plate estimate to every vehicle; none is dropped and nothing else changes. */
  function AddPlateRegions(vs: seq<Vehicle>): (r: seq<Vehicle>)
    ensures |r| == |vs|
    ensures forall i :: 0 <= i < |r| ==>
      && r[i].vehicleType == vs[i].vehicleType
      && r[i].confidence == vs[i].confidence
      && r[i].boundingBox == vs[i].boundingBox
      && r[i].hasLicensePlate
      && r[i].licensePlateRegion == Some(EstimatePlateRegion(vs[i].boundingBox))
  {
    seq(|vs|, i requires 0 <= i < |vs| => WithPlate(vs[i]))
  }

  // ---------------------------------------------------------------------------
  // Model lifecycle and frame analysis

  /** The stored loading promise: never started, waiting for the runtime and the model
      download, waiting for the warm-up inference (the model is already marked loaded),
      or settled. */
  datatype LoadPromise = NotStarted | Loading | WarmingUp | Settled(succeeded: bool)

  /** Service state; `loadsStarted` counts how many times a model load was begun. */
  datatype ModelState = ModelState(isModelLoaded: bool, hasModel: bool, loading: LoadPromise, loadsStarted: nat)

  const InitialModelState := ModelState(false, false, NotStarted, 0)

  /** `isReady`: the loaded flag is set and a model is held. */
  function IsReady(m: ModelState): (r: bool)
    ensures r <==> m.isModelLoaded && m.hasModel
  {
    m.isModelLoaded && m.hasModel
  }

  /** What a call to `initializeAI` does. */
  datatype InitOutcome = AlreadyLoaded | AwaitStoredLoad | StartedLoad

  function InitializeAI(m: ModelState): (r: (ModelState, InitOutcome))
    ensures r.1 == AlreadyLoaded <==> m.isModelLoaded
    ensures r.1 == AwaitStoredLoad <==> !m.isModelLoaded && !m.loading.NotStarted?
    ensures r.1 == StartedLoad <==> !m.isModelLoaded && m.loading.NotStarted?
    ensures r.1 != StartedLoad ==> r.0 == m
    ensures r.1 == StartedLoad ==> r.0 == m.(loading := Loading, loadsStarted := m.loadsStarted + 1)
  {
    if m.isModelLoaded then (m, AlreadyLoaded)
    else if !m.loading.NotStarted? then (m, AwaitStoredLoad)
    else (m.(loading := Loading, loadsStarted := m.loadsStarted + 1), StartedLoad)
  }

  /** The runtime or the model download fails: the loaded flag is cleared and the stored
      promise rejects. */
  function LoadFails(m: ModelState): (r: ModelState)
    requires m.loading.Loading?
    ensures !IsReady(r) && !r.isModelLoaded && r.loading == Settled(false)
    ensures r.hasModel == m.hasModel && r.loadsStarted == m.loadsStarted
    ensures InitializeAI(r) == (r, AwaitStoredLoad)
  {
    m.(isModelLoaded := false, loading := Settled(false))
  }

  /** The model download succeeds: the model is stored and marked loaded before the
      warm-up inference begins, so the service is ready while the promise is pending. */
  function ModelLoaded(m: ModelState): (r: ModelState)
    requires m.loading.Loading?
    ensures IsReady(r) && r.loading.WarmingUp?
    ensures r.loadsStarted == m.loadsStarted
  {
    m.(hasModel := true, isModelLoaded := true, loading := WarmingUp)
  }

  /** The warm-up inference ends, successfully or not (a failure is swallowed): the promise
      resolves and the flags are left as they are at that moment. */
  function WarmUpSettles(m: ModelState, warmUpOk: bool): (r: ModelState)
    requires m.loading.WarmingUp?
    ensures r.loading == Settled(true)
    ensures r.isModelLoaded == m.isModelLoaded && r.hasModel == m.hasModel
    ensures r.loadsStarted == m.loadsStarted
  {
    m.(loading := Settled(true))
  }

  /** A warm-up failure is swallowed: a load that reached the model stays ready, exactly as
      after a successful warm-up. */
  lemma WarmUpFailureLeavesModelReady(m: ModelState)
    requires m.loading.Loading?
    ensures IsReady(WarmUpSettles(ModelLoaded(m), false))
    ensures WarmUpSettles(ModelLoaded(m), false) == WarmUpSettles(ModelLoaded(m), true)
  {
  }

  /** Drops the model; the stored loading promise is kept. */
  function Dispose(m: ModelState): (r: ModelState)
    ensures !IsReady(r) && !r.isModelLoaded && !r.hasModel
    ensures r.loading == m.loading && r.loadsStarted == m.loadsStarted
  {
    m.(hasModel := false, isModelLoaded := false)
  }

  /** Because the stored promise survives `Dispose`, initialising again never reloads:
      the service stays not ready. */
  lemma DisposeIsPermanent(m: ModelState)
    requires !m.loading.NotStarted?
    ensures InitializeAI(Dispose(m)).1 == AwaitStoredLoad
    ensures !IsReady(InitializeAI(Dispose(m)).0)
  {
  }

  /** A dispose while the warm-up inference runs is not undone when the warm-up ends:
      the promise resolves, the service stays not ready and initialising again only
      awaits that promise. */
  lemma DisposeDuringWarmUpIsPermanent(m: ModelState, warmUpOk: bool)
    requires m.loading.Loading?
    ensures var settled := WarmUpSettles(Dispose(ModelLoaded(m)), warmUpOk);
      !IsReady(settled) && settled.loading == Settled(true)
      && InitializeAI(settled) == (settled, AwaitStoredLoad)
  {
  }

  /** The events of the life cycle: a call to `initializeAI`, the end of the runtime and
      model download (failed or succeeded), the end of the warm-up inference, and a call
      to `dispose`. */
  datatype ModelEvent = Initialize | DownloadFails | DownloadSucceeds | WarmUpEnds(ok: bool) | DisposeModel

  /** One event; an event for a phase the promise is not in cannot occur and changes nothing. */
  function ModelStep(m: ModelState, e: ModelEvent): ModelState
  {
    match e
    case Initialize => InitializeAI(m).0
    case DownloadFails => if m.loading.Loading? then LoadFails(m) else m
    case DownloadSucceeds => if m.loading.Loading? then ModelLoaded(m) else m
    case WarmUpEnds(ok) => if m.loading.WarmingUp? then WarmUpSettles(m, ok) else m
    case DisposeModel => Dispose(m)
  }

  function RunModel(m: ModelState, evs: seq<ModelEvent>): ModelState
    decreases |evs|
  {
    if |evs| == 0 then m else RunModel(ModelStep(m, evs[0]), evs[1..])
  }

  /** The bookkeeping that holds from the initial state on: one load started exactly
      when a promise is stored, and a model is present whenever it is marked loaded. */
  predicate LoadInvariant(m: ModelState)
  {
    m.loadsStarted == (if m.loading.NotStarted? then 0 else 1)
    && (m.isModelLoaded ==> m.hasModel)
  }

  /** From the service's real starting state, no trace starts a second load, and the
      service is ready exactly when the loaded flag is set. */
  lemma InitialModelStateLoadsAtMostOnce(evs: seq<ModelEvent>)
    ensures RunModel(InitialModelState, evs).loadsStarted <= 1
    ensures IsReady(RunModel(InitialModelState, evs)) <==> RunModel(InitialModelState, evs).isModelLoaded
  {
    RunModelLoadsAtMostOnce(InitialModelState, evs);
  }

  /** Whatever sequence of initialise, download, warm-up and dispose events occurs, at
      most one model load is ever started, and `isReady` coincides with `isModelLoaded`. */
  lemma {:induction false} RunModelLoadsAtMostOnce(m: ModelState, evs: seq<ModelEvent>)
    requires LoadInvariant(m)
    ensures LoadInvariant(RunModel(m, evs))
    ensures RunModel(m, evs).loadsStarted <= 1
    ensures IsReady(RunModel(m, evs)) <==> RunModel(m, evs).isModelLoaded
    decreases |evs|
  {
    if |evs| > 0 {
      RunModelLoadsAtMostOnce(ModelStep(m, evs[0]), evs[1..]);
    }
  }

  /** A frame as the detector sees it: decoded size and the raw predictions. */
  datatype DecodedFrame = DecodedFrame(size: FrameSize, predictions: seq<Prediction>)

  /** Analyses one frame. `frame` is `None` when decoding or detection throws; `elapsed`
      is the measured processing time. Every failure yields the empty fallback result. */
  function AnalyzeFrame(m: ModelState, frame: Option<DecodedFrame>, elapsed: real): (r: DetectionResult)
    ensures r.processingTime == elapsed
    ensures !IsReady(m) || frame.None? ==> r.vehicles == [] && r.frameSize == FrameSize(0.0, 0.0)
    ensures IsReady(m) && frame.Some? ==>
      r.frameSize == frame.value.size
      && r.vehicles == AddPlateRegions(FilterVehicles(frame.value.predictions))
    ensures forall i :: 0 <= i < |r.vehicles| ==>
      r.vehicles[i].confidence > ScoreThreshold && r.vehicles[i].hasLicensePlate
      && r.vehicles[i].licensePlateRegion == Some(EstimatePlateRegion(r.vehicles[i].boundingBox))
  {
    if !IsReady(m) || frame.None? then DetectionResult([], elapsed, FrameSize(0.0, 0.0))
    else
      var vehicles := FilterVehicles(frame.value.predictions);
      DetectionResult(AddPlateRegions(vehicles), elapsed, frame.value.size)
  }
}
