/** The statistics table: rolling statistics recomputed from the last ten detection
    results, the five most recent vehicles ordered by confidence, and the badge,
    icon and model-status classifiers. */
module DetectionsTable {
  import opened Wrappers
  import opened AiDetection
  import Window

  /** How many history entries the statistics read. */
  const StatsWindow: nat := 10

  /** How many vehicles the recent list shows. */
  const RecentShown: nat := 5

  /** All vehicles of the results in order, as `flatMap(d => d.vehicles)`. */
  function Flatten(rs: seq<DetectionResult>): seq<Vehicle>
  {
    if |rs| == 0 then [] else Flatten(rs[..|rs| - 1]) + rs[|rs| - 1].vehicles
  }

  /** The total of `vehicles.length` over the results. */
  function VehicleCountSum(rs: seq<DetectionResult>): nat
  {
    if |rs| == 0 then 0 else VehicleCountSum(rs[..|rs| - 1]) + |rs[|rs| - 1].vehicles|
  }

  function Confidences(vs: seq<Vehicle>): (r: seq<real>)
    ensures |r| == |vs| && forall i :: 0 <= i < |vs| ==> r[i] == vs[i].confidence
  {
    seq(|vs|, i requires 0 <= i < |vs| => vs[i].confidence)
  }

  function ProcessingTimes(rs: seq<DetectionResult>): (r: seq<real>)
    ensures |r| == |rs| && forall i :: 0 <= i < |rs| ==> r[i] == rs[i].processingTime
  {
    seq(|rs|, i requires 0 <= i < |rs| => rs[i].processingTime)
  }

  /** How many of the vehicles have type `t`. */
  function CountType(vs: seq<Vehicle>, t: VehicleType): nat
  {
    if |vs| == 0 then 0
    else CountType(vs[..|vs| - 1], t) + (if vs[|vs| - 1].vehicleType == t then 1 else 0)
  }

  /** How many of the vehicles carry a plate estimate. */
  function CountPlates(vs: seq<Vehicle>): nat
  {
    if |vs| == 0 then 0
    else CountPlates(vs[..|vs| - 1]) + (if vs[|vs| - 1].hasLicensePlate then 1 else 0)
  }

  /** A per-type histogram entry; a type never seen has no key and reads as 0. */
  function TypeCount(m: map<VehicleType, nat>, t: VehicleType): nat
  {
    if t in m then m[t] else 0
  }

  datatype DetectionStats = DetectionStats(
    totalDetections: nat,
    vehicleTypes: map<VehicleType, nat>,
    averageConfidence: real,
    platesDetected: nat,
    processingTime: real)

  /** What the statistics of a window of results must be. */
  predicate Describes(s: DetectionStats, recent: seq<DetectionResult>)
  {
    var flat := Flatten(recent);
    && s.totalDetections == |flat|
    && HistogramOf(s.vehicleTypes, flat)
    && s.averageConfidence == Window.Mean(Confidences(flat))
    && s.platesDetected == CountPlates(flat)
    && s.processingTime == Window.Mean(ProcessingTimes(recent))
  }

  lemma FlattenSnoc(rs: seq<DetectionResult>, i: nat)
    requires i < |rs|
    ensures Flatten(rs[..i + 1]) == Flatten(rs[..i]) + rs[i].vehicles
    ensures ProcessingTimes(rs[..i + 1]) == ProcessingTimes(rs[..i]) + [rs[i].processingTime]
  {
    assert rs[..i + 1][..i] == rs[..i];
  }

  lemma SumSnoc(s: seq<real>, x: real)
    ensures Window.Sum(s + [x]) == Window.Sum(s) + x
  {
    assert (s + [x])[..|s|] == s;
  }

  lemma CountsSnoc(vs: seq<Vehicle>, v: Vehicle)
    ensures Confidences(vs + [v]) == Confidences(vs) + [v.confidence]
    ensures forall t :: CountType(vs + [v], t) == CountType(vs, t) + (if v.vehicleType == t then 1 else 0)
    ensures CountPlates(vs + [v]) == CountPlates(vs) + (if v.hasLicensePlate then 1 else 0)
  {
    assert (vs + [v])[..|vs|] == vs;
  }

  /** The histogram `m` counts the types of `vs`, with a key exactly for each type seen. */
  predicate HistogramOf(m: map<VehicleType, nat>, vs: seq<Vehicle>)
  {
    && (forall t :: TypeCount(m, t) == CountType(vs, t))
    && (forall t :: t in m <==> CountType(vs, t) > 0)
  }

  /** Counts one more vehicle of type `t`. */
  function Bump(m: map<VehicleType, nat>, t: VehicleType): map<VehicleType, nat>
  {
    m[t := TypeCount(m, t) + 1]
  }

  lemma HistogramSnoc(m: map<VehicleType, nat>, vs: seq<Vehicle>, v: Vehicle)
    requires HistogramOf(m, vs)
    ensures HistogramOf(Bump(m, v.vehicleType), vs + [v])
  {
    CountsSnoc(vs, v);
  }

  /** Running totals of the inner `forEach`: summed confidence, plates and histogram. */
  datatype VehicleTotals = VehicleTotals(confidence: real, plates: nat, types: map<VehicleType, nat>)

  /** The totals are exactly those of the vehicles `vs`. */
  predicate TotalsOf(acc: VehicleTotals, vs: seq<Vehicle>)
  {
    && acc.confidence == Window.Sum(Confidences(vs))
    && acc.plates == CountPlates(vs)
    && HistogramOf(acc.types, vs)
  }

  /** The loop body of the inner `forEach`: folds in one vehicle. */
  function AddVehicle(acc: VehicleTotals, v: Vehicle): VehicleTotals
  {
    VehicleTotals(
      acc.confidence + v.confidence,
      if v.hasLicensePlate then acc.plates + 1 else acc.plates,
      Bump(acc.types, v.vehicleType))
  }

  lemma AddVehicleSnoc(acc: VehicleTotals, vs: seq<Vehicle>, v: Vehicle)
    requires TotalsOf(acc, vs)
    ensures TotalsOf(AddVehicle(acc, v), vs + [v])
  {
    CountsSnoc(vs, v);
    SumSnoc(Confidences(vs), v.confidence);
    HistogramSnoc(acc.types, vs, v);
  }

  /** The inner `forEach` over one result's vehicles: extends the totals for the
      vehicles `seen` so far to the totals for `seen + vs`. */
  method AccumulateVehicles(ghost seen: seq<Vehicle>, vs: seq<Vehicle>, acc0: VehicleTotals)
    returns (acc: VehicleTotals)
    requires TotalsOf(acc0, seen)
    ensures TotalsOf(acc, seen + vs)
  {
    acc := acc0;
    ghost var counted := seen;
    var j := 0;
    while j < |vs|
      invariant 0 <= j <= |vs|
      invariant counted == seen + vs[..j]
      invariant TotalsOf(acc, counted)
    {
      AddVehicleSnoc(acc, counted, vs[j]);
      acc := AddVehicle(acc, vs[j]);
      counted := counted + [vs[j]];
      assert counted == seen + vs[..j + 1];
      j := j + 1;
    }
    assert vs[..j] == vs;
  }

  /** The source's nested `forEach` over the window, accumulating totals and the histogram. */
  method ComputeStats(recent: seq<DetectionResult>) returns (s: DetectionStats)
    ensures Describes(s, recent)
  {
    var totalVehicles: nat := 0;
    var totalProcessingTime := 0.0;
    var totals := VehicleTotals(0.0, 0, map[]);
    var i := 0;
    while i < |recent|
      invariant 0 <= i <= |recent|
      invariant totalVehicles == |Flatten(recent[..i])|
      invariant totalProcessingTime == Window.Sum(ProcessingTimes(recent[..i]))
      invariant TotalsOf(totals, Flatten(recent[..i]))
    {
      var detection := recent[i];
      FlattenSnoc(recent, i);
      SumSnoc(ProcessingTimes(recent[..i]), detection.processingTime);
      totalVehicles := totalVehicles + |detection.vehicles|;
      totalProcessingTime := totalProcessingTime + detection.processingTime;
      totals := AccumulateVehicles(Flatten(recent[..i]), detection.vehicles, totals);
      i := i + 1;
    }
    assert recent[..i] == recent;
    s := DetectionStats(
      totalVehicles,
      totals.types,
      if totalVehicles > 0 then totals.confidence / (totalVehicles as real) else 0.0,
      totals.plates,
      if |recent| > 0 then totalProcessingTime / (|recent| as real) else 0.0);
  }

  /** The total is the sum of the per-result vehicle counts. */
  lemma {:induction false} FlattenLength(rs: seq<DetectionResult>)
    ensures |Flatten(rs)| == VehicleCountSum(rs)
  {
    if |rs| > 0 {
      FlattenLength(rs[..|rs| - 1]);
    }
  }

  lemma {:induction false} TypeCountsPartition(vs: seq<Vehicle>)
    ensures CountType(vs, Car) + CountType(vs, Truck) + CountType(vs, Bus)
            + CountType(vs, Motorcycle) + CountType(vs, Bicycle) == |vs|
    ensures CountPlates(vs) <= |vs|
  {
    if |vs| > 0 {
      TypeCountsPartition(vs[..|vs| - 1]);
    }
  }

  /** The histogram accounts for every vehicle exactly once, the plate count never
      exceeds the total, and the total is the sum of the window's vehicle counts. */
  lemma StatsTotalsAgree(s: DetectionStats, recent: seq<DetectionResult>)
    requires Describes(s, recent)
    ensures TypeCount(s.vehicleTypes, Car) + TypeCount(s.vehicleTypes, Truck)
            + TypeCount(s.vehicleTypes, Bus) + TypeCount(s.vehicleTypes, Motorcycle)
            + TypeCount(s.vehicleTypes, Bicycle) == s.totalDetections
    ensures s.platesDetected <= s.totalDetections
    ensures s.totalDetections == VehicleCountSum(recent)
  {
    TypeCountsPartition(Flatten(recent));
    FlattenLength(recent);
  }

  /** The mean confidence lies within any bounds on the window's confidences, and is 0
      for a window without vehicles. */
  lemma AverageConfidenceBounds(s: DetectionStats, recent: seq<DetectionResult>, lo: real, hi: real)
    requires Describes(s, recent)
    requires forall v :: v in Flatten(recent) ==> lo <= v.confidence <= hi
    ensures s.totalDetections > 0 ==> lo <= s.averageConfidence <= hi
    ensures s.totalDetections == 0 ==> s.averageConfidence == 0.0
  {
    var flat := Flatten(recent);
    if |flat| > 0 {
      forall i | 0 <= i < |flat|
        ensures lo <= Confidences(flat)[i] <= hi
      {
        assert flat[i] in flat;
      }
      Window.MeanBounds(Confidences(flat), lo, hi);
    }
  }

  /** Two results: a car at 0.9 and a truck at 0.6 taking 40 ms, then a bus at 0.8 taking 20 ms. */
  function ExampleWindow(box: Box): seq<DetectionResult>
  {
    [DetectionResult([Vehicle(Car, 0.9, box, true, None), Vehicle(Truck, 0.6, box, true, None)], 40.0, FrameSize(640.0, 480.0)),
     DetectionResult([Vehicle(Bus, 0.8, box, false, None)], 20.0, FrameSize(640.0, 480.0))]
  }

  lemma ExampleWindowFlattens(box: Box)
    ensures Flatten(ExampleWindow(box)) ==
      [Vehicle(Car, 0.9, box, true, None), Vehicle(Truck, 0.6, box, true, None), Vehicle(Bus, 0.8, box, false, None)]
    ensures ProcessingTimes(ExampleWindow(box)) == [40.0, 20.0]
  {
    var rs := ExampleWindow(box);
    FlattenSnoc(rs, 0);
    FlattenSnoc(rs, 1);
    assert rs[..0] == [] && rs[..2] == rs;
  }

  lemma ExampleVehicleSums(a: Vehicle, b: Vehicle, c: Vehicle)
    requires a.confidence == 0.9 && b.confidence == 0.6 && c.confidence == 0.8
    requires a.hasLicensePlate && b.hasLicensePlate && !c.hasLicensePlate
    ensures Window.Sum(Confidences([a, b, c])) == 2.3
    ensures CountPlates([a, b, c]) == 2
  {
    assert [a, b, c] == [a, b] + [c] && [a, b] == [a] + [b] && [a] == [] + [a];
    CountsSnoc([], a);
    CountsSnoc([a], b);
    CountsSnoc([a, b], c);
    SumSnoc([], 0.9);
    SumSnoc([0.9], 0.6);
    SumSnoc([0.9, 0.6], 0.8);
    assert [0.9] == [] + [0.9] && [0.9, 0.6] == [0.9] + [0.6] && [0.9, 0.6, 0.8] == [0.9, 0.6] + [0.8];
  }

  lemma ExampleTimeSum()
    ensures Window.Sum([40.0, 20.0]) == 60.0
  {
    assert [40.0, 20.0] == [40.0] + [20.0] && [40.0] == [] + [40.0];
    SumSnoc([], 40.0);
    SumSnoc([40.0], 20.0);
  }

  /** Confidences [0.9, 0.6] and [0.8]: three vehicles with mean confidence exactly 23/30. */
  lemma AverageConfidenceExample(s: DetectionStats, box: Box)
    requires Describes(s, ExampleWindow(box))
    ensures s.totalDetections == 3
    ensures s.averageConfidence == 23.0 / 30.0
    ensures s.platesDetected == 2
    ensures s.processingTime == 30.0
  {
    ExampleWindowFlattens(box);
    var flat := Flatten(ExampleWindow(box));
    ExampleVehicleSums(flat[0], flat[1], flat[2]);
    assert flat == [flat[0], flat[1], flat[2]];
    ExampleTimeSum();
  }

  // ---------------------------------------------------------------------------
  // Recent detections

  predicate SortedByConfidence(vs: seq<Vehicle>)
  {
    forall i, j :: 0 <= i < j < |vs| ==> vs[i].confidence >= vs[j].confidence
  }

  /** A vehicle scoring at least the head of a sorted list can be put in front of it. */
  lemma PrependSorted(x: Vehicle, vs: seq<Vehicle>)
    requires SortedByConfidence(vs)
    requires |vs| == 0 || x.confidence >= vs[0].confidence
    ensures SortedByConfidence([x] + vs)
  {
    var r := [x] + vs;
    forall i, j | 0 <= i < j < |r|
      ensures r[i].confidence >= r[j].confidence
    {
      if i == 0 {
        assert r[j] == vs[j - 1];
      }
    }
  }

  /** Putting the head of `vs` back in front of `rest` restores the multiset of `vs`
      plus whatever `rest` holds beyond `vs[1..]`. */
  lemma ConsMultiset(vs: seq<Vehicle>, rest: seq<Vehicle>, v: Vehicle)
    requires |vs| > 0
    requires multiset(rest) == multiset(vs[1..]) + multiset{v}
    ensures multiset([vs[0]] + rest) == multiset(vs) + multiset{v}
  {
    assert vs == [vs[0]] + vs[1..];
  }

  /** Places `v` before the first element it does not score below. */
  function Insert(v: Vehicle, vs: seq<Vehicle>): (r: seq<Vehicle>)
    requires SortedByConfidence(vs)
    ensures |r| == |vs| + 1
    ensures SortedByConfidence(r)
    ensures multiset(r) == multiset(vs) + multiset{v}
    ensures forall k :: 0 <= k < |r| ==> r[k] == v || r[k] in vs
  {
    if |vs| == 0 || v.confidence >= vs[0].confidence then
      PrependSorted(v, vs);
      [v] + vs
    else
      var rest := Insert(v, vs[1..]);
      assert rest[0] == v || rest[0] in vs[1..];
      PrependSorted(vs[0], rest);
      ConsMultiset(vs, rest, v);
      assert vs == [vs[0]] + vs[1..];
      [vs[0]] + rest
  }

  /** Orders vehicles by non-increasing confidence, as `sort((a, b) => b.confidence - a.confidence)`. */
  function SortByConfidence(vs: seq<Vehicle>): (r: seq<Vehicle>)
    ensures |r| == |vs|
    ensures SortedByConfidence(r)
    ensures multiset(r) == multiset(vs)
  {
    if |vs| == 0 then []
    else
      assert vs == [vs[0]] + vs[1..];
      Insert(vs[0], SortByConfidence(vs[1..]))
  }

  /** `a` holds the same vehicles as `b`, each as often, in any order. */
  predicate SameVehicles(a: seq<Vehicle>, b: seq<Vehicle>)
  {
    multiset(a) == multiset(b)
  }

  /** The recent list: the last five vehicles of the window, highest confidence first. */
  function RecentDetections(recent: seq<DetectionResult>): (r: seq<Vehicle>)
    ensures SortedByConfidence(r) && SameVehicles(r, Window.LastN(Flatten(recent), RecentShown))
    ensures |r| <= RecentShown
  {
    SortByConfidence(Window.LastN(Flatten(recent), RecentShown))
  }

  // ---------------------------------------------------------------------------
  // Component state

  datatype ModelValidation = ModelValidation(isLoaded: bool, accuracy: real)

  /** The accuracy shown before the service reports one: 85%. */
  const DefaultAccuracy: real := 0.85

  datatype TableState = TableState(
    stats: DetectionStats,
    recentDetections: seq<Vehicle>,
    modelValidation: ModelValidation)

  /** Recomputes the statistics from the history; nothing changes on an empty history,
      and only the last ten entries are read otherwise. */
  method UpdateStats(t: TableState, history: seq<DetectionResult>) returns (r: TableState)
    ensures |history| == 0 ==> r == t
    ensures |history| > 0 ==>
      && Describes(r.stats, Window.LastN(history, StatsWindow))
      && r.recentDetections == RecentDetections(Window.LastN(history, StatsWindow))
      && r.modelValidation == t.modelValidation
  {
    if |history| == 0 {
      return t;
    }
    var recent := Window.LastN(history, StatsWindow);
    var stats := ComputeStats(recent);
    r := t.(stats := stats, recentDetections := RecentDetections(recent));
  }

  /** Zeroes every counter and empties the recent list: the statistics of an empty window. */
  function ClearStats(t: TableState): (r: TableState)
    ensures Describes(r.stats, [])
    ensures r.stats.totalDetections == 0 && r.stats.platesDetected == 0
    ensures r.stats.averageConfidence == 0.0 && r.stats.processingTime == 0.0
    ensures r.stats.vehicleTypes == map[]
    ensures r.recentDetections == [] && r.modelValidation == t.modelValidation
  {
    t.(stats := DetectionStats(0, map[], 0.0, 0, 0.0), recentDetections := [])
  }

  // ---------------------------------------------------------------------------
  // Classifiers

  function GetConfidenceColor(confidence: real): (r: string)
    ensures r == "success" <==> confidence >= 0.8
    ensures r == "warning" <==> 0.6 <= confidence < 0.8
    ensures r == "danger" <==> confidence < 0.6
  {
    if confidence >= 0.8 then "success"
    else if confidence >= 0.6 then "warning"
    else "danger"
  }

  /** The badge colours ordered from worst to best. */
  function ColorRank(color: string): nat
  {
    if color == "success" then 2 else if color == "warning" then 1 else 0
  }

  /** A higher confidence never gets a worse badge. */
  lemma ConfidenceColorMonotone(c1: real, c2: real)
    requires c1 <= c2
    ensures ColorRank(GetConfidenceColor(c1)) <= ColorRank(GetConfidenceColor(c2))
  {
  }

  /** The keys every object literal inherits from `Object.prototype`; looking one of them
      up in the icon table yields a prototype member instead of an icon. */
  const InheritedKeys: set<string> := {
    "constructor", "__proto__", "__defineGetter__", "__defineSetter__", "__lookupGetter__",
    "__lookupSetter__", "hasOwnProperty", "isPrototypeOf", "propertyIsEnumerable",
    "toLocaleString", "toString", "valueOf"}

  /** The value of `icons[type] || 'car-outline'`: an icon name, or the inherited member
      named `key`, which is truthy and so returned as it is. */
  datatype IconLookup = Icon(name: string) | PrototypeMember(key: string)

  /** `getVehicleIcon`: own keys of the icon table first, then inherited keys, then the
      car icon as the fallback. */
  function GetVehicleIcon(vehicleType: string): (r: IconLookup)
    ensures r.PrototypeMember? <==> vehicleType in InheritedKeys
    ensures r.PrototypeMember? ==> r.key == vehicleType
    ensures r == Icon("bus-outline") <==> vehicleType == "bus"
    ensures r == Icon("bicycle-outline") <==> vehicleType == "motorcycle" || vehicleType == "bicycle"
    ensures r == Icon("car-outline") <==>
      vehicleType != "bus" && vehicleType != "motorcycle" && vehicleType != "bicycle"
      && vehicleType !in InheritedKeys
  {
    if vehicleType == "car" then Icon("car-outline")
    else if vehicleType == "truck" then Icon("car-outline")
    else if vehicleType == "bus" then Icon("bus-outline")
    else if vehicleType == "motorcycle" then Icon("bicycle-outline")
    else if vehicleType == "bicycle" then Icon("bicycle-outline")
    else if vehicleType in InheritedKeys then PrototypeMember(vehicleType)
    else Icon("car-outline")
  }

  /** The icon of each vehicle type, as the detector names it. */
  function TypeIcon(t: VehicleType): string
  {
    match t
    case Car => "car-outline"
    case Truck => "car-outline"
    case Bus => "bus-outline"
    case Motorcycle => "bicycle-outline"
    case Bicycle => "bicycle-outline"
  }

  /** Every name the detector gives a vehicle finds its own icon, never a prototype member. */
  lemma VehicleTypesHaveIcons(t: VehicleType)
    ensures GetVehicleIcon(TypeName(t)) == Icon(TypeIcon(t))
  {
  }

  datatype ModelStatus = ModelStatus(text: string, color: string, icon: string)

  function GetModelStatus(v: ModelValidation): (r: ModelStatus)
    ensures r.text == "Cargando..." <==> !v.isLoaded
    ensures r.text == "Excelente" <==> v.isLoaded && v.accuracy >= 0.8
    ensures r.text == "Bueno" <==> v.isLoaded && v.accuracy < 0.8
    ensures r.color == (if !v.isLoaded then "warning" else if v.accuracy >= 0.8 then "success" else "primary")
    ensures r.icon == (if !v.isLoaded then "warning-outline" else "checkmark-circle-outline")
  {
    if !v.isLoaded then ModelStatus("Cargando...", "warning", "warning-outline")
    else if v.accuracy >= 0.8 then ModelStatus("Excelente", "success", "checkmark-circle-outline")
    else ModelStatus("Bueno", "primary", "checkmark-circle-outline")
  }

  /** With the default accuracy a loaded model is reported as excellent. */
  lemma DefaultModelStatus()
    ensures GetModelStatus(ModelValidation(true, DefaultAccuracy)).text == "Excelente"
    ensures GetModelStatus(ModelValidation(false, DefaultAccuracy)).text == "Cargando..."
  {
  }
}
