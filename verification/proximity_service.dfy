/** The proximity service: a scan flag, a registry of devices keyed by id
    (a JavaScript `Map`, so insertion-ordered) and the classifier that turns
    each scan sample into at most one proximity event.

    The radio backend is an input: a scan sample is delivered to
    `OnScanResult` only while scanning, as the backend calls the scan
    listener only between `startDeviceScan` and `stopDeviceScan`. The clock
    (`new Date()`) is the parameter `now`; `Math.pow` is the parameter `pow`. */
module ProximityService {
  import opened Wrappers
  import OrderedMap
  import Distance

  /** Distance, in metres, at or below which a re-sighted device is battle-ready. */
  const BattleThreshold: real := 2.0
  /** Signal strength, in dBm, at or above which a re-sighted device is battle-ready. */
  const RssiThreshold: int := -60
  /** The name the service gives a device the radio reports without one. */
  const UnknownName: string := "Unknown Device"

  datatype DeviceInfo = DeviceInfo(id: string, name: string, distance: real, rssi: int, lastSeen: int)

  datatype EventType = DeviceDetected | DeviceLost | BattleReady

  datatype ProximityEvent = ProximityEvent(kind: EventType, device: DeviceInfo)

  /** A device as the radio reports it; its name may be absent. */
  datatype Advertisement = Advertisement(id: string, name: Option<string>, rssi: int)

  /** What the scan listener receives: an error, or a (possibly absent) device. */
  datatype ScanResult = ScanError | Scanned(device: Option<Advertisement>)

  type Registry = OrderedMap.OMap<string, DeviceInfo>

  /** The service's state. `listening` records whether a proximity callback
      has been installed; events raised without one go nowhere. */
  datatype Tracker = Tracker(scanning: bool, registry: Registry, listening: bool)

  /** The registry is a valid ordered map and every entry is filed under its
      own device id. */
  predicate Valid(t: Tracker)
  {
    && OrderedMap.Valid(t.registry)
    && forall k :: k in t.registry.entries ==> t.registry.entries[k].id == k
  }

  function Initial(): (t: Tracker)
    ensures Valid(t)
    ensures !t.scanning && !t.listening && |GetDetectedDevices(t)| == 0
  {
    Tracker(false, OrderedMap.OMap(map[], []), false)
  }

  /** `setProximityCallback`. */
  function SetProximityCallback(t: Tracker): (r: Tracker)
    ensures r.listening
    ensures r.scanning == t.scanning && r.registry == t.registry
  {
    t.(listening := true)
  }

  /** `startScanning`: a no-op when already scanning, otherwise raises the
      flag. The registry is never touched. */
  function StartScanning(t: Tracker): (r: Tracker)
    ensures r.scanning
    ensures r.registry == t.registry && r.listening == t.listening
    ensures t.scanning ==> r == t
  {
    if t.scanning then t else t.(scanning := true)
  }

  /** `stopScanning`: a no-op when not scanning, otherwise lowers the flag.
      The registry is kept in both cases. */
  function StopScanning(t: Tracker): (r: Tracker)
    ensures !r.scanning
    ensures r.registry == t.registry && r.listening == t.listening
    ensures !t.scanning ==> r == t
  {
    if !t.scanning then t else t.(scanning := false)
  }

  /** `cleanup`: stops scanning (destroying the radio manager is not modelled). */
  function Cleanup(t: Tracker): (r: Tracker)
    ensures !r.scanning && r.registry == t.registry
  {
    StopScanning(t)
  }

  /** The battle-readiness test applied to a re-sighted device. */
  predicate InRange(d: DeviceInfo)
  {
    d.distance <= BattleThreshold && d.rssi >= RssiThreshold
  }

  /** The record built for a sample: `device.name || 'Unknown Device'` and the
      estimated distance. */
  function MakeDeviceInfo(a: Advertisement, now: int, pow: Distance.Pow): (d: DeviceInfo)
    ensures d.id == a.id && d.rssi == a.rssi && d.lastSeen == now
    ensures d.distance == Distance.CalculateDistance(a.rssi, pow)
    ensures a.name.Some? && a.name.value != "" ==> d.name == a.name.value
    ensures a.name.None? || a.name.value == "" ==> d.name == UnknownName
  {
    var name := if a.name.Some? && a.name.value != "" then a.name.value else UnknownName;
    DeviceInfo(a.id, name, Distance.CalculateDistance(a.rssi, pow), a.rssi, now)
  }

  /** The event a sample raises against the registry as it was before the
      sample: `device_detected` on the first sighting, `battle_ready` on a
      re-sighting that is in range, nothing otherwise. */
  function Classify(registry: Registry, d: DeviceInfo): (e: Option<ProximityEvent>)
  {
    if d.id !in registry.entries then Some(ProximityEvent(DeviceDetected, d))
    else if InRange(d) then Some(ProximityEvent(BattleReady, d))
    else None
  }

  /** `handleDeviceDetected`: stores the sample under its id (replacing any
      earlier one) and hands the classified event to the callback, if any.
      Returns the new state and the event the callback received. */
  function HandleDeviceDetected(t: Tracker, d: DeviceInfo): (r: (Tracker, Option<ProximityEvent>))
    requires Valid(t)
    ensures Valid(r.0)
    ensures r.0.scanning == t.scanning && r.0.listening == t.listening
    ensures OrderedMap.Get(r.0.registry, d.id) == Some(d)
    ensures forall k :: k != d.id ==> OrderedMap.Get(r.0.registry, k) == OrderedMap.Get(t.registry, k)
    ensures |r.0.registry.order| == |t.registry.order| + (if d.id in t.registry.entries then 0 else 1)
    ensures !t.listening ==> r.1 == None
    ensures t.listening && d.id !in t.registry.entries ==> r.1 == Some(ProximityEvent(DeviceDetected, d))
    ensures t.listening && d.id in t.registry.entries ==> (r.1.Some? <==> InRange(d))
    ensures r.1.Some? ==> r.1.value.device == d && r.1.value.kind != DeviceLost
    ensures d.id in t.registry.entries && r.1.Some? ==> r.1.value.kind == BattleReady
  {
    var registry := OrderedMap.Set(t.registry, d.id, d);
    var event := Classify(t.registry, d);
    (t.(registry := registry), if t.listening then event else None)
  }

  /** The scan listener: errors and devices without a name are dropped,
      every other sample goes to `HandleDeviceDetected`. Samples only arrive
      while scanning. */
  function OnScanResult(t: Tracker, s: ScanResult, now: int, pow: Distance.Pow): (r: (Tracker, Option<ProximityEvent>))
    requires Valid(t)
    ensures Valid(r.0)
    ensures r.0.scanning == t.scanning && r.0.listening == t.listening
    ensures !t.scanning || s.ScanError? || s.device.None? ==> r == (t, None)
    ensures s.Scanned? && s.device.Some? && s.device.value.name in {None, Some("")} ==> r == (t, None)
    ensures t.scanning && s.Scanned? && s.device.Some? && s.device.value.name.Some? && s.device.value.name.value != "" ==>
      r == HandleDeviceDetected(t, MakeDeviceInfo(s.device.value, now, pow))
  {
    if !t.scanning then (t, None)
    else match s
      case ScanError => (t, None)
      case Scanned(None) => (t, None)
      case Scanned(Some(a)) =>
        if a.name.Some? && a.name.value != "" then HandleDeviceDetected(t, MakeDeviceInfo(a, now, pow))
        else (t, None)
  }

  /** `getDetectedDevices`: every registered device exactly once, each being
      the entry stored under its id. */
  function GetDetectedDevices(t: Tracker): (ds: seq<DeviceInfo>)
    requires Valid(t)
    ensures |ds| == |t.registry.entries|
    ensures forall i :: 0 <= i < |ds| ==> ds[i].id in t.registry.entries && t.registry.entries[ds[i].id] == ds[i]
    ensures forall k :: k in t.registry.entries ==> t.registry.entries[k] in ds
    ensures forall i, j :: 0 <= i < j < |ds| ==> ds[i].id != ds[j].id
  {
    OrderedMap.OrderLengthIsSize(t.registry);
    var ds := OrderedMap.Values(t.registry);
    assert forall k :: k in t.registry.entries ==> exists i :: 0 <= i < |t.registry.order| && t.registry.order[i] == k;
    ds
  }

  /** Readiness is level-triggered: once a device is registered, every
      in-range sighting of it raises `battle_ready` again, however many came
      before. */
  lemma BattleReadyRefires(t: Tracker, d1: DeviceInfo, d2: DeviceInfo)
    requires Valid(t) && t.listening
    requires d1.id == d2.id && InRange(d2)
    ensures HandleDeviceDetected(HandleDeviceDetected(t, d1).0, d2).1 == Some(ProximityEvent(BattleReady, d2))
  {
  }

  /** A re-sighting with a zero reading has the unknown distance -1, which
      passes the distance test, and a zero reading passes the strength test;
      so it raises `battle_ready`. */
  lemma ZeroReadingIsBattleReady(t: Tracker, a: Advertisement, now: int, pow: Distance.Pow)
    requires Valid(t) && t.scanning && t.listening
    requires a.rssi == 0 && a.id in t.registry.entries
    requires a.name.Some? && a.name.value != ""
    ensures OnScanResult(t, Scanned(Some(a)), now, pow).1 == Some(ProximityEvent(BattleReady, MakeDeviceInfo(a, now, pow)))
    ensures MakeDeviceInfo(a, now, pow).distance == Distance.Unknown
  {
  }
}
