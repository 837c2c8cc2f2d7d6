/** The scanner screen: its device list, its flags, how it reacts to the
    proximity service's events, and when its battle button is enabled. The
    screen and the service it drives are composed in `System`. */
module ProximityScanner {
  import opened Wrappers
  import Distance
  import ProximityService
  import BattleService
  import OrderedMap

  type DeviceInfo = ProximityService.DeviceInfo

  /** The screen's React state. */
  datatype Screen = Screen(initialized: bool, scanning: bool, devices: seq<DeviceInfo>)

  /** A user-visible alert the screen raises. */
  datatype Alert = NotReady | PermissionNeeded | BattleRequestSent | BattleRequestFailed

  predicate HasId(devices: seq<DeviceInfo>, id: string)
  {
    exists i :: 0 <= i < |devices| && devices[i].id == id
  }

  function Ids(devices: seq<DeviceInfo>): seq<string>
  {
    seq(|devices|, i requires 0 <= i < |devices| => devices[i].id)
  }

  predicate UniqueIds(devices: seq<DeviceInfo>)
  {
    forall i, j :: 0 <= i < j < |devices| ==> devices[i].id != devices[j].id
  }

  /** The `setDevices` reducer: a device whose id is listed replaces every
      element with that id where it stands; a new id is appended. */
  function Upsert(devices: seq<DeviceInfo>, d: DeviceInfo): (r: seq<DeviceInfo>)
    ensures HasId(devices, d.id) ==> |r| == |devices|
    ensures HasId(devices, d.id) ==> forall i :: 0 <= i < |r| ==>
      r[i] == (if devices[i].id == d.id then d else devices[i])
    ensures !HasId(devices, d.id) ==> |r| == |devices| + 1 && r[..|devices|] == devices && r[|devices|] == d
    ensures UniqueIds(devices) ==> UniqueIds(r)
  {
    if HasId(devices, d.id) then
      seq(|devices|, i requires 0 <= i < |devices| => if devices[i].id == d.id then d else devices[i])
    else devices + [d]
  }

  /** With unique ids, upserting a listed id changes exactly one element. */
  lemma UpsertReplacesOne(devices: seq<DeviceInfo>, d: DeviceInfo, k: nat)
    requires UniqueIds(devices)
    requires k < |devices| && devices[k].id == d.id
    ensures var r := Upsert(devices, d);
      |r| == |devices| && r[k] == d && r[..k] == devices[..k] && r[k + 1..] == devices[k + 1..]
  {
  }

  /** The proximity callback of `setupProximityCallbacks`: `device_detected`
      upserts the device; `battle_ready` hands the device to `onBattleReady`
      (returned here) and leaves the list alone; any other event is ignored. */
  function OnProximityEvent(s: Screen, e: ProximityService.ProximityEvent): (r: (Screen, Option<DeviceInfo>))
    ensures r.0.initialized == s.initialized && r.0.scanning == s.scanning
    ensures e.kind == ProximityService.DeviceDetected ==> r.0.devices == Upsert(s.devices, e.device) && r.1 == None
    ensures e.kind == ProximityService.BattleReady ==> r.0 == s && r.1 == Some(e.device)
    ensures e.kind == ProximityService.DeviceLost ==> r == (s, None)
  {
    match e.kind
    case DeviceDetected => (s.(devices := Upsert(s.devices, e.device)), None)
    case BattleReady => (s, Some(e.device))
    case DeviceLost => (s, None)
  }

  /** The screen and the proximity service it drives. */
  datatype System = System(screen: Screen, tracker: ProximityService.Tracker)

  predicate Valid(sys: System)
  {
    ProximityService.Valid(sys.tracker)
  }

  /** The freshly mounted screen over a fresh service. */
  function Mount(): (sys: System)
    ensures Valid(sys)
    ensures !sys.screen.initialized && !sys.screen.scanning && sys.screen.devices == []
  {
    System(Screen(false, false, []), ProximityService.Initial())
  }

  /** `initializeProximityService`: `granted` is what the permission requests
      return. On success the screen is marked ready and installs its
      proximity callback; otherwise it alerts and stays uninitialized. */
  function Initialize(sys: System, granted: bool): (r: (System, Option<Alert>))
    ensures granted ==> r.0.screen.initialized && r.0.tracker.listening && r.1 == None
    ensures !granted ==> r.0 == sys && r.1 == Some(PermissionNeeded)
    ensures r.0.tracker.registry == sys.tracker.registry && r.0.tracker.scanning == sys.tracker.scanning
    ensures r.0.screen.devices == sys.screen.devices
  {
    if granted then
      (System(sys.screen.(initialized := true), ProximityService.SetProximityCallback(sys.tracker)), None)
    else (sys, Some(PermissionNeeded))
  }

  /** The screen's `startScanning`: refused with an alert before
      initialization; otherwise raises the screen flag and starts the
      service (the 30 second auto-stop timer is not modelled). */
  function StartScanning(sys: System): (r: (System, Option<Alert>))
    ensures !sys.screen.initialized ==> r == (sys, Some(NotReady))
    ensures sys.screen.initialized ==> r.1 == None && r.0.screen.scanning && r.0.tracker.scanning
    ensures r.0.screen.devices == sys.screen.devices && r.0.tracker.registry == sys.tracker.registry
  {
    if !sys.screen.initialized then (sys, Some(NotReady))
    else (System(sys.screen.(scanning := true), ProximityService.StartScanning(sys.tracker)), None)
  }

  /** The screen's `stopScanning`: lowers both flags; the list and the
      registry are kept. */
  function StopScanning(sys: System): (r: System)
    ensures !r.screen.scanning && !r.tracker.scanning
    ensures r.screen.devices == sys.screen.devices && r.tracker.registry == sys.tracker.registry
  {
    System(sys.screen.(scanning := false), ProximityService.StopScanning(sys.tracker))
  }

  /** Unmounting runs the service's `cleanup` (which stops scanning but keeps
      the registry of the process-wide service); mounting again starts a new
      screen with an empty list over that same service. The callback still
      installed in the service belongs to the unmounted screen, so until the
      new screen installs its own no event reaches the new list. */
  function Remount(sys: System): (r: System)
    requires Valid(sys)
    ensures Valid(r)
    ensures !r.screen.initialized && r.screen.devices == [] && !r.tracker.scanning
    ensures r.tracker.registry == sys.tracker.registry
  {
    System(Screen(false, false, []), ProximityService.Cleanup(sys.tracker).(listening := false))
  }

  /** One registered sample travelling through service and screen; returns
      the device handed to `onBattleReady`, if any. */
  function Observe(sys: System, d: DeviceInfo): (r: (System, Option<DeviceInfo>))
    requires Valid(sys)
    ensures Valid(r.0)
    ensures r.0.tracker.scanning == sys.tracker.scanning && r.0.tracker.listening == sys.tracker.listening
    ensures r.0.screen.initialized == sys.screen.initialized && r.0.screen.scanning == sys.screen.scanning
    ensures r.0.tracker == ProximityService.HandleDeviceDetected(sys.tracker, d).0
    ensures OrderedMap.Get(r.0.tracker.registry, d.id) == Some(d)
    ensures r.0.screen.devices ==
      (if sys.tracker.listening && d.id !in sys.tracker.registry.entries then Upsert(sys.screen.devices, d)
       else sys.screen.devices)
    ensures r.1 ==
      (if sys.tracker.listening && d.id in sys.tracker.registry.entries && ProximityService.InRange(d) then Some(d)
       else None)
  {
    var (t, e) := ProximityService.HandleDeviceDetected(sys.tracker, d);
    if e.Some? then
      var (s, ready) := OnProximityEvent(sys.screen, e.value);
      (System(s, t), ready)
    else (System(sys.screen, t), None)
  }

  /** A scan-listener call travelling through service and screen. */
  function OnScan(sys: System, sr: ProximityService.ScanResult, now: int, pow: Distance.Pow): (r: (System, Option<DeviceInfo>))
    requires Valid(sys)
    ensures Valid(r.0)
    ensures r.1.Some? ==> sys.tracker.scanning && sys.tracker.listening && ProximityService.InRange(r.1.value)
    ensures r.1.Some? ==> r.1.value.id in sys.tracker.registry.entries
    ensures sys.tracker.scanning && sr.Scanned? && sr.device.Some? && sr.device.value.name.Some? && sr.device.value.name.value != "" ==>
      r == Observe(sys, ProximityService.MakeDeviceInfo(sr.device.value, now, pow))
    ensures !(sys.tracker.scanning && sr.Scanned? && sr.device.Some? && sr.device.value.name.Some? && sr.device.value.name.value != "") ==>
      r == (sys, None)
  {
    var (t, e) := ProximityService.OnScanResult(sys.tracker, sr, now, pow);
    if e.Some? then
      var (s, ready) := OnProximityEvent(sys.screen, e.value);
      (System(s, t), ready)
    else (System(sys.screen, t), None)
  }

  /** The samples fed to the service, in order. */
  function ObserveAll(sys: System, ds: seq<DeviceInfo>): (r: System)
    requires Valid(sys)
    ensures Valid(r)
    ensures r.tracker.scanning == sys.tracker.scanning && r.tracker.listening == sys.tracker.listening
    ensures r.screen.initialized == sys.screen.initialized && r.screen.scanning == sys.screen.scanning
    decreases |ds|
  {
    if |ds| == 0 then sys else Observe(ObserveAll(sys, ds[..|ds| - 1]), ds[|ds| - 1]).0
  }

  /** For each id in `ds`, its first sample, in order of first appearance. */
  function FirstSightings(ds: seq<DeviceInfo>): seq<DeviceInfo>
    decreases |ds|
  {
    if |ds| == 0 then []
    else
      var prior := FirstSightings(ds[..|ds| - 1]);
      if HasId(prior, ds[|ds| - 1].id) then prior else prior + [ds[|ds| - 1]]
  }

  /** The screen's list only grows on `device_detected`, which the service
      raises only on a first sighting; so from a fresh, listening start the
      list holds every device's first sample, never updated, in the order
      the service registered them, and always one per registered id. */
  lemma {:induction false} ListHoldsFirstSightings(sys: System, ds: seq<DeviceInfo>)
    requires Valid(sys) && sys.tracker.listening
    requires sys.screen.devices == [] && sys.tracker.registry.order == []
    ensures ObserveAll(sys, ds).screen.devices == FirstSightings(ds)
    ensures Ids(ObserveAll(sys, ds).screen.devices) == ObserveAll(sys, ds).tracker.registry.order
    decreases |ds|
  {
    if |ds| > 0 {
      var front := ds[..|ds| - 1];
      var d := ds[|ds| - 1];
      var prev := ObserveAll(sys, front);
      ListHoldsFirstSightings(sys, front);
      ListedIffIdListed(prev.screen.devices, d.id);
      var next := Observe(prev, d).0;
      assert ObserveAll(sys, ds) == next;
      if HasId(prev.screen.devices, d.id) {
        assert next.screen.devices == prev.screen.devices;
        assert next.tracker.registry.order == prev.tracker.registry.order;
      } else {
        assert next.screen.devices == prev.screen.devices + [d];
        assert next.tracker.registry.order == prev.tracker.registry.order + [d.id];
        assert Ids(prev.screen.devices + [d]) == Ids(prev.screen.devices) + [d.id];
      }
    }
  }

  /** A device is listed exactly when its id is among the list's ids. */
  lemma ListedIffIdListed(devices: seq<DeviceInfo>, id: string)
    ensures HasId(devices, id) <==> id in Ids(devices)
  {
    if id in Ids(devices) {
      var i :| 0 <= i < |devices| && Ids(devices)[i] == id;
      assert devices[i].id == id;
    }
    if HasId(devices, id) {
      var i :| 0 <= i < |devices| && devices[i].id == id;
      assert Ids(devices)[i] == id;
    }
  }

  /** A device the service has registered never enters the list again: its
      samples raise no `device_detected`. After a remount the list is empty
      while the registry is not, so devices seen before the remount stay
      off the new list for good. */
  lemma KnownDeviceNeverListed(sys: System, d: DeviceInfo)
    requires Valid(sys) && d.id in sys.tracker.registry.entries
    ensures Observe(sys, d).0.screen.devices == sys.screen.devices
    ensures Observe(Initialize(Remount(sys), true).0, d).0.screen.devices == []
  {
  }

  /** The battle button's look and label: `distance <= 2` selects the
      ready style, the white icon and the "Battle!" text. */
  predicate BattleEnabled(d: DeviceInfo)
  {
    d.distance <= 2.0
  }

  /** The button's `disabled` property: `distance > 2`. */
  predicate Disabled(d: DeviceInfo)
  {
    d.distance > 2.0
  }

  /** The button looks ready exactly when it can be pressed, at the
      service's own distance threshold; the unknown distance -1 is both. */
  lemma ButtonLookMatchesEnabling(d: DeviceInfo)
    ensures BattleEnabled(d) <==> !Disabled(d)
    ensures !Disabled(d) <==> d.distance <= ProximityService.BattleThreshold
    ensures d.distance == Distance.Unknown ==> BattleEnabled(d) && !Disabled(d)
  {
  }

  /** Pressing a device's battle button: nothing happens while it is
      disabled; otherwise fresh player stats are generated and a battle
      request for that device is sent, followed by a confirmation alert. */
  function PressBattle(c: BattleService.Client, d: DeviceInfo, draws: BattleService.Draws, now: int, sid: string): (r: (BattleService.Client, Option<Alert>))
    requires BattleService.ValidDraws(draws)
    ensures Disabled(d) ==> r == (c, None)
    ensures !Disabled(d) ==> r.1 == Some(BattleRequestSent) && |r.0.sent| == |c.sent| + 1
    ensures !Disabled(d) ==> r.0.sent[|c.sent|].InitiateBattle? && r.0.sent[|c.sent|].targetDeviceId == d.id
    ensures !Disabled(d) ==> 50 <= r.0.sent[|c.sent|].player.health <= 99
    ensures !Disabled(d) ==> r.0.sent == c.sent + [BattleService.InitiateBattle(d.id, BattleService.GeneratePlayerStats(c, draws), now)]
    ensures r.0.current == c.current && r.0.callbacks == c.callbacks && r.0.invoked == c.invoked
  {
    if Disabled(d) then (c, None)
    else
      var player := BattleService.GeneratePlayerStats(c, draws);
      var (c', ok) := BattleService.Initiate(c, d, player, now, sid);
      (c', Some(if ok then BattleRequestSent else BattleRequestFailed))
  }
}
