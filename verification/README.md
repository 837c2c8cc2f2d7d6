# Proximity battle client — Dafny model

This project models the client-side logic of a React Native "proximity battle"
app. The app scans for nearby Bluetooth devices, estimates how far away each
one is from its signal strength (RSSI), and lets the user start a battle with
a nearby device over a Socket.IO connection. Three pieces hold the logic, and
each is modelled as pure step functions over immutable state:

- **ProximityService** (`src/services/ProximityService.ts`). It has a scan
  flag and a registry of devices keyed by id. The registry is a JavaScript
  `Map`, so it keeps insertion order. Every scan sample is classified into
  at most one proximity event: `device_detected` on the first sighting of an
  id; `battle_ready` on a later sighting within 2 m and at −60 dBm or
  stronger; nothing otherwise.
- **BattleService** (`src/services/BattleService.ts`). This is the battle
  client. It caches at most one battle snapshot pushed by the server, holds
  three optional callbacks, and sends intents (`initiate_battle`,
  `accept_battle`, `decline_battle`, `make_move`).
- **ProximityScanner** (`src/components/ProximityScanner.tsx`). This is the
  scanner screen. It keeps a device list updated by an
  upsert-or-append reducer, forwards `battle_ready` devices, refuses to scan
  before initialization, and enables a device's battle button when its
  distance is at most 2.

Files and modules:

| file | module | models |
|---|---|---|
| `wrappers.dfy` | `Wrappers` | `Option`, for `undefined` / optional fields |
| `decimal.dfy` | `Decimal` | decimal text of a number, as in `` `Player_${n}` `` |
| `ordered_map.dfy` | `OrderedMap` | JavaScript `Map`: `set`, `values()` in insertion order |
| `distance.dfy` | `Distance` | `calculateDistance` with `Math.pow` as a parameter |
| `proximity_service.dfy` | `ProximityService` | the scan flag, the registry and the event classifier |
| `battle_service.dfy` | `BattleService` | the snapshot cache, callbacks, sent-message log, player stats |
| `proximity_scanner.dfy` | `ProximityScanner` | the screen's list reducer, its flags, the screen composed with the service |

How the environment is modelled:

- **Clock.** `new Date()` becomes the parameter `now`.
- **Randomness.** Each `Math.random()` draw is a real parameter in [0, 1).
  The random fallback id is a string parameter.
- **Math.pow.** It is the parameter `pow`. Every property holds whatever the
  power function returns, except `Distance.UnknownExactlyForZeroReading`.
  That lemma assumes the power function is non-negative at the arguments
  `calculateDistance` passes.
- **Bluetooth backend.** It delivers `ScanResult`s. These reach the service
  only while it is scanning, because the backend calls the scan listener
  only between `startDeviceScan` and `stopDeviceScan`.
- **Socket.** Each `emit` is appended to the log `sent`. Each pushed event
  is an input to `Receive`. Each callback call is appended to the log
  `invoked`. The socket id the server assigns on connecting is a parameter.

Behaviour of the code worth noting:

- `battle_ready` is level-triggered. It fires again on every in-range
  re-sighting and never on a first sighting.
- `startScanning` silently does nothing when already scanning.
- `stopScanning` keeps the registry.
- Devices are never evicted for staleness, and `device_lost` is never raised.
- The near-field curve uses the exponent 10.0; the declared path-loss
  constant `n = 2.0` is unused.
- No move is validated and no damage is computed anywhere. The client
  sends moves without a `damage` field.
- A source comment gives health as "50-100", but the code yields 50 to 99.

## Model

| member | source | states |
|---|---|---|
| `Distance.CalculateDistance` | src/services/ProximityService.ts:123-137 | A zero reading gives the unknown distance −1. A positive reading, or a negative one stronger than −69 dBm, takes the near curve `ratio^10`. A reading at or below −69 dBm takes the far curve `0.89976·ratio^7.7095 + 0.111`. |
| `Distance.UnknownExactlyForZeroReading` | src/services/ProximityService.ts:129-136 | Assume the power function is non-negative at `(x, 10.0)` for every x and at `(x, 7.7095)` for x ≥ 1, as `Math.pow` is. Then the estimate is −1 exactly when the reading is 0. Every other estimate is non-negative, and a far-field estimate is at least 0.111. |
| `OrderedMap.Set` | src/services/ProximityService.ts:104-111 | `Map.set` keeps one entry per key. Afterwards the key maps to the new value and every other key is unchanged. A present key keeps its position. A new key is appended at the end of the iteration order. |
| `OrderedMap.Values` | src/services/ProximityService.ts:140 | `Array.from(map.values())` has one element per key in insertion order, and each element is the value stored under that key. |
| `OrderedMap.OrderLengthIsSize` | src/services/ProximityService.ts:21 | In a valid map, the insertion order has exactly as many positions as the map has keys. |
| `ProximityService.Initial` | src/services/ProximityService.ts:20-22 | The service starts not scanning, with an empty registry and no callback. |
| `ProximityService.SetProximityCallback` | src/services/ProximityService.ts:143-145 | Installing the callback changes neither the scan flag nor the registry. |
| `ProximityService.StartScanning` | src/services/ProximityService.ts:61-64 | Afterwards the service is scanning. When it was already scanning, nothing changes. The registry is never touched. |
| `ProximityService.StopScanning` | src/services/ProximityService.ts:83-88 | Afterwards the service is not scanning. When it already was not, nothing changes. The registry is kept in both cases. |
| `ProximityService.Cleanup` | src/services/ProximityService.ts:159-162 | Cleanup stops scanning and keeps the registry. |
| `ProximityService.MakeDeviceInfo` | src/services/ProximityService.ts:92-98 | The record carries the sample's id and rssi, the current time and the estimated distance. Its name is the device's name, or "Unknown Device" when that name is absent or empty. |
| `ProximityService.HandleDeviceDetected` | src/services/ProximityService.ts:100-121 | The registry stays one entry per id, and the sample becomes that id's entry. Other ids are unchanged. The registry grows only on a first sighting. With a callback installed: a first sighting delivers exactly `device_detected` with the sample. A re-sighting delivers `battle_ready` exactly when distance ≤ 2 and rssi ≥ −60, and nothing otherwise. A first sighting never delivers `battle_ready`. Without a callback nothing is delivered. |
| `ProximityService.OnScanResult` | src/services/ProximityService.ts:67-80 | Nothing changes and no event fires when the service is not scanning, on a scan error, when no device is reported, or when the device has no name or an empty one. A named device while scanning is handled as a sighting. |
| `ProximityService.GetDetectedDevices` | src/services/ProximityService.ts:139-141 | The result has one element per registered id, with no id repeated. Each element is the entry stored under its id, and every entry appears. |
| `ProximityService.BattleReadyRefires` | src/services/ProximityService.ts:109-120 | Readiness is level-triggered. Any in-range sighting of a registered id delivers `battle_ready`, however many have fired before. |
| `ProximityService.ZeroReadingIsBattleReady` | src/services/ProximityService.ts:113-119 | A named re-sighting with rssi 0 gets the distance −1 and passes both thresholds, so it delivers `battle_ready`. |
| `BattleService.Initial` | src/services/BattleService.ts:30-46 | The client starts disconnected, with no cached battle and empty logs. |
| `BattleService.Connect` | src/services/BattleService.ts:78-82 | Afterwards the client is connected. It acts only when disconnected, and a connected client is unchanged. Nothing else changes. |
| `BattleService.Disconnect` | src/services/BattleService.ts:84-88 | Afterwards the client is disconnected. It acts only when connected. Nothing else changes. |
| `BattleService.Receive` | src/services/BattleService.ts:56-75 | `battle_started` and `battle_update` set the cache to exactly the pushed snapshot. Each calls only its own callback, with that snapshot, and only if that callback is set. `battle_ended` calls `onBattleEnd` with the winner and leaves the cache unchanged. An error changes nothing. Each push adds at most one call to the log, at its end, and sends nothing. |
| `BattleService.ReceiveAllCache` | src/services/BattleService.ts:56-71 | After any sequence of pushes, the cache holds the latest pushed `battle_started` or `battle_update` snapshot, or the earlier cache when none was pushed. |
| `BattleService.ReceiveAllInvocations` | src/services/BattleService.ts:56-71 | After any sequence of pushes, the callback calls match the pushes one for one, in arrival order, with none merged or reordered. A push whose handler is unset causes no call. |
| `BattleService.ReceiveAllKeeps` | src/services/BattleService.ts:56-75 | Pushes never send a message, never change the connection and never change the registered callbacks. |
| `BattleService.SetBattleCallbacks` | src/services/BattleService.ts:146-154 | All three handlers are replaced by the arguments. An omitted handler becomes unset. Nothing else changes. |
| `BattleService.Initiate` | src/services/BattleService.ts:90-110 | It connects first when disconnected. It appends exactly one `initiate_battle` message, whose target is the device's id and whose player is the given data. It returns true. |
| `BattleService.Accept` | src/services/BattleService.ts:112-118 | It appends exactly one `accept_battle` message with the battle id and the player. |
| `BattleService.Decline` | src/services/BattleService.ts:120-123 | It appends exactly one `decline_battle` message with the battle id. |
| `BattleService.Move` | src/services/BattleService.ts:125-140 | With no cached battle, nothing is sent. Otherwise exactly one `make_move` is appended. It carries `SocketId` (this socket's id, or the empty string when there is none), the given action and target, and no damage. |
| `BattleService.MoveAfterEndIsSent` | src/services/BattleService.ts:68-71 | `battle_ended` does not clear the cache, so a move made after a battle has ended is still sent. |
| `BattleService.Cleanup` | src/services/BattleService.ts:168-171 | Afterwards the client is disconnected and has no cached battle. |
| `BattleService.Scaled` | src/services/BattleService.ts:161-164 | For a draw in [0, 1), `floor(x·w) + o` lies in [o, o + w − 1]. |
| `BattleService.GeneratePlayerStats` | src/services/BattleService.ts:157-166 | Health is in [50, 99], attack in [10, 29], defense in [5, 19] and level in [1, 10]. The id is `SocketId` (the socket's id) when that is non-empty, and the random id otherwise. The name is `Player_` followed by a number below 1000. |
| `Decimal.NatToString` | src/services/BattleService.ts:160 | The number in `` `Player_${n}` `` is rendered as a non-empty string of digits, with no leading zero unless the number is 0, one character long exactly for numbers below 10. |
| `Decimal.StringToNatOfNatToString` | src/services/BattleService.ts:160 | The number in a generated name can be read back from its decimal text. |
| `ProximityScanner.Upsert` | src/components/ProximityScanner.tsx:56-63 | A listed id: the length is unchanged, every element with that id becomes the new device, and all others stay where they are. A new id: the device is appended and earlier elements are unchanged. Unique ids stay unique. |
| `ProximityScanner.UpsertReplacesOne` | src/components/ProximityScanner.tsx:57-59 | With unique ids, upserting a listed id replaces exactly that one element. The elements before and after it are unchanged. |
| `ProximityScanner.OnProximityEvent` | src/components/ProximityScanner.tsx:54-67 | `device_detected` upserts the device into the list. `battle_ready` forwards the device to `onBattleReady` and leaves the list unchanged. `device_lost` changes nothing. |
| `ProximityScanner.Mount` | src/components/ProximityScanner.tsx:23-25 | A fresh screen is not initialized, not scanning, and has an empty list. |
| `ProximityScanner.Initialize` | src/components/ProximityScanner.tsx:34-51 | When permissions are granted, the screen is marked initialized and the service's callback is installed. Otherwise the permission alert is raised and nothing changes. The list and the registry are untouched. |
| `ProximityScanner.StartScanning` | src/components/ProximityScanner.tsx:70-83 | Before initialization the scan is refused with an alert, and nothing changes, so the scanning flag stays false. Afterwards both the screen and the service are scanning. |
| `ProximityScanner.StopScanning` | src/components/ProximityScanner.tsx:85-88 | Both flags are lowered. The list and the registry are kept. |
| `ProximityScanner.Remount` | src/components/ProximityScanner.tsx:27-32 | Unmount runs the service's cleanup, which stops scanning and keeps the registry. The remounted screen starts with an empty list. |
| `ProximityScanner.Observe` | src/components/ProximityScanner.tsx:54-67 | A sighting passed through the service and the screen: the service stores it under its id. With the callback installed, a first sighting upserts it into the list, and an in-range re-sighting is forwarded to `onBattleReady` with the list unchanged. Otherwise the list is unchanged and nothing is forwarded. The flags never change. |
| `ProximityScanner.ObserveAll` | src/components/ProximityScanner.tsx:54-67 | Any sequence of sightings keeps the registry valid and leaves the scan flags, the initialized flag and the installed callback as they were. |
| `ProximityScanner.OnScan` | src/components/ProximityScanner.tsx:54-67 | A scan result while scanning, for a device with a non-empty name, travels exactly as `Observe` of its record. That record carries the name, the estimated distance, the rssi and the time. Every other result (not scanning, an error, no device, no name or an empty one) changes nothing and forwards nothing. A device reaches `onBattleReady` only for an already-registered id within both thresholds. |
| `ProximityScanner.ListHoldsFirstSightings` | src/components/ProximityScanner.tsx:55-63 | Start from an empty list and an empty registry, with the callback installed. After any sequence of sightings, the list holds each device's first sample and never an update. Its ids are the registry's ids, in the same order. |
| `ProximityScanner.KnownDeviceNeverListed` | src/components/ProximityScanner.tsx:27-32 | A sighting of a registered id never changes the list. After a remount and re-initialization, devices seen before the remount never reappear on the new list. |
| `ProximityScanner.ButtonLookMatchesEnabling` | src/components/ProximityScanner.tsx:126-143 | The ready look and label (`distance <= 2`) are shown exactly when the button is not disabled (`disabled={distance > 2}`), which is the service's distance threshold. The unknown distance −1 looks ready and can be pressed. |
| `ProximityScanner.PressBattle` | src/components/ProximityScanner.tsx:90-108 | A disabled button (distance > 2) does nothing. An enabled one appends exactly one `initiate_battle` to the earlier log, for that device's id, with the stats `generatePlayerStats` produces (health in [50, 99]), and shows the confirmation alert. The cached battle, the callbacks and the callback log are unchanged. |

## Left out

- Floating-point values: the power curves are an uninterpreted parameter, so no numeric distance is computed. Monotonicity of the estimate in the signal strength is therefore not stated.
- The `rssi` reported by the radio library may be `null`; the model takes it as an integer.
- Permission requests and enabling Bluetooth (`initialize`, `requestBluetoothPermission`): foreign calls. Their outcome is the `granted` parameter of `ProximityScanner.Initialize`. The exception path that shows a generic alert is not modelled.
- `getCurrentLocation`: a foreign location call, unused by the core.
- Destroying the radio manager in `cleanup`: a foreign call. Scans after a remount are not modelled as failing.
- ProximityScanner.Remount: the callback left behind by the unmounted screen still forwards `battle_ready` to the app's handler. The model treats events between remount and re-initialization as reaching no screen.
- The 30-second auto-stop `setTimeout` of the screen: a timer.
- The socket transport: connecting is modelled as completing at once, with the server-assigned id as a parameter. The `connect`/`disconnect` listeners only log. A server-side disconnect is not modelled.
- BattleService.Initiate: the `try`/`catch` that returns false cannot be reached, because `emit` does not throw. The model always returns true.
- `getCurrentBattle` is the read of the `current` field and has no separate member.
- Console logging and alerts' wording; React rendering and styles.
- The screen navigation and modals of the app shell, and the relay server: the server never sends `battle_started`, `battle_update` or `battle_ended`, so pushes are free inputs here.
