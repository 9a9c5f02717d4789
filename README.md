# Wake-on-LAN adapter: reachability bookkeeping

A model of the core of the smart-home gateway's Wake-on-LAN adapter. The adapter
turns each configured MAC address into a device. A device has a read-only `on`
property ("Awake") and a `wake` action. While ping checking is enabled, a
repeating timer scans the ARP table and updates every device's `on` value. A
device found in the table is probed at the IP of the matching entry. A device
that is not in the table is taken to be off.

The model has five modules:

- `Wrappers` (`wrappers.dfy`): `Option`.
- `MacAddress` (`mac_address.dfy`): the case-insensitive MAC comparison, `Lower(a) == Lower(b)`.
- `ArpTable` (`arp_table.dfy`): `getDeviceInfoFromArpTable`.
  - The lookup is a function on the snapshot: the first entry that matches ignoring case, or the `'?'` stub with no IP.
  - The source overwrites the matched entry's MAC in place. The model threads the overwritten snapshot through the startup loop (`Overwritten`). It proves that no later lookup can observe the overwrite.
- `WakeOnLanDevice` (`wake_on_lan_device.dfy`): the `Device` class.
  - The ID, MAC, name and the presence of `on` are constants.
  - The `on` value and the number of change notifications are fields that `SetOn` and `CheckPing` update in place.
  - Each method is proved against a function on `DeviceState` values (`SetOnState`, `ProbeState`), and the properties are proved about those functions.
- `WakeOnLanAdapter` (`wake_on_lan_adapter.dfy`): the `Adapter` class.
  - It holds the registry `devices: map<string, Device>`, the `checkPing` flag, whether `this.interval` holds a timer handle (`interval`), and how many timers are still firing (`liveTimers`).
  - `PingTick` is one firing of the timer, a loop over the registry. It is proved against `TickState`, the effect of one tick on one device.

Two points where the code behaves differently from what a reader might expect:

- The device ID is `wake-on-lan-` followed by the MAC exactly as configured, not lower-cased. A MAC listed twice gives one device, but two spellings that differ only in letter case give two devices, although both match the same ARP entries. `RegistrySize` states this: there is one device per distinct configured spelling.
- `startPingChecker` is unguarded, and the constructor calls it after `handleDeviceAdded` has already started a checker (see Findings).

## Model

| member | source | states |
|---|---|---|
| `MacAddress.Lower` | index.js:11 | the lower-cased MAC has the same length, and each character is lower-cased (ASCII letters only) |
| `MacAddress.LowerIdempotent` | index.js:11-13 | lower-casing twice is lower-casing once, so every MAC matches its lower-case spelling |
| `MacAddress.SameMac` | index.js:11-13 | two MAC spellings match only if they have the same length; every spelling matches itself |
| `MacAddress.SameMacIgnoresCase` | index.js:11-13 | for all spellings: two MACs match iff they have the same length and agree character by character once letter case is ignored |
| `ArpTable.FindArp` | index.js:12-13 | the result is the index of the first entry whose MAC matches ignoring case; it is absent iff no entry matches |
| `ArpTable.DeviceInfoFromArp` | index.js:10-25 | the result always carries the configured MAC spelling; it has an IP iff some entry matches; with a match it has the IP and name of the first matching entry; otherwise it has name `'?'` and no IP (which covers the `[]` default) |
| `ArpTable.AfterLookup` | index.js:15-18 | the in-place overwrite sets the MAC of the first matching entry to the configured spelling; every other entry is left exactly as it was (so with no match the snapshot is unchanged); IPs, names, order and case-insensitive MACs are kept |
| `ArpTable.LookupIgnoresCase` | index.js:11-13 | configured MACs that differ only in case find the same entry, with the same IP and name |
| `ArpTable.LookupUnaffectedByOverwrite` | index.js:15-18 | after one lookup has overwritten its entry, any later lookup (for any MAC) gives the same result as in the untouched snapshot |
| `ArpTable.Overwritten` | index.js:44-48 | the snapshot after the startup loop's lookups so far has as many entries as the scan, and each entry's MAC is either the scanned one or one of the configured spellings looked up |
| `ArpTable.OverwrittenSameNeighbours` | index.js:44-48 | any number of lookups in a row only change MAC spellings of the snapshot, never its entries or their order |
| `ArpTable.LookupAfterOverwrites` | index.js:44-48 | each lookup in the startup loop gives what it would give in the untouched scan |
| `WakeOnLanDevice.DeviceId` | index.js:121 | the ID is the prefix `wake-on-lan-` followed by the MAC as spelled, which can be read back from the ID |
| `WakeOnLanDevice.DeviceIdInjective` | index.js:121 | different MAC spellings give different IDs |
| `WakeOnLanDevice.FallbackName` | index.js:124 | the fallback label is `WoL (` then the MAC as spelled then `)` |
| `WakeOnLanDevice.InitialState` | index.js:120-135 | a new device is named by the given name if non-empty, else `WoL (<mac>)`; it has an `on` property iff the adapter checks pings, with value false and no notification sent |
| `WakeOnLanDevice.SetOnState` | index.js:147-153 | the state changes iff an `on` property exists and its value differs; a change sets the value and counts exactly one notification; identity fields never change |
| `WakeOnLanDevice.ProbeState` | index.js:138-145 | with an `on` property the value becomes true iff the probe answered alive (a probe that threw counts as false); without one nothing changes; a notification is sent iff the value actually changes (edge-triggered), and then exactly one |
| `WakeOnLanDevice.RepeatedSetOnNotifiesOnce` | index.js:147-153 | setting the same value any number of times in a row equals setting it once, and notifies at most once |
| `WakeOnLanDevice.Device.constructor` | index.js:120-135 | the ID is `wake-on-lan-<mac>` and the state is `InitialState` |
| `WakeOnLanDevice.Device.SetOn` | index.js:147-153 | the new state is `SetOnState` of the old one |
| `WakeOnLanDevice.Device.CheckPing` | index.js:138-145 | the new state is `ProbeState` of the old one and of the probe's answer for `ip` |
| `WakeOnLanDevice.Device.PerformAction` | index.js:155-170 | an action other than `wake` is rejected with `Unknown action` and sends nothing; `wake` sends for the device's MAC and resolves iff the send reports no error and a truthy result, otherwise it rejects with `Wake failed`; no state changes |
| `WakeOnLanDevice.Device.SetOnPropertyValue` | index.js:179-181 | writing the `on` property is always rejected with `Read only property`, and the value stays |
| `WakeOnLanAdapter.CheckPingSetting` | index.js:35-37 | `checkPing` is true when the key is absent, otherwise the configured value |
| `WakeOnLanAdapter.StartupSnapshot` | index.js:39-58 | with pings checked the MACs are looked up in the scan; without, every lookup (the `[]` default) finds nothing and gives the `'?'` stub with no IP |
| `WakeOnLanAdapter.ProbeTarget` | index.js:69-71 | `addDevice` probes right away iff the lookup gave a non-empty IP, and then at that IP |
| `WakeOnLanAdapter.AddedState` | index.js:63-73 | a newly added device is named by the ARP name unless it is `'?'` or empty, then `WoL (<mac>)`, so never `'?'` or empty; it has `on` iff `checkPing`; `on` is true iff an IP was known and the immediate probe answered alive, with one notification exactly then |
| `WakeOnLanAdapter.AddStates` | index.js:63-72 | adding is idempotent on the ID: a taken ID leaves the registry unchanged, otherwise exactly that ID is added |
| `WakeOnLanAdapter.RegisteredExtend` | index.js:44-48 | adding the next configured MAC, repeat or not, keeps the registry equal to one device per configured spelling, each with the state its first addition gave it |
| `WakeOnLanAdapter.DeviceIdsCountSpellings` | index.js:121 | a set of MAC spellings has as many distinct IDs as spellings |
| `WakeOnLanAdapter.RegistrySize` | index.js:44-48 | after startup the registry holds exactly as many devices as there are distinct configured spellings |
| `WakeOnLanAdapter.TickState` | index.js:92-101 | a device with no matching ARP entry gets `setOn(false)` (so `on` is false); a device with one is probed at the IP of the first matching entry; identity fields are kept |
| `WakeOnLanAdapter.TickSettles` | index.js:92-101 | a second tick over the same snapshot with the same probe answers changes nothing and sends no notification |
| `WakeOnLanAdapter.Adapter.constructor` | index.js:27-61 | `checkPing` follows the config default; every configured MAC is registered under its own ID with `AddedState` of its lookup (in the scan when pings are checked, in no snapshot otherwise), and nothing else is; every registered device is newly allocated; with pings checked and devices configured two timers are live |
| `WakeOnLanAdapter.Adapter.AddConfiguredDevices` | index.js:44-48 | the loop over the configured MACs registers them all, each a newly allocated device; the checker is started once, by the first addition |
| `WakeOnLanAdapter.Adapter.AddConfiguredDevice` | index.js:45-47 | one lookup-and-add step extends the registry and the overwritten snapshot by one MAC; every registered device is either one that was there before or newly allocated |
| `WakeOnLanAdapter.Adapter.AddDevice` | index.js:63-73 | a taken ID changes nothing and probes nothing; otherwise one fresh device with `AddedState` is registered, its known IP is probed, and the checker is started iff `checkPing` holds and no handle is stored |
| `WakeOnLanAdapter.Adapter.HandleDeviceAdded` | index.js:75-80 | registers the device under its ID; starts a timer exactly when `checkPing` holds and no handle is stored |
| `WakeOnLanAdapter.Adapter.HandleDeviceRemoved` | index.js:82-87 | removes the ID; stops the stored timer exactly when the registry becomes empty, otherwise leaves the timers alone |
| `WakeOnLanAdapter.Adapter.StartPingChecker` | index.js:89-104 | unguarded: always one more live timer, whose handle replaces the stored one |
| `WakeOnLanAdapter.Adapter.StopPingChecker` | index.js:106-111 | afterwards no handle is stored; the stored timer, if any, is the only one stopped; on a stopped checker nothing changes (idempotent) |
| `WakeOnLanAdapter.Adapter.Unload` | index.js:113-116 | always leaves the checker stopped, as `StopPingChecker` does |
| `WakeOnLanAdapter.Adapter.PingTick` | index.js:90-103 | every registered device's new state is `TickState` of its old state; exactly the devices with a matching entry are probed, each at the IP of its first matching entry |
| `WakeOnLanAdapter.Adapter.Reconcile` | index.js:93-101 | the loop body for one device: its new state is `TickState` of its old one, and it is recorded as probed iff its MAC is in the snapshot |
| `WakeOnLanAdapter.StartupLeavesTimerRunning` | index.js:47-52 | as written: one configured device, then its removal, leaves an empty registry with one timer still firing |
| `WakeOnLanAdapter.Adapter.WithSingleTimer` | index.js:47-52 | corrected startup: same registry as the constructor, and the only live timer is the stored one |
| `WakeOnLanAdapter.SingleTimerStopsWithLastDevice` | index.js:82-87 | with the corrected startup, removing the last device leaves no timer firing |
| `WakeOnLanAdapter.DeviceLeavesNetwork` | index.js:92-101 | after the as-written startup, a configured device found in the scan and answering is on; a tick with it absent from the ARP table turns it off without a probe, after exactly two notifications |
| `WakeOnLanAdapter.WakeLeavesOnAlone` | index.js:155-170 | a successful wake resolves, sends for the device's MAC, and leaves `on` as it was |

## Left out

- Loading the configuration (`Database.open`, `loadConfig`, the promise chain and its `catch`): the constructors take the loaded `Config`.
- The ARP scan, the ICMP probe and the magic-packet send are calls into other libraries. They become parameters: the scan's result, a function from IP to the probe's answer (`None` when the probe threw), and the two values `wol.wake` reports. A failed startup scan is the empty snapshot, because the lookup's `[]` default then applies. The magic-packet format is not modelled.
- Timing and concurrency: the 30-second period and `setInterval`/`clearInterval` are not modelled. Timers are counted, not run. A tick is applied atomically to one snapshot. A probe's answer is applied at once, not when its promise settles, so a late answer for a removed device is not modelled.
- `WakeOnLanAdapter.Adapter.PingTick`: visits the registry in no particular order rather than in the insertion order of `Object.values`. Each step changes only its own device, so the final states do not depend on the order.
- `MacAddress.Lower`: lower-cases only the ASCII letters A-Z, not the whole of Unicode as `toLowerCase` does.
- JavaScript truthiness: `checkPing` is a boolean, not an arbitrary configured value. A falsy name is the empty string. `result.alive` is a boolean.
- Host base classes: `handleDeviceAdded` and `handleDeviceRemoved` of the host insert and delete the registry entry. `notifyPropertyChanged` is counted. Action registration, `@context`, `@type`, the description text, the `readOnly` flag, `super.unload()`, the manifest and the module export are not modelled.

## Findings

| source | as written | input that shows it | evidently intended | confidence | as-written member | corrected member |
|---|---|---|---|---|---|---|
| index.js:47-51 | After adding the configured devices, the constructor calls `startPingChecker()` again. `handleDeviceAdded` has already started a checker for the first new device. The second call replaces the stored handle, and the first timer keeps firing. | devices `["AA:BB:CC:DD:EE:01"]` with `checkPing` absent, then that device is removed: the registry is empty but one timer is still live | one checker timer, stopped when the last device is removed or on unload | not executed; high | `WakeOnLanAdapter.StartupLeavesTimerRunning` | `WakeOnLanAdapter.Adapter.WithSingleTimer` |
