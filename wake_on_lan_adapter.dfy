/**
 * The adapter (`WakeOnLanAdapter`): the registry of devices keyed by
 * `wake-on-lan-<mac>`, the ping checker's repeating timer, and one tick of
 * that timer reconciling every device against a fresh ARP snapshot.
 */
module WakeOnLanAdapter {
  import opened Wrappers
  import opened MacAddress
  import opened ArpTable
  import opened WakeOnLanDevice

  /** The add-on's saved configuration; `checkPing` is `None` when the key is absent. */
  datatype Config = Config(devices: seq<string>, checkPing: Option<bool>)

  /** `config.hasOwnProperty('checkPing') ? config.checkPing : true`. */
  function CheckPingSetting(config: Config): (r: bool)
    ensures config.checkPing.None? ==> r
    ensures config.checkPing.Some? ==> r == config.checkPing.value
  {
    match config.checkPing
    case None => true
    case Some(b) => b
  }

  /** The snapshot the constructor looks configured MACs up in: the scan when
      pings are checked (a failed scan reads as `[]`), otherwise none. */
  function StartupSnapshot(checkPing: bool, scan: seq<ArpEntry>): (r: seq<ArpEntry>)
    ensures checkPing ==> r == scan
    ensures !checkPing ==> forall mac :: DeviceInfoFromArp(mac, r) == DeviceInfo(mac, None, UnknownName)
  {
    if checkPing then scan else []
  }

  /** `if (arpDevice.ip)`: the IP `addDevice` probes right away, if any. */
  function ProbeTarget(info: DeviceInfo): (r: Option<string>)
    ensures r.Some? <==> info.ip.Some? && info.ip.value != ""
    ensures r.Some? ==> r == info.ip
  {
    if info.ip.Some? && info.ip.value != "" then info.ip else None
  }

  /** The state of a device `addDevice` registers for `info`, once its
      immediate probe, if any, has answered. */
  function AddedState(checkPing: bool, info: DeviceInfo, probe: string -> Option<bool>): (s: DeviceState)
    ensures s.mac == info.mac && s.hasOn == checkPing
    ensures info.name != UnknownName && info.name != "" ==> s.name == info.name
    ensures info.name == UnknownName || info.name == "" ==> s.name == FallbackName(info.mac)
    ensures s.name != "" && s.name != UnknownName
    ensures s.on <==> checkPing && ProbeTarget(info).Some? && probe(ProbeTarget(info).value) == Some(true)
    ensures s.notifyCount == if s.on then 1 else 0
  {
    var s := InitialState(checkPing, info.mac, if info.name != UnknownName then info.name else "");
    match ProbeTarget(info)
    case Some(ip) => ProbeState(s, probe(ip))
    case None => s
  }

  /** What one tick does to one device: probe it at the IP of the first ARP
      entry with its MAC, or turn it off when no entry has its MAC. */
  function TickState(s: DeviceState, snapshot: seq<ArpEntry>, probe: string -> Option<bool>): (t: DeviceState)
    ensures t.mac == s.mac && t.name == s.name && t.hasOn == s.hasOn
    ensures FindArp(snapshot, s.mac).None? ==> t == SetOnState(s, false)
    ensures FindArp(snapshot, s.mac).None? && s.hasOn ==> !t.on
    ensures forall k :: FirstMatch(snapshot, s.mac, k) ==> t == ProbeState(s, probe(snapshot[k].ip))
  {
    match FindArp(snapshot, s.mac)
    case Some(k) =>
      FirstMatchUnique(snapshot, s.mac, k);
      ProbeState(s, probe(snapshot[k].ip))
    case None => SetOnState(s, false)
  }

  /** A second tick over the same snapshot with the same probe answers
      changes nothing and sends no notification. */
  lemma TickSettles(s: DeviceState, snapshot: seq<ArpEntry>, probe: string -> Option<bool>)
    ensures TickState(TickState(s, snapshot, probe), snapshot, probe) == TickState(s, snapshot, probe)
  {
  }

  /** The registry's states after `addDevice` for `info`: unchanged when the
      ID is taken, otherwise with the new device added. */
  function AddStates(states: map<string, DeviceState>, checkPing: bool, info: DeviceInfo,
                     probe: string -> Option<bool>): (r: map<string, DeviceState>)
    ensures DeviceId(info.mac) in states ==> r == states
    ensures DeviceId(info.mac) !in states ==>
              r == states[DeviceId(info.mac) := AddedState(checkPing, info, probe)]
  {
    var id := DeviceId(info.mac);
    if id in states then states else states[id := AddedState(checkPing, info, probe)]
  }

  /** Every MAC of `macs` is registered under its own ID with the state
      `addDevice` gives it after a lookup in `snapshot`, and nothing else is. */
  ghost predicate Registered(states: map<string, DeviceState>, checkPing: bool, macs: seq<string>,
                             snapshot: seq<ArpEntry>, probe: string -> Option<bool>)
  {
    states.Keys == (set mac | mac in macs :: DeviceId(mac)) &&
    forall mac :: mac in macs ==>
      DeviceId(mac) in states &&
      states[DeviceId(mac)] == AddedState(checkPing, DeviceInfoFromArp(mac, snapshot), probe)
  }

  /** Adding one more configured MAC keeps the registry in step with the
      configuration, also when the MAC is a repeat: the first registration
      stands, and a repeat would have given the same state anyway. */
  lemma RegisteredExtend(states: map<string, DeviceState>, checkPing: bool, macs: seq<string>, mac: string,
                         snapshot: seq<ArpEntry>, probe: string -> Option<bool>)
    requires Registered(states, checkPing, macs, snapshot, probe)
    ensures Registered(AddStates(states, checkPing, DeviceInfoFromArp(mac, snapshot), probe),
                       checkPing, macs + [mac], snapshot, probe)
  {
  }

  /** Distinct spellings give distinct IDs, so there are as many IDs as spellings. */
  lemma {:induction false} DeviceIdsCountSpellings(macs: set<string>)
    ensures |set m | m in macs :: DeviceId(m)| == |macs|
    decreases |macs|
  {
    if macs != {} {
      var m :| m in macs;
      var rest := macs - {m};
      DeviceIdsCountSpellings(rest);
      var ids := set x | x in rest :: DeviceId(x);
      assert (set x | x in macs :: DeviceId(x)) == ids + {DeviceId(m)};
      forall x | x in rest ensures DeviceId(x) != DeviceId(m) {
        if DeviceId(x) == DeviceId(m) {
          DeviceIdInjective(x, m);
        }
      }
    }
  }

  /** The registry holds one device per distinct configured spelling: a MAC
      listed twice gives one device, but two spellings that differ only in
      case give two, although both match the same ARP entries. */
  lemma RegistrySize(states: map<string, DeviceState>, checkPing: bool, macs: seq<string>,
                     snapshot: seq<ArpEntry>, probe: string -> Option<bool>)
    requires Registered(states, checkPing, macs, snapshot, probe)
    ensures |states| == |set m | m in macs|
  {
    var spellings := set m | m in macs;
    DeviceIdsCountSpellings(spellings);
    assert states.Keys == set m | m in spellings :: DeviceId(m);
    assert |states| == |states.Keys|;
  }

  class Adapter {
    /** `this.devices`, keyed by device ID. */
    var devices: map<string, Device>
    /** Whether devices get an `on` property and the ping checker runs. */
    var checkPing: bool
    /** Whether `this.interval` holds a timer handle. */
    var interval: bool
    /** How many repeating timers created by `startPingChecker` are still firing. */
    var liveTimers: nat

    ghost predicate Valid()
      reads this, devices.Values
    {
      (forall id :: id in devices ==>
         devices[id].id == id && id == DeviceId(devices[id].mac) && devices[id].hasOn == checkPing) &&
      (interval ==> liveTimers > 0)
    }

    /** The timer in `this.interval` is the only one still firing. */
    predicate TimerTracked()
      reads this
    {
      liveTimers == if interval then 1 else 0
    }

    /** The state of every registered device, by ID. */
    ghost function States(): (r: map<string, DeviceState>)
      reads this, devices.Values
      ensures r.Keys == devices.Keys
      ensures forall id :: id in devices ==> r[id] == devices[id].State()
    {
      map id | id in devices :: devices[id].State()
    }

    /** The constructor with the configuration already loaded: `scan` is what
        the ARP scan found and `probe` answers `ping.probe`. As written it
        starts the checker a second time after `handleDeviceAdded` has
        started it, so two timers are left firing. */
    constructor (config: Config, scan: seq<ArpEntry>, probe: string -> Option<bool>)
      ensures Valid()
      ensures checkPing == CheckPingSetting(config)
      ensures Registered(States(), checkPing, config.devices, StartupSnapshot(checkPing, scan), probe)
      ensures interval == (checkPing && |config.devices| > 0)
      ensures liveTimers == if interval then 2 else 0
      ensures forall id :: id in devices ==> fresh(devices[id])
    {
      devices := map[];
      checkPing := CheckPingSetting(config);
      interval := false;
      liveTimers := 0;
      new;
      if |config.devices| > 0 {
        if checkPing {
          AddConfiguredDevices(config.devices, scan, probe);
          StartPingChecker();
        } else {
          AddConfiguredDevices(config.devices, [], probe);
        }
      }
    }

    /** The constructor without the second `startPingChecker()`: the one
        `handleDeviceAdded` starts is the only timer, and its handle is kept. */
    constructor WithSingleTimer(config: Config, scan: seq<ArpEntry>, probe: string -> Option<bool>)
      ensures Valid() && TimerTracked()
      ensures checkPing == CheckPingSetting(config)
      ensures Registered(States(), checkPing, config.devices, StartupSnapshot(checkPing, scan), probe)
      ensures interval == (checkPing && |config.devices| > 0)
      ensures forall id :: id in devices ==> fresh(devices[id])
    {
      devices := map[];
      checkPing := CheckPingSetting(config);
      interval := false;
      liveTimers := 0;
      new;
      if |config.devices| > 0 {
        if checkPing {
          AddConfiguredDevices(config.devices, scan, probe);
        } else {
          AddConfiguredDevices(config.devices, [], probe);
        }
      }
    }

    /** The loop over `config.devices`: look each MAC up in the snapshot
        (which overwrites the matched entry's MAC) and add it. */
    method AddConfiguredDevices(macs: seq<string>, scan: seq<ArpEntry>, probe: string -> Option<bool>)
      requires Valid() && devices == map[] && !interval && liveTimers == 0
      modifies this
      ensures Valid() && checkPing == old(checkPing)
      ensures Registered(States(), checkPing, macs, scan, probe)
      ensures interval == (checkPing && |macs| > 0)
      ensures liveTimers == if interval then 1 else 0
      ensures forall id :: id in devices ==> fresh(devices[id])
    {
      var snapshot := scan;
      ghost var done: seq<string> := [];
      for i := 0 to |macs|
        invariant Valid() && checkPing == old(checkPing)
        invariant done == macs[..i]
        invariant snapshot == Overwritten(scan, done)
        invariant Registered(States(), checkPing, done, scan, probe)
        invariant i == 0 ==> devices == map[]
        invariant interval == (checkPing && i > 0)
        invariant liveTimers == if interval then 1 else 0
        invariant forall id :: id in devices ==> fresh(devices[id])
      {
        assert macs[..i + 1] == done + [macs[i]];
        snapshot := AddConfiguredDevice(macs[i], snapshot, probe, scan, done);
        done := done + [macs[i]];
      }
      assert macs[..|macs|] == macs;
    }

    /** One round of that loop: `getDeviceInfoFromArpTable(mac, devices)`
        then `addDevice`. `scan` and `done` say which lookups have already
        overwritten `snapshot`; `next` is the snapshot after this one. */
    method AddConfiguredDevice(mac: string, snapshot: seq<ArpEntry>, probe: string -> Option<bool>,
                               ghost scan: seq<ArpEntry>, ghost done: seq<string>) returns (next: seq<ArpEntry>)
      requires Valid() && snapshot == Overwritten(scan, done)
      requires Registered(States(), checkPing, done, scan, probe)
      modifies this
      ensures Valid() && checkPing == old(checkPing)
      ensures next == Overwritten(scan, done + [mac])
      ensures Registered(States(), checkPing, done + [mac], scan, probe)
      ensures old(devices) == map[] ==>
                interval == (old(interval) || checkPing) &&
                liveTimers == old(liveTimers) + (if checkPing && !old(interval) then 1 else 0)
      ensures old(interval) || !checkPing ==> interval == old(interval) && liveTimers == old(liveTimers)
      ensures forall id :: id in devices ==>
                (id in old(devices) && devices[id] == old(devices)[id]) || fresh(devices[id])
    {
      var info := DeviceInfoFromArp(mac, snapshot);
      LookupAfterOverwrites(scan, done, mac);
      assert (done + [mac])[..|done|] == done;
      next := AfterLookup(mac, snapshot);
      RegisteredExtend(States(), checkPing, done, mac, scan, probe);
      var _ := AddDevice(info, probe);
    }

    /** `addDevice(arpDevice)`; `probed` is the IP probed right away, if any. */
    method AddDevice(info: DeviceInfo, probe: string -> Option<bool>) returns (probed: Option<string>)
      requires Valid()
      modifies this
      ensures Valid() && checkPing == old(checkPing)
      ensures old(TimerTracked()) ==> TimerTracked()
      ensures States() == AddStates(old(States()), checkPing, info, probe)
      ensures DeviceId(info.mac) in old(devices) ==>
                devices == old(devices) && interval == old(interval) &&
                liveTimers == old(liveTimers) && probed == None
      ensures DeviceId(info.mac) !in old(devices) ==>
                DeviceId(info.mac) in devices &&
                fresh(devices[DeviceId(info.mac)]) &&
                devices == old(devices)[DeviceId(info.mac) := devices[DeviceId(info.mac)]] &&
                devices[DeviceId(info.mac)].State() == AddedState(checkPing, info, probe) &&
                probed == ProbeTarget(info) &&
                interval == (old(interval) || checkPing) &&
                liveTimers == old(liveTimers) + (if checkPing && !old(interval) then 1 else 0)
    {
      var deviceName := if info.name != UnknownName then info.name else "";
      var device := new Device(checkPing, info.mac, deviceName);
      if device.id in devices {
        return None;
      }
      probed := ProbeTarget(info);
      if probed.Some? {
        device.CheckPing(probed.value, probe);
      }
      assert device.State() == AddedState(checkPing, info, probe);
      HandleDeviceAdded(device);
    }

    /** `handleDeviceAdded(device)`: start the checker if it should run and
        does not, then register the device. */
    method HandleDeviceAdded(device: Device)
      requires Valid()
      requires device.id == DeviceId(device.mac) && device.hasOn == checkPing
      modifies this
      ensures Valid() && checkPing == old(checkPing)
      ensures old(TimerTracked()) ==> TimerTracked()
      ensures devices == old(devices)[device.id := device]
      ensures States() == old(States())[device.id := device.State()]
      ensures interval == (old(interval) || checkPing)
      ensures liveTimers == old(liveTimers) + (if checkPing && !old(interval) then 1 else 0)
    {
      if checkPing && !interval {
        StartPingChecker();
      }
      devices := devices[device.id := device];
    }

    /** `handleDeviceRemoved(device)`: unregister it and stop the checker
        when no device is left. */
    method HandleDeviceRemoved(device: Device)
      requires Valid()
      modifies this
      ensures Valid() && checkPing == old(checkPing)
      ensures old(TimerTracked()) ==> TimerTracked()
      ensures devices == old(devices) - {device.id}
      ensures devices == map[] ==>
                !interval && liveTimers == (if old(interval) then old(liveTimers) - 1 else old(liveTimers))
      ensures devices != map[] ==> interval == old(interval) && liveTimers == old(liveTimers)
    {
      devices := devices - {device.id};
      if |devices| == 0 {
        StopPingChecker();
      }
    }

    /** `startPingChecker()`: unguarded, it starts one more timer whether or
        not one is already stored. */
    method StartPingChecker()
      modifies this
      ensures devices == old(devices) && checkPing == old(checkPing)
      ensures interval && liveTimers == old(liveTimers) + 1
    {
      interval := true;
      liveTimers := liveTimers + 1;
    }

    /** `stopPingChecker()`: clears the stored timer, if any; on a stopped
        checker it changes nothing. */
    method StopPingChecker()
      requires Valid()
      modifies this
      ensures Valid() && devices == old(devices) && checkPing == old(checkPing)
      ensures old(TimerTracked()) ==> TimerTracked()
      ensures !interval
      ensures liveTimers == if old(interval) then old(liveTimers) - 1 else old(liveTimers)
    {
      if interval {
        liveTimers := liveTimers - 1;
        interval := false;
      }
    }

    /** `unload()`: always leaves the checker stopped. */
    method Unload()
      requires Valid()
      modifies this
      ensures Valid() && devices == old(devices) && checkPing == old(checkPing)
      ensures old(TimerTracked()) ==> TimerTracked()
      ensures !interval
      ensures liveTimers == if old(interval) then old(liveTimers) - 1 else old(liveTimers)
    {
      StopPingChecker();
    }

    /** One firing of the checker's timer, given the ARP snapshot it scans and
        the probe answers. `probed` maps the ID of every device that was
        probed to the IP it was probed at. */
    method PingTick(snapshot: seq<ArpEntry>, probe: string -> Option<bool>) returns (probed: map<string, string>)
      requires Valid()
      modifies devices.Values
      ensures Valid()
      ensures forall id :: id in devices ==>
                devices[id].State() == TickState(old(devices[id].State()), snapshot, probe)
      ensures forall id :: id in devices ==>
                (id in probed <==> FindArp(snapshot, devices[id].mac).Some?)
      ensures forall id :: id in probed ==>
                id in devices &&
                FirstMatch(snapshot, devices[id].mac, FindArp(snapshot, devices[id].mac).value) &&
                probed[id] == snapshot[FindArp(snapshot, devices[id].mac).value].ip
    {
      var remaining := devices.Keys;
      probed := map[];
      while remaining != {}
        invariant remaining <= devices.Keys
        invariant forall id :: id in devices && id !in remaining ==>
                    devices[id].State() == TickState(old(devices[id].State()), snapshot, probe)
        invariant forall id :: id in remaining ==> devices[id].State() == old(devices[id].State())
        invariant forall id :: id in devices ==>
                    (id in probed <==> id !in remaining && FindArp(snapshot, devices[id].mac).Some?)
        invariant forall id :: id in probed ==>
                    id in devices && probed[id] == snapshot[FindArp(snapshot, devices[id].mac).value].ip
        decreases remaining
      {
        var id :| id in remaining;
        var device := devices[id];
        probed := Reconcile(device, snapshot, probe, probed);
        remaining := remaining - {id};
      }
    }

    /** The loop body of one tick for one device: probe it at the IP of the
        first matching entry, or set `on` to false without probing. */
    method Reconcile(device: Device, snapshot: seq<ArpEntry>, probe: string -> Option<bool>,
                     probedBefore: map<string, string>) returns (probed: map<string, string>)
      modifies device
      ensures device.State() == TickState(old(device.State()), snapshot, probe)
      ensures FindArp(snapshot, device.mac).Some? ==>
                probed == probedBefore[device.id := snapshot[FindArp(snapshot, device.mac).value].ip]
      ensures FindArp(snapshot, device.mac).None? ==> probed == probedBefore
    {
      match FindArp(snapshot, device.mac) {
        case Some(k) =>
          device.CheckPing(snapshot[k].ip, probe);
          probed := probedBefore[device.id := snapshot[k].ip];
        case None =>
          device.SetOn(false);
          probed := probedBefore;
      }
    }
  }

  /** As written, the startup leaves a timer firing after the last device is
      removed: `handleDeviceAdded` started one and the constructor a second,
      and removal stops only the one whose handle is stored. */
  method StartupLeavesTimerRunning() returns (registered: nat, timersLeft: nat)
    ensures registered == 0 && timersLeft == 1
  {
    var mac := "AA:BB:CC:DD:EE:01";
    var adapter := new Adapter(Config([mac], None), [], ip => None);
    assert DeviceId(mac) in adapter.States();
    adapter.HandleDeviceRemoved(adapter.devices[DeviceId(mac)]);
    registered, timersLeft := |adapter.devices|, adapter.liveTimers;
  }

  /** With a single start at startup, removing the last device stops every timer. */
  method SingleTimerStopsWithLastDevice() returns (registered: nat, timersLeft: nat)
    ensures registered == 0 && timersLeft == 0
  {
    var mac := "AA:BB:CC:DD:EE:01";
    var adapter := new Adapter.WithSingleTimer(Config([mac], None), [], ip => None);
    assert DeviceId(mac) in adapter.States();
    adapter.HandleDeviceRemoved(adapter.devices[DeviceId(mac)]);
    registered, timersLeft := |adapter.devices|, adapter.liveTimers;
  }

  /** A device found answering at startup is on; once it has left the ARP
      table a tick turns it off without probing it, with one notification
      for each change. */
  method DeviceLeavesNetwork() returns (wasOn: bool, isOn: bool, notifications: nat, probed: map<string, string>)
    ensures wasOn && !isOn && notifications == 2 && probed == map[]
  {
    var mac := "AA:BB:CC:DD:EE:01";
    var ip := "192.168.1.5";
    var scan := [ArpEntry(mac, ip, "desktop")];
    var probe := ip' => Some(ip' == ip);
    assert FirstMatch(scan, mac, 0);
    var info := DeviceInfoFromArp(mac, scan);
    assert info == DeviceInfo(mac, Some(ip), "desktop");
    assert AddedState(true, info, probe).on;
    var adapter := new Adapter(Config([mac], None), scan, probe);
    assert mac in [mac];
    var device := adapter.devices[DeviceId(mac)];
    assert device.State() == AddedState(true, info, probe);
    wasOn := device.on;
    probed := adapter.PingTick([], ip => None);
    isOn, notifications := device.on, device.notifyCount;
  }

  /** Waking a device that is off resolves once the packet is sent, and the
      `on` property stays as it was until a tick says otherwise. */
  method WakeLeavesOnAlone() returns (r: Outcome, sentTo: Option<string>, isOn: bool)
    ensures r == Resolved && sentTo == Some("AA:BB:CC:DD:EE:01") && !isOn
  {
    var mac := "AA:BB:CC:DD:EE:01";
    var adapter := new Adapter.WithSingleTimer(Config([mac], None), [], ip => None);
    var device := adapter.devices[DeviceId(mac)];
    r, sentTo := device.PerformAction("wake", false, true);
    isOn := device.on;
  }
}
