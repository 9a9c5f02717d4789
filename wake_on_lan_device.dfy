/**
 * One configured machine (`WakeOnLanDevice`): its ID and display name, the
 * read-only boolean property `on` that exists only when ping checking is
 * enabled, and the `wake` action.
 */
module WakeOnLanDevice {
  import opened Wrappers

  /** The ID prefix; the rest of the ID is the MAC as configured. */
  const IdPrefix: string := "wake-on-lan-"

  const UnknownAction: string := "Unknown action"
  const WakeFailed: string := "Wake failed"
  const ReadOnlyProperty: string := "Read only property"

  /** How a promise returned to the gateway settles. */
  datatype Outcome = Resolved | Rejected(reason: string)

  /** `wake-on-lan-<mac>`: the MAC is kept as spelled, not lower-cased. */
  function DeviceId(mac: string): (id: string)
    ensures |id| == |IdPrefix| + |mac|
    ensures id[..|IdPrefix|] == IdPrefix && id[|IdPrefix|..] == mac
  {
    IdPrefix + mac
  }

  /** Different spellings give different IDs, so different devices. */
  lemma DeviceIdInjective(a: string, b: string)
    requires DeviceId(a) == DeviceId(b)
    ensures a == b
  {
  }

  /** The label shown when the ARP scan gave no usable name. */
  function FallbackName(mac: string): (r: string)
    ensures |r| == |mac| + 6 && r[..5] == "WoL (" && r[|r| - 1] == ')'
    ensures r[5..|r| - 1] == mac
  {
    "WoL (" + mac + ")"
  }

  /** The observable state of a device: its identity, whether it has an `on`
      property, that property's cached value, and how many change
      notifications it has sent to the gateway. */
  datatype DeviceState = DeviceState(mac: string, name: string, hasOn: bool, on: bool, notifyCount: nat)

  /** A freshly constructed device: `name || 'WoL (<mac>)'`, and an `on`
      property, initially false, exactly when the adapter checks pings. */
  function InitialState(checkPing: bool, mac: string, name: string): (s: DeviceState)
    ensures s.mac == mac && s.hasOn == checkPing && !s.on && s.notifyCount == 0
    ensures name != "" ==> s.name == name
    ensures name == "" ==> s.name == FallbackName(mac)
    ensures s.name != ""
  {
    DeviceState(mac, if name != "" then name else FallbackName(mac), checkPing, false, 0)
  }

  /** `setOn(isOn)`: edge-triggered. */
  function SetOnState(s: DeviceState, isOn: bool): (t: DeviceState)
    ensures t.mac == s.mac && t.name == s.name && t.hasOn == s.hasOn
    ensures t != s <==> s.hasOn && s.on != isOn
    ensures t != s ==> t.on == isOn && t.notifyCount == s.notifyCount + 1
    ensures s.hasOn ==> t.on == isOn
  {
    if s.hasOn && s.on != isOn then s.(on := isOn, notifyCount := s.notifyCount + 1) else s
  }

  /** `checkPing(ip)` once the probe has answered: `None` is a probe that
      threw, which counts as not alive. */
  function ProbeState(s: DeviceState, alive: Option<bool>): (t: DeviceState)
    ensures t.mac == s.mac && t.name == s.name && t.hasOn == s.hasOn
    ensures s.hasOn ==> (t.on <==> alive == Some(true))
    ensures !s.hasOn ==> t == s
    ensures t != s <==> s.hasOn && s.on != (alive == Some(true))
    ensures t != s ==> t.notifyCount == s.notifyCount + 1
  {
    SetOnState(s, alive == Some(true))
  }

  /** A notification is sent exactly when the value changes: repeating the
      same value, however often, sends nothing more. */
  lemma {:induction false} RepeatedSetOnNotifiesOnce(s: DeviceState, isOn: bool, n: nat)
    ensures RepeatSetOn(s, isOn, n + 1) == SetOnState(s, isOn)
    ensures RepeatSetOn(s, isOn, n + 1).notifyCount ==
              s.notifyCount + (if s.hasOn && s.on != isOn then 1 else 0)
  {
    if n > 0 {
      RepeatedSetOnNotifiesOnce(s, isOn, n - 1);
    }
  }

  /** `setOn(isOn)` applied `n` times in a row. */
  function RepeatSetOn(s: DeviceState, isOn: bool, n: nat): (t: DeviceState) {
    if n == 0 then s else SetOnState(RepeatSetOn(s, isOn, n - 1), isOn)
  }

  class Device {
    const id: string
    const mac: string
    const name: string
    /** Whether the device was given an `on` property. */
    const hasOn: bool
    /** The cached value of the `on` property. */
    var on: bool
    /** Number of `notifyPropertyChanged` calls made so far. */
    var notifyCount: nat

    function State(): (s: DeviceState)
      reads this
    {
      DeviceState(mac, name, hasOn, on, notifyCount)
    }

    /** `name` is `""` where the caller passed a falsy name. */
    constructor (adapterCheckPing: bool, mac: string, name: string)
      ensures id == DeviceId(mac)
      ensures State() == InitialState(adapterCheckPing, mac, name)
    {
      this.id := DeviceId(mac);
      this.mac := mac;
      this.name := if name != "" then name else FallbackName(mac);
      this.hasOn := adapterCheckPing;
      this.on := false;
      this.notifyCount := 0;
    }

    method SetOn(isOn: bool)
      modifies this
      ensures State() == SetOnState(old(State()), isOn)
    {
      if hasOn && on != isOn {
        on := isOn;
        notifyCount := notifyCount + 1;
      }
    }

    /** Probes `ip`; `probe` stands for `ping.probe`, `None` for a probe that threw. */
    method CheckPing(ip: string, probe: string -> Option<bool>)
      modifies this
      ensures State() == ProbeState(old(State()), probe(ip))
    {
      var result := probe(ip);
      if result.Some? {
        SetOn(result.value);
      } else {
        SetOn(false);
      }
    }

    /** Handles an action request. `sendError` and `sendResult` are what
        `wol.wake` reports to its callback (an error is present; the result
        is truthy). `sentTo` is the MAC a magic packet was sent for. The
        method modifies nothing, so `on` is never changed by an action. */
    method PerformAction(actionName: string, sendError: bool, sendResult: bool)
      returns (r: Outcome, sentTo: Option<string>)
      ensures actionName != "wake" ==> r == Rejected(UnknownAction) && sentTo == None
      ensures actionName == "wake" ==> sentTo == Some(mac)
      ensures actionName == "wake" ==> (r == Resolved <==> !sendError && sendResult)
      ensures actionName == "wake" && r != Resolved ==> r == Rejected(WakeFailed)
    {
      if actionName != "wake" {
        return Rejected(UnknownAction), None;
      }
      sentTo := Some(mac);
      if sendError || !sendResult {
        r := Rejected(WakeFailed);
      } else {
        r := Resolved;
      }
    }

    /** `PingProperty.setValue`: the `on` property is read-only, every write
        is rejected and, as nothing is modified, the value stays. */
    method SetOnPropertyValue(value: bool) returns (r: Outcome)
      ensures r == Rejected(ReadOnlyProperty)
    {
      r := Rejected(ReadOnlyProperty);
    }
  }
}
