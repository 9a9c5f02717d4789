/**
 * Looking a configured MAC address up in an ARP snapshot
 * (`WakeOnLanAdapter.getDeviceInfoFromArpTable`).
 */
module ArpTable {
  import opened Wrappers
  import opened MacAddress

  /** One neighbour seen on the LAN by the ARP scan. */
  datatype ArpEntry = ArpEntry(mac: string, ip: string, name: string)

  /** What the lookup hands to `addDevice`: the matched entry, or a stub
      with no IP when nothing matched. */
  datatype DeviceInfo = DeviceInfo(mac: string, ip: Option<string>, name: string)

  /** The name the lookup gives a MAC that is not in the snapshot. */
  const UnknownName: string := "?"

  /** `k` is the index of the first entry whose MAC matches `mac` ignoring case. */
  ghost predicate FirstMatch(snapshot: seq<ArpEntry>, mac: string, k: int) {
    0 <= k < |snapshot| && SameMac(snapshot[k].mac, mac) &&
    forall j :: 0 <= j < k ==> !SameMac(snapshot[j].mac, mac)
  }

  /** `arpDevices.find(d => d.mac.toLowerCase() === mac.toLowerCase())`, as an index. */
  function FindArp(snapshot: seq<ArpEntry>, mac: string): (r: Option<nat>)
    ensures r.Some? ==> FirstMatch(snapshot, mac, r.value)
    ensures r.None? <==> forall j :: 0 <= j < |snapshot| ==> !SameMac(snapshot[j].mac, mac)
  {
    if snapshot == [] then None
    else if SameMac(snapshot[0].mac, mac) then Some(0)
    else match FindArp(snapshot[1..], mac) {
      case None => None
      case Some(k) => Some(k + 1)
    }
  }

  /** The result of the lookup: the matched entry with its MAC replaced by the
      configured spelling, or `{mac, name: '?'}` when nothing matches. */
  function DeviceInfoFromArp(mac: string, snapshot: seq<ArpEntry>): (r: DeviceInfo)
    ensures r.mac == mac
    ensures r.ip.Some? <==> exists j :: 0 <= j < |snapshot| && SameMac(snapshot[j].mac, mac)
    ensures r.ip.None? ==> r.name == UnknownName
    ensures forall k :: FirstMatch(snapshot, mac, k) ==>
              r == DeviceInfo(mac, Some(snapshot[k].ip), snapshot[k].name)
  {
    match FindArp(snapshot, mac) {
      case Some(k) =>
        FirstMatchUnique(snapshot, mac, k);
        DeviceInfo(mac, Some(snapshot[k].ip), snapshot[k].name)
      case None => DeviceInfo(mac, None, UnknownName)
    }
  }

  /** Two snapshots list the same neighbours in the same order, the MACs
      possibly spelled in a different case. */
  ghost predicate SameNeighbours(s1: seq<ArpEntry>, s2: seq<ArpEntry>) {
    |s1| == |s2| &&
    forall j :: 0 <= j < |s1| ==>
      s1[j].ip == s2[j].ip && s1[j].name == s2[j].name && SameMac(s1[j].mac, s2[j].mac)
  }

  /** The snapshot after the lookup has overwritten the matched entry's MAC in
      place with the configured spelling. */
  function AfterLookup(mac: string, snapshot: seq<ArpEntry>): (s: seq<ArpEntry>)
    ensures SameNeighbours(s, snapshot)
    ensures forall k :: FirstMatch(snapshot, mac, k) ==> s[k].mac == mac
    ensures forall j :: 0 <= j < |s| && !FirstMatch(snapshot, mac, j) ==> s[j] == snapshot[j]
  {
    match FindArp(snapshot, mac) {
      case Some(k) =>
        FirstMatchUnique(snapshot, mac, k);
        snapshot[k := snapshot[k].(mac := mac)]
      case None => snapshot
    }
  }

  /** There is at most one first match. */
  lemma FirstMatchUnique(snapshot: seq<ArpEntry>, mac: string, k: int)
    requires FirstMatch(snapshot, mac, k)
    ensures forall k' :: FirstMatch(snapshot, mac, k') ==> k' == k
  {
  }

  /** Configured MACs that differ only in case find the same entry, with the
      same IP and name. */
  lemma LookupIgnoresCase(a: string, b: string, snapshot: seq<ArpEntry>)
    requires SameMac(a, b)
    ensures FindArp(snapshot, a) == FindArp(snapshot, b)
    ensures DeviceInfoFromArp(a, snapshot).ip == DeviceInfoFromArp(b, snapshot).ip
    ensures DeviceInfoFromArp(a, snapshot).name == DeviceInfoFromArp(b, snapshot).name
  {
  }

  /** Lookups in snapshots with the same neighbours give the same result. */
  lemma LookupRespectsSameNeighbours(s1: seq<ArpEntry>, s2: seq<ArpEntry>, mac: string)
    requires SameNeighbours(s1, s2)
    ensures FindArp(s1, mac) == FindArp(s2, mac)
    ensures DeviceInfoFromArp(mac, s1) == DeviceInfoFromArp(mac, s2)
  {
  }

  /** Overwriting the matched entry's MAC changes no later lookup, whatever MAC
      that later lookup is for: modelling the overwrite is sound. */
  lemma LookupUnaffectedByOverwrite(mac: string, other: string, snapshot: seq<ArpEntry>)
    ensures FindArp(AfterLookup(mac, snapshot), other) == FindArp(snapshot, other)
    ensures DeviceInfoFromArp(other, AfterLookup(mac, snapshot)) == DeviceInfoFromArp(other, snapshot)
  {
  }

  /** The snapshot after looking up each of `macs` in turn, each lookup
      overwriting the MAC of the entry it matched. */
  function Overwritten(scan: seq<ArpEntry>, macs: seq<string>): (r: seq<ArpEntry>)
    ensures |r| == |scan|
    ensures forall j :: 0 <= j < |r| ==> r[j].mac == scan[j].mac || r[j].mac in macs
  {
    if macs == [] then scan
    else
      var prev := Overwritten(scan, macs[..|macs| - 1]);
      assert forall m :: m in macs[..|macs| - 1] ==> m in macs;
      AfterLookup(macs[|macs| - 1], prev)
  }

  /** Lookups only ever re-spell MACs, never add, drop or reorder entries. */
  lemma {:induction false} OverwrittenSameNeighbours(scan: seq<ArpEntry>, macs: seq<string>)
    ensures SameNeighbours(Overwritten(scan, macs), scan)
    decreases |macs|
  {
    if macs != [] {
      var prev := Overwritten(scan, macs[..|macs| - 1]);
      OverwrittenSameNeighbours(scan, macs[..|macs| - 1]);
      assert SameNeighbours(AfterLookup(macs[|macs| - 1], prev), prev);
    }
  }

  /** However many lookups came before, a lookup gives what it would give
      in the untouched scan. */
  lemma LookupAfterOverwrites(scan: seq<ArpEntry>, macs: seq<string>, mac: string)
    ensures DeviceInfoFromArp(mac, Overwritten(scan, macs)) == DeviceInfoFromArp(mac, scan)
  {
    OverwrittenSameNeighbours(scan, macs);
    LookupRespectsSameNeighbours(Overwritten(scan, macs), scan, mac);
  }
}
