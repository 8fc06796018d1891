// The persistence codec of runv/hypervisor/persistence.go: a VM context is
// flattened into a PersistInfo record (`dump`) and rebuilt from one
// (`vmContext`, modelled by Restore).
//
// Go map iteration order is unspecified, so `dump` takes the order in which
// the runtime happens to visit each map as a DumpOrder argument.

module Persistence {
  import opened Common
  import opened Hypervisor

  datatype PersistVolumeInfo = PersistVolumeInfo(
    name: string,
    filename: string,
    format: string,
    fstype: string,
    deviceName: string,
    scsiId: int,
    containers: seq<int>,
    montPoints: seq<string>)

  datatype PersistNetworkInfo = PersistNetworkInfo(index: int, pciAddr: int, deviceName: string, ipAddr: string)

  datatype PersistInfo = PersistInfo(
    id: string,
    driverInfo: DriverInfo,
    userSpec: string,
    vmSpec: VmPod,
    hwStat: VmHwStatus,
    volumeList: seq<PersistVolumeInfo>,
    networkList: seq<PersistNetworkInfo>)

  /** Why `vmContext` returns no context. */
  datatype RestoreError =
    | DriverLoadFailed(msg: string)
    | InitFailed(msg: string)
    /** "persistent data corrupt, volume info mismatch" */
    | Corrupt
    /** A volume names a container index outside the pod: Go's index-out-of-range panic. */
    | IndexPanic

  /** The order in which Go's runtime visits the maps of a context during `dump`. */
  datatype DumpOrder = DumpOrder(
    images: seq<string>,
    volumes: seq<string>,
    positions: map<string, seq<int>>,
    networks: seq<int>)

  // -----------------------------------------------------------------------
  // Block descriptors and hardware counters
  // -----------------------------------------------------------------------

  /** BlockDescriptor.dump: the descriptor's persisted fields, with no containers yet. */
  function DumpBlock(b: BlockDescriptor): (v: PersistVolumeInfo)
    ensures v.containers == [] && v.montPoints == []
  {
    PersistVolumeInfo(b.name, b.filename, b.format, b.fstype, b.deviceName, b.scsiId, [], [])
  }

  /** PersistVolumeInfo.blockInfo: the inverse of DumpBlock; options are not persisted. */
  function BlockInfo(v: PersistVolumeInfo): (b: BlockDescriptor)
    ensures b.options == None
    ensures DumpBlock(b) == v.(containers := [], montPoints := [])
  {
    BlockDescriptor(v.name, v.filename, v.format, v.fstype, v.deviceName, v.scsiId, None)
  }

  function StripOptions(b: BlockDescriptor): BlockDescriptor
  {
    b.(options := None)
  }

  /** blockInfo(dump(b)) gives back b on every field but Options. */
  lemma BlockRoundTrip(b: BlockDescriptor)
    ensures BlockInfo(DumpBlock(b)) == StripOptions(b)
  {
  }

  /** dumpHwInfo */
  function DumpHwInfo(ctx: VmContext): VmHwStatus
    reads ctx
  {
    VmHwStatus(ctx.pciAddr, ctx.scsiId, ctx.attachId)
  }

  /** loadHwStatus: the counters read back are exactly the recorded ones. */
  method LoadHwStatus(ctx: VmContext, pinfo: PersistInfo)
    modifies ctx`pciAddr, ctx`scsiId, ctx`attachId
    ensures DumpHwInfo(ctx) == pinfo.hwStat
  {
    ctx.pciAddr := pinfo.hwStat.pciAddr;
    ctx.scsiId := pinfo.hwStat.scsiId;
    ctx.attachId := pinfo.hwStat.attachId;
  }

  // -----------------------------------------------------------------------
  // Read-only lookups of a container
  // -----------------------------------------------------------------------

  /** volLookup: the index of the first volume mounted at `mp`, or -1. */
  function VolLookup(vols: seq<VmVolumeDescriptor>, mp: string): (r: int)
    ensures -1 <= r < |vols|
    ensures r >= 0 ==> vols[r].mount == mp && forall j :: 0 <= j < r ==> vols[j].mount != mp
    ensures r == -1 ==> forall j :: 0 <= j < |vols| ==> vols[j].mount != mp
  {
    if |vols| == 0 then -1
    else
      var r := VolLookup(vols[..|vols| - 1], mp);
      if r >= 0 then r
      else if vols[|vols| - 1].mount == mp then |vols| - 1
      else -1
  }

  /** mapLookup: the index of the first fs mapping whose path is `mp`, or -1. */
  function MapLookup(maps: seq<VmFsmapDescriptor>, mp: string): (r: int)
    ensures -1 <= r < |maps|
    ensures r >= 0 ==> maps[r].path == mp && forall j :: 0 <= j < r ==> maps[j].path != mp
    ensures r == -1 ==> forall j :: 0 <= j < |maps| ==> maps[j].path != mp
  {
    if |maps| == 0 then -1
    else
      var r := MapLookup(maps[..|maps| - 1], mp);
      if r >= 0 then r
      else if maps[|maps| - 1].path == mp then |maps| - 1
      else -1
  }

  /** roLookup: a volume match decides; otherwise an fs mapping match; otherwise false. */
  function RoLookup(c: VmContainer, mp: string): bool
  {
    var v := VolLookup(c.volumes, mp);
    if v >= 0 then c.volumes[v].readOnly
    else
      var m := MapLookup(c.fsmap, mp);
      if m >= 0 then c.fsmap[m].readOnly else false
  }

  /** roLookup, stated by what it answers for every mount point. */
  lemma RoLookupAnswers(c: VmContainer, mp: string)
    ensures (exists i :: 0 <= i < |c.volumes| && c.volumes[i].mount == mp) ==>
      exists i :: 0 <= i < |c.volumes| && c.volumes[i].mount == mp && RoLookup(c, mp) == c.volumes[i].readOnly
    ensures ((forall i :: 0 <= i < |c.volumes| ==> c.volumes[i].mount != mp) &&
             (exists i :: 0 <= i < |c.fsmap| && c.fsmap[i].path == mp)) ==>
      exists i :: 0 <= i < |c.fsmap| && c.fsmap[i].path == mp && RoLookup(c, mp) == c.fsmap[i].readOnly
    ensures ((forall i :: 0 <= i < |c.volumes| ==> c.volumes[i].mount != mp) &&
             (forall i :: 0 <= i < |c.fsmap| ==> c.fsmap[i].path != mp)) ==> !RoLookup(c, mp)
  {
    var v := VolLookup(c.volumes, mp);
    var m := MapLookup(c.fsmap, mp);
    if v >= 0 {
      assert c.volumes[v].mount == mp;
    } else if m >= 0 {
      assert c.fsmap[m].path == mp;
    }
  }

  // -----------------------------------------------------------------------
  // dump
  // -----------------------------------------------------------------------

  /** The record of an image: one container index (its pos) at mount point "/". */
  function ImageEntry(img: ImageInfo): PersistVolumeInfo
  {
    DumpBlock(img.info).(containers := [img.pos], montPoints := ["/"])
  }

  /** The record of a volume: container indices in `order` and their mount points, pairwise. */
  function VolumeEntry(vol: VolumeInfo, order: seq<int>): PersistVolumeInfo
    requires forall i :: 0 <= i < |order| ==> order[i] in vol.pos
  {
    DumpBlock(vol.info).(containers := order,
                         montPoints := seq(|order|, i requires 0 <= i < |order| => vol.pos[order[i]]))
  }

  function NetworkEntry(nic: InterfaceCreated): PersistNetworkInfo
  {
    PersistNetworkInfo(nic.index, nic.pciAddr, nic.deviceName, nic.ipAddr)
  }

  /** `o` visits every image, volume, volume position and network exactly once. */
  predicate ValidOrder(o: DumpOrder, images: map<string, ImageInfo>, volumes: map<string, VolumeInfo>,
                       networks: map<int, InterfaceCreated>)
  {
    Enumerates(o.images, images.Keys) && Enumerates(o.volumes, volumes.Keys) && Enumerates(o.networks, networks.Keys)
    && (forall k :: k in volumes ==> k in o.positions && Enumerates(o.positions[k], volumes[k].pos.Keys))
  }

  /** The VolumeList `dump` writes: every image, then every volume, in visiting order. */
  function DumpVolumeList(images: map<string, ImageInfo>, volumes: map<string, VolumeInfo>,
                          networks: map<int, InterfaceCreated>, o: DumpOrder): seq<PersistVolumeInfo>
    requires ValidOrder(o, images, volumes, networks)
  {
    seq(|o.images|, k requires 0 <= k < |o.images| => ImageEntry(images[o.images[k]]))
    + seq(|o.volumes|, k requires 0 <= k < |o.volumes| =>
            VolumeEntry(volumes[o.volumes[k]], o.positions[o.volumes[k]]))
  }

  /** The NetworkList `dump` writes, in visiting order. */
  function DumpNetworkList(networks: map<int, InterfaceCreated>, order: seq<int>): seq<PersistNetworkInfo>
    requires forall k :: 0 <= k < |order| ==> order[k] in networks
  {
    seq(|order|, k requires 0 <= k < |order| => NetworkEntry(networks[order[k]]))
  }

  /** The inner loop of `dump` for one volume: its positions copied out in visiting order. */
  method DumpVolume(vol: VolumeInfo, order: seq<int>) returns (e: PersistVolumeInfo)
    requires Enumerates(order, vol.pos.Keys)
    ensures e == VolumeEntry(vol, order)
  {
    EnumerationSize(order, vol.pos.Keys);
    var containers := new int[|vol.pos|];
    var montPoints := new string[|vol.pos|];
    var i := 0;
    while i < |order|
      invariant 0 <= i <= |order|
      invariant containers[..i] == order[..i]
      invariant forall j :: 0 <= j < i ==> montPoints[j] == vol.pos[order[j]]
    {
      containers[i] := order[i];
      montPoints[i] := vol.pos[order[i]];
      i := i + 1;
    }
    assert containers[..] == order;
    assert montPoints[..] == seq(|order|, j requires 0 <= j < |order| => vol.pos[order[j]]);
    e := DumpBlock(vol.info).(containers := containers[..], montPoints := montPoints[..]);
  }

  /**
   * dump. The driver's own Dump is passed in as its outcome. The lists have
   * as many entries as the maps have keys, so every preallocated slot is filled.
   */
  method Dump(ctx: VmContext, driver: Result<DriverInfo>, o: DumpOrder) returns (r: Result<PersistInfo>)
    requires ValidOrder(o, ctx.imageMap, ctx.volumeMap, ctx.networkMap)
    ensures driver.Err? ==> r == Err(driver.msg)
    ensures driver.Ok? ==> r.Ok?
    ensures driver.Ok? ==> r.value == PersistInfo(ctx.id, driver.value, ctx.userSpec, ctx.vmSpec, DumpHwInfo(ctx),
      DumpVolumeList(ctx.imageMap, ctx.volumeMap, ctx.networkMap, o), DumpNetworkList(ctx.networkMap, o.networks))
    ensures driver.Ok? ==> |r.value.volumeList| == |ctx.imageMap| + |ctx.volumeMap|
    ensures driver.Ok? ==> |r.value.networkList| == |ctx.networkMap|
  {
    if driver.Err? {
      return Err(driver.msg);
    }
    var volumes := DumpVolumes(ctx, o);
    var networks := DumpNetworks(ctx, o);
    EnumerationSize(o.images, ctx.imageMap.Keys);
    EnumerationSize(o.volumes, ctx.volumeMap.Keys);
    EnumerationSize(o.networks, ctx.networkMap.Keys);
    return Ok(PersistInfo(ctx.id, driver.value, ctx.userSpec, ctx.vmSpec, DumpHwInfo(ctx), volumes, networks));
  }

  /** The volume list of `dump`: the images, then the volumes, in a slice of the right length. */
  method DumpVolumes(ctx: VmContext, o: DumpOrder) returns (volumes: seq<PersistVolumeInfo>)
    requires ValidOrder(o, ctx.imageMap, ctx.volumeMap, ctx.networkMap)
    ensures volumes == DumpVolumeList(ctx.imageMap, ctx.volumeMap, ctx.networkMap, o)
  {
    EnumerationSize(o.images, ctx.imageMap.Keys);
    EnumerationSize(o.volumes, ctx.volumeMap.Keys);
    var volumeList := new PersistVolumeInfo[|ctx.imageMap| + |ctx.volumeMap|];
    DumpImagesInto(volumeList, ctx.imageMap, ctx.volumeMap, ctx.networkMap, o);
    DumpVolumesInto(volumeList, ctx.imageMap, ctx.volumeMap, ctx.networkMap, o);
    volumes := volumeList[..];
  }

  /** The image loop of `dump`: the first |images| entries of the volume list. */
  method DumpImagesInto(volumeList: array<PersistVolumeInfo>, images: map<string, ImageInfo>,
                        volumes: map<string, VolumeInfo>, networks: map<int, InterfaceCreated>, o: DumpOrder)
    requires ValidOrder(o, images, volumes, networks)
    requires volumeList.Length == |o.images| + |o.volumes|
    modifies volumeList
    ensures forall k :: 0 <= k < |o.images| ==> volumeList[k] == DumpVolumeList(images, volumes, networks, o)[k]
    ensures forall k :: |o.images| <= k < volumeList.Length ==> volumeList[k] == old(volumeList[k])
  {
    ghost var expected := DumpVolumeList(images, volumes, networks, o);
    var vid := 0;
    while vid < |o.images|
      invariant 0 <= vid <= |o.images|
      invariant forall k :: 0 <= k < vid ==> volumeList[k] == expected[k]
      invariant forall k :: |o.images| <= k < volumeList.Length ==> volumeList[k] == old(volumeList[k])
    {
      var image := images[o.images[vid]];
      var entry := DumpBlock(image.info);
      entry := entry.(containers := [image.pos], montPoints := ["/"]);
      volumeList[vid] := entry;
      vid := vid + 1;
    }
  }

  /** The volume loop of `dump`: the entries after the images. */
  method DumpVolumesInto(volumeList: array<PersistVolumeInfo>, images: map<string, ImageInfo>,
                         volumes: map<string, VolumeInfo>, networks: map<int, InterfaceCreated>, o: DumpOrder)
    requires ValidOrder(o, images, volumes, networks)
    requires volumeList.Length == |o.images| + |o.volumes|
    requires forall k :: 0 <= k < |o.images| ==> volumeList[k] == DumpVolumeList(images, volumes, networks, o)[k]
    modifies volumeList
    ensures volumeList[..] == DumpVolumeList(images, volumes, networks, o)
  {
    ghost var expected := DumpVolumeList(images, volumes, networks, o);
    var vid := |o.images|;
    var v := 0;
    while v < |o.volumes|
      invariant 0 <= v <= |o.volumes| && vid == |o.images| + v
      invariant forall k :: 0 <= k < vid ==> volumeList[k] == expected[k]
    {
      var entry := DumpVolume(volumes[o.volumes[v]], o.positions[o.volumes[v]]);
      volumeList[vid] := entry;
      vid := vid + 1;
      v := v + 1;
    }
    assert |expected| == vid == volumeList.Length;
  }

  /** The network list of `dump`, in a slice of the right length. */
  method DumpNetworks(ctx: VmContext, o: DumpOrder) returns (networks: seq<PersistNetworkInfo>)
    requires ValidOrder(o, ctx.imageMap, ctx.volumeMap, ctx.networkMap)
    ensures networks == DumpNetworkList(ctx.networkMap, o.networks)
  {
    EnumerationSize(o.networks, ctx.networkMap.Keys);
    var networkList := new PersistNetworkInfo[|ctx.networkMap|];
    var nid := 0;
    while nid < |o.networks|
      invariant 0 <= nid <= |o.networks|
      invariant forall k :: 0 <= k < nid ==> networkList[k] == NetworkEntry(ctx.networkMap[o.networks[k]])
    {
      var nic := ctx.networkMap[o.networks[nid]];
      networkList[nid] := PersistNetworkInfo(nic.index, nic.pciAddr, nic.deviceName, nic.ipAddr);
      nid := nid + 1;
    }
    networks := networkList[..];
  }

  /** Every image entry holds one container index, its pos, at mount point "/". */
  lemma DumpedImageShape(images: map<string, ImageInfo>, volumes: map<string, VolumeInfo>,
                         networks: map<int, InterfaceCreated>, o: DumpOrder, k: nat)
    requires ValidOrder(o, images, volumes, networks)
    requires k < |o.images|
    ensures DumpVolumeList(images, volumes, networks, o)[k].containers == [images[o.images[k]].pos]
    ensures DumpVolumeList(images, volumes, networks, o)[k].montPoints == ["/"]
    ensures BlockInfo(DumpVolumeList(images, volumes, networks, o)[k]) == StripOptions(images[o.images[k]].info)
  {
  }

  /** Every volume entry pairs each container index with its mount point from pos. */
  lemma DumpedVolumeShape(images: map<string, ImageInfo>, volumes: map<string, VolumeInfo>,
                          networks: map<int, InterfaceCreated>, o: DumpOrder, k: nat)
    requires ValidOrder(o, images, volumes, networks)
    requires k < |o.volumes|
    ensures var e := DumpVolumeList(images, volumes, networks, o)[|o.images| + k];
      var vol := volumes[o.volumes[k]];
      |e.containers| == |e.montPoints| == |vol.pos|
      && (forall i :: 0 <= i < |e.containers| ==> e.containers[i] in vol.pos && e.montPoints[i] == vol.pos[e.containers[i]])
      && (forall idx :: idx in vol.pos ==> idx in e.containers)
  {
    EnumerationSize(o.positions[o.volumes[k]], volumes[o.volumes[k]].pos.Keys);
  }

  // -----------------------------------------------------------------------
  // vmContext
  // -----------------------------------------------------------------------

  /** An entry that `vmContext` files as an image: exactly one mount point, "/". */
  predicate ImageShaped(v: PersistVolumeInfo)
  {
    |v.montPoints| == 1 && v.montPoints[0] == "/"
  }

  /** What stops `vmContext` at this entry, if anything, for a pod of `n` containers. */
  function EntryFault(v: PersistVolumeInfo, n: int): Option<RestoreError>
  {
    if |v.containers| != |v.montPoints| then Some(Corrupt)
    else if ImageShaped(v) then None
    else if exists i :: 0 <= i < |v.containers| && !(0 <= v.containers[i] < n) then Some(IndexPanic)
    else None
  }

  /** The fault of the first entry that has one. */
  function FirstFault(vl: seq<PersistVolumeInfo>, n: int): Option<RestoreError>
  {
    if vl == [] then None
    else if EntryFault(vl[0], n).Some? then EntryFault(vl[0], n)
    else FirstFault(vl[1..], n)
  }

  lemma {:induction false} FirstFaultAt(vl: seq<PersistVolumeInfo>, k: nat, n: int)
    requires k < |vl|
    requires forall j :: 0 <= j < k ==> EntryFault(vl[j], n).None?
    requires EntryFault(vl[k], n).Some?
    ensures FirstFault(vl, n) == EntryFault(vl[k], n)
  {
    if k > 0 {
      FirstFaultAt(vl[1..], k - 1, n);
    }
  }

  lemma {:induction false} NoFirstFault(vl: seq<PersistVolumeInfo>, n: int)
    requires forall j :: 0 <= j < |vl| ==> EntryFault(vl[j], n).None?
    ensures FirstFault(vl, n).None?
  {
    if vl != [] {
      NoFirstFault(vl[1..], n);
    }
  }

  /** The TTY slots rebuilt from the containers: one per tty, one per stderr > 0. */
  function TtysFrom(cs: seq<VmContainer>): (m: map<int, TtyAttachments>)
    ensures forall k :: k in m <==> exists i :: 0 <= i < |cs| && (cs[i].tty == k || (cs[i].stderr > 0 && cs[i].stderr == k))
    ensures forall k :: k in m ==>
      (0 <= m[k].container < |cs| && m[k].persistent
       && (cs[m[k].container].tty == k || cs[m[k].container].stderr == k))
  {
    if cs == [] then map[]
    else
      var idx := |cs| - 1;
      var c := cs[idx];
      var m := TtysFrom(cs[..idx])[c.tty := TtyAttachments(idx, true)];
      if c.stderr > 0 then m[c.stderr := TtyAttachments(idx, true)] else m
  }

  /** Container index to mount point, later pairs overriding earlier ones. */
  function PosMap(ks: seq<int>, vs: seq<string>): (m: map<int, string>)
    requires |ks| == |vs|
  {
    if ks == [] then map[]
    else PosMap(ks[..|ks| - 1], vs[..|vs| - 1])[ks[|ks| - 1] := vs[|vs| - 1]]
  }

  /** Container index to the read-only flag roLookup finds for its mount point. */
  function ReadOnlyMap(ks: seq<int>, vs: seq<string>, cs: seq<VmContainer>): (m: map<int, bool>)
    requires |ks| == |vs|
    requires forall i :: 0 <= i < |ks| ==> 0 <= ks[i] < |cs|
  {
    if ks == [] then map[]
    else
      var i := |ks| - 1;
      ReadOnlyMap(ks[..i], vs[..i], cs)[ks[i] := RoLookup(cs[ks[i]], vs[i])]
  }

  /** The keys of PosMap are the container indices. */
  lemma {:induction false} PosMapKeys(ks: seq<int>, vs: seq<string>, k: int)
    requires |ks| == |vs|
    ensures k in PosMap(ks, vs) <==> k in ks
  {
    if ks != [] {
      var n := |ks| - 1;
      PosMapKeys(ks[..n], vs[..n], k);
      assert ks == ks[..n] + [ks[n]];
    }
  }

  /** With distinct indices, each index keeps its own mount point. */
  lemma {:induction false} PosMapValue(ks: seq<int>, vs: seq<string>, i: int)
    requires |ks| == |vs| && Distinct(ks) && 0 <= i < |ks|
    ensures ks[i] in PosMap(ks, vs) && PosMap(ks, vs)[ks[i]] == vs[i]
  {
    var n := |ks| - 1;
    if i < n {
      var ks', vs' := ks[..n], vs[..n];
      assert ks'[i] == ks[i] && vs'[i] == vs[i] && ks[i] != ks[n];
      assert Distinct(ks');
      PosMapValue(ks', vs', i);
    }
  }

  /** The keys of PosMap are the container indices; with distinct indices each keeps its own mount point. */
  lemma PosMapFacts(ks: seq<int>, vs: seq<string>)
    requires |ks| == |vs|
    ensures forall k :: k in PosMap(ks, vs) <==> k in ks
    ensures Distinct(ks) ==> forall i :: 0 <= i < |ks| ==> ks[i] in PosMap(ks, vs) && PosMap(ks, vs)[ks[i]] == vs[i]
  {
    forall k
      ensures k in PosMap(ks, vs) <==> k in ks
    {
      PosMapKeys(ks, vs, k);
    }
    if Distinct(ks) {
      forall i | 0 <= i < |ks|
        ensures ks[i] in PosMap(ks, vs) && PosMap(ks, vs)[ks[i]] == vs[i]
      {
        PosMapValue(ks, vs, i);
      }
    }
  }

  /** The keys of ReadOnlyMap are the container indices. */
  lemma {:induction false} ReadOnlyMapKeys(ks: seq<int>, vs: seq<string>, cs: seq<VmContainer>, k: int)
    requires |ks| == |vs|
    requires forall i :: 0 <= i < |ks| ==> 0 <= ks[i] < |cs|
    ensures k in ReadOnlyMap(ks, vs, cs) <==> k in ks
  {
    if ks != [] {
      var n := |ks| - 1;
      ReadOnlyMapKeys(ks[..n], vs[..n], cs, k);
      assert ks == ks[..n] + [ks[n]];
    }
  }

  /** With distinct indices, each index gets roLookup of its own mount point. */
  lemma {:induction false} ReadOnlyMapValue(ks: seq<int>, vs: seq<string>, cs: seq<VmContainer>, i: int)
    requires |ks| == |vs|
    requires forall j :: 0 <= j < |ks| ==> 0 <= ks[j] < |cs|
    requires Distinct(ks) && 0 <= i < |ks|
    ensures ks[i] in ReadOnlyMap(ks, vs, cs) && ReadOnlyMap(ks, vs, cs)[ks[i]] == RoLookup(cs[ks[i]], vs[i])
  {
    var n := |ks| - 1;
    if i < n {
      var ks', vs' := ks[..n], vs[..n];
      assert ks'[i] == ks[i] && vs'[i] == vs[i] && ks[i] != ks[n];
      assert Distinct(ks');
      ReadOnlyMapValue(ks', vs', cs, i);
    }
  }

  /** The keys of ReadOnlyMap are the container indices; with distinct indices each gets roLookup of its own mount point. */
  lemma ReadOnlyMapFacts(ks: seq<int>, vs: seq<string>, cs: seq<VmContainer>)
    requires |ks| == |vs|
    requires forall i :: 0 <= i < |ks| ==> 0 <= ks[i] < |cs|
    ensures forall k :: k in ReadOnlyMap(ks, vs, cs) <==> k in ks
    ensures Distinct(ks) ==> forall i :: 0 <= i < |ks| ==>
      ks[i] in ReadOnlyMap(ks, vs, cs) && ReadOnlyMap(ks, vs, cs)[ks[i]] == RoLookup(cs[ks[i]], vs[i])
  {
    forall k
      ensures k in ReadOnlyMap(ks, vs, cs) <==> k in ks
    {
      ReadOnlyMapKeys(ks, vs, cs, k);
    }
    if Distinct(ks) {
      forall i | 0 <= i < |ks|
        ensures ks[i] in ReadOnlyMap(ks, vs, cs) && ReadOnlyMap(ks, vs, cs)[ks[i]] == RoLookup(cs[ks[i]], vs[i])
      {
        ReadOnlyMapValue(ks, vs, cs, i);
      }
    }
  }

  /** Reading back the pairs that dump wrote for a volume gives its position map. */
  lemma PosMapOfEntry(vol: VolumeInfo, order: seq<int>)
    requires Enumerates(order, vol.pos.Keys)
    ensures PosMap(order, VolumeEntry(vol, order).montPoints) == vol.pos
  {
    var vs := VolumeEntry(vol, order).montPoints;
    PosMapFacts(order, vs);
    var m := PosMap(order, vs);
    forall k | k in vol.pos
      ensures k in m && m[k] == vol.pos[k]
    {
      var i :| 0 <= i < |order| && order[i] == k;
      assert vs[i] == vol.pos[order[i]];
    }
    forall k | k in m
      ensures k in vol.pos
    {
      var i :| 0 <= i < |order| && order[i] == k;
    }
  }

  /** An entry that passed the count check and is filed as an image. */
  predicate IsImageEntry(v: PersistVolumeInfo)
  {
    |v.containers| == |v.montPoints| && ImageShaped(v)
  }

  /** An entry that passed the count check and is rebuilt as a shared volume. */
  predicate IsVolumeEntry(v: PersistVolumeInfo)
  {
    |v.containers| == |v.montPoints| && !ImageShaped(v)
  }

  function ImageFromEntry(v: PersistVolumeInfo): ImageInfo
    requires IsImageEntry(v)
  {
    ImageInfo(BlockInfo(v), v.containers[0])
  }

  /** The image map rebuilt from the image entries, keyed by name, later entries overriding. */
  function ImagesFrom(vl: seq<PersistVolumeInfo>): (m: map<string, ImageInfo>)
  {
    if vl == [] then map[]
    else
      var v := vl[|vl| - 1];
      var m := ImagesFrom(vl[..|vl| - 1]);
      assert forall i :: 0 <= i < |vl| - 1 ==> vl[..|vl| - 1][i] == vl[i];
      if IsImageEntry(v) then m[v.name := ImageFromEntry(v)] else m
  }

  /** The image an entry rebuilds is the one stored, unless a later image entry has its name. */
  lemma {:induction false} ImagesFromValue(vl: seq<PersistVolumeInfo>, i: nat)
    requires i < |vl| && IsImageEntry(vl[i])
    requires forall j :: i < j < |vl| ==> !(vl[j].name == vl[i].name && IsImageEntry(vl[j]))
    ensures vl[i].name in ImagesFrom(vl) && ImagesFrom(vl)[vl[i].name] == ImageFromEntry(vl[i])
  {
    if i < |vl| - 1 {
      ImagesFromValue(vl[..|vl| - 1], i);
    }
  }

  function VolumeFromEntry(v: PersistVolumeInfo, cs: seq<VmContainer>): VolumeInfo
    requires IsVolumeEntry(v)
    requires forall i :: 0 <= i < |v.containers| ==> 0 <= v.containers[i] < |cs|
  {
    VolumeInfo(BlockInfo(v), PosMap(v.containers, v.montPoints), ReadOnlyMap(v.containers, v.montPoints, cs))
  }

  /** No entry of `vl` stops `vmContext`. */
  predicate Faultless(vl: seq<PersistVolumeInfo>, n: int)
  {
    forall j :: 0 <= j < |vl| ==> EntryFault(vl[j], n).None?
  }

  /**
   * The volume map rebuilt from the shared-volume entries, keyed by name,
   * later entries overriding. These are the volumeInfos `vmContext` builds;
   * as written it never stores them (see RestoreLosesVolumes), so this is
   * the volume map it evidently means to restore.
   */
  function VolumesFrom(vl: seq<PersistVolumeInfo>, cs: seq<VmContainer>): (m: map<string, VolumeInfo>)
    requires Faultless(vl, |cs|)
  {
    if vl == [] then map[]
    else
      var v := vl[|vl| - 1];
      assert EntryFault(v, |cs|).None?;
      assert forall i :: 0 <= i < |vl| - 1 ==> vl[..|vl| - 1][i] == vl[i];
      var m := VolumesFrom(vl[..|vl| - 1], cs);
      if IsVolumeEntry(v) then m[v.name := VolumeFromEntry(v, cs)] else m
  }

  /** The volume an entry rebuilds is the one stored, unless a later volume entry has its name. */
  lemma {:induction false} VolumesFromValue(vl: seq<PersistVolumeInfo>, cs: seq<VmContainer>, i: nat)
    requires Faultless(vl, |cs|)
    requires i < |vl| && IsVolumeEntry(vl[i])
    requires forall j :: i < j < |vl| ==> !(vl[j].name == vl[i].name && IsVolumeEntry(vl[j]))
    ensures EntryFault(vl[i], |cs|).None?
    ensures vl[i].name in VolumesFrom(vl, cs) && VolumesFrom(vl, cs)[vl[i].name] == VolumeFromEntry(vl[i], cs)
  {
    assert EntryFault(vl[i], |cs|).None?;
    if i < |vl| - 1 {
      assert Faultless(vl[..|vl| - 1], |cs|);
      VolumesFromValue(vl[..|vl| - 1], cs, i);
    }
  }

  function NicFromEntry(e: PersistNetworkInfo): InterfaceCreated
  {
    InterfaceCreated(e.index, e.pciAddr, None, "", "", e.deviceName, "", e.ipAddr)
  }

  /** The network map rebuilt from the list, keyed by Index, later entries overriding. */
  function NetworksFrom(nl: seq<PersistNetworkInfo>): (m: map<int, InterfaceCreated>)
  {
    if nl == [] then map[]
    else
      var e := nl[|nl| - 1];
      assert forall i :: 0 <= i < |nl| - 1 ==> nl[..|nl| - 1][i] == nl[i];
      NetworksFrom(nl[..|nl| - 1])[e.index := NicFromEntry(e)]
  }

  lemma {:induction false} NetworksFromValue(nl: seq<PersistNetworkInfo>, i: nat)
    requires i < |nl|
    requires forall j :: i < j < |nl| ==> nl[j].index != nl[i].index
    ensures nl[i].index in NetworksFrom(nl) && NetworksFrom(nl)[nl[i].index] == NicFromEntry(nl[i])
  {
    if i < |nl| - 1 {
      NetworksFromValue(nl[..|nl| - 1], i);
    }
  }

  lemma {:induction false} ImagesFromKeys(vl: seq<PersistVolumeInfo>)
    ensures forall k :: k in ImagesFrom(vl) <==> exists i :: 0 <= i < |vl| && vl[i].name == k && IsImageEntry(vl[i])
  {
    if vl != [] {
      var init := vl[..|vl| - 1];
      ImagesFromKeys(init);
      assert forall i :: 0 <= i < |init| ==> init[i] == vl[i];
      forall k | k in ImagesFrom(vl)
        ensures exists i :: 0 <= i < |vl| && vl[i].name == k && IsImageEntry(vl[i])
      {
        if !(vl[|vl| - 1].name == k && IsImageEntry(vl[|vl| - 1])) {
          assert k in ImagesFrom(init);
          var i :| 0 <= i < |init| && init[i].name == k && IsImageEntry(init[i]);
          assert vl[i] == init[i];
        }
      }
    }
  }

  lemma {:induction false} VolumesFromKeys(vl: seq<PersistVolumeInfo>, cs: seq<VmContainer>)
    requires Faultless(vl, |cs|)
    ensures forall k :: k in VolumesFrom(vl, cs) <==> exists i :: 0 <= i < |vl| && vl[i].name == k && IsVolumeEntry(vl[i])
  {
    if vl != [] {
      var init := vl[..|vl| - 1];
      assert forall i :: 0 <= i < |init| ==> init[i] == vl[i];
      VolumesFromKeys(init, cs);
      forall k | k in VolumesFrom(vl, cs)
        ensures exists i :: 0 <= i < |vl| && vl[i].name == k && IsVolumeEntry(vl[i])
      {
        if !(vl[|vl| - 1].name == k && IsVolumeEntry(vl[|vl| - 1])) {
          assert k in VolumesFrom(init, cs);
          var i :| 0 <= i < |init| && init[i].name == k && IsVolumeEntry(init[i]);
          assert vl[i] == init[i];
        }
      }
    }
  }

  lemma {:induction false} NetworksFromKeys(nl: seq<PersistNetworkInfo>)
    ensures forall k :: k in NetworksFrom(nl) <==> exists i :: 0 <= i < |nl| && nl[i].index == k
  {
    if nl != [] {
      var init := nl[..|nl| - 1];
      assert forall i :: 0 <= i < |init| ==> init[i] == nl[i];
      NetworksFromKeys(init);
      forall k | k in NetworksFrom(nl)
        ensures exists i :: 0 <= i < |nl| && nl[i].index == k
      {
        if nl[|nl| - 1].index != k {
          assert k in NetworksFrom(init);
          var i :| 0 <= i < |init| && init[i].index == k;
          assert nl[i] == init[i];
        }
      }
    }
  }

  /** The TTY slots of the containers, built in container order. */
  method RebuildTtys(cs: seq<VmContainer>) returns (ttys: map<int, TtyAttachments>)
    ensures ttys == TtysFrom(cs)
  {
    ttys := map[];
    var idx := 0;
    while idx < |cs|
      invariant 0 <= idx <= |cs|
      invariant ttys == TtysFrom(cs[..idx])
    {
      assert cs[..idx + 1][..idx] == cs[..idx];
      var container := cs[idx];
      ttys := ttys[container.tty := TtyAttachments(idx, true)];
      if container.stderr > 0 {
        ttys := ttys[container.stderr := TtyAttachments(idx, true)];
      }
      idx := idx + 1;
    }
    assert cs[..|cs|] == cs;
  }

  /** One more pair extends the position map by that pair. */
  lemma PosMapSnoc(ks: seq<int>, vs: seq<string>, i: nat)
    requires |ks| == |vs| && i < |ks|
    ensures PosMap(ks[..i + 1], vs[..i + 1]) == PosMap(ks[..i], vs[..i])[ks[i] := vs[i]]
  {
    assert ks[..i + 1][..i] == ks[..i] && vs[..i + 1][..i] == vs[..i];
  }

  /** One more pair extends the read-only map by roLookup of that pair. */
  lemma ReadOnlyMapSnoc(ks: seq<int>, vs: seq<string>, cs: seq<VmContainer>, i: nat)
    requires |ks| == |vs| && i < |ks|
    requires forall j :: 0 <= j <= i ==> 0 <= ks[j] < |cs|
    ensures ReadOnlyMap(ks[..i + 1], vs[..i + 1], cs) == ReadOnlyMap(ks[..i], vs[..i], cs)[ks[i] := RoLookup(cs[ks[i]], vs[i])]
  {
    assert ks[..i + 1][..i] == ks[..i] && vs[..i + 1][..i] == vs[..i];
  }

  /**
   * The inner loop of `vmContext` for one shared-volume entry: its position
   * and read-only maps, or None where Go would panic on a container index
   * outside the pod.
   */
  method RebuildVolume(vol: PersistVolumeInfo, cs: seq<VmContainer>) returns (r: Option<VolumeInfo>)
    requires IsVolumeEntry(vol)
    ensures r.None? ==> exists i :: 0 <= i < |vol.containers| && !(0 <= vol.containers[i] < |cs|)
    ensures r.Some? ==> (forall i :: 0 <= i < |vol.containers| ==> 0 <= vol.containers[i] < |cs|)
    ensures r.Some? ==> r.value == VolumeFromEntry(vol, cs)
  {
    var ks, vs := vol.containers, vol.montPoints;
    var pos: map<int, string> := map[];
    var readOnly: map<int, bool> := map[];
    var i := 0;
    while i < |ks|
      invariant 0 <= i <= |ks|
      invariant forall j :: 0 <= j < i ==> 0 <= ks[j] < |cs|
      invariant pos == PosMap(ks[..i], vs[..i])
      invariant readOnly == ReadOnlyMap(ks[..i], vs[..i], cs)
    {
      var idx := ks[i];
      if !(0 <= idx < |cs|) {
        return None;
      }
      PosMapSnoc(ks, vs, i);
      ReadOnlyMapSnoc(ks, vs, cs, i);
      pos := pos[idx := vs[i]];
      readOnly := readOnly[idx := RoLookup(cs[idx], vs[i])];
      i := i + 1;
    }
    assert ks[..i] == ks && vs[..i] == vs;
    return Some(VolumeInfo(BlockInfo(vol), pos, readOnly));
  }

  /** The network map rebuilt in list order. */
  method RebuildNetworks(nl: seq<PersistNetworkInfo>) returns (networks: map<int, InterfaceCreated>)
    ensures networks == NetworksFrom(nl)
  {
    networks := map[];
    var n := 0;
    while n < |nl|
      invariant 0 <= n <= |nl|
      invariant networks == NetworksFrom(nl[..n])
    {
      assert nl[..n + 1][..n] == nl[..n];
      var nic := nl[n];
      networks := networks[nic.index := InterfaceCreated(nic.index, nic.pciAddr, None, "", "", nic.deviceName, "", nic.ipAddr)];
      n := n + 1;
    }
    assert nl[..|nl|] == nl;
  }

  /** One more entry extends the image map by that entry when it is an image. */
  lemma ImagesFromSnoc(vl: seq<PersistVolumeInfo>, k: nat)
    requires k < |vl|
    ensures ImagesFrom(vl[..k + 1]) ==
      if IsImageEntry(vl[k]) then ImagesFrom(vl[..k])[vl[k].name := ImageFromEntry(vl[k])] else ImagesFrom(vl[..k])
  {
    assert vl[..k + 1][..k] == vl[..k];
  }

  /** One more faultless entry extends the volume map by that entry when it is a shared volume. */
  lemma VolumesFromSnoc(vl: seq<PersistVolumeInfo>, cs: seq<VmContainer>, k: nat)
    requires k < |vl| && Faultless(vl[..k], |cs|) && EntryFault(vl[k], |cs|).None?
    ensures Faultless(vl[..k + 1], |cs|)
    ensures VolumesFrom(vl[..k + 1], cs) ==
      if IsVolumeEntry(vl[k]) then VolumesFrom(vl[..k], cs)[vl[k].name := VolumeFromEntry(vl[k], cs)] else VolumesFrom(vl[..k], cs)
  {
    var pre, w := vl[..k], vl[..k + 1];
    assert w[..k] == pre;
    forall j | 0 <= j < k + 1
      ensures EntryFault(w[j], |cs|).None?
    {
      if j < k {
        assert w[j] == pre[j];
      }
    }
    assert w[|w| - 1] == vl[k];
  }

  /**
   * The volume-list loop of `vmContext`: images and shared volumes rebuilt
   * entry by entry, or the fault of the first entry that stops it.
   */
  method RebuildDevices(vl: seq<PersistVolumeInfo>, cs: seq<VmContainer>)
    returns (images: map<string, ImageInfo>, volumes: map<string, VolumeInfo>, err: Option<RestoreError>)
    ensures err == FirstFault(vl, |cs|)
    ensures err.None? ==> Faultless(vl, |cs|) && images == ImagesFrom(vl) && volumes == VolumesFrom(vl, cs)
  {
    images, volumes := map[], map[];
    var k := 0;
    while k < |vl|
      invariant 0 <= k <= |vl|
      invariant Faultless(vl[..k], |cs|)
      invariant images == ImagesFrom(vl[..k])
      invariant volumes == VolumesFrom(vl[..k], cs)
    {
      var vol := vl[k];
      if |vol.containers| != |vol.montPoints| {
        assert EntryFault(vol, |cs|) == Some(Corrupt);
        FirstFaultAt(vl, k, |cs|);
        return images, volumes, Some(Corrupt);
      }
      ImagesFromSnoc(vl, k);
      if |vol.montPoints| == 1 && vol.montPoints[0] == "/" {
        assert IsImageEntry(vol) && EntryFault(vol, |cs|).None?;
        VolumesFromSnoc(vl, cs, k);
        images := images[vol.name := ImageInfo(BlockInfo(vol), vol.containers[0])];
      } else {
        var v := RebuildVolume(vol, cs);
        if v.None? {
          assert EntryFault(vol, |cs|) == Some(IndexPanic);
          FirstFaultAt(vl, k, |cs|);
          return images, volumes, Some(IndexPanic);
        }
        assert EntryFault(vol, |cs|).None?;
        VolumesFromSnoc(vl, cs, k);
        // Collected so that the caller can see what the source builds and then drops.
        volumes := volumes[vol.name := v.value];
      }
      k := k + 1;
    }
    assert vl[..|vl|] == vl;
    NoFirstFault(vl, |cs|);
    err := None;
  }


  /**
   * vmContext. The driver's LoadContext and InitContext are passed in as
   * their error outcomes. On any fault no context is returned; otherwise
   * the context holds the record's specs and counters and the image,
   * TTY and network maps rebuilt from its lists. The volumeInfos the volume
   * loop builds are dropped, as the source drops them, so the volume map
   * stays empty (see RestoreLosesVolumes).
   */
  method Restore(pinfo: PersistInfo, loadErr: Option<string>, initErr: Option<string>)
    returns (ctx: VmContext?, err: Option<RestoreError>)
    ensures loadErr.Some? ==> ctx == null && err == Some(DriverLoadFailed(loadErr.value))
    ensures loadErr.None? && initErr.Some? ==> ctx == null && err == Some(InitFailed(initErr.value))
    ensures loadErr.None? && initErr.None? ==> (ctx == null <==> err.Some?)
    ensures loadErr.None? && initErr.None? ==> err == FirstFault(pinfo.volumeList, |pinfo.vmSpec.containers|)
    ensures ctx != null ==> (fresh(ctx) && ctx.id == pinfo.id && ctx.vmSpec == pinfo.vmSpec
      && ctx.userSpec == pinfo.userSpec && DumpHwInfo(ctx) == pinfo.hwStat
      && ctx.ttys == TtysFrom(pinfo.vmSpec.containers)
      && Faultless(pinfo.volumeList, |pinfo.vmSpec.containers|)
      && ctx.imageMap == ImagesFrom(pinfo.volumeList)
      && ctx.volumeMap == map[]
      && ctx.networkMap == NetworksFrom(pinfo.networkList))
  {
    if loadErr.Some? {
      return null, Some(DriverLoadFailed(loadErr.value));
    }
    if initErr.Some? {
      return null, Some(InitFailed(initErr.value));
    }
    var cs := pinfo.vmSpec.containers;
    var ttys := RebuildTtys(cs);
    var images, built, fault := RebuildDevices(pinfo.volumeList, cs);
    if fault.Some? {
      return null, fault;
    }
    var networks := RebuildNetworks(pinfo.networkList);
    // Each rebuilt volumeInfo is a local of the loop in the source; none reaches the context.
    ctx := RestoredContext(pinfo, ttys, images, map[], networks);
    return ctx, None;
  }

  /** The context `vmContext` builds once every part was rebuilt: an empty boot configuration, the persisted state. */
  method RestoredContext(pinfo: PersistInfo, ttys: map<int, TtyAttachments>, images: map<string, ImageInfo>,
                         volumes: map<string, VolumeInfo>, networks: map<int, InterfaceCreated>)
    returns (ctx: VmContext)
    ensures fresh(ctx) && ctx.id == pinfo.id && ctx.vmSpec == pinfo.vmSpec && ctx.userSpec == pinfo.userSpec
    ensures DumpHwInfo(ctx) == pinfo.hwStat && ctx.ttys == ttys
    ensures ctx.imageMap == images && ctx.volumeMap == volumes && ctx.networkMap == networks
  {
    ctx := new VmContext(pinfo.id, Some(BootConfig(0, 0, "", "", "", "")), VmHwStatus(0, 0, 0));
    ctx.vmSpec, ctx.userSpec := pinfo.vmSpec, pinfo.userSpec;
    ctx.ttys, ctx.imageMap, ctx.volumeMap, ctx.networkMap := ttys, images, volumes, networks;
    LoadHwStatus(ctx, pinfo);
  }

  // -----------------------------------------------------------------------
  // dump followed by vmContext
  // -----------------------------------------------------------------------

  /** An image as `vmContext` gives it back: Options are not persisted. */
  function StripImage(img: ImageInfo): ImageInfo
  {
    img.(info := StripOptions(img.info))
  }

  /** A volume as `vmContext` should give it back: read-only flags are looked up again in the pod. */
  function RestoredVolume(vol: VolumeInfo, cs: seq<VmContainer>): VolumeInfo
    requires forall c :: c in vol.pos ==> 0 <= c < |cs|
  {
    VolumeInfo(StripOptions(vol.info), vol.pos, ReadOnlyFlags(vol.pos, cs))
  }

  /** A network as `vmContext` gives it back: the host side (fd, bridge, device, MAC) is not persisted. */
  function RestoredNic(nic: InterfaceCreated): InterfaceCreated
  {
    nic.(fd := None, bridge := "", hostDevice := "", macAddr := "")
  }

  /**
   * The device maps of a context that `dump` and `vmContext` carry over:
   * maps keyed by the device's own name or index, no shared volume mounted at
   * "/" (that shape is read back as an image), and volume positions naming
   * containers of the pod.
   */
  predicate Restorable(images: map<string, ImageInfo>, volumes: map<string, VolumeInfo>,
                       networks: map<int, InterfaceCreated>, cs: seq<VmContainer>)
  {
    (forall k :: k in images ==> images[k].info.name == k)
    && (forall k :: k in volumes ==> volumes[k].info.name == k)
    && (forall k, c :: k in volumes && c in volumes[k].pos ==> volumes[k].pos[c] != "/" && 0 <= c < |cs|)
    && (forall k :: k in networks ==> networks[k].index == k)
  }

  /** Image entries come first and are read back as images; volume entries are not, and have their indices in range. */
  lemma DumpedEntries(images: map<string, ImageInfo>, volumes: map<string, VolumeInfo>,
                      networks: map<int, InterfaceCreated>, o: DumpOrder, cs: seq<VmContainer>)
    requires ValidOrder(o, images, volumes, networks)
    requires Restorable(images, volumes, networks, cs)
    ensures var vl := DumpVolumeList(images, volumes, networks, o);
      |vl| == |o.images| + |o.volumes|
      && (forall i :: 0 <= i < |o.images| ==> IsImageEntry(vl[i]) && vl[i].name == o.images[i])
      && (forall i :: |o.images| <= i < |vl| ==> IsVolumeEntry(vl[i]) && vl[i].name == o.volumes[i - |o.images|])
      && Faultless(vl, |cs|)
  {
    var vl := DumpVolumeList(images, volumes, networks, o);
    forall i | |o.images| <= i < |vl|
      ensures IsVolumeEntry(vl[i]) && EntryFault(vl[i], |cs|).None?
    {
      var k := i - |o.images|;
      DumpedVolumeShape(images, volumes, networks, o, k);
      var e := vl[i];
      var vol := volumes[o.volumes[k]];
      if |e.montPoints| == 1 {
        assert e.containers[0] in vol.pos;
      }
      forall j | 0 <= j < |e.containers|
        ensures 0 <= e.containers[j] < |cs|
      {
        assert e.containers[j] in vol.pos;
      }
    }
  }

  /** The list's image entries are exactly its first |names| entries, named in order, one per key of `images`. */
  predicate ListsImages(vl: seq<PersistVolumeInfo>, names: seq<string>, images: map<string, ImageInfo>)
  {
    Enumerates(names, images.Keys) && |names| <= |vl|
    && (forall i :: 0 <= i < |names| ==>
          IsImageEntry(vl[i]) && vl[i].name == names[i] && ImageFromEntry(vl[i]) == StripImage(images[names[i]]))
    && (forall i :: |names| <= i < |vl| ==> !IsImageEntry(vl[i]))
  }

  lemma ImagesFromListedKeys(vl: seq<PersistVolumeInfo>, names: seq<string>, images: map<string, ImageInfo>)
    requires ListsImages(vl, names, images)
    ensures ImagesFrom(vl).Keys == images.Keys
  {
    ImagesFromKeys(vl);
    forall k | k in ImagesFrom(vl)
      ensures k in images
    {
      var i :| 0 <= i < |vl| && vl[i].name == k && IsImageEntry(vl[i]);
    }
    forall k | k in images
      ensures k in ImagesFrom(vl)
    {
      var i :| 0 <= i < |names| && names[i] == k;
      assert vl[i].name == k && IsImageEntry(vl[i]);
    }
  }

  lemma ImagesFromListedValue(vl: seq<PersistVolumeInfo>, names: seq<string>, images: map<string, ImageInfo>, i: nat)
    requires ListsImages(vl, names, images)
    requires i < |names|
    ensures names[i] in ImagesFrom(vl) && ImagesFrom(vl)[names[i]] == StripImage(images[names[i]])
  {
    forall j | i < j < |vl|
      ensures !(vl[j].name == vl[i].name && IsImageEntry(vl[j]))
    {
      if j < |names| {
        assert names[j] != names[i];
      }
    }
    ImagesFromValue(vl, i);
  }

  /** ImagesFrom of such a list is the image map, less Options. */
  lemma ImagesFromListed(vl: seq<PersistVolumeInfo>, names: seq<string>, images: map<string, ImageInfo>)
    requires ListsImages(vl, names, images)
    ensures ImagesFrom(vl) == map k | k in images :: StripImage(images[k])
  {
    ImagesFromListedKeys(vl, names, images);
    forall k | k in images
      ensures ImagesFrom(vl)[k] == StripImage(images[k])
    {
      var i :| 0 <= i < |names| && names[i] == k;
      ImagesFromListedValue(vl, names, images, i);
    }
  }

  /** vmContext(dump(ctx)) has the context's images, less their Options. */
  lemma ImagesRoundTrip(images: map<string, ImageInfo>, volumes: map<string, VolumeInfo>,
                        networks: map<int, InterfaceCreated>, o: DumpOrder, cs: seq<VmContainer>)
    requires ValidOrder(o, images, volumes, networks)
    requires Restorable(images, volumes, networks, cs)
    ensures ImagesFrom(DumpVolumeList(images, volumes, networks, o)) == map k | k in images :: StripImage(images[k])
  {
    var vl := DumpVolumeList(images, volumes, networks, o);
    DumpedEntries(images, volumes, networks, o, cs);
    forall i | 0 <= i < |o.images|
      ensures ImageFromEntry(vl[i]) == StripImage(images[o.images[i]])
    {
      DumpedImageShape(images, volumes, networks, o, i);
    }
    ImagesFromListed(vl, o.images, images);
  }

  /** The list's volume entries are exactly those from `start` on, named in order, one per key of `volumes`. */
  predicate ListsVolumes(vl: seq<PersistVolumeInfo>, cs: seq<VmContainer>, start: nat, names: seq<string>,
                         volumes: map<string, VolumeInfo>)
  {
    Enumerates(names, volumes.Keys) && start + |names| == |vl|
    && Faultless(vl, |cs|)
    && (forall k, c :: k in volumes && c in volumes[k].pos ==> 0 <= c < |cs|)
    && (forall i :: 0 <= i < start ==> !IsVolumeEntry(vl[i]))
    && (forall i :: start <= i < |vl| ==> IsVolumeEntry(vl[i]))
    && (forall x :: 0 <= x < |names| ==>
          vl[start + x].name == names[x]
          && VolumeFromEntry(vl[start + x], cs) == RestoredVolume(volumes[names[x]], cs))
  }

  lemma VolumesFromListedKeys(vl: seq<PersistVolumeInfo>, cs: seq<VmContainer>, start: nat, names: seq<string>,
                              volumes: map<string, VolumeInfo>)
    requires ListsVolumes(vl, cs, start, names, volumes)
    ensures VolumesFrom(vl, cs).Keys == volumes.Keys
  {
    VolumesFromKeys(vl, cs);
    forall k | k in VolumesFrom(vl, cs)
      ensures k in volumes
    {
      var i :| 0 <= i < |vl| && vl[i].name == k && IsVolumeEntry(vl[i]);
      assert i >= start;
      var x := i - start;
      assert vl[start + x] == vl[i];
      assert names[x] == k && names[x] in volumes.Keys;
    }
    forall k | k in volumes
      ensures k in VolumesFrom(vl, cs)
    {
      var x :| 0 <= x < |names| && names[x] == k;
      assert vl[start + x].name == k && IsVolumeEntry(vl[start + x]);
    }
  }

  lemma VolumesFromListedValue(vl: seq<PersistVolumeInfo>, cs: seq<VmContainer>, start: nat, names: seq<string>,
                               volumes: map<string, VolumeInfo>, x: nat)
    requires ListsVolumes(vl, cs, start, names, volumes)
    requires x < |names|
    ensures names[x] in VolumesFrom(vl, cs) && VolumesFrom(vl, cs)[names[x]] == RestoredVolume(volumes[names[x]], cs)
  {
    var i := start + x;
    forall j | i < j < |vl|
      ensures !(vl[j].name == vl[i].name && IsVolumeEntry(vl[j]))
    {
      var y := j - start;
      assert vl[start + y] == vl[j];
      assert names[y] != names[x];
    }
    VolumesFromValue(vl, cs, i);
  }

  /** VolumesFrom of such a list is the volume map, with read-only flags looked up again. */
  lemma VolumesFromListed(vl: seq<PersistVolumeInfo>, cs: seq<VmContainer>, start: nat, names: seq<string>,
                          volumes: map<string, VolumeInfo>)
    requires ListsVolumes(vl, cs, start, names, volumes)
    ensures VolumesFrom(vl, cs) == map k | k in volumes :: RestoredVolume(volumes[k], cs)
  {
    VolumesFromListedKeys(vl, cs, start, names, volumes);
    forall k | k in volumes
      ensures VolumesFrom(vl, cs)[k] == RestoredVolume(volumes[k], cs)
    {
      var x :| 0 <= x < |names| && names[x] == k;
      VolumesFromListedValue(vl, cs, start, names, volumes, x);
    }
  }

  /** The read-only flags of a volume whose positions are all in the pod: roLookup of each position. */
  function ReadOnlyFlags(pos: map<int, string>, cs: seq<VmContainer>): (m: map<int, bool>)
    requires forall c :: c in pos ==> 0 <= c < |cs|
    ensures m.Keys == pos.Keys
  {
    map c | c in pos :: RoLookup(cs[c], pos[c])
  }

  /** Looking the read-only flags up pair by pair, in any order that lists each position once, gives ReadOnlyFlags. */
  lemma ReadOnlyMapOfPositions(ks: seq<int>, vs: seq<string>, cs: seq<VmContainer>, pos: map<int, string>)
    requires Enumerates(ks, pos.Keys) && |vs| == |ks|
    requires forall i :: 0 <= i < |ks| ==> vs[i] == pos[ks[i]]
    requires forall c :: c in pos ==> 0 <= c < |cs|
    ensures forall i :: 0 <= i < |ks| ==> 0 <= ks[i] < |cs|
    ensures ReadOnlyMap(ks, vs, cs) == ReadOnlyFlags(pos, cs)
  {
    ReadOnlyMapFacts(ks, vs, cs);
    var ro := ReadOnlyMap(ks, vs, cs);
    var want := ReadOnlyFlags(pos, cs);
    forall c | c in ro
      ensures c in pos
    {
      var j :| 0 <= j < |ks| && ks[j] == c;
    }
    forall c | c in pos
      ensures c in ro && ro[c] == want[c]
    {
      var j :| 0 <= j < |ks| && ks[j] == c;
    }
  }

  /** Reading back the entry dump wrote for a volume gives the volume, with read-only flags looked up again. */
  lemma VolumeEntryRoundTrip(vol: VolumeInfo, order: seq<int>, cs: seq<VmContainer>)
    requires Enumerates(order, vol.pos.Keys)
    requires forall c :: c in vol.pos ==> 0 <= c < |cs|
    requires IsVolumeEntry(VolumeEntry(vol, order))
    ensures forall i :: 0 <= i < |order| ==> 0 <= order[i] < |cs|
    ensures VolumeFromEntry(VolumeEntry(vol, order), cs) == RestoredVolume(vol, cs)
  {
    PosMapOfEntry(vol, order);
    ReadOnlyMapOfPositions(order, VolumeEntry(vol, order).montPoints, cs, vol.pos);
  }

  /** The k-th volume entry of a dump reads back as the k-th volume visited. */
  lemma DumpedVolumeRestores(images: map<string, ImageInfo>, volumes: map<string, VolumeInfo>,
                             networks: map<int, InterfaceCreated>, o: DumpOrder, cs: seq<VmContainer>, x: nat)
    requires ValidOrder(o, images, volumes, networks)
    requires Restorable(images, volumes, networks, cs)
    requires x < |o.volumes|
    ensures var e := DumpVolumeList(images, volumes, networks, o)[|o.images| + x];
      IsVolumeEntry(e) && (forall i :: 0 <= i < |e.containers| ==> 0 <= e.containers[i] < |cs|)
      && VolumeFromEntry(e, cs) == RestoredVolume(volumes[o.volumes[x]], cs)
  {
    DumpedEntries(images, volumes, networks, o, cs);
    var k := o.volumes[x];
    assert DumpVolumeList(images, volumes, networks, o)[|o.images| + x] == VolumeEntry(volumes[k], o.positions[k]);
    VolumeEntryRoundTrip(volumes[k], o.positions[k], cs);
  }

  lemma DumpListsVolumes(images: map<string, ImageInfo>, volumes: map<string, VolumeInfo>,
                         networks: map<int, InterfaceCreated>, o: DumpOrder, cs: seq<VmContainer>)
    requires ValidOrder(o, images, volumes, networks)
    requires Restorable(images, volumes, networks, cs)
    ensures ListsVolumes(DumpVolumeList(images, volumes, networks, o), cs, |o.images|, o.volumes, volumes)
  {
    var vl := DumpVolumeList(images, volumes, networks, o);
    DumpedEntries(images, volumes, networks, o, cs);
    forall x | 0 <= x < |o.volumes|
      ensures vl[|o.images| + x].name == o.volumes[x]
      ensures VolumeFromEntry(vl[|o.images| + x], cs) == RestoredVolume(volumes[o.volumes[x]], cs)
    {
      DumpedVolumeRestores(images, volumes, networks, o, cs, x);
    }
    ListsVolumesIntro(vl, cs, |o.images|, o.volumes, volumes);
  }

  /** ListsVolumes from image entries followed by the named volume entries. */
  lemma ListsVolumesIntro(vl: seq<PersistVolumeInfo>, cs: seq<VmContainer>, start: nat, names: seq<string>,
                          volumes: map<string, VolumeInfo>)
    requires Enumerates(names, volumes.Keys) && start + |names| == |vl| && Faultless(vl, |cs|)
    requires forall k, c :: k in volumes && c in volumes[k].pos ==> volumes[k].pos[c] != "/" && 0 <= c < |cs|
    requires forall i :: 0 <= i < start ==> IsImageEntry(vl[i])
    requires forall i :: start <= i < |vl| ==> IsVolumeEntry(vl[i])
    requires forall x :: 0 <= x < |names| ==>
      vl[start + x].name == names[x]
      && VolumeFromEntry(vl[start + x], cs) == RestoredVolume(volumes[names[x]], cs)
    ensures ListsVolumes(vl, cs, start, names, volumes)
  {
    assert forall i :: 0 <= i < start ==> !IsVolumeEntry(vl[i]);
  }


  /** vmContext(dump(ctx)), as evidently intended, has the context's volumes, with read-only flags looked up again. */
  lemma VolumesRoundTrip(images: map<string, ImageInfo>, volumes: map<string, VolumeInfo>,
                         networks: map<int, InterfaceCreated>, o: DumpOrder, cs: seq<VmContainer>)
    requires ValidOrder(o, images, volumes, networks)
    requires Restorable(images, volumes, networks, cs)
    ensures Faultless(DumpVolumeList(images, volumes, networks, o), |cs|)
    ensures VolumesFrom(DumpVolumeList(images, volumes, networks, o), cs)
      == map k | k in volumes :: RestoredVolume(volumes[k], cs)
  {
    DumpListsVolumes(images, volumes, networks, o, cs);
    VolumesFromListed(DumpVolumeList(images, volumes, networks, o), cs, |o.images|, o.volumes, volumes);
  }

  /** vmContext(dump(ctx)) has the context's networks, less their host side. */
  lemma NetworksRoundTrip(networks: map<int, InterfaceCreated>, order: seq<int>)
    requires Enumerates(order, networks.Keys)
    requires forall k :: k in networks ==> networks[k].index == k
    ensures NetworksFrom(DumpNetworkList(networks, order)) == map k | k in networks :: RestoredNic(networks[k])
  {
    var nl := DumpNetworkList(networks, order);
    NetworksFromKeys(nl);
    var m := NetworksFrom(nl);
    assert forall i :: 0 <= i < |nl| ==> nl[i].index == order[i];
    forall k | k in m
      ensures k in networks
    {
      var i :| 0 <= i < |nl| && nl[i].index == k;
    }
    forall k | k in networks
      ensures k in m && m[k] == RestoredNic(networks[k])
    {
      var i :| 0 <= i < |order| && order[i] == k;
      NetworksFromValue(nl, i);
    }
  }

  /**
   * Dumping a context that has a shared volume and restoring the record
   * loses the volume: `vmContext` rebuilds a non-empty volume map and
   * leaves the restored context's volume map empty, while the images come
   * back (see VolumesRoundTrip for what it evidently means to store).
   */
  method RestoreLosesVolumes(ctx: VmContext, driver: DriverInfo, o: DumpOrder) returns (restored: VmContext?)
    requires ValidOrder(o, ctx.imageMap, ctx.volumeMap, ctx.networkMap)
    requires Restorable(ctx.imageMap, ctx.volumeMap, ctx.networkMap, ctx.vmSpec.containers)
    requires ctx.volumeMap != map[]
    ensures restored != null && restored.volumeMap == map[] && restored.volumeMap != ctx.volumeMap
    ensures restored.imageMap == map k | k in ctx.imageMap :: StripImage(ctx.imageMap[k])
    ensures VolumesFrom(DumpVolumeList(ctx.imageMap, ctx.volumeMap, ctx.networkMap, o), ctx.vmSpec.containers) != map[]
  {
    var images, volumes, networks, cs := ctx.imageMap, ctx.volumeMap, ctx.networkMap, ctx.vmSpec.containers;
    var r := Dump(ctx, Ok(driver), o);
    var pinfo := r.value;
    var vl := pinfo.volumeList;
    assert vl == DumpVolumeList(images, volumes, networks, o) && pinfo.vmSpec.containers == cs;
    DumpedEntries(images, volumes, networks, o, cs);
    NoFirstFault(vl, |cs|);
    ImagesRoundTrip(images, volumes, networks, o, cs);
    VolumesRoundTrip(images, volumes, networks, o, cs);
    var k :| k in volumes;
    assert k in VolumesFrom(vl, cs);
    var err;
    restored, err := Restore(pinfo, None, None);
  }

}
