// The lazy lifecycle of runv/hypervisor/lazy.go: a VM whose hypervisor is
// launched only once the pod's devices are known. The PREPARING state
// handles one event at a time; a run/replace/listen-pod command prepares the
// devices (pending TTY attaches, then networks, then block devices) and
// moves to STARTING or RUNNING, or to a terminal "None" on failure.
//
// Helpers of the context (InitDeviceContext, allocateInterface,
// interfaceCreated, attachTty2Container, execCmd, attachCmd, setWindowSize,
// startSocks, the driver's LazyLaunch/LazyAddNic/LazyAddDisk/Listen) are
// not part of this model: InitDeviceContext's result and allocateInterface's
// outcome are inputs, and the rest append what they are asked to do to the
// context's `actions` log.

module Lazy {
  import opened Common
  import opened Hypervisor

  /** The device context InitDeviceContext builds from a pod spec: its maps and the devices it queues, in visiting order. */
  datatype DeviceSetup = DeviceSetup(
    spec: VmPod,
    images: map<string, ImageInfo>,
    volumes: map<string, VolumeInfo>,
    networks: seq<int>,
    blockdevs: seq<string>)

  /**
   * A run-pod, replace-pod or listen-pod command: the number of containers
   * in its spec and in its container info, the device context it sets up,
   * and what allocateInterface(index, pciAddr, name) answers.
   */
  datatype PodCommand = PodCommand(
    specContainers: nat,
    containers: nat,
    setup: DeviceSetup,
    alloc: (int, int, string) -> Result<InterfaceCreated>)

  /** The events `statePreparing` tells apart. */
  datatype LazyEvent =
    | VmExited
    | Interrupted
    | ShutdownCommand
    | ReleaseCommand
    | ExecCommand(container: string, command: string)
    | AttachRequest(cmd: AttachCommand)
    | WindowSizeCommand(clientTag: string, rows: int, cols: int)
    | RunPod(pod: PodCommand)
    | ReplacePod(pod: PodCommand)
    | ListenPod(pod: PodCommand, ip: string, port: string)
    | OtherEvent(name: string)

  const SpecMismatch := "Spec and Container Info mismatch"
  const NotLazy := "not a lazy driver, cannot call lazy loop"

  // -----------------------------------------------------------------------
  // Pending TTY attaches
  // -----------------------------------------------------------------------

  /** The pending attaches whose container is not in the pod, in their original order. */
  function StillPending(p: seq<AttachCommand>, cs: seq<VmContainer>): (r: seq<AttachCommand>)
    ensures |r| <= |p|
    ensures forall j :: 0 <= j < |r| ==> LookupIn(cs, r[j].container) < 0
  {
    if p == [] then []
    else
      var init := StillPending(p[..|p| - 1], cs);
      if LookupIn(cs, p[|p| - 1].container) >= 0 then init else init + [p[|p| - 1]]
  }

  /** The pending attaches whose container is in the pod, each with the container's index, in order. */
  function Bound(p: seq<AttachCommand>, cs: seq<VmContainer>): (r: seq<(int, AttachCommand)>)
    ensures forall j :: 0 <= j < |r| ==> 0 <= r[j].0 < |cs| && r[j].0 == LookupIn(cs, r[j].1.container)
  {
    if p == [] then []
    else
      var init := Bound(p[..|p| - 1], cs);
      var idx := LookupIn(cs, p[|p| - 1].container);
      if idx >= 0 then init + [(idx, p[|p| - 1])] else init
  }

  /** Nothing is made up: every attach still pending or bound was pending before. */
  lemma {:induction false} DrawnFromPending(p: seq<AttachCommand>, cs: seq<VmContainer>)
    ensures forall j :: 0 <= j < |StillPending(p, cs)| ==> StillPending(p, cs)[j] in p
    ensures forall j :: 0 <= j < |Bound(p, cs)| ==> Bound(p, cs)[j].1 in p
  {
    if p != [] {
      var n := |p| - 1;
      var init, last := p[..n], p[n];
      DrawnFromPending(init, cs);
      assert p == init + [last];
    }
  }

  /** Every pending attach ends up either bound or still pending, never both and never lost. */
  lemma {:induction false} PendingPartition(p: seq<AttachCommand>, cs: seq<VmContainer>)
    ensures |StillPending(p, cs)| + |Bound(p, cs)| == |p|
    ensures forall a :: a in p && LookupIn(cs, a.container) < 0 ==> a in StillPending(p, cs)
    ensures forall a :: a in p && LookupIn(cs, a.container) >= 0 ==> (LookupIn(cs, a.container), a) in Bound(p, cs)
  {
    if p != [] {
      var n := |p| - 1;
      var init, last := p[..n], p[n];
      PendingPartition(init, cs);
      assert p == init + [last];
      forall a | a in p
        ensures a in init || a == last
      {
      }
      var idx := LookupIn(cs, last.container);
      if idx >= 0 {
        assert Bound(p, cs) == Bound(init, cs) + [(idx, last)];
        assert StillPending(p, cs) == StillPending(init, cs);
      } else {
        assert Bound(p, cs) == Bound(init, cs);
        assert StillPending(p, cs) == StillPending(init, cs) + [last];
      }
    }
  }

  /** A container that is not in the pod keeps all its pending attaches, in order. */
  lemma {:induction false} NothingBoundWhenNoneFound(p: seq<AttachCommand>, cs: seq<VmContainer>)
    requires forall j :: 0 <= j < |p| ==> LookupIn(cs, p[j].container) < 0
    ensures StillPending(p, cs) == p && Bound(p, cs) == []
  {
    if p != [] {
      var n := |p| - 1;
      var init, last := p[..n], p[n];
      NothingBoundWhenNoneFound(init, cs);
      assert LookupIn(cs, last.container) < 0;
      assert init + [last] == p;
    }
  }

  /** The pending-TTY loop of lazyPrepareDevice: found containers get their client attached, the rest are queued again. */
  method RequeuePendingTtys(ctx: VmContext)
    modifies ctx`pendingTtys, ctx`attached
    ensures ctx.pendingTtys == StillPending(old(ctx.pendingTtys), ctx.vmSpec.containers)
    ensures ctx.attached == old(ctx.attached) + Bound(old(ctx.pendingTtys), ctx.vmSpec.containers)
  {
    var pendings := ctx.pendingTtys;
    var cs := ctx.vmSpec.containers;
    ctx.pendingTtys := [];
    var k := 0;
    while k < |pendings|
      invariant 0 <= k <= |pendings|
      invariant ctx.pendingTtys == StillPending(pendings[..k], cs)
      invariant ctx.attached == old(ctx.attached) + Bound(pendings[..k], cs)
    {
      assert pendings[..k + 1][..k] == pendings[..k];
      var acmd := pendings[k];
      var idx := ctx.Lookup(acmd.container);
      if idx >= 0 {
        ctx.attached := ctx.attached + [(idx, acmd)];
      } else {
        ctx.pendingTtys := ctx.pendingTtys + [acmd];
      }
      k := k + 1;
    }
    assert pendings[..k] == pendings;
  }

  // -----------------------------------------------------------------------
  // Networks
  // -----------------------------------------------------------------------

  /** The guest-side name of interface `i`. */
  function EthName(i: int): (r: string)
    ensures IsPrefix("eth", r)
  {
    "eth" + IntToDec(i)
  }

  /** Distinct interfaces get distinct names. */
  lemma EthNameInjective(i: int, j: int)
    requires EthName(i) == EthName(j)
    ensures i == j
  {
    assert IntToDec(i) == EthName(i)[3..];
    assert IntToDec(j) == EthName(j)[3..];
    ParseIntToDec(i);
    ParseIntToDec(j);
  }

  /**
   * networkConfigure: the host half of an interface and the guest half. A
   * nil file's descriptor reads as the all-ones 64-bit value.
   */
  function NetworkConfigure(nic: InterfaceCreated): (r: (HostNicInfo, GuestNicInfo))
    ensures r.0.gateway == r.0.bridge == nic.bridge
    ensures r.1.index == nic.index && r.1.busaddr == nic.pciAddr && r.1.device == nic.deviceName
  {
    var fd := match nic.fd case Some(f) => f case None => 0xFFFF_FFFF_FFFF_FFFF;
    (HostNicInfo(fd, nic.hostDevice, nic.macAddr, nic.bridge, nic.bridge),
     GuestNicInfo(nic.deviceName, nic.ipAddr, nic.index, nic.pciAddr))
  }

  /** What allocateInterface answers for the j-th queued interface, the j-th PCI address after `base`. */
  function Allocation(nets: seq<int>, alloc: (int, int, string) -> Result<InterfaceCreated>, base: int, j: nat)
    : Result<InterfaceCreated>
    requires j < |nets|
  {
    alloc(nets[j], base + j, EthName(nets[j]))
  }

  lemma AllocationAt(nets: seq<int>, alloc: (int, int, string) -> Result<InterfaceCreated>, base: int, j: nat, addr: int)
    requires j < |nets| && addr == base + j
    ensures alloc(nets[j], addr, EthName(nets[j])) == Allocation(nets, alloc, base, j)
  {
  }

  /** The position of the first interface at or after `k` whose allocation fails, or |nets| when none does. */
  function FirstAllocErrorFrom(nets: seq<int>, alloc: (int, int, string) -> Result<InterfaceCreated>, base: int, k: nat)
    : (r: nat)
    requires k <= |nets|
    ensures k <= r <= |nets|
    ensures forall j :: k <= j < r ==> Allocation(nets, alloc, base, j).Ok?
    ensures r < |nets| ==> Allocation(nets, alloc, base, r).Err?
    decreases |nets| - k
  {
    if k == |nets| then k
    else if Allocation(nets, alloc, base, k).Err? then k
    else FirstAllocErrorFrom(nets, alloc, base, k + 1)
  }

  /** The position of the first interface whose allocation fails, or |nets| when none does. */
  function FirstAllocError(nets: seq<int>, alloc: (int, int, string) -> Result<InterfaceCreated>, base: int): (r: nat)
    ensures r <= |nets|
    ensures forall j :: 0 <= j < r ==> Allocation(nets, alloc, base, j).Ok?
    ensures r < |nets| ==> Allocation(nets, alloc, base, r).Err?
  {
    FirstAllocErrorFrom(nets, alloc, base, 0)
  }

  /** The network map after the first n interfaces were allocated and recorded by index. */
  function NicsInstalled(m: map<int, InterfaceCreated>, nets: seq<int>,
                         alloc: (int, int, string) -> Result<InterfaceCreated>, base: int, n: nat)
    : map<int, InterfaceCreated>
    requires n <= FirstAllocError(nets, alloc, base)
  {
    if n == 0 then m
    else
      var nic := Allocation(nets, alloc, base, n - 1).value;
      NicsInstalled(m, nets, alloc, base, n - 1)[nic.index := nic]
  }

  /** The LazyAddNic request for the j-th interface: networkConfigure of what was allocated. */
  function NicAction(nets: seq<int>, alloc: (int, int, string) -> Result<InterfaceCreated>, base: int, j: nat): Action
    requires j < FirstAllocError(nets, alloc, base)
  {
    var cfg := NetworkConfigure(Allocation(nets, alloc, base, j).value);
    LazyAddNic(cfg.0, cfg.1)
  }

  /** The LazyAddNic requests for the first n interfaces, in order. */
  function NicActions(nets: seq<int>, alloc: (int, int, string) -> Result<InterfaceCreated>, base: int, n: nat)
    : (r: seq<Action>)
    requires n <= FirstAllocError(nets, alloc, base)
    ensures |r| == n
  {
    if n == 0 then [] else NicActions(nets, alloc, base, n - 1) + [NicAction(nets, alloc, base, n - 1)]
  }

  /** The j-th LazyAddNic request carries the j-th allocated interface. */
  lemma {:induction false} NicActionAt(nets: seq<int>, alloc: (int, int, string) -> Result<InterfaceCreated>,
                                       base: int, n: nat, j: nat)
    requires n <= FirstAllocError(nets, alloc, base)
    requires j < n
    ensures NicActions(nets, alloc, base, n)[j] == NicAction(nets, alloc, base, j)
  {
    if j < n - 1 {
      NicActionAt(nets, alloc, base, n - 1, j);
    }
  }

  /** Below the first failure, the next allocation either is the first failure or succeeds and stays below it. */
  lemma AllocationDecides(nets: seq<int>, alloc: (int, int, string) -> Result<InterfaceCreated>, base: int, i: nat)
    requires i < |nets| && i <= FirstAllocError(nets, alloc, base)
    ensures Allocation(nets, alloc, base, i).Err? ==> FirstAllocError(nets, alloc, base) == i
    ensures Allocation(nets, alloc, base, i).Ok? ==> i < FirstAllocError(nets, alloc, base)
  {
  }

  /** One more allocated interface: its record joins the map and its request the actions. */
  lemma InstalledStep(m: map<int, InterfaceCreated>, a: seq<Action>, nets: seq<int>,
                      alloc: (int, int, string) -> Result<InterfaceCreated>, base: int, i: nat)
    requires i < FirstAllocError(nets, alloc, base)
    ensures var nic := Allocation(nets, alloc, base, i).value;
            && NicsInstalled(m, nets, alloc, base, i + 1) == NicsInstalled(m, nets, alloc, base, i)[nic.index := nic]
            && a + NicActions(nets, alloc, base, i + 1)
               == a + NicActions(nets, alloc, base, i) + [LazyAddNic(NetworkConfigure(nic).0, NetworkConfigure(nic).1)]
  {
  }

  /** Records an allocated interface under its index and asks the driver to add it. */
  method InstallNic(ctx: VmContext, nic: InterfaceCreated)
    modifies ctx`networkMap, ctx`actions
    ensures ctx.networkMap == old(ctx.networkMap)[nic.index := nic]
    ensures ctx.actions == old(ctx.actions) + [LazyAddNic(NetworkConfigure(nic).0, NetworkConfigure(nic).1)]
  {
    ctx.networkMap := ctx.networkMap[nic.index := nic];
    var cfg := NetworkConfigure(nic);
    ctx.Act(LazyAddNic(cfg.0, cfg.1));
  }

  /** lazyAllocateNetworks: one PCI address per interface, taken before allocating; the first failure stops the loop. */
  method AllocateNetworks(ctx: VmContext, alloc: (int, int, string) -> Result<InterfaceCreated>)
    returns (err: Option<string>)
    modifies ctx`pciAddr, ctx`networkMap, ctx`actions
    ensures err.None? <==> FirstAllocError(ctx.addingNetworks, alloc, old(ctx.pciAddr)) == |ctx.addingNetworks|
    ensures err.Some? ==>
      var n := FirstAllocError(ctx.addingNetworks, alloc, old(ctx.pciAddr));
      n < |ctx.addingNetworks| && err.value == Allocation(ctx.addingNetworks, alloc, old(ctx.pciAddr), n).msg
    ensures ctx.pciAddr == old(ctx.pciAddr) + FirstAllocError(ctx.addingNetworks, alloc, old(ctx.pciAddr))
                           + (if err.Some? then 1 else 0)
    ensures ctx.networkMap == NicsInstalled(old(ctx.networkMap), ctx.addingNetworks, alloc, old(ctx.pciAddr),
                                            FirstAllocError(ctx.addingNetworks, alloc, old(ctx.pciAddr)))
    ensures ctx.actions == old(ctx.actions) + NicActions(ctx.addingNetworks, alloc, old(ctx.pciAddr),
                                                         FirstAllocError(ctx.addingNetworks, alloc, old(ctx.pciAddr)))
  {
    err := AllocateEach(ctx, ctx.addingNetworks, alloc);
  }

  /** One turn of lazyAllocateNetworks' loop: take a PCI address, allocate the i-th interface, install it if that worked. */
  method AllocateNext(ctx: VmContext, nets: seq<int>, alloc: (int, int, string) -> Result<InterfaceCreated>,
                      ghost base: int, ghost m0: map<int, InterfaceCreated>, ghost a0: seq<Action>, i: nat)
    returns (err: Option<string>)
    requires i < |nets| && i <= FirstAllocError(nets, alloc, base)
    requires ctx.pciAddr == base + i
    requires ctx.networkMap == NicsInstalled(m0, nets, alloc, base, i)
    requires ctx.actions == a0 + NicActions(nets, alloc, base, i)
    modifies ctx`pciAddr, ctx`networkMap, ctx`actions
    ensures ctx.pciAddr == base + i + 1
    ensures err.Some? <==> FirstAllocError(nets, alloc, base) == i
    ensures err.Some? ==> err.value == Allocation(nets, alloc, base, i).msg
                          && ctx.networkMap == old(ctx.networkMap) && ctx.actions == old(ctx.actions)
    ensures err.None? ==> ctx.networkMap == NicsInstalled(m0, nets, alloc, base, i + 1)
                          && ctx.actions == a0 + NicActions(nets, alloc, base, i + 1)
  {
    var addr := ctx.NextPciAddr();
    var nic := alloc(nets[i], addr, EthName(nets[i]));
    AllocationAt(nets, alloc, base, i, addr);
    AllocationDecides(nets, alloc, base, i);
    if nic.Err? {
      return Some(nic.msg);
    }
    InstalledStep(m0, a0, nets, alloc, base, i);
    InstallNic(ctx, nic.value);
    return None;
  }

  /** The loop of lazyAllocateNetworks over the queued interfaces `nets`. */
  method AllocateEach(ctx: VmContext, nets: seq<int>, alloc: (int, int, string) -> Result<InterfaceCreated>)
    returns (err: Option<string>)
    modifies ctx`pciAddr, ctx`networkMap, ctx`actions
    ensures err.None? <==> FirstAllocError(nets, alloc, old(ctx.pciAddr)) == |nets|
    ensures err.Some? ==>
      var n := FirstAllocError(nets, alloc, old(ctx.pciAddr));
      n < |nets| && err.value == Allocation(nets, alloc, old(ctx.pciAddr), n).msg
    ensures ctx.pciAddr == old(ctx.pciAddr) + FirstAllocError(nets, alloc, old(ctx.pciAddr)) + (if err.Some? then 1 else 0)
    ensures ctx.networkMap == NicsInstalled(old(ctx.networkMap), nets, alloc, old(ctx.pciAddr),
                                            FirstAllocError(nets, alloc, old(ctx.pciAddr)))
    ensures ctx.actions == old(ctx.actions) + NicActions(nets, alloc, old(ctx.pciAddr),
                                                         FirstAllocError(nets, alloc, old(ctx.pciAddr)))
  {
    ghost var base, m0, a0 := ctx.pciAddr, ctx.networkMap, ctx.actions;
    var i := 0;
    while i < |nets|
      invariant 0 <= i <= FirstAllocError(nets, alloc, base)
      invariant ctx.pciAddr == base + i
      invariant ctx.networkMap == NicsInstalled(m0, nets, alloc, base, i)
      invariant ctx.actions == a0 + NicActions(nets, alloc, base, i)
    {
      err := AllocateNext(ctx, nets, alloc, base, m0, a0, i);
      if err.Some? {
        assert i == FirstAllocError(nets, alloc, base);
        return;
      }
      i := i + 1;
    }
    assert i == FirstAllocError(nets, alloc, base);
    return None;
  }

  // -----------------------------------------------------------------------
  // Block devices
  // -----------------------------------------------------------------------

  /** The queued block devices found in either map: only these take a SCSI id. */
  function KnownCount(blks: seq<string>, volumes: map<string, VolumeInfo>, images: map<string, ImageInfo>): (r: nat)
    ensures r <= |blks|
  {
    if blks == [] then 0
    else
      var b := blks[|blks| - 1];
      KnownCount(blks[..|blks| - 1], volumes, images) + (if b in volumes || b in images then 1 else 0)
  }

  /** The LazyAddDisk request for one queued name on SCSI id `sid`: the volume map is consulted first. */
  function DiskFor(b: string, volumes: map<string, VolumeInfo>, images: map<string, ImageInfo>, sid: int): seq<Action>
  {
    if b in volumes then
      var d := volumes[b].info;
      [LazyAddDisk(d.name, "volume", d.filename, d.format, sid)]
    else if b in images then
      var d := images[b].info;
      [LazyAddDisk(d.name, "image", d.filename, d.format, sid)]
    else []
  }

  /** The LazyAddDisk requests for the queued names, the known ones numbered on from `sid`. */
  function DiskActions(blks: seq<string>, volumes: map<string, VolumeInfo>, images: map<string, ImageInfo>, sid: int)
    : seq<Action>
  {
    if blks == [] then []
    else
      var init := blks[..|blks| - 1];
      DiskActions(init, volumes, images, sid)
        + DiskFor(blks[|blks| - 1], volumes, images, sid + KnownCount(init, volumes, images))
  }

  /**
   * One request per known name and none for the others; the SCSI ids are
   * consecutive from `sid`, so no two devices share one.
   */
  lemma {:induction false} DiskActionIds(blks: seq<string>, volumes: map<string, VolumeInfo>,
                                         images: map<string, ImageInfo>, sid: int)
    ensures |DiskActions(blks, volumes, images, sid)| == KnownCount(blks, volumes, images)
    ensures forall j :: 0 <= j < |DiskActions(blks, volumes, images, sid)| ==>
      DiskActions(blks, volumes, images, sid)[j].LazyAddDisk? && DiskActions(blks, volumes, images, sid)[j].id == sid + j
  {
    if blks != [] {
      DiskActionIds(blks[..|blks| - 1], volumes, images, sid);
    }
  }

  /** A name in both maps is added as a volume, never as an image. */
  lemma VolumeBeforeImage(b: string, volumes: map<string, VolumeInfo>, images: map<string, ImageInfo>, sid: int)
    requires b in volumes
    ensures DiskActions([b], volumes, images, sid) == [LazyAddDisk(volumes[b].info.name, "volume",
                                                                  volumes[b].info.filename, volumes[b].info.format, sid)]
  {
    assert [b][..0] == [];
  }

  /** One more queued name: its request, if it is known, on the next SCSI id. */
  lemma DiskStep(blks: seq<string>, volumes: map<string, VolumeInfo>, images: map<string, ImageInfo>, sid: int, k: nat)
    requires k < |blks|
    ensures KnownCount(blks[..k + 1], volumes, images)
            == KnownCount(blks[..k], volumes, images) + (if blks[k] in volumes || blks[k] in images then 1 else 0)
    ensures DiskActions(blks[..k + 1], volumes, images, sid)
            == DiskActions(blks[..k], volumes, images, sid) + DiskFor(blks[k], volumes, images, sid + KnownCount(blks[..k], volumes, images))
  {
    assert blks[..k + 1][..k] == blks[..k];
  }

  /** lazyAddBlockDevices: the queued names in visiting order; names in neither map are skipped. */
  method AddBlockDevices(ctx: VmContext)
    modifies ctx`scsiId, ctx`actions
    ensures ctx.scsiId == old(ctx.scsiId) + KnownCount(ctx.addingBlockdevs, ctx.volumeMap, ctx.imageMap)
    ensures ctx.actions == old(ctx.actions) + DiskActions(ctx.addingBlockdevs, ctx.volumeMap, ctx.imageMap, old(ctx.scsiId))
  {
    var blks, vols, imgs := ctx.addingBlockdevs, ctx.volumeMap, ctx.imageMap;
    ghost var s0, a0 := ctx.scsiId, ctx.actions;
    var k := 0;
    while k < |blks|
      invariant 0 <= k <= |blks|
      invariant ctx.scsiId == s0 + KnownCount(blks[..k], vols, imgs)
      invariant ctx.actions == a0 + DiskActions(blks[..k], vols, imgs, s0)
    {
      DiskStep(blks, vols, imgs, s0, k);
      ghost var before := ctx.actions;
      ghost var wanted := DiskFor(blks[k], vols, imgs, ctx.scsiId);
      var blk := blks[k];
      if blk in vols {
        var d := vols[blk].info;
        var sid := ctx.NextScsiId();
        ctx.Act(LazyAddDisk(d.name, "volume", d.filename, d.format, sid));
        assert wanted == [LazyAddDisk(d.name, "volume", d.filename, d.format, sid)];
      } else if blk in imgs {
        var d := imgs[blk].info;
        var sid := ctx.NextScsiId();
        ctx.Act(LazyAddDisk(d.name, "image", d.filename, d.format, sid));
        assert wanted == [LazyAddDisk(d.name, "image", d.filename, d.format, sid)];
      }
      assert ctx.actions == before + wanted;
      k := k + 1;
    }
    assert blks[..k] == blks;
  }

  // -----------------------------------------------------------------------
  // Device preparation
  // -----------------------------------------------------------------------

  /** InitDeviceContext, as far as this model sees it: the spec, the device maps and the device queues. */
  method InitDeviceContext(ctx: VmContext, setup: DeviceSetup)
    modifies ctx`vmSpec, ctx`imageMap, ctx`volumeMap, ctx`addingNetworks, ctx`addingBlockdevs
    ensures ctx.vmSpec == setup.spec && ctx.imageMap == setup.images && ctx.volumeMap == setup.volumes
    ensures ctx.addingNetworks == setup.networks && ctx.addingBlockdevs == setup.blockdevs
  {
    ctx.vmSpec := setup.spec;
    ctx.imageMap, ctx.volumeMap := setup.images, setup.volumes;
    ctx.addingNetworks, ctx.addingBlockdevs := setup.networks, setup.blockdevs;
  }

  /** The command passes the count check and every interface is allocated. */
  predicate Preparable(cmd: PodCommand, pciAddr: int)
  {
    cmd.specContainers == cmd.containers
    && FirstAllocError(cmd.setup.networks, cmd.alloc, pciAddr) == |cmd.setup.networks|
  }

  /** The part of a VM context that device preparation reads and writes, other than the action log. */
  datatype DeviceState = DeviceState(
    spec: VmPod, images: map<string, ImageInfo>, volumes: map<string, VolumeInfo>,
    networks: seq<int>, blockdevs: seq<string>,
    pending: seq<AttachCommand>, attached: seq<(int, AttachCommand)>,
    nics: map<int, InterfaceCreated>, reports: seq<VmResponse>, pciAddr: int, scsiId: int)

  /** A context's device state. */
  function DevicesOf(ctx: VmContext): DeviceState
    reads ctx`vmSpec, ctx`imageMap, ctx`volumeMap, ctx`addingNetworks, ctx`addingBlockdevs
    reads ctx`pendingTtys, ctx`attached, ctx`networkMap, ctx`reports, ctx`pciAddr, ctx`scsiId
  {
    DeviceState(ctx.vmSpec, ctx.imageMap, ctx.volumeMap, ctx.addingNetworks, ctx.addingBlockdevs,
                ctx.pendingTtys, ctx.attached, ctx.networkMap, ctx.reports, ctx.pciAddr, ctx.scsiId)
  }

  /**
   * The device state lazyPrepareDevice leaves once the counts agree: the
   * pod's spec, device maps and queues installed, the pending attaches
   * sorted out, the allocated interfaces installed and the counters
   * advanced; a failed allocation is reported as a VM fault of the VM id
   * after the interfaces before it were added, and no block device is added.
   */
  function SetUpState(id: string, dev: DeviceState, cmd: PodCommand): (r: DeviceState)
    ensures r.spec == cmd.setup.spec && r.images == cmd.setup.images && r.volumes == cmd.setup.volumes
    ensures r.networks == cmd.setup.networks && r.blockdevs == cmd.setup.blockdevs
    ensures Preparable(cmd, dev.pciAddr) ==> r.reports == dev.reports
    ensures !Preparable(cmd, dev.pciAddr) && cmd.specContainers == cmd.containers ==> |r.reports| == |dev.reports| + 1
    ensures r.pciAddr > dev.pciAddr || (r.pciAddr == dev.pciAddr && cmd.setup.networks == [])
    ensures r.scsiId >= dev.scsiId
  {
    var nets := cmd.setup.networks;
    var n := FirstAllocError(nets, cmd.alloc, dev.pciAddr);
    var pending := StillPending(dev.pending, cmd.setup.spec.containers);
    var attached := dev.attached + Bound(dev.pending, cmd.setup.spec.containers);
    var nics := NicsInstalled(dev.nics, nets, cmd.alloc, dev.pciAddr, n);
    if n == |nets| then
      DeviceState(cmd.setup.spec, cmd.setup.images, cmd.setup.volumes, nets, cmd.setup.blockdevs, pending, attached,
                  nics, dev.reports, dev.pciAddr + n,
                  dev.scsiId + KnownCount(cmd.setup.blockdevs, cmd.setup.volumes, cmd.setup.images))
    else
      DeviceState(cmd.setup.spec, cmd.setup.images, cmd.setup.volumes, nets, cmd.setup.blockdevs, pending, attached,
                  nics, dev.reports + [VmResponse(id, VmFault, Allocation(nets, cmd.alloc, dev.pciAddr, n).msg)],
                  dev.pciAddr + n + 1, dev.scsiId)
  }

  /** After a failed allocation, the requests of the interfaces before it are all that was logged. */
  twostate predicate FailedAllocLogged(ctx: VmContext, cmd: PodCommand)
    reads ctx`actions
  {
    var n := FirstAllocError(cmd.setup.networks, cmd.alloc, old(ctx.pciAddr));
    n < |cmd.setup.networks| ==> ctx.actions == old(ctx.actions) + NicActions(cmd.setup.networks, cmd.alloc, old(ctx.pciAddr), n)
  }

  /**
   * What lazyPrepareDevice does once the counts agree: the device context is
   * set up, the pending attaches are sorted out, then every network is
   * allocated, and only when all were are block devices added.
   */
  method SetUpDevices(ctx: VmContext, cmd: PodCommand) returns (ok: bool)
    modifies ctx`reports, ctx`vmSpec, ctx`imageMap, ctx`volumeMap, ctx`addingNetworks, ctx`addingBlockdevs
    modifies ctx`pendingTtys, ctx`attached, ctx`pciAddr, ctx`networkMap, ctx`scsiId, ctx`actions
    ensures ok <==> FirstAllocError(cmd.setup.networks, cmd.alloc, old(ctx.pciAddr)) == |cmd.setup.networks|
    ensures ctx.vmSpec == cmd.setup.spec
    ensures ctx.pendingTtys == StillPending(old(ctx.pendingTtys), cmd.setup.spec.containers)
    ensures ctx.attached == old(ctx.attached) + Bound(old(ctx.pendingTtys), cmd.setup.spec.containers)
    ensures ctx.networkMap == NicsInstalled(old(ctx.networkMap), cmd.setup.networks, cmd.alloc, old(ctx.pciAddr),
                                            FirstAllocError(cmd.setup.networks, cmd.alloc, old(ctx.pciAddr)))
    ensures ok ==> ctx.reports == old(ctx.reports)
    ensures ok ==> ctx.pciAddr == old(ctx.pciAddr) + |cmd.setup.networks|
    ensures ok ==> ctx.scsiId == old(ctx.scsiId) + KnownCount(cmd.setup.blockdevs, cmd.setup.volumes, cmd.setup.images)
    ensures ok ==> (ctx.actions == old(ctx.actions)
                      + NicActions(cmd.setup.networks, cmd.alloc, old(ctx.pciAddr), |cmd.setup.networks|)
                      + DiskActions(cmd.setup.blockdevs, cmd.setup.volumes, cmd.setup.images, old(ctx.scsiId)))
    ensures !ok ==> var n := FirstAllocError(cmd.setup.networks, cmd.alloc, old(ctx.pciAddr));
      && n < |cmd.setup.networks|
      && ctx.reports == old(ctx.reports)
           + [VmResponse(ctx.id, VmFault, Allocation(cmd.setup.networks, cmd.alloc, old(ctx.pciAddr), n).msg)]
      && ctx.pciAddr == old(ctx.pciAddr) + n + 1
      && ctx.scsiId == old(ctx.scsiId)
      && ctx.actions == old(ctx.actions) + NicActions(cmd.setup.networks, cmd.alloc, old(ctx.pciAddr), n)
    ensures DevicesOf(ctx) == SetUpState(ctx.id, old(DevicesOf(ctx)), cmd) && FailedAllocLogged(ctx, cmd)
  {
    InitDeviceContext(ctx, cmd.setup);
    ok := AttachAndAdd(ctx, cmd.alloc);
  }

  /** On a set-up device context: the pending attaches are sorted out, then the devices are added. */
  method AttachAndAdd(ctx: VmContext, alloc: (int, int, string) -> Result<InterfaceCreated>) returns (ok: bool)
    modifies ctx`reports, ctx`pendingTtys, ctx`attached, ctx`pciAddr, ctx`networkMap, ctx`scsiId, ctx`actions
    ensures ok <==> FirstAllocError(ctx.addingNetworks, alloc, old(ctx.pciAddr)) == |ctx.addingNetworks|
    ensures ctx.pendingTtys == StillPending(old(ctx.pendingTtys), ctx.vmSpec.containers)
    ensures ctx.attached == old(ctx.attached) + Bound(old(ctx.pendingTtys), ctx.vmSpec.containers)
    ensures ctx.networkMap == NicsInstalled(old(ctx.networkMap), ctx.addingNetworks, alloc, old(ctx.pciAddr),
                                            FirstAllocError(ctx.addingNetworks, alloc, old(ctx.pciAddr)))
    ensures ok ==> ctx.reports == old(ctx.reports)
    ensures ok ==> ctx.pciAddr == old(ctx.pciAddr) + |ctx.addingNetworks|
    ensures ok ==> ctx.scsiId == old(ctx.scsiId) + KnownCount(ctx.addingBlockdevs, ctx.volumeMap, ctx.imageMap)
    ensures ok ==> (ctx.actions == old(ctx.actions)
                      + NicActions(ctx.addingNetworks, alloc, old(ctx.pciAddr), |ctx.addingNetworks|)
                      + DiskActions(ctx.addingBlockdevs, ctx.volumeMap, ctx.imageMap, old(ctx.scsiId)))
    ensures !ok ==> var n := FirstAllocError(ctx.addingNetworks, alloc, old(ctx.pciAddr));
      && n < |ctx.addingNetworks|
      && ctx.reports == old(ctx.reports)
           + [VmResponse(ctx.id, VmFault, Allocation(ctx.addingNetworks, alloc, old(ctx.pciAddr), n).msg)]
      && ctx.pciAddr == old(ctx.pciAddr) + n + 1
      && ctx.scsiId == old(ctx.scsiId)
      && ctx.actions == old(ctx.actions) + NicActions(ctx.addingNetworks, alloc, old(ctx.pciAddr), n)
  {
    RequeuePendingTtys(ctx);
    ok := AddDevices(ctx, alloc);
  }

  /** The networks, then, only when every one was allocated, the block devices; a failed allocation is reported. */
  method AddDevices(ctx: VmContext, alloc: (int, int, string) -> Result<InterfaceCreated>) returns (ok: bool)
    modifies ctx`reports, ctx`pciAddr, ctx`networkMap, ctx`scsiId, ctx`actions
    ensures ok <==> FirstAllocError(ctx.addingNetworks, alloc, old(ctx.pciAddr)) == |ctx.addingNetworks|
    ensures ctx.networkMap == NicsInstalled(old(ctx.networkMap), ctx.addingNetworks, alloc, old(ctx.pciAddr),
                                            FirstAllocError(ctx.addingNetworks, alloc, old(ctx.pciAddr)))
    ensures ok ==> ctx.reports == old(ctx.reports)
    ensures ok ==> ctx.pciAddr == old(ctx.pciAddr) + |ctx.addingNetworks|
    ensures ok ==> ctx.scsiId == old(ctx.scsiId) + KnownCount(ctx.addingBlockdevs, ctx.volumeMap, ctx.imageMap)
    ensures ok ==> (ctx.actions == old(ctx.actions)
                      + NicActions(ctx.addingNetworks, alloc, old(ctx.pciAddr), |ctx.addingNetworks|)
                      + DiskActions(ctx.addingBlockdevs, ctx.volumeMap, ctx.imageMap, old(ctx.scsiId)))
    ensures !ok ==> var n := FirstAllocError(ctx.addingNetworks, alloc, old(ctx.pciAddr));
      && n < |ctx.addingNetworks|
      && ctx.reports == old(ctx.reports)
           + [VmResponse(ctx.id, VmFault, Allocation(ctx.addingNetworks, alloc, old(ctx.pciAddr), n).msg)]
      && ctx.pciAddr == old(ctx.pciAddr) + n + 1
      && ctx.scsiId == old(ctx.scsiId)
      && ctx.actions == old(ctx.actions) + NicActions(ctx.addingNetworks, alloc, old(ctx.pciAddr), n)
  {
    var err := AllocateNetworks(ctx, alloc);
    if err.Some? {
      ctx.Report(VmFault, err.value);
      return false;
    }
    AddBlockDevices(ctx);
    return true;
  }

  /**
   * The outcome of a pod whose container list disagrees with its spec: one
   * bad-request report and no device touched.
   */
  twostate predicate SpecMismatchOnly(ctx: VmContext)
    reads ctx`id, ctx`reports, ctx`vmSpec, ctx`imageMap, ctx`volumeMap, ctx`networkMap, ctx`pendingTtys
    reads ctx`attached, ctx`addingNetworks, ctx`addingBlockdevs, ctx`pciAddr, ctx`scsiId, ctx`actions
  {
    DevicesOf(ctx) == old(DevicesOf(ctx)).(reports := old(ctx.reports) + [VmResponse(ctx.id, BadRequest, SpecMismatch)])
    && ctx.actions == old(ctx.actions)
  }

  /**
   * lazyPrepareDevice and lazyPrepareDeviceForListen (the two bodies are the
   * same). A count mismatch is refused before any device context exists.
   */
  method PrepareDevice(ctx: VmContext, cmd: PodCommand) returns (ok: bool)
    modifies ctx`reports, ctx`vmSpec, ctx`imageMap, ctx`volumeMap, ctx`addingNetworks, ctx`addingBlockdevs
    modifies ctx`pendingTtys, ctx`attached, ctx`pciAddr, ctx`networkMap, ctx`scsiId, ctx`actions
    ensures ok <==> Preparable(cmd, old(ctx.pciAddr))
    ensures ctx.pciAddr >= old(ctx.pciAddr) && ctx.scsiId >= old(ctx.scsiId)
    ensures cmd.specContainers != cmd.containers ==> SpecMismatchOnly(ctx)
    ensures cmd.specContainers == cmd.containers ==> ctx.vmSpec == cmd.setup.spec
    ensures cmd.specContainers == cmd.containers ==> DevicesOf(ctx) == SetUpState(ctx.id, old(DevicesOf(ctx)), cmd) && FailedAllocLogged(ctx, cmd)
    ensures ok ==> (ctx.actions == old(ctx.actions)
                      + NicActions(cmd.setup.networks, cmd.alloc, old(ctx.pciAddr), |cmd.setup.networks|)
                      + DiskActions(cmd.setup.blockdevs, cmd.setup.volumes, cmd.setup.images, old(ctx.scsiId)))
  {
    if cmd.specContainers != cmd.containers {
      ctx.Report(BadRequest, SpecMismatch);
      return false;
    }
    ok := SetUpDevices(ctx, cmd);
  }

  // -----------------------------------------------------------------------
  // The PREPARING state and the loop's entry
  // -----------------------------------------------------------------------

  /** statePreparing: one event handled in the PREPARING state. */
  method StatePreparing(ctx: VmContext, ev: LazyEvent)
    modifies ctx`reports, ctx`vmSpec, ctx`imageMap, ctx`volumeMap, ctx`addingNetworks, ctx`addingBlockdevs
    modifies ctx`pendingTtys, ctx`attached, ctx`pciAddr, ctx`networkMap, ctx`scsiId, ctx`actions
    modifies ctx`handler, ctx`stateTag, ctx`timeout
    ensures (ev.VmExited? || ev.Interrupted?) ==> unchanged(ctx)
    ensures (ev.ShutdownCommand? || ev.ReleaseCommand?) ==>
      ctx.reports == old(ctx.reports) + [VmResponse(ctx.id, VmShutdown, "")]
      && ctx.handler == NoHandler && ctx.stateTag == "NONE"
    ensures (ev.ShutdownCommand? || ev.ReleaseCommand?) ==> DevicesKept(ctx) && unchanged(ctx`timeout, ctx`actions)
    // Forwarded events only log an action; everything else is as it was.
    ensures (ev.ExecCommand? || ev.AttachRequest? || ev.WindowSizeCommand? || ev.OtherEvent?) ==> DevicesKept(ctx)
    ensures (ev.ExecCommand? || ev.AttachRequest? || ev.WindowSizeCommand? || ev.OtherEvent?) ==>
      unchanged(ctx`handler, ctx`stateTag, ctx`timeout, ctx`reports)
    ensures ev.ExecCommand? ==> ctx.actions == old(ctx.actions) + [ExecCmd(ev.container, ev.command)]
    ensures ev.AttachRequest? ==> ctx.actions == old(ctx.actions) + [AttachCmd(ev.cmd)]
    ensures ev.WindowSizeCommand? ==> ctx.actions == old(ctx.actions) + [SetWindowSize(ev.clientTag, ev.rows, ev.cols)]
    ensures ev.OtherEvent? ==> ctx.actions == old(ctx.actions) + [Unexpected("pod initiating")]
    // (The frame keeps the identity, the tty maps and the attach counter on every path.)
    ensures (ev.RunPod? || ev.ReplacePod?) ==> PreparedToStart(ctx, ev.pod)
    ensures ev.ListenPod? ==> PreparedToListen(ctx, ev.pod, ev.ip, ev.port)
  {
    match ev
    case VmExited =>
    case Interrupted =>
    case ShutdownCommand =>
      ctx.Report(VmShutdown, "");
      ctx.Become(NoHandler, "NONE");
    case ReleaseCommand =>
      ctx.Report(VmShutdown, "");
      ctx.Become(NoHandler, "NONE");
    case ExecCommand(container, command) =>
      ctx.Act(ExecCmd(container, command));
    case AttachRequest(cmd) =>
      ctx.Act(AttachCmd(cmd));
    case WindowSizeCommand(tag, rows, cols) =>
      ctx.Act(SetWindowSize(tag, rows, cols));
    case RunPod(pod) =>
      PrepareAndStart(ctx, pod);
    case ReplacePod(pod) =>
      PrepareAndStart(ctx, pod);
    case ListenPod(pod, ip, port) =>
      PrepareAndListen(ctx, pod, ip, port);
    case OtherEvent(_) =>
      ctx.Act(Unexpected("pod initiating"));
  }

  /** A prepared pod is started: socks, the lazy launch, sixty seconds' timeout, STARTING. */
  method LaunchPrepared(ctx: VmContext)
    modifies ctx`actions, ctx`timeout, ctx`handler, ctx`stateTag
    ensures ctx.actions == old(ctx.actions) + [StartSocks, LazyLaunch]
    ensures ctx.timeout == Some(60) && ctx.handler == Starting && ctx.stateTag == "STARTING"
    ensures DevicesOf(ctx) == old(DevicesOf(ctx))
  {
    ctx.Act(StartSocks);
    ctx.Act(LazyLaunch);
    ctx.timeout := Some(60);
    ctx.Become(Starting, "STARTING");
  }

  /** A prepared pod listens for the migrated VM: the listen request, the socks, RUNNING. */
  method ListenPrepared(ctx: VmContext, ip: string, port: string)
    modifies ctx`actions, ctx`handler, ctx`stateTag
    ensures ctx.actions == old(ctx.actions) + [Listen(ip, port), StartSocksInListen]
    ensures ctx.handler == Running && ctx.stateTag == "RUNNING"
    ensures DevicesOf(ctx) == old(DevicesOf(ctx))
  {
    ctx.Act(Listen(ip, port));
    ctx.Act(StartSocksInListen);
    ctx.Become(Running, "RUNNING");
  }

  /** Preparation failed: no handler, "None". */
  method Quit(ctx: VmContext)
    modifies ctx`handler, ctx`stateTag
    ensures ctx.handler == NoHandler && ctx.stateTag == "None"
    ensures DevicesOf(ctx) == old(DevicesOf(ctx))
  {
    ctx.Become(NoHandler, "None");
  }

  /** The listen-pod branch of statePreparing: the migration target waits for the source VM. */
  method PrepareAndListen(ctx: VmContext, pod: PodCommand, ip: string, port: string)
    modifies ctx`reports, ctx`vmSpec, ctx`imageMap, ctx`volumeMap, ctx`addingNetworks, ctx`addingBlockdevs
    modifies ctx`pendingTtys, ctx`attached, ctx`pciAddr, ctx`networkMap, ctx`scsiId, ctx`actions
    modifies ctx`handler, ctx`stateTag
    ensures PreparedToListen(ctx, pod, ip, port)
  {
    var ok := PrepareDevice(ctx, pod);
    if ok {
      ListenPrepared(ctx, ip, port);
    } else {
      Quit(ctx);
    }
  }

  /** The fields statePreparing's forwarding and shutdown branches leave alone. */
  twostate predicate DevicesKept(ctx: VmContext)
    reads ctx
  {
    unchanged(ctx`id, ctx`boot, ctx`pciAddr, ctx`scsiId, ctx`attachId, ctx`vmSpec, ctx`userSpec)
    && unchanged(ctx`imageMap, ctx`volumeMap, ctx`networkMap, ctx`ttys, ctx`pendingTtys, ctx`attached)
    && unchanged(ctx`addingNetworks, ctx`addingBlockdevs)
  }

  /**
   * A prepared pod being started: every network and disk is added, the
   * socks are set up, the VM is launched and STARTING waits sixty seconds.
   */
  twostate predicate Started(ctx: VmContext, pod: PodCommand)
    reads ctx`handler, ctx`stateTag, ctx`timeout, ctx`actions
  {
    Preparable(pod, old(ctx.pciAddr))
    && ctx.handler == Starting && ctx.stateTag == "STARTING" && ctx.timeout == Some(60)
    && ctx.actions == old(ctx.actions)
                      + NicActions(pod.setup.networks, pod.alloc, old(ctx.pciAddr), |pod.setup.networks|)
                      + DiskActions(pod.setup.blockdevs, pod.setup.volumes, pod.setup.images, old(ctx.scsiId))
                      + [StartSocks, LazyLaunch]
  }

  /** A prepared pod whose VM listens for migration at ip:port: RUNNING follows. */
  twostate predicate Listening(ctx: VmContext, pod: PodCommand, ip: string, port: string)
    reads ctx`handler, ctx`stateTag, ctx`actions
  {
    Preparable(pod, old(ctx.pciAddr))
    && ctx.handler == Running && ctx.stateTag == "RUNNING"
    && ctx.actions == old(ctx.actions)
                      + NicActions(pod.setup.networks, pod.alloc, old(ctx.pciAddr), |pod.setup.networks|)
                      + DiskActions(pod.setup.blockdevs, pod.setup.volumes, pod.setup.images, old(ctx.scsiId))
                      + [Listen(ip, port), StartSocksInListen]
  }

  /**
   * The run-pod and replace-pod outcome: a count mismatch is one bad
   * request and nothing else; otherwise the devices are set up, and the
   * pod is started when every interface was allocated, while a failed
   * allocation ends with no handler, "None" and the timeout as it was.
   */
  twostate predicate PreparedToStart(ctx: VmContext, pod: PodCommand)
    reads ctx
  {
    && (pod.specContainers != pod.containers ==> SpecMismatchOnly(ctx))
    && (pod.specContainers == pod.containers ==>
          ctx.vmSpec == pod.setup.spec
          && DevicesOf(ctx) == SetUpState(ctx.id, old(DevicesOf(ctx)), pod) && FailedAllocLogged(ctx, pod))
    && (Preparable(pod, old(ctx.pciAddr)) ==> Started(ctx, pod))
    && (!Preparable(pod, old(ctx.pciAddr)) ==>
          ctx.handler == NoHandler && ctx.stateTag == "None" && ctx.timeout == old(ctx.timeout))
  }

  /** The listen-pod outcome: as PreparedToStart, with Listening for Started and the timeout never set. */
  twostate predicate PreparedToListen(ctx: VmContext, pod: PodCommand, ip: string, port: string)
    reads ctx
  {
    && (pod.specContainers != pod.containers ==> SpecMismatchOnly(ctx))
    && (pod.specContainers == pod.containers ==>
          ctx.vmSpec == pod.setup.spec
          && DevicesOf(ctx) == SetUpState(ctx.id, old(DevicesOf(ctx)), pod) && FailedAllocLogged(ctx, pod))
    && (Preparable(pod, old(ctx.pciAddr)) ==> Listening(ctx, pod, ip, port))
    && (!Preparable(pod, old(ctx.pciAddr)) ==> ctx.handler == NoHandler && ctx.stateTag == "None")
    && ctx.timeout == old(ctx.timeout)
  }

  /** The run-pod and replace-pod branch of statePreparing. */
  method PrepareAndStart(ctx: VmContext, pod: PodCommand)
    modifies ctx`reports, ctx`vmSpec, ctx`imageMap, ctx`volumeMap, ctx`addingNetworks, ctx`addingBlockdevs
    modifies ctx`pendingTtys, ctx`attached, ctx`pciAddr, ctx`networkMap, ctx`scsiId, ctx`actions
    modifies ctx`handler, ctx`stateTag, ctx`timeout
    ensures PreparedToStart(ctx, pod)
  {
    var ok := PrepareDevice(ctx, pod);
    if ok {
      LaunchPrepared(ctx);
    } else {
      Quit(ctx);
    }
  }

  /**
   * LazyVmLoop up to the event loop. InitContext's failure, the driver's
   * laziness and InitVM's failure are inputs. `sent` holds what is sent to
   * the client channel directly, `ctx.reports` what goes through the
   * context. Every failure answers a bad request; otherwise the context is
   * PREPARING.
   */
  method LazyVmLoop(vmId: string, boot: Option<BootConfig>, hw: VmHwStatus, initErr: Option<string>, isLazy: bool, initVmErr: Option<string>)
    returns (ctx: VmContext?, sent: seq<VmResponse>)
    ensures initErr.Some? ==> ctx == null && sent == [VmResponse(vmId, BadRequest, initErr.value)]
    ensures initErr.None? ==> ctx != null && fresh(ctx) && ctx.id == vmId && ctx.boot == boot
    ensures initErr.None? && !isLazy ==>
      sent == [] && ctx.reports == [VmResponse(vmId, BadRequest, NotLazy)] && ctx.handler == NoHandler
    ensures initErr.None? && isLazy && initVmErr.Some? ==>
      sent == [VmResponse(vmId, BadRequest, "failed to create VM(" + vmId + "): " + initVmErr.value)]
      && ctx.reports == [] && ctx.handler == NoHandler
    ensures initErr.None? && isLazy && initVmErr.None? ==>
      sent == [] && ctx.reports == [] && ctx.handler == Preparing && ctx.stateTag == "PREPARING"
  {
    if initErr.Some? {
      return null, [VmResponse(vmId, BadRequest, initErr.value)];
    }
    ctx := new VmContext(vmId, boot, hw);
    sent := [];
    if !isLazy {
      ctx.Report(BadRequest, NotLazy);
      return;
    }
    if initVmErr.Some? {
      sent := [VmResponse(vmId, BadRequest, "failed to create VM(" + vmId + "): " + initVmErr.value)];
      return;
    }
    ctx.Become(Preparing, "PREPARING");
  }
}
