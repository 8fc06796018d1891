// Types shared by the runv hypervisor package: device descriptors, the pod
// specification the VM runs, the events and responses of the lifecycle, and
// the per-VM context that the state machine owns.
//
// The context's own file (context.go) is not part of this model. The class
// below keeps only the fields that the persistence codec and the lazy
// lifecycle read or write. Helpers from that file (nextPciAddr, nextScsiId,
// Lookup, Become, interfaceCreated, attachTty2Container and the report*
// calls) get the smallest behaviour their callers need: post-increment
// counters, a first-match search, field assignments and appends to a log.

module Hypervisor {
  import opened Common

  /** A block device: the root filesystem of a container (an image) or a volume. */
  datatype BlockDescriptor = BlockDescriptor(
    name: string,
    filename: string,
    format: string,
    fstype: string,
    deviceName: string,
    scsiId: int,
    options: Option<map<string, string>>)

  /** An image device and the index of the container whose root it is. */
  datatype ImageInfo = ImageInfo(info: BlockDescriptor, pos: int)

  /** A shared volume: container index to mount point, and container index to read-only flag. */
  datatype VolumeInfo = VolumeInfo(info: BlockDescriptor, pos: map<int, string>, readOnly: map<int, bool>)

  /** A network interface once the host side has been set up. */
  datatype InterfaceCreated = InterfaceCreated(
    index: int,
    pciAddr: int,
    fd: Option<int>,
    bridge: string,
    hostDevice: string,
    deviceName: string,
    macAddr: string,
    ipAddr: string)

  datatype VmVolumeDescriptor = VmVolumeDescriptor(device: string, mount: string, readOnly: bool)

  datatype VmFsmapDescriptor = VmFsmapDescriptor(source: string, path: string, readOnly: bool)

  /** A container as the VM sees it; `tty` and `stderr` are stream ids (0 = none for stderr). */
  datatype VmContainer = VmContainer(
    id: string,
    tty: int,
    stderr: int,
    volumes: seq<VmVolumeDescriptor>,
    fsmap: seq<VmFsmapDescriptor>)

  datatype VmPod = VmPod(hostname: string, containers: seq<VmContainer>)

  /** The VM's boot configuration: CPUs, memory in MB, and the kernel, initrd, BIOS and CBFS images. */
  datatype BootConfig = BootConfig(cpu: int, memory: int, kernel: string, initrd: string, bios: string, cbfs: string)

  /** The hardware address counters. */
  datatype VmHwStatus = VmHwStatus(pciAddr: int, scsiId: int, attachId: int)

  /** A value of the driver's opaque persisted map (`map[string]interface{}`). */
  datatype DriverValue = DStr(s: string) | DInt(i: int) | DOther

  type DriverInfo = map<string, DriverValue>

  /** A TTY slot: the container index it belongs to and whether it outlives its clients. */
  datatype TtyAttachments = TtyAttachments(container: int, persistent: bool)

  /** A client asking to attach to a container's TTY. */
  datatype AttachCommand = AttachCommand(container: string, clientTag: string)

  datatype HostNicInfo = HostNicInfo(fd: int, device: string, mac: string, bridge: string, gateway: string)

  datatype GuestNicInfo = GuestNicInfo(device: string, ipaddr: string, index: int, busaddr: int)

  /** Events that device sessions post to the VM's hub. */
  datatype VmEvent =
    | BlockdevInserted(name: string, sourceType: string, deviceName: string, scsiId: int)
    | NetDevInserted(index: int, deviceName: string, address: int)
    | DeviceFailed(session: Option<VmEvent>)
    | VmExit
    | QmpEvent(name: string)

  /** The codes of the responses the lifecycle sends to its client. */
  datatype ResponseCode = BadRequest | VmShutdown | VmFault

  datatype VmResponse = VmResponse(vmId: string, code: ResponseCode, cause: string)

  /** The handler half of a `Become(handler, tag)` pair; `NoHandler` is Go's nil. */
  datatype Handler = NoHandler | Preparing | Starting | Running

  /** Requests the lifecycle hands to the driver and to its socket and TTY helpers, in order. */
  datatype Action =
    | StartSocks
    | StartSocksInListen
    | LazyLaunch
    | Listen(ip: string, port: string)
    | LazyAddNic(host: HostNicInfo, guest: GuestNicInfo)
    | LazyAddDisk(name: string, sourceType: string, filename: string, format: string, id: int)
    | ExecCmd(container: string, command: string)
    | AttachCmd(cmd: AttachCommand)
    | SetWindowSize(clientTag: string, rows: int, cols: int)
    | Unexpected(state: string)

  /** The index of the first container named `name`, or -1 (the context's Lookup). */
  function LookupIn(containers: seq<VmContainer>, name: string): (r: int)
    ensures -1 <= r < |containers|
    ensures r >= 0 ==> containers[r].id == name && forall j :: 0 <= j < r ==> containers[j].id != name
    ensures r == -1 ==> forall j :: 0 <= j < |containers| ==> containers[j].id != name
  {
    if |containers| == 0 then -1
    else
      var r := LookupIn(containers[..|containers| - 1], name);
      if r >= 0 then r
      else if containers[|containers| - 1].id == name then |containers| - 1
      else -1
  }

  class VmContext {
    var id: string
    var boot: Option<BootConfig>
    var pciAddr: int
    var scsiId: int
    var attachId: int
    var vmSpec: VmPod
    var userSpec: string
    var imageMap: map<string, ImageInfo>
    var volumeMap: map<string, VolumeInfo>
    var networkMap: map<int, InterfaceCreated>
    var ttys: map<int, TtyAttachments>
    var pendingTtys: seq<AttachCommand>
    /** Container index and command of every pending TTY that was bound, in order. */
    var attached: seq<(int, AttachCommand)>
    /** The networks and block devices queued for adding, in Go map iteration order. */
    var addingNetworks: seq<int>
    var addingBlockdevs: seq<string>
    var handler: Handler
    var stateTag: string
    var timeout: Option<int>
    var reports: seq<VmResponse>
    var actions: seq<Action>

    /** A context as InitContext leaves it, with the given starting counters. */
    constructor (vmId: string, b: Option<BootConfig>, hw: VmHwStatus)
      ensures id == vmId && boot == b && pciAddr == hw.pciAddr && scsiId == hw.scsiId && attachId == hw.attachId
      ensures vmSpec == VmPod("", []) && userSpec == ""
      ensures imageMap == map[] && volumeMap == map[] && networkMap == map[] && ttys == map[]
      ensures pendingTtys == [] && attached == [] && addingNetworks == [] && addingBlockdevs == []
      ensures handler == NoHandler && stateTag == "" && timeout == None && reports == [] && actions == []
    {
      id := vmId;
      boot := b;
      pciAddr, scsiId, attachId := hw.pciAddr, hw.scsiId, hw.attachId;
      vmSpec := VmPod("", []);
      userSpec := "";
      imageMap, volumeMap, networkMap, ttys := map[], map[], map[], map[];
      pendingTtys, attached, addingNetworks, addingBlockdevs := [], [], [], [];
      handler, stateTag, timeout := NoHandler, "", None;
      reports, actions := [], [];
    }

    function Lookup(name: string): (r: int)
      reads this
      ensures -1 <= r < |vmSpec.containers|
      ensures r >= 0 ==> vmSpec.containers[r].id == name
      ensures r == -1 ==> forall j :: 0 <= j < |vmSpec.containers| ==> vmSpec.containers[j].id != name
    {
      LookupIn(vmSpec.containers, name)
    }

    method NextPciAddr() returns (addr: int)
      modifies this`pciAddr
      ensures addr == old(pciAddr) && pciAddr == old(pciAddr) + 1
    {
      addr := pciAddr;
      pciAddr := pciAddr + 1;
    }

    method NextScsiId() returns (sid: int)
      modifies this`scsiId
      ensures sid == old(scsiId) && scsiId == old(scsiId) + 1
    {
      sid := scsiId;
      scsiId := scsiId + 1;
    }

    method Become(h: Handler, tag: string)
      modifies this`handler, this`stateTag
      ensures handler == h && stateTag == tag
    {
      handler, stateTag := h, tag;
    }

    method Report(code: ResponseCode, cause: string)
      modifies this`reports
      ensures reports == old(reports) + [VmResponse(id, code, cause)]
    {
      reports := reports + [VmResponse(id, code, cause)];
    }

    method Act(a: Action)
      modifies this`actions
      ensures actions == old(actions) + [a]
    {
      actions := actions + [a];
    }
  }
}
