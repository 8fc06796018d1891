// The QEMU driver of runv: the RBD filename of a hot-plugged disk, the
// driver's persisted record, the command line of a lazily launched VM, and
// the queues of devices that a lazy launch puts on that command line.
//
// The sessions it sends go through the builders of QmpWrapper; the
// driver's own copy of those builders is not part of this model and is
// taken to build the same commands. Launching and watching the process,
// the monitor socket and the channels' closing order are left out.

module Qemu {
  import opened Common
  import opened Hypervisor
  import opened QmpWrapper

  // -----------------------------------------------------------------------
  // RBD filenames
  // -----------------------------------------------------------------------

  /** A Go map read: a missing key reads as the empty string. */
  function OptionOf(opts: map<string, string>, key: string): string
  {
    if key in opts then opts[key] else ""
  }

  /** A monitor address with every ':' escaped as "\:". */
  function Escape(m: string): string
  {
    ReplaceChar(m, ':', "\\:")
  }

  /** What QEMU reads back from an escaped address: "\:" is ':'. */
  function Unescape(s: string): string
    decreases |s|
  {
    if s == [] then []
    else if |s| >= 2 && s[0] == '\\' && s[1] == ':' then ":" + Unescape(s[2..])
    else [s[0]] + Unescape(s[1..])
  }

  lemma EscapeHead(m: string)
    requires m != []
    ensures Escape(m) != [] && Escape(m)[0] != ':'
  {
  }

  lemma {:induction false} EscapeKeeps(m: string, c: char)
    requires c != ':' && c != '\\' && c !in m
    ensures c !in Escape(m)
  {
    if m != [] {
      EscapeKeeps(m[1..], c);
      assert Escape(m) == (if m[0] == ':' then "\\:" else [m[0]]) + Escape(m[1..]);
    }
  }

  lemma {:induction false} UnescapeEscape(m: string)
    ensures Unescape(Escape(m)) == m
  {
    if m != [] {
      UnescapeEscape(m[1..]);
      if m[0] == ':' {
        assert Escape(m) == "\\:" + Escape(m[1..]);
        assert Escape(m)[2..] == Escape(m[1..]);
      } else {
        assert Escape(m) == [m[0]] + Escape(m[1..]);
        if m[1..] != [] {
          EscapeHead(m[1..]);
        }
        assert Escape(m)[1..] == Escape(m[1..]);
      }
    }
  }

  function EscapeAll(ms: seq<string>): (r: seq<string>)
    ensures |r| == |ms| && forall i :: 0 <= i < |ms| ==> r[i] == Escape(ms[i])
  {
    if ms == [] then [] else EscapeAll(ms[..|ms| - 1]) + [Escape(ms[|ms| - 1])]
  }

  function UnescapeAll(ss: seq<string>): (r: seq<string>)
    ensures |r| == |ss| && forall i :: 0 <= i < |ss| ==> r[i] == Unescape(ss[i])
  {
    if ss == [] then [] else UnescapeAll(ss[..|ss| - 1]) + [Unescape(ss[|ss| - 1])]
  }

  /** The ":id=<user>:key=<keyring>" part, written only when both are set. */
  function AuthSuffix(opts: map<string, string>): (r: string)
    ensures r != "" <==> (OptionOf(opts, "keyring") != "" && OptionOf(opts, "user") != "")
  {
    var keyring := OptionOf(opts, "keyring");
    var user := OptionOf(opts, "user");
    if keyring != "" && user != "" then ":id=" + user + ":key=" + keyring else ""
  }

  /** The monitor list as AddDisk's loop writes it: ":mon_host=" and the escaped monitors joined by ';'. */
  function MonHost(ms: seq<string>): string
  {
    if ms == [] then "" else ":mon_host=" + Join(EscapeAll(ms), ';')
  }

  /** The filename that AddDisk hands to the disk session. */
  function DiskFilename(b: BlockDescriptor): string
  {
    if b.format == "rbd" && b.options.Some? then
      b.filename + AuthSuffix(b.options.value) + MonHost(Split(OptionOf(b.options.value, "monitors"), ';'))
    else b.filename
  }

  lemma MonHostSnoc(ms: seq<string>, i: nat)
    requires i < |ms|
    ensures MonHost(ms[..i + 1]) == MonHost(ms[..i]) + (if i == 0 then ":mon_host=" else ";") + Escape(ms[i])
  {
    assert ms[..i + 1] == ms[..i] + [ms[i]];
    assert EscapeAll(ms[..i + 1]) == EscapeAll(ms[..i]) + [Escape(ms[i])];
    if i == 0 {
      assert EscapeAll(ms[..1]) == [Escape(ms[0])];
    } else {
      JoinSnoc(EscapeAll(ms[..i]), Escape(ms[i]), ';');
    }
  }

  /** A disk that is not an RBD image with options keeps its filename unchanged. */
  lemma PlainFilename(b: BlockDescriptor)
    requires b.format != "rbd" || b.options.None?
    ensures DiskFilename(b) == b.filename
  {
  }

  /**
   * The monitor list survives the escaping: splitting the written host list
   * on ';' and unescaping each piece gives the monitors back unchanged.
   */
  lemma MonitorsRoundTrip(monitors: string)
    ensures var host := MonHost(Split(monitors, ';'));
            && |host| >= 10 && host[..10] == ":mon_host="
            && Join(UnescapeAll(Split(host[10..], ';')), ';') == monitors
  {
    var ms := Split(monitors, ';');
    var esc := EscapeAll(ms);
    assert MonHost(ms)[10..] == Join(esc, ';');
    forall i | 0 <= i < |ms|
      ensures ';' !in esc[i]
    {
      EscapeKeeps(ms[i], ';');
    }
    SplitJoin(esc, ';');
    forall i | 0 <= i < |ms|
      ensures UnescapeAll(esc)[i] == ms[i]
    {
      UnescapeEscape(ms[i]);
    }
    assert UnescapeAll(esc) == ms;
    JoinSplit(monitors, ';');
  }

  /**
   * An RBD disk with options: the filename, then the credentials exactly
   * when both the user and the keyring are set, then the monitor hosts.
   */
  lemma RbdFilename(b: BlockDescriptor)
    requires b.format == "rbd" && b.options.Some?
    ensures var opts := b.options.value;
            var user, keyring := OptionOf(opts, "user"), OptionOf(opts, "keyring");
            var auth := if keyring != "" && user != "" then ":id=" + user + ":key=" + keyring else "";
            DiskFilename(b) == b.filename + auth + MonHost(Split(OptionOf(opts, "monitors"), ';'))
  {
  }

  // -----------------------------------------------------------------------
  // The persisted driver record
  // -----------------------------------------------------------------------

  /** What LoadContext recovers: the monitor socket and the process id. */
  datatype LoadedQemu = LoadedQemu(qmpSock: string, pid: int)

  /** QemuContext.Dump: refused when no process runs. */
  function Dump(qmpSockName: string, process: Option<int>): (r: Result<DriverInfo>)
    ensures r.Err? <==> process.None?
    ensures r.Ok? ==> r.value.Keys == {"hypervisor", "qmpSock", "pid"} && r.value["hypervisor"] == DStr("qemu")
  {
    match process
    case None => Err("can not serialize qemu context: no process running")
    case Some(pid) => Ok(map["hypervisor" := DStr("qemu"), "qmpSock" := DStr(qmpSockName), "pid" := DInt(pid)])
  }

  /**
   * QemuDriver.LoadContext: the driver type must be the string "qemu", the
   * socket a string and the pid an int; `findProcess` is os.FindProcess,
   * answering an error message or None.
   */
  function LoadContext(p: DriverInfo, findProcess: int -> Option<string>): (r: Result<LoadedQemu>)
    ensures r.Ok? <==>
      && "hypervisor" in p && p["hypervisor"] == DStr("qemu")
      && "qmpSock" in p && p["qmpSock"].DStr?
      && "pid" in p && p["pid"].DInt? && findProcess(p["pid"].i).None?
    ensures r.Ok? ==> r.value == LoadedQemu(p["qmpSock"].s, p["pid"].i)
    ensures ("hypervisor" !in p || p["hypervisor"] != DStr("qemu")) ==> r == Err("wrong driver type in persist info")
  {
    if "hypervisor" !in p || p["hypervisor"] != DStr("qemu") then Err("wrong driver type in persist info")
    else if "qmpSock" !in p then Err("cannot read the qmp socket info from persist info")
    else if !p["qmpSock"].DStr? then Err("wrong sock name type in persist info")
    else if "pid" !in p then Err("cannot read the pid info from persist info")
    else if !p["pid"].DInt? then Err("wrong pid field type in persist info")
    else match findProcess(p["pid"].i)
      case Some(e) => Err(e)
      case None => Ok(LoadedQemu(p["qmpSock"].s, p["pid"].i))
  }

  /** A dumped context loads back with the same socket and process. */
  lemma LoadDump(qmpSockName: string, pid: int, findProcess: int -> Option<string>)
    requires findProcess(pid).None?
    ensures Dump(qmpSockName, Some(pid)).Ok?
    ensures LoadContext(Dump(qmpSockName, Some(pid)).value, findProcess) == Ok(LoadedQemu(qmpSockName, pid))
  {
  }

  // -----------------------------------------------------------------------
  // The command line
  // -----------------------------------------------------------------------

  /** A NIC queued for the command line: tap descriptor, device, MAC, PCI address. */
  datatype NicConfig = NicConfig(fd: int, deviceName: string, macAddr: string, pciAddr: int)

  /** An image queued for the command line; `deviceName` holds the backing filename. */
  datatype ImageConfig = ImageConfig(deviceName: string, sourceType: string, format: string, scsiId: int)

  /** The paths of the VM's sockets and shared directory, and the 9p mount tag. */
  datatype VmPaths = VmPaths(consoleSock: string, hyperSock: string, ttySock: string, shareDir: string,
                             shareDirTag: string)

  /** The boot configuration put in place of a missing one. */
  function DefaultBoot(defaultKernel: string, defaultInitrd: string): BootConfig
  {
    BootConfig(1, 128, defaultKernel, defaultInitrd, "", "")
  }

  function MachineParams(kvm: bool): seq<string>
  {
    if kvm then ["-machine", "pc-i440fx-2.0,accel=kvm,usb=off", "-global", "kvm-pit.lost_tick_policy=discard",
                 "-cpu", "host"]
    else ["-machine", "pc-i440fx-2.0,usb=off", "-cpu", "core2duo"]
  }

  function Pflash(file: string): string { "if=pflash,file=" + file + ",readonly=on" }

  const KernelAppend: string := "\"console=ttyS0 panic=1 no_timer_check\""

  /** The boot source: two flash drives, or the BIOS with a kernel, or one flash drive, or a kernel. */
  function BootParams(b: BootConfig): seq<string>
  {
    if b.bios != "" && b.cbfs != "" then ["-drive", Pflash(b.bios), "-drive", Pflash(b.cbfs)]
    else if b.bios != "" then
      ["-bios", b.bios, "-kernel", b.kernel, "-initrd", b.initrd, "-append", KernelAppend]
    else if b.cbfs != "" then ["-drive", Pflash(b.cbfs)]
    else ["-kernel", b.kernel, "-initrd", b.initrd, "-append", KernelAppend]
  }

  /** The flags of a list of flag/value pairs: the entries at even positions. */
  function Flags(p: seq<string>): seq<string>
    decreases |p|
  {
    if |p| < 2 then [] else [p[0]] + Flags(p[2..])
  }

  lemma KernelFlags(kernel: string, initrd: string)
    ensures Flags(["-kernel", kernel, "-initrd", initrd, "-append", KernelAppend]) == ["-kernel", "-initrd", "-append"]
  {
    var p := ["-kernel", kernel, "-initrd", initrd, "-append", KernelAppend];
    assert p[2..] == ["-initrd", initrd, "-append", KernelAppend];
    assert p[2..][2..] == ["-append", KernelAppend];
    assert p[2..][2..][2..] == [];
    assert Flags(p[2..][2..]) == ["-append"];
    assert Flags(p[2..]) == ["-initrd", "-append"];
  }

  lemma BiosFlags(bios: string, kernel: string, initrd: string)
    ensures Flags(["-bios", bios, "-kernel", kernel, "-initrd", initrd, "-append", KernelAppend])
            == ["-bios", "-kernel", "-initrd", "-append"]
  {
    var p := ["-bios", bios, "-kernel", kernel, "-initrd", initrd, "-append", KernelAppend];
    assert p[2..] == ["-kernel", kernel, "-initrd", initrd, "-append", KernelAppend];
    KernelFlags(kernel, initrd);
  }

  lemma FlashFlags(bios: string, cbfs: string)
    ensures Flags(["-drive", Pflash(bios), "-drive", Pflash(cbfs)]) == ["-drive", "-drive"]
    ensures Flags(["-drive", Pflash(cbfs)]) == ["-drive"]
  {
    var p := ["-drive", Pflash(bios), "-drive", Pflash(cbfs)];
    assert p[2..] == ["-drive", Pflash(cbfs)];
    assert p[2..][2..] == [];
    assert ["-drive", Pflash(cbfs)][2..] == [];
    assert Flags(p[2..]) == ["-drive"];
  }

  /**
   * Which image boots: a kernel exactly when there is no CBFS image, the
   * BIOS flag exactly when there is a BIOS and no CBFS, and one flash drive
   * per firmware image when there is a CBFS.
   */
  lemma BootSelection(b: BootConfig)
    ensures ("-kernel" in Flags(BootParams(b))) <==> b.cbfs == ""
    ensures ("-bios" in Flags(BootParams(b))) <==> (b.bios != "" && b.cbfs == "")
    ensures multiset(Flags(BootParams(b)))["-drive"] == (if b.cbfs == "" then 0 else if b.bios == "" then 1 else 2)
  {
    var f := Flags(BootParams(b));
    if b.bios != "" && b.cbfs != "" {
      FlashFlags(b.bios, b.cbfs);
      assert f == ["-drive", "-drive"];
    } else if b.bios != "" {
      BiosFlags(b.bios, b.kernel, b.initrd);
      assert f == ["-bios", "-kernel", "-initrd", "-append"];
    } else if b.cbfs != "" {
      FlashFlags(b.bios, b.cbfs);
      assert f == ["-drive"];
    } else {
      KernelFlags(b.kernel, b.initrd);
      assert f == ["-kernel", "-initrd", "-append"];
    }
  }

  /** Memory and CPUs on the command line. */
  function ResourceParams(b: BootConfig): seq<string>
  {
    ["-m", IntToDec(b.memory), "-smp", IntToDec(b.cpu)]
  }

  /** The fixed part of the command line: memory, CPUs, sockets, serial ports and the shared directory. */
  function FixedParams(b: BootConfig, qmpSock: string, paths: VmPaths): seq<string>
  {
    ["-realtime", "mlock=off", "-no-user-config", "-nodefaults", "-no-hpet",
     "-rtc", "base=utc,driftfix=slew", "-no-reboot", "-display", "none", "-boot", "strict=on"]
    + ResourceParams(b) +
    ["-qmp", "unix:" + qmpSock + ",server,nowait", "-serial", "unix:" + paths.consoleSock + ",server,nowait",
     "-device", "virtio-serial-pci,id=virtio-serial0,bus=pci.0,addr=0x2",
     "-device", "virtio-scsi-pci,id=scsi0,bus=pci.0,addr=0x3",
     "-chardev", "socket,id=charch0,path=" + paths.hyperSock + ",server,nowait",
     "-device", "virtserialport,bus=virtio-serial0.0,nr=1,chardev=charch0,id=channel0,name=sh.hyper.channel.0",
     "-chardev", "socket,id=charch1,path=" + paths.ttySock + ",server,nowait",
     "-device", "virtserialport,bus=virtio-serial0.0,nr=2,chardev=charch1,id=channel1,name=sh.hyper.channel.1",
     "-fsdev", "local,id=virtio9p,path=" + paths.shareDir + ",security_model=none",
     "-device", "virtio-9p-pci,fsdev=virtio9p,mount_tag=" + paths.shareDirTag]
  }

  function NicDevicePrefix(nic: NicConfig, i: int): string
  {
    "virtio-net-pci,netdev=" + nic.deviceName + ",id=netchan" + IntToDec(i) + ",mac=" + nic.macAddr
    + ",bus=pci.0,addr="
  }

  /** The -device value of the i-th queued NIC as qemu.go writes it: the PCI address in decimal after "0x". */
  function NicDeviceAsWritten(nic: NicConfig, i: int): string
  {
    NicDevicePrefix(nic, i) + "0x" + IntToDec(nic.pciAddr)
  }

  /**
   * The -device value the command line evidently means: the address in
   * hexadecimal, as the hot-plug path writes it. The command line itself
   * uses NicDeviceAsWritten.
   */
  function NicDevice(nic: NicConfig, i: int): (r: string)
    ensures r == NicDevicePrefix(nic, i) + BusAddr(nic.pciAddr)
  {
    NicDevicePrefix(nic, i) + "0x" + HexOf(nic.pciAddr)
  }

  /** Four arguments per element of `xs`, the i-th element's at 4i, in order. */
  function Quads<T(!new)>(xs: seq<T>, f: (T, nat) -> seq<string>): (r: seq<string>)
    requires forall x, j :: |f(x, j)| == 4
    ensures |r| == 4 * |xs|
  {
    if xs == [] then [] else Quads(xs[..|xs| - 1], f) + f(xs[|xs| - 1], |xs| - 1)
  }

  /** The arguments at 4i are the i-th element's. */
  lemma {:induction false} QuadsAt<T(!new)>(xs: seq<T>, f: (T, nat) -> seq<string>, i: nat)
    requires forall x, j :: |f(x, j)| == 4
    requires i < |xs|
    ensures Quads(xs, f)[4 * i..4 * i + 4] == f(xs[i], i)
  {
    var n := |xs| - 1;
    var front := Quads(xs[..n], f);
    var last := f(xs[n], n);
    assert Quads(xs, f) == front + last;
    if i < n {
      QuadsAt(xs[..n], f, i);
      assert xs[..n][i] == xs[i];
      assert (front + last)[4 * i..4 * i + 4] == front[4 * i..4 * i + 4];
    } else {
      assert (front + last)[4 * i..4 * i + 4] == last;
    }
  }

  /** One more element adds its four arguments at the end. */
  lemma QuadsSnoc<T(!new)>(xs: seq<T>, f: (T, nat) -> seq<string>, i: nat)
    requires forall x, j :: |f(x, j)| == 4
    requires i < |xs|
    ensures Quads(xs[..i + 1], f) == Quads(xs[..i], f) + f(xs[i], i)
  {
    assert xs[..i + 1][..i] == xs[..i];
  }

  /** One turn of an `arguments` loop appends the next element's four words. */
  lemma QuadsStep<T(!new)>(prefix: seq<string>, xs: seq<T>, f: (T, nat) -> seq<string>, i: nat)
    requires forall x, j :: |f(x, j)| == 4
    requires i < |xs|
    ensures prefix + Quads(xs[..i + 1], f) == (prefix + Quads(xs[..i], f)) + f(xs[i], i)
  {
    QuadsSnoc(xs, f, i);
  }

  /** The -netdev value of a queued NIC: its tap descriptor and device name. */
  function NetdevArg(nic: NicConfig): string
  {
    "tap,fd=" + IntToDec(nic.fd) + ",id=" + nic.deviceName
  }

  function NicParams(nic: NicConfig, i: nat): (r: seq<string>)
    ensures |r| == 4
  {
    ["-netdev", NetdevArg(nic), "-device", NicDeviceAsWritten(nic, i)]
  }

  function AllNicParams(nics: seq<NicConfig>): (r: seq<string>)
    ensures |r| == 4 * |nics|
  {
    Quads(nics, NicParams)
  }

  function ImageDrive(img: ImageConfig): string
  {
    "file=" + img.deviceName + ",if=none,id=drive" + IntToDec(img.scsiId) + ",format=" + img.format
    + ",cache=writeback"
  }

  /** The -device value of a queued image: a SCSI disk on its drive, named and addressed by its SCSI id. */
  function ScsiDiskArg(img: ImageConfig): string
  {
    var id := IntToDec(img.scsiId);
    "scsi-hd,bus=scsi0.0,drive=drive" + id + ",id=scsi-disk" + id + ",scsi-id=" + id
  }

  /** The -drive/-device pair of a queued image; its place in the queue does not matter. */
  function ImageParams(img: ImageConfig, i: nat): (r: seq<string>)
    ensures |r| == 4
  {
    ["-drive", ImageDrive(img), "-device", ScsiDiskArg(img)]
  }

  function AllImageParams(images: seq<ImageConfig>): (r: seq<string>)
    ensures |r| == 4 * |images|
  {
    Quads(images, ImageParams)
  }

  /**
   * One -netdev/-device pair per queued NIC in queue order, the i-th named
   * netchan<i> and carrying its descriptor, device and PCI address, the
   * address written in decimal after "0x" as qemu.go writes it.
   */
  lemma NicParamsInOrder(nics: seq<NicConfig>, i: nat)
    requires i < |nics|
    ensures AllNicParams(nics)[4 * i..4 * i + 4] == ["-netdev", NetdevArg(nics[i]), "-device", NicDeviceAsWritten(nics[i], i)]
  {
    QuadsAt(nics, NicParams, i);
  }

  /** One -drive/-device pair per queued image in queue order. */
  lemma ImageParamsInOrder(images: seq<ImageConfig>, i: nat)
    requires i < |images|
    ensures AllImageParams(images)[4 * i..4 * i + 4] == ["-drive", ImageDrive(images[i]), "-device", ScsiDiskArg(images[i])]
  {
    QuadsAt(images, ImageParams, i);
  }

  /** A queued image is described on the command line exactly as a hot-plugged drive_add would describe it. */
  lemma ColdPlugMatchesHotPlug(img: ImageConfig)
    ensures "drive_add dummy " + ImageDrive(img) == DriveAddLine(img.deviceName, img.format, img.scsiId)
  {
  }

  /**
   * The command line's PCI address of a NIC reads back, in hexadecimal, as
   * the address the guest is told about.
   */
  lemma NicAddressReadsBack(nic: NicConfig, i: int)
    requires nic.pciAddr >= 0
    ensures var d := NicDevice(nic, i);
            var k := |NicDevicePrefix(nic, i)|;
            d[..k] == NicDevicePrefix(nic, i) && d[k..k + 2] == "0x" && ParseHex(d[k + 2..]) == Some(nic.pciAddr)
  {
    var d := NicDevice(nic, i);
    var k := |NicDevicePrefix(nic, i)|;
    assert d[k + 2..] == BusAddr(nic.pciAddr)[2..];
    BusAddrReadsBack(nic.pciAddr);
  }

  /** As written, PCI address 10 is put on the command line as "0x10", which reads back as 16. */
  lemma NicAddressAsWrittenMisread(nic: NicConfig, i: int)
    requires nic.pciAddr == 10
    ensures var d := NicDeviceAsWritten(nic, i);
            var k := |NicDevicePrefix(nic, i)|;
            d[k..] == "0x10" && ParseHex(d[k + 2..]) == Some(16)
  {
    assert NatToDec(10) == NatToDec(1) + [DigitChar(0)];
    assert IntToDec(10) == "10";
  }

  // -----------------------------------------------------------------------
  // The driver context
  // -----------------------------------------------------------------------

  /** AddDisk's filename: an RBD image gets its credentials, then its monitors one by one. */
  method BuildDiskFilename(blk: BlockDescriptor) returns (filename: string)
    ensures filename == DiskFilename(blk)
  {
    filename := blk.filename;
    if blk.format == "rbd" && blk.options.Some? {
      var opts := blk.options.value;
      var keyring := OptionOf(opts, "keyring");
      var user := OptionOf(opts, "user");
      if keyring != "" && user != "" {
        filename := filename + ":id=" + user + ":key=" + keyring;
      }
      filename := AppendMonitors(filename, Split(OptionOf(opts, "monitors"), ';'));
    }
  }

  class QemuContext {
    var qmpSockName: string
    /** The pid of the QEMU process, when one is attached. */
    var process: Option<int>
    var interfaces: seq<NicConfig>
    var images: seq<ImageConfig>
    var callbacks: seq<VmEvent>
    const qmp: QmpChannel

    /** QemuDriver.InitContext: no process, empty queues, the monitor socket under the VM's home directory. */
    constructor (homeDir: string, sockName: string)
      ensures qmpSockName == homeDir + sockName && process == None
      ensures interfaces == [] && images == [] && callbacks == []
      ensures fresh(qmp) && qmp.queued == []
    {
      qmpSockName := homeDir + sockName;
      process := None;
      interfaces, images, callbacks := [], [], [];
      qmp := new QmpChannel();
    }

    /** AddDisk: the RBD filename is built monitor by monitor, then a disk-add session is queued. */
    method AddDisk(sourceType: string, blk: BlockDescriptor)
      requires blk.scsiId >= 0
      modifies qmp
      ensures qmp.queued == old(qmp.queued)
                + [DiskAddSession(blk.name, sourceType, DiskFilename(blk), blk.format, blk.scsiId)]
    {
      var filename := BuildDiskFilename(blk);
      qmp.NewDiskAddSession(blk.name, sourceType, filename, blk.format, blk.scsiId);
    }

    /** RemoveDisk: a disk-del session for the device's SCSI id. */
    method RemoveDisk(blk: BlockDescriptor, callback: Option<VmEvent>)
      modifies qmp
      ensures qmp.queued == old(qmp.queued) + [DiskDelSession(blk.scsiId, callback)]
    {
      qmp.NewDiskDelSession(blk.scsiId, callback);
    }

    /** AddNic: a net-add session from the host's descriptor and MAC and the guest's device, index and address. */
    method AddNic(host: HostNicInfo, guest: GuestNicInfo)
      requires 0 <= host.fd < 0x1_0000_0000_0000_0000
      modifies qmp
      ensures qmp.queued == old(qmp.queued)
                + [NetworkAddSession(host.fd, guest.device, host.mac, guest.index, guest.busaddr)]
    {
      qmp.NewNetworkAddSession(host.fd, guest.device, host.mac, guest.index, guest.busaddr);
    }

    /** RemoveNic: a net-del session for the interface's device. */
    method RemoveNic(n: InterfaceCreated, callback: Option<VmEvent>)
      modifies qmp
      ensures qmp.queued == old(qmp.queued) + [NetworkDelSession(n.deviceName, callback)]
    {
      qmp.NewNetworkDelSession(n.deviceName, callback);
    }

    /** Shutdown: the quit session. */
    method Shutdown()
      modifies qmp
      ensures qmp.queued == old(qmp.queued) + [QuitSession()]
    {
      qmp.Quit();
    }

    /** LazyAddNic: one interface-inserted callback and one NIC on the launch queue. */
    method LazyAddNic(host: HostNicInfo, guest: GuestNicInfo)
      modifies this`callbacks, this`interfaces
      ensures callbacks == old(callbacks) + [NetDevInserted(guest.index, guest.device, guest.busaddr)]
      ensures interfaces == old(interfaces) + [NicConfig(host.fd, guest.device, host.mac, guest.busaddr)]
    {
      callbacks := callbacks + [NetDevInserted(guest.index, guest.device, guest.busaddr)];
      interfaces := interfaces + [NicConfig(host.fd, guest.device, host.mac, guest.busaddr)];
    }

    /** LazyAddDisk: one block-inserted callback, named after the SCSI id, and one image on the launch queue. */
    method LazyAddDisk(name: string, sourceType: string, filename: string, format: string, id: int)
      requires id >= 0
      modifies this`callbacks, this`images
      ensures callbacks == old(callbacks) + [BlockdevInserted(name, sourceType, ScsiId2Name(id), id)]
      ensures images == old(images) + [ImageConfig(filename, sourceType, format, id)]
    {
      callbacks := callbacks + [BlockdevInserted(name, sourceType, ScsiId2Name(id), id)];
      images := images + [ImageConfig(filename, sourceType, format, id)];
    }

    /**
     * arguments: a missing boot configuration is replaced by the default
     * one, then the command line is the machine, the boot source, the fixed
     * part, the queued NICs and the queued images, in that order. Whether
     * /dev/kvm exists is the input `kvm`.
     */
    method Arguments(vm: VmContext, kvm: bool, paths: VmPaths, defaultKernel: string, defaultInitrd: string)
      returns (params: seq<string>)
      modifies vm`boot
      ensures vm.boot == Some(if old(vm.boot).None? then DefaultBoot(defaultKernel, defaultInitrd)
                              else old(vm.boot).value)
      ensures params == MachineParams(kvm) + BootParams(vm.boot.value) + FixedParams(vm.boot.value, qmpSockName, paths)
                        + AllNicParams(interfaces) + AllImageParams(images)
    {
      var boot := BootOrDefault(vm, defaultKernel, defaultInitrd);
      params := CommandLine(kvm, boot, paths);
    }

    /** The command line for a given boot configuration, NICs and images last. */
    method CommandLine(kvm: bool, boot: BootConfig, paths: VmPaths) returns (params: seq<string>)
      ensures params == MachineParams(kvm) + BootParams(boot) + FixedParams(boot, qmpSockName, paths)
                        + AllNicParams(interfaces) + AllImageParams(images)
    {
      params := MachineParams(kvm) + BootParams(boot) + FixedParams(boot, qmpSockName, paths);
      params := AppendNicParams(params, interfaces);
      params := AppendImageParams(params, images);
    }
  }

  /** The VM's boot configuration; a VM without one is given the default. */
  method BootOrDefault(vm: VmContext, defaultKernel: string, defaultInitrd: string) returns (boot: BootConfig)
    modifies vm`boot
    ensures boot == (if old(vm.boot).None? then DefaultBoot(defaultKernel, defaultInitrd) else old(vm.boot).value)
    ensures vm.boot == Some(boot)
  {
    if vm.boot.None? {
      vm.boot := Some(DefaultBoot(defaultKernel, defaultInitrd));
    }
    boot := vm.boot.value;
  }

  /** With no boot configuration the VM gets one CPU, 128 MB and the default kernel and initrd. */
  lemma DefaultBootParams(defaultKernel: string, defaultInitrd: string)
    ensures var b := DefaultBoot(defaultKernel, defaultInitrd);
            && ResourceParams(b) == ["-m", "128", "-smp", "1"]
            && BootParams(b) == ["-kernel", defaultKernel, "-initrd", defaultInitrd, "-append", KernelAppend]
  {
    assert DigitChar(1) == '1' && DigitChar(2) == '2' && DigitChar(8) == '8';
    assert NatToDec(1) == "1";
    assert NatToDec(12) == NatToDec(1) + [DigitChar(2)] == "12";
    assert NatToDec(128) == NatToDec(12) + [DigitChar(8)] == "128";
    assert IntToDec(128) == "128" && IntToDec(1) == "1";
  }

  /** One turn of AddDisk's monitor loop appends one separator and one escaped monitor. */
  lemma MonHostStep(filename: string, ms: seq<string>, i: nat)
    requires i < |ms|
    ensures filename + MonHost(ms[..i + 1])
            == (filename + MonHost(ms[..i])) + ((if i == 0 then ":mon_host=" else ";") + Escape(ms[i]))
  {
    MonHostSnoc(ms, i);
  }

  /** The RBD filename, one monitor at a time, as AddDisk's loop builds it. */
  method AppendMonitors(filename: string, ms: seq<string>) returns (r: string)
    ensures r == filename + MonHost(ms)
  {
    r := filename;
    var i := 0;
    while i < |ms|
      invariant 0 <= i <= |ms|
      invariant r == filename + MonHost(ms[..i])
    {
      var piece := (if i == 0 then ":mon_host=" else ";") + Escape(ms[i]);
      MonHostStep(filename, ms, i);
      r := r + piece;
      i := i + 1;
    }
    assert ms[..|ms|] == ms;
  }

  /** The loop of `arguments` over the queued NICs. */
  method AppendNicParams(params: seq<string>, nics: seq<NicConfig>) returns (r: seq<string>)
    ensures r == params + AllNicParams(nics)
  {
    r := params;
    var i := 0;
    while i < |nics|
      invariant 0 <= i <= |nics|
      invariant r == params + AllNicParams(nics[..i])
    {
      var p := NicParams(nics[i], i);
      QuadsStep(params, nics, NicParams, i);
      r := r + p;
      i := i + 1;
    }
    assert nics[..|nics|] == nics;
  }

  /** The loop of `arguments` over the queued images. */
  method AppendImageParams(params: seq<string>, images: seq<ImageConfig>) returns (r: seq<string>)
    ensures r == params + AllImageParams(images)
  {
    r := params;
    var j := 0;
    while j < |images|
      invariant 0 <= j <= |images|
      invariant r == params + AllImageParams(images[..j])
    {
      var p := ImageParams(images[j], j);
      QuadsStep(params, images, ImageParams, j);
      r := r + p;
      j := j + 1;
    }
    assert images[..|images|] == images;
  }
}
