// The QMP device sessions of the lazy QEMU driver: each builder fills an
// ordered list of monitor commands and queues it, with the event to post
// once the whole list has succeeded, on the driver's session channel.
//
// utils.DiskId2Name is not part of this model; it is given the usual
// bijective base-26 naming of SCSI disks (0 is "a", 25 is "z", 26 is "aa").

module QmpWrapper {
  import opened Common
  import opened Hypervisor

  /** One monitor command: its name, its arguments and an optional descriptor passed alongside (SCM rights). */
  datatype QmpCommand = QmpCommand(execute: string, arguments: map<string, string>, scm: Option<int>)

  /**
   * A queued session: the commands in order and the callback that
   * defaultRespond was given (None is Go's nil callback).
   */
  datatype QmpSession = QmpSession(commands: seq<QmpCommand>, callback: Option<VmEvent>)

  // -----------------------------------------------------------------------
  // Device names
  // -----------------------------------------------------------------------

  function Letter(d: nat): (c: char)
    requires d < 26
    ensures 'a' <= c <= 'z'
  {
    (d + 'a' as int) as char
  }

  /** utils.DiskId2Name: bijective base 26 over 'a'..'z'. */
  function DiskId2Name(id: nat): (r: string)
    ensures |r| >= 1
    ensures forall i :: 0 <= i < |r| ==> 'a' <= r[i] <= 'z'
    decreases id
  {
    if id < 26 then [Letter(id)] else DiskId2Name(id / 26 - 1) + [Letter(id % 26)]
  }

  /** The disk number a name of lower-case letters stands for (the inverse of DiskId2Name). */
  function DiskNameId(s: string): nat
    requires |s| >= 1 && forall i :: 0 <= i < |s| ==> 'a' <= s[i] <= 'z'
  {
    var d := s[|s| - 1] as int - 'a' as int;
    if |s| == 1 then d else (DiskNameId(s[..|s| - 1]) + 1) * 26 + d
  }

  lemma {:induction false} DiskNameRoundTrip(id: nat)
    ensures DiskNameId(DiskId2Name(id)) == id
    decreases id
  {
    if id >= 26 {
      DiskNameRoundTrip(id / 26 - 1);
      var s := DiskId2Name(id);
      assert s[..|s| - 1] == DiskId2Name(id / 26 - 1);
    }
  }

  /** scsiId2Name: the guest device name of a SCSI id. A negative id has no name. */
  function ScsiId2Name(id: int): (r: string)
    requires id >= 0
    ensures |r| >= 3 && r[..2] == "sd"
  {
    "sd" + DiskId2Name(id)
  }

  /** Two SCSI ids never share a device name. */
  lemma ScsiNameInjective(a: nat, b: nat)
    requires ScsiId2Name(a) == ScsiId2Name(b)
    ensures a == b
  {
    assert DiskId2Name(a) == ScsiId2Name(a)[2..];
    assert DiskId2Name(b) == ScsiId2Name(b)[2..];
    DiskNameRoundTrip(a);
    DiskNameRoundTrip(b);
  }

  // -----------------------------------------------------------------------
  // Responses
  // -----------------------------------------------------------------------

  /**
   * defaultRespond: what the session posts to the hub when it finishes.
   * Success posts the callback, if there is one; failure posts a
   * DeviceFailed that carries the callback.
   */
  function Respond(callback: Option<VmEvent>, succeeded: bool): (r: seq<VmEvent>)
    ensures succeeded && callback.Some? ==> r == [callback.value]
    ensures succeeded && callback.None? ==> r == []
    ensures !succeeded ==> r == [DeviceFailed(callback)]
  {
    if !succeeded then [DeviceFailed(callback)]
    else match callback
      case Some(e) => [e]
      case None => []
  }

  // -----------------------------------------------------------------------
  // The sessions
  // -----------------------------------------------------------------------

  function DriveId(id: int): string { "drive" + IntToDec(id) }

  function ScsiDiskId(id: int): string { "scsi-disk" + IntToDec(id) }

  /** qmpQemuQuit: one `quit` command and no event on success. */
  function QuitSession(): (s: QmpSession)
    ensures |s.commands| == 1 && s.commands[0].execute == "quit" && s.commands[0].arguments == map[]
    ensures Respond(s.callback, true) == []
  {
    QmpSession([QmpCommand("quit", map[], None)], None)
  }

  /** The drive_add command line of newDiskAddSession. */
  function DriveAddLine(filename: string, format: string, id: int): string
  {
    "drive_add dummy file=" + filename + ",if=none,id=" + DriveId(id) + ",format=" + format + ",cache=writeback"
  }

  /**
   * newDiskAddSession: add the backing file as a drive, then a scsi-hd
   * device on that drive; success posts the block-device-inserted event.
   */
  function DiskAddSession(name: string, sourceType: string, filename: string, format: string, id: nat)
    : (s: QmpSession)
    ensures |s.commands| == 2
    ensures s.commands[0].execute == "human-monitor-command"
    ensures s.commands[0].arguments.Keys == {"command-line"}
    ensures s.commands[1].execute == "device_add"
    ensures s.commands[1].arguments.Keys == {"driver", "bus", "scsi-id", "drive", "id"}
    ensures s.commands[1].arguments["driver"] == "scsi-hd" && s.commands[1].arguments["bus"] == "scsi0.0"
    ensures s.commands[1].arguments["drive"] == DriveId(id) && s.commands[1].arguments["id"] == ScsiDiskId(id)
    ensures ParseDec(s.commands[1].arguments["scsi-id"]) == Some(id as int)
    ensures forall i :: 0 <= i < 2 ==> s.commands[i].scm.None?
    ensures Respond(s.callback, true) == [BlockdevInserted(name, sourceType, ScsiId2Name(id), id)]
  {
    ParseIntToDec(id);
    QmpSession(
      [QmpCommand("human-monitor-command", map["command-line" := DriveAddLine(filename, format, id)], None),
       QmpCommand("device_add",
                  map["driver" := "scsi-hd", "bus" := "scsi0.0", "scsi-id" := IntToDec(id),
                      "drive" := DriveId(id), "id" := ScsiDiskId(id)],
                  None)],
      Some(BlockdevInserted(name, sourceType, ScsiId2Name(id), id)))
  }

  /**
   * newDiskDelSession: the drive is deleted first (command 0) and the SCSI
   * device second (command 1); completion posts the caller's callback.
   */
  function DiskDelSession(id: int, callback: Option<VmEvent>): (s: QmpSession)
    ensures |s.commands| == 2
    ensures s.commands[0].execute == "human-monitor-command"
    ensures s.commands[0].arguments == map["command-line" := "drive_del " + DriveId(id)]
    ensures s.commands[1].execute == "device_del" && s.commands[1].arguments == map["id" := ScsiDiskId(id)]
    ensures s.callback == callback
  {
    QmpSession(
      [QmpCommand("human-monitor-command", map["command-line" := "drive_del " + DriveId(id)], None),
       QmpCommand("device_del", map["id" := ScsiDiskId(id)], None)],
      callback)
  }

  /** The disk-del session removes exactly the drive and the device that the disk-add session created. */
  lemma DiskDelUndoesAdd(name: string, sourceType: string, filename: string, format: string, id: nat,
                         callback: Option<VmEvent>)
    ensures var add := DiskAddSession(name, sourceType, filename, format, id);
            var del := DiskDelSession(id, callback);
            && del.commands[1].arguments["id"] == add.commands[1].arguments["id"]
            && del.commands[0].arguments["command-line"] == "drive_del " + add.commands[1].arguments["drive"]
  {
  }

  /** `%x` of a Go int: a minus sign ahead of the digits of a negative number. */
  function HexOf(n: int): string
  {
    if n < 0 then "-" + NatToHex(-n) else NatToHex(n)
  }

  /** Go's int(fd) of a uint64 descriptor: values of 2^63 and above wrap to negative. */
  function FdAsInt(fd: nat): (r: int)
    requires fd < 0x1_0000_0000_0000_0000
    ensures -0x8000_0000_0000_0000 <= r < 0x8000_0000_0000_0000
    ensures r % 0x1_0000_0000_0000_0000 == fd
  {
    if fd >= 0x8000_0000_0000_0000 then fd - 0x1_0000_0000_0000_0000 else fd
  }

  /** The bus address that newNetworkAddSession writes: `0x%x`. */
  function BusAddr(addr: int): string
  {
    "0x" + HexOf(addr)
  }

  /** A bus address written by the hot-plug path reads back, in hexadecimal, as the PCI address itself. */
  lemma BusAddrReadsBack(addr: nat)
    ensures BusAddr(addr)[..2] == "0x" && ParseHex(BusAddr(addr)[2..]) == Some(addr)
  {
    assert BusAddr(addr)[2..] == NatToHex(addr);
    HexRoundTrip(addr);
  }

  /**
   * newNetworkAddSession: pass the tap descriptor, create the tap backend
   * on it, then add a virtio-net-pci device at the bus address; success
   * posts the interface-inserted event.
   */
  function NetworkAddSession(fd: nat, device: string, mac: string, index: int, addr: int): (s: QmpSession)
    requires fd < 0x1_0000_0000_0000_0000
    ensures |s.commands| == 3
    ensures s.commands[0].execute == "getfd" && s.commands[0].arguments == map["fdname" := "fd" + device]
    ensures s.commands[0].scm == Some(FdAsInt(fd))
    ensures s.commands[1].execute == "netdev_add"
    ensures s.commands[1].arguments == map["type" := "tap", "id" := device, "fd" := "fd" + device]
    ensures s.commands[2].execute == "device_add"
    ensures s.commands[2].arguments.Keys == {"driver", "netdev", "mac", "bus", "addr", "id"}
    ensures s.commands[2].arguments["driver"] == "virtio-net-pci" && s.commands[2].arguments["bus"] == "pci.0"
    ensures s.commands[2].arguments["netdev"] == s.commands[2].arguments["id"] == device
    ensures s.commands[2].arguments["mac"] == mac && s.commands[2].arguments["addr"] == BusAddr(addr)
    ensures s.commands[1].scm.None? && s.commands[2].scm.None?
    ensures Respond(s.callback, true) == [NetDevInserted(index, device, addr)]
  {
    QmpSession(
      [QmpCommand("getfd", map["fdname" := "fd" + device], Some(FdAsInt(fd))),
       QmpCommand("netdev_add", map["type" := "tap", "id" := device, "fd" := "fd" + device], None),
       QmpCommand("device_add",
                  map["driver" := "virtio-net-pci", "netdev" := device, "mac" := mac, "bus" := "pci.0",
                      "addr" := BusAddr(addr), "id" := device],
                  None)],
      Some(NetDevInserted(index, device, addr)))
  }

  /** newNetworkDelSession: delete the device, then its backend, both by the device id. */
  function NetworkDelSession(device: string, callback: Option<VmEvent>): (s: QmpSession)
    ensures |s.commands| == 2
    ensures s.commands[0].execute == "device_del" && s.commands[1].execute == "netdev_del"
    ensures s.commands[0].arguments == s.commands[1].arguments == map["id" := device]
    ensures s.callback == callback
  {
    QmpSession([QmpCommand("device_del", map["id" := device], None),
                QmpCommand("netdev_del", map["id" := device], None)],
               callback)
  }

  /** The net-del session removes the device and the backend that the net-add session created. */
  lemma NetworkDelUndoesAdd(fd: nat, device: string, mac: string, index: int, addr: int, callback: Option<VmEvent>)
    requires fd < 0x1_0000_0000_0000_0000
    ensures var add := NetworkAddSession(fd, device, mac, index, addr);
            var del := NetworkDelSession(device, callback);
            && del.commands[0].arguments["id"] == add.commands[2].arguments["id"]
            && del.commands[1].arguments["id"] == add.commands[1].arguments["id"]
  {
  }

  /** The driver's session channel (`qc.qmp`): every builder queues exactly one session at its end. */
  class QmpChannel {
    var queued: seq<QmpSession>

    constructor ()
      ensures queued == []
    {
      queued := [];
    }

    method Send(s: QmpSession)
      modifies this
      ensures queued == old(queued) + [s]
    {
      queued := queued + [s];
    }

    method Quit()
      modifies this
      ensures queued == old(queued) + [QuitSession()]
    {
      Send(QuitSession());
    }

    method NewDiskAddSession(name: string, sourceType: string, filename: string, format: string, id: nat)
      modifies this
      ensures queued == old(queued) + [DiskAddSession(name, sourceType, filename, format, id)]
    {
      Send(DiskAddSession(name, sourceType, filename, format, id));
    }

    method NewDiskDelSession(id: int, callback: Option<VmEvent>)
      modifies this
      ensures queued == old(queued) + [DiskDelSession(id, callback)]
    {
      Send(DiskDelSession(id, callback));
    }

    method NewNetworkAddSession(fd: nat, device: string, mac: string, index: int, addr: int)
      requires fd < 0x1_0000_0000_0000_0000
      modifies this
      ensures queued == old(queued) + [NetworkAddSession(fd, device, mac, index, addr)]
    {
      Send(NetworkAddSession(fd, device, mac, index, addr));
    }

    method NewNetworkDelSession(device: string, callback: Option<VmEvent>)
      modifies this
      ensures queued == old(queued) + [NetworkDelSession(device, callback)]
    {
      Send(NetworkDelSession(device, callback));
    }
  }
}
