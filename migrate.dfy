// Pod migration between daemons (hyper/daemon/migrate.go). The sending
// daemon dials the receiver three times and sends the pod id, the pod's
// arguments and its container ids, one blob per connection, then asks the
// VM to migrate and cleans the pod up locally. The receiving daemon accepts
// the three connections, reads each blob to the end, restores the
// containers if docker does not know them, creates the pod and lets it
// listen for the migrated VM.
//
// Sockets are oracles: a dial outcome, a write outcome per offset, and the
// sequence of read outcomes of an accepted connection. Docker, the pod
// spec parser, CreatePod, the pod's Prepare, startLogging and AttachTtys,
// the VM's launch, Kill, MigratePod and ListenPod, and CleanPod are oracle
// parameters as well. Pod.GetVM and Pod.KillVM (hyper/daemon/pod.go, which
// is not part of this model) are taken to be the daemon's GetVM on the
// pod's resources and KillVm of the VM it got.

module Migrate {
  import opened Common
  import opened HyperDaemon
  import Hypervisor
  import Vms

  // -----------------------------------------------------------------------
  // Receiving a blob
  // -----------------------------------------------------------------------

  /** getMata's buffer size: one read returns at most this many bytes. */
  const ReadBuffer := 1024

  /** One conn.Read: some bytes, or an error (EOF included). */
  datatype ReadOutcome = Chunk(data: string) | ReadError

  /** The bytes read before the first read error. */
  function Received(outcomes: seq<ReadOutcome>): string
  {
    if outcomes == [] then ""
    else match outcomes[0]
      case ReadError => ""
      case Chunk(data) => data + Received(outcomes[1..])
  }

  ghost predicate EndsWithError(outcomes: seq<ReadOutcome>, from: nat)
  {
    exists j :: from <= j < |outcomes| && outcomes[j].ReadError?
  }

  predicate ReadsFit(outcomes: seq<ReadOutcome>)
  {
    forall j :: 0 <= j < |outcomes| && outcomes[j].Chunk? ==> |outcomes[j].data| <= ReadBuffer
  }

  /** getMata: appends every chunk read until the first read error. */
  method GetMata(outcomes: seq<ReadOutcome>) returns (arg: string)
    requires ReadsFit(outcomes) && EndsWithError(outcomes, 0)
    ensures arg == Received(outcomes)
  {
    arg := "";
    var i := 0;
    while true
      invariant 0 <= i < |outcomes| && EndsWithError(outcomes, i)
      invariant Received(outcomes) == arg + Received(outcomes[i..])
      decreases |outcomes| - i
    {
      match outcomes[i]
      case ReadError =>
        return;
      case Chunk(data) =>
        assert outcomes[i..][1..] == outcomes[i + 1..];
        arg := arg + data;
        i := i + 1;
    }
  }

  function Concat(parts: seq<string>): string
  {
    if parts == [] then "" else parts[0] + Concat(parts[1..])
  }

  function Chunks(parts: seq<string>): (r: seq<ReadOutcome>)
    ensures |r| == |parts| && forall j :: 0 <= j < |parts| ==> r[j] == Chunk(parts[j])
  {
    seq(|parts|, j requires 0 <= j < |parts| => Chunk(parts[j]))
  }

  /**
   * However the sender's bytes were cut into reads, the receiver gets all
   * of them in order, and nothing after the connection's end.
   */
  lemma {:induction false} ReceivedReassembles(parts: seq<string>, after: seq<ReadOutcome>)
    ensures Received(Chunks(parts) + [ReadError] + after) == Concat(parts)
  {
    if parts != [] {
      ReceivedReassembles(parts[1..], after);
      assert (Chunks(parts) + [ReadError] + after)[1..] == Chunks(parts[1..]) + [ReadError] + after;
    }
  }

  // -----------------------------------------------------------------------
  // Sending a blob
  // -----------------------------------------------------------------------

  /** One conn.Write from an offset: the count written, or an error. */
  datatype WriteOutcome = Wrote(n: nat) | WriteFailed(msg: string)

  /** A writer that reports success writes at least one byte (io.Writer's contract). */
  ghost predicate Progresses(write: nat -> WriteOutcome)
  {
    forall off :: write(off).Wrote? ==> write(off).n > 0
  }

  /** The offset sendMata's loop stops at: the end of the blob, or the first failed write. */
  function SendStop(write: nat -> WriteOutcome, length: nat, off: nat): (stop: nat)
    requires Progresses(write)
    ensures stop >= off
    ensures stop < length ==> write(stop).WriteFailed?
    decreases length - off
  {
    if off >= length then off
    else match write(off)
      case WriteFailed(_) => off
      case Wrote(n) => SendStop(write, length, off + n)
  }

  /**
   * sendMata: dial, then write from the current offset until every byte
   * has gone; a dial or write error is returned. `sent` is what reached
   * the wire.
   */
  method SendMata(arg: string, dialErr: Option<string>, write: nat -> WriteOutcome) returns (err: Option<string>, sent: string)
    requires Progresses(write)
    ensures dialErr.Some? ==> err == dialErr && sent == ""
    ensures dialErr.None? ==>
              var stop := SendStop(write, |arg|, 0);
              && (err.None? <==> stop >= |arg|)
              && (err.None? ==> sent == arg)
              && (err.Some? ==> err == Some(write(stop).msg) && sent == arg[..stop])
  {
    if dialErr.Some? {
      return dialErr, "";
    }
    var send := 0;
    var length := |arg|;
    while send < length
      invariant SendStop(write, length, 0) == SendStop(write, length, send)
      decreases length - send
    {
      match write(send)
      case WriteFailed(e) =>
        return Some(e), arg[..send];
      case Wrote(n) =>
        send := send + n;
    }
    return None, arg;
  }

  // -----------------------------------------------------------------------
  // The sending daemon
  // -----------------------------------------------------------------------

  /** The "ip:port" address both sides use. */
  function Addr(ip: string, port: string): string
  {
    ip + ":" + port
  }

  /**
   * The sender's connections, numbered 0 to 2: a dial's outcome for an
   * address and a connection, and each connection's writes by offset.
   */
  datatype Link = Link(dial: (string, nat) -> Option<string>, write: (nat, nat) -> WriteOutcome)

  ghost predicate LinkProgresses(link: Link)
  {
    forall k, off :: link.write(k, off).Wrote? ==> link.write(k, off).n > 0
  }

  /** What connection k of a link to an address delivers of a blob. */
  function Delivered(link: Link, addr: string, k: nat, blob: string): string
    requires LinkProgresses(link)
  {
    var w := (off: nat) => link.write(k, off);
    if link.dial(addr, k).Some? then ""
    else var stop := SendStop(w, |blob|, 0); if stop >= |blob| then blob else blob[..stop]
  }

  /** A value read from the store, or nothing when the read fails (Go's nil slice). */
  function ValueOrEmpty(r: Result<string>): string
  {
    if r.Ok? then r.value else ""
  }

  /** The three blobs MigratePod sends: the pod id, the pod's arguments, its container ids. */
  function Blobs(d: Daemon, podId: string): seq<string>
    reads d, d.db
  {
    [podId, ValueOrEmpty(d.GetPodByName(podId)), ValueOrEmpty(d.db.Get(PodContainersKey(podId)))]
  }

  /**
   * The VM's MigratePod answer for a pod's status and the receiver's
   * address (whether a response came back), and CleanPod's code and cause.
   */
  datatype VmSide = VmSide(migrated: (PodStatus, string) -> bool, clean: string -> (Code, string))

  /**
   * MigratePod: an unknown pod is an error and nothing is sent. Otherwise
   * the three blobs are sent in order, whatever their send errors; a pod
   * without a VM answers E_VM_SHUTDOWN; a VM that answers the migration has
   * its by-pod record deleted, is removed from VmList, and the pod is
   * cleaned, whose code and cause are the answer. The error is nil in
   * every case past the lookup.
   */
  method MigratePod(d: Daemon, podId: string, ip: string, port: string, link: Link, vm: VmSide)
    returns (code: Code, cause: string, err: Option<string>, sent: seq<string>)
    requires d.Valid() && LinkProgresses(link)
    modifies d`vmList, d.db
    ensures d.Valid()
    ensures podId !in d.podList ==>
              code == OtherCode(-1) && cause == "" && err == Some("Can not find pod(" + podId + ")")
              && sent == [] && d.vmList == old(d.vmList) && d.db.data == old(d.db.data)
    ensures podId in d.podList ==> err.None? && |sent| == 3
    ensures podId in d.podList ==> forall k :: 0 <= k < 3 ==> sent[k] == Delivered(link, Addr(ip, port), k, old(Blobs(d, podId))[k])
    ensures podId in d.podList && d.podList[podId].vm.None? ==>
              code == EVmShutdown && cause == "" && d.vmList == old(d.vmList) && d.db.data == old(d.db.data)
    ensures podId in d.podList && d.podList[podId].vm.Some? ==>
              var p := d.podList[podId];
              if vm.migrated(p.status, Addr(ip, port)) then
                (code, cause) == vm.clean(podId) && d.vmList == old(d.vmList) - {p.vm.value}
                && d.db.data == DeleteVmByPodData(old(d.db.data), d.db.faults, podId)
              else
                code == EOk && cause == "" && d.vmList == old(d.vmList) && d.db.data == old(d.db.data)
  {
    sent := [];
    if podId !in d.podList {
      return OtherCode(-1), "", Some("Can not find pod(" + podId + ")"), sent;
    }
    var pod := d.podList[podId];
    var blobs := Blobs(d, podId);
    var k := 0;
    while k < 3
      invariant 0 <= k <= 3 && |sent| == k
      invariant forall j :: 0 <= j < k ==> sent[j] == Delivered(link, Addr(ip, port), j, blobs[j])
      invariant d.db.data == old(d.db.data) && d.vmList == old(d.vmList)
    {
      var w := (off: nat) => link.write(k, off);
      var _, s := SendMata(blobs[k], link.dial(Addr(ip, port), k), w);
      sent := sent + [s];
      k := k + 1;
    }
    if pod.vm.None? {
      return EVmShutdown, "", None, sent;
    }
    var vmId := pod.vm.value;
    code, cause, err := EOk, "", None;
    if vm.migrated(pod.status, Addr(ip, port)) {
      var _ := d.DeleteVmByPod(podId);
      d.RemoveVm(vmId);
      code, cause := vm.clean(podId).0, vm.clean(podId).1;
    }
  }

  /**
   * CmdPodMigrate: a pod id is required; the pod id, address and port are
   * the first three arguments (the source indexes them without checking
   * that there are three). The answer is the pod id with MigratePod's code
   * and cause.
   */
  method CmdPodMigrate(d: Daemon, args: seq<string>, link: Link, vm: VmSide)
    returns (err: Option<string>, answer: Option<(string, Code, string)>)
    requires |args| == 0 || |args| >= 3
    requires d.Valid() && LinkProgresses(link)
    modifies d`vmList, d.db
    ensures d.Valid()
    ensures |args| == 0 ==> err == Some("Can not execute 'migrate' command without any pod name!") && answer.None?
    ensures |args| > 0 && args[0] !in d.podList ==> err == Some("Can not find pod(" + args[0] + ")") && answer.None?
    ensures |args| > 0 && args[0] in d.podList ==> err.None? && answer.Some? && answer.value.0 == args[0]
    ensures |args| > 0 && args[0] in d.podList && d.podList[args[0]].vm.None? ==>
              answer == Some((args[0], EVmShutdown, "")) && d.vmList == old(d.vmList) && d.db.data == old(d.db.data)
    ensures |args| > 0 && args[0] in d.podList && d.podList[args[0]].vm.Some? ==>
              var p := d.podList[args[0]];
              if vm.migrated(p.status, Addr(args[1], args[2])) then
                answer == Some((args[0], vm.clean(args[0]).0, vm.clean(args[0]).1))
                && d.vmList == old(d.vmList) - {p.vm.value}
                && d.db.data == DeleteVmByPodData(old(d.db.data), d.db.faults, args[0])
              else
                answer == Some((args[0], EOk, "")) && d.vmList == old(d.vmList) && d.db.data == old(d.db.data)
  {
    if |args| == 0 {
      return Some("Can not execute 'migrate' command without any pod name!"), None;
    }
    var podId := args[0];
    var code, cause, e, _ := MigratePod(d, podId, args[1], args[2], link, vm);
    if e.Some? {
      return e, None;
    }
    return None, Some((podId, code, cause));
  }

  // -----------------------------------------------------------------------
  // The receiving daemon
  // -----------------------------------------------------------------------

  /** Docker, the pod machinery and the new VM as the receiver sees them. */
  datatype Receiver = Receiver(
    /** The name and image of the first container in the parsed pod spec. */
    firstContainer: (string, string) -> (string, string),
    /** Whether docker already has the containers. */
    known: string -> bool,
    /** SendCmdRestore's error for a container name, image and ids. */
    restore: (string, string, string) -> Option<string>,
    /** CreatePod's outcome for a pod id and its arguments. */
    createPod: (string, string) -> Result<Pod>,
    /** The first error of Pod.Prepare, startLogging and AttachTtys for a pod and its terminal tags. */
    prepare: (Pod, seq<string>) -> Option<string>,
    /** The launch outcome of a VM started for the pod. */
    launch: Hypervisor.BootConfig -> Option<string>,
    /** The random names NewVm tries for that VM. */
    draws: seq<string>,
    /** What Kill returns for a started VM that is given up. */
    kill: Vms.KillOutcome)

  /** What a listen leaves behind: its error, PodList, VmList and the store. */
  datatype Listened = Listened(err: Option<string>, pods: map<string, Pod>, vms: map<string, Vm>, data: map<string, string>)

  /**
   * GetPod: without arguments the pod must already be in PodList; with
   * them it is created and added, and AddPod's failure is the answer.
   */
  method GetPod(d: Daemon, podId: string, podArgs: string, createPod: (string, string) -> Result<Pod>)
    returns (r: Result<Pod>)
    requires d.Valid()
    modifies d`podList, d.db
    ensures d.Valid()
    ensures podArgs == "" ==> d.podList == old(d.podList) && d.db.data == old(d.db.data)
    ensures podArgs == "" && podId in d.podList ==> r == Ok(d.podList[podId])
    ensures podArgs == "" && podId !in d.podList ==> r == Err("Can not find the POD instance of " + podId)
    ensures podArgs != "" && createPod(podId, podArgs).Err? ==>
              r == createPod(podId, podArgs) && d.podList == old(d.podList) && d.db.data == old(d.db.data)
    ensures podArgs != "" && r.Ok? ==> r == createPod(podId, podArgs) && d.podList == old(d.podList)[r.value.id := r.value]
    ensures podArgs != "" && createPod(podId, podArgs).Ok? ==>
              var p := createPod(podId, podArgs).value;
              var e := AddPodError(d.db.faults, p.id);
              r == (if e.Some? then Err(e.value) else Ok(p))
              && d.podList == AddPodPods(old(d.podList), d.db.faults, p)
              && d.db.data == AddPodData(old(d.db.data), d.db.faults, p, podArgs)
  {
    if podArgs == "" {
      if podId !in d.podList {
        return Err("Can not find the POD instance of " + podId);
      }
      return Ok(d.podList[podId]);
    }
    var created := createPod(podId, podArgs);
    if created.Err? {
      return created;
    }
    var e := d.AddPod(created.value, podArgs);
    if e.Some? {
      return Err(e.value);
    }
    r := created;
  }

  /** The VM Pod.GetVM gives a pod: daemon.GetVM on the pod's resources. */
  function PodVm(d: Daemon, vms: map<string, Vm>, p: Pod, vmId: string, lazy: bool, rx: Receiver): Result<Vm>
    requires vmId == "" ==> Vms.SomeDrawFree(vms, rx.draws)
  {
    Vms.GetVmOutcome(vms, vmId, p.resource, lazy, rx.draws, rx.launch(Vms.BootFor(d, p.resource.vcpu, p.resource.memory)))
  }

  /**
   * Pod.Listen's outcome for VmList, the store and its faults: the pod
   * gets its VM; after a failed Prepare, startLogging or AttachTtys, or a
   * failed write of "vmdata-<vm>" (written empty) or "vm-<pod>", a VM
   * started for the pod is killed, and it leaves VmList when Kill succeeds.
   */
  function PodListenOutcome(d: Daemon, pods: map<string, Pod>, vms: map<string, Vm>, data: map<string, string>,
                            faults: map<string, string>, p: Pod, vmId: string, lazy: bool, ttys: seq<string>,
                            rx: Receiver): (r: Listened)
    requires vmId == "" ==> Vms.SomeDrawFree(vms, rx.draws)
    ensures r.pods == pods
    ensures var g := PodVm(d, vms, p, vmId, lazy, rx);
            r.err.None? <==> g.Ok? && rx.prepare(p, ttys).None? && VmDataKey(g.value.id) !in faults && VmKey(p.id) !in faults
    ensures var g := PodVm(d, vms, p, vmId, lazy, rx);
            g.Err? ==> r == Listened(Some(g.msg), pods, vms, data)
    ensures r.err.None? ==>
              var vm := PodVm(d, vms, p, vmId, lazy, rx).value;
              r.vms == (if vmId == "" then vms[vm.id := vm] else vms)
              && r.data == data[VmDataKey(vm.id) := ""][VmKey(p.id) := vm.id]
    ensures r.err.Some? && (vmId != "" || rx.kill.err.None?) ==> r.vms == vms
    ensures r.err.Some? ==> VmKey(p.id) !in r.data || (VmKey(p.id) in data && r.data[VmKey(p.id)] == data[VmKey(p.id)])
  {
    var g := PodVm(d, vms, p, vmId, lazy, rx);
    if g.Err? then Listened(Some(g.msg), pods, vms, data)
    else
      var vm := g.value;
      var started := if vmId == "" then vms[vm.id := vm] else vms;
      var dk, pk := VmDataKey(vm.id), VmKey(p.id);
      var (err, written) :=
        if rx.prepare(p, ttys).Some? then (rx.prepare(p, ttys), data)
        else if dk in faults then (Some(faults[dk]), data)
        else if pk in faults then (Some(faults[pk]), data[dk := ""])
        else (None, data[dk := ""][pk := vm.id]);
      var killed := err.Some? && vmId == "" && rx.kill.err.None?;
      assert killed ==> started - {vm.id} == vms;
      Listened(err, pods, if killed then started - {vm.id} else started, written)
  }

  /**
   * Pod.Listen: fetch or start the pod's VM, prepare the pod, start its
   * logging and attach its terminals, hand the VM the listen address, and
   * record the VM data and the pod's VM; a VM it started is killed again
   * when any later step fails.
   */
  method PodListen(d: Daemon, p: Pod, vmId: string, lazy: bool, ttys: seq<string>, rx: Receiver)
    returns (err: Option<string>)
    requires d.Valid()
    requires vmId == "" ==> Vms.SomeDrawFree(d.vmList, rx.draws)
    modifies d`vmList, d.db
    ensures d.Valid()
    ensures var r := PodListenOutcome(d, old(d.podList), old(d.vmList), old(d.db.data), d.db.faults, p, vmId, lazy, ttys, rx);
            err == r.err && d.vmList == r.vms && d.db.data == r.data
  {
    var g := Vms.GetVM(d, vmId, p.resource, lazy, rx.draws, rx.launch);
    if g.Err? {
      return Some(g.msg);
    }
    var vm := g.value;
    err := rx.prepare(p, ttys);
    if err.None? {
      err := d.UpdateVmData(vm.id, "");
    }
    if err.None? {
      err := d.UpdateVmByPod(p.id, vm.id);
    }
    if err.Some? && vmId == "" {
      var _ := Vms.KillVm(d, vm.id, rx.kill);
    }
  }

  /**
   * ListenPod's outcome for the received pod id, arguments and container
   * ids, given PodList, VmList, the store and its faults before the call.
   */
  function ListenOutcome(d: Daemon, pods: map<string, Pod>, vms: map<string, Vm>, data: map<string, string>,
                         faults: map<string, string>, podId: string, podArgs: string, cIds: string, vmId: string,
                         lazy: bool, ttys: seq<string>, rx: Receiver): (r: Listened)
    requires vmId == "" ==> Vms.SomeDrawFree(vms, rx.draws)
    ensures podId in pods ==> r == Listened(Some("The pos has existed(" + podId + ")"), pods, vms, data)
    ensures var (cName, cImage) := rx.firstContainer(podArgs, podId);
            podId !in pods && !rx.known(cIds) && rx.restore(cName, cImage, cIds).Some? ==>
              r == Listened(Some("Restore Container(" + cIds + ") error"), pods, vms, data)
    ensures var (cName, cImage) := rx.firstContainer(podArgs, podId);
            podId !in pods && (rx.known(cIds) || rx.restore(cName, cImage, cIds).None?) && podArgs == "" ==>
              r == Listened(Some("Can not find the POD instance of " + podId), pods, vms,
                            PutData(data, faults, PodContainersKey(podId), cIds))
    ensures r.err.Some? && (vmId != "" || rx.kill.err.None?) ==> r.vms == vms
  {
    var (cName, cImage) := rx.firstContainer(podArgs, podId);
    if podId in pods then Listened(Some("The pos has existed(" + podId + ")"), pods, vms, data)
    else if !rx.known(cIds) && rx.restore(cName, cImage, cIds).Some? then
      Listened(Some("Restore Container(" + cIds + ") error"), pods, vms, data)
    else
      var data1 := PutData(data, faults, PodContainersKey(podId), cIds);
      if podArgs == "" then Listened(Some("Can not find the POD instance of " + podId), pods, vms, data1)
      else if rx.createPod(podId, podArgs).Err? then Listened(Some(rx.createPod(podId, podArgs).msg), pods, vms, data1)
      else
        var p := rx.createPod(podId, podArgs).value;
        var e := AddPodError(faults, p.id);
        var pods2 := AddPodPods(pods, faults, p);
        var data2 := AddPodData(data1, faults, p, podArgs);
        if e.Some? then Listened(e, pods2, vms, data2)
        else PodListenOutcome(d, pods2, vms, data2, faults, p, vmId, lazy, ttys, rx)
  }

  /** A listen succeeds exactly when every step does. */
  lemma ListenSucceedsIff(d: Daemon, pods: map<string, Pod>, vms: map<string, Vm>, data: map<string, string>,
                          faults: map<string, string>, podId: string, podArgs: string, cIds: string, vmId: string,
                          lazy: bool, ttys: seq<string>, rx: Receiver)
    requires vmId == "" ==> Vms.SomeDrawFree(vms, rx.draws)
    ensures var r := ListenOutcome(d, pods, vms, data, faults, podId, podArgs, cIds, vmId, lazy, ttys, rx);
            var (cName, cImage) := rx.firstContainer(podArgs, podId);
            var c := rx.createPod(podId, podArgs);
            r.err.None? <==>
              podId !in pods && (rx.known(cIds) || rx.restore(cName, cImage, cIds).None?) && podArgs != ""
              && c.Ok? && PodKey(c.value.id) !in faults && PodContainersKey(c.value.id) !in faults
              && var g := PodVm(d, vms, c.value, vmId, lazy, rx);
                 g.Ok? && rx.prepare(c.value, ttys).None?
                 && VmDataKey(g.value.id) !in faults && VmKey(c.value.id) !in faults
  {
    var (cName, cImage) := rx.firstContainer(podArgs, podId);
    var c := rx.createPod(podId, podArgs);
    if podId !in pods && (rx.known(cIds) || rx.restore(cName, cImage, cIds).None?) && podArgs != "" && c.Ok? {
      var p := c.value;
      var data1 := PutData(data, faults, PodContainersKey(podId), cIds);
      var e := AddPodError(faults, p.id);
      if e.None? {
        var pods2 := AddPodPods(pods, faults, p);
        var data2 := AddPodData(data1, faults, p, podArgs);
        assert ListenOutcome(d, pods, vms, data, faults, podId, podArgs, cIds, vmId, lazy, ttys, rx)
            == PodListenOutcome(d, pods2, vms, data2, faults, p, vmId, lazy, ttys, rx);
      } else {
        assert ListenOutcome(d, pods, vms, data, faults, podId, podArgs, cIds, vmId, lazy, ttys, rx).err == e;
      }
    }
  }

  /**
   * After a successful listen PodList holds the new pod, VmList the VM
   * started for it, and the store the received container ids, the pod's
   * arguments and container list, the empty VM data and the pod's VM,
   * written in that order.
   */
  lemma ListenSucceeds(d: Daemon, pods: map<string, Pod>, vms: map<string, Vm>, data: map<string, string>,
                       faults: map<string, string>, podId: string, podArgs: string, cIds: string, vmId: string,
                       lazy: bool, ttys: seq<string>, rx: Receiver)
    requires vmId == "" ==> Vms.SomeDrawFree(vms, rx.draws)
    requires ListenOutcome(d, pods, vms, data, faults, podId, podArgs, cIds, vmId, lazy, ttys, rx).err.None?
    ensures var r := ListenOutcome(d, pods, vms, data, faults, podId, podArgs, cIds, vmId, lazy, ttys, rx);
            var p := rx.createPod(podId, podArgs).value;
            var vm := PodVm(d, vms, p, vmId, lazy, rx).value;
            r.pods == pods[p.id := p]
            && r.vms == (if vmId == "" then vms[vm.id := vm] else vms)
            && r.data == PutData(data, faults, PodContainersKey(podId), cIds)[PodKey(p.id) := podArgs]
                           [PodContainersKey(p.id) := ContainerValue(Ids(p.status.containers))]
                           [VmDataKey(vm.id) := ""][VmKey(p.id) := vm.id]
  {
    ListenSucceedsIff(d, pods, vms, data, faults, podId, podArgs, cIds, vmId, lazy, ttys, rx);
    var p := rx.createPod(podId, podArgs).value;
    var data1 := PutData(data, faults, PodContainersKey(podId), cIds);
    var pods2 := AddPodPods(pods, faults, p);
    var data2 := AddPodData(data1, faults, p, podArgs);
    assert ListenOutcome(d, pods, vms, data, faults, podId, podArgs, cIds, vmId, lazy, ttys, rx)
        == PodListenOutcome(d, pods2, vms, data2, faults, p, vmId, lazy, ttys, rx);
    assert pods2 == pods[p.id := p];
    assert data2 == data1[PodKey(p.id) := podArgs][PodContainersKey(p.id) := ContainerValue(Ids(p.status.containers))];
  }

  /**
   * ListenPod: the id, arguments and container ids arrive on three
   * connections in that order. A pod already in PodList is refused;
   * containers docker does not know are restored once; the container ids
   * are stored under "pod-container-<id>"; the pod is fetched or created,
   * and listens for the VM through Pod.Listen.
   */
  method ListenPod(d: Daemon, ip: string, port: string, vmId: string, conns: seq<seq<ReadOutcome>>, lazy: bool,
                   ttys: seq<string>, rx: Receiver)
    returns (code: int, cause: string, err: Option<string>)
    requires |conns| == 3 && forall k :: 0 <= k < 3 ==> ReadsFit(conns[k]) && EndsWithError(conns[k], 0)
    requires d.Valid()
    requires vmId == "" ==> Vms.SomeDrawFree(d.vmList, rx.draws)
    modifies d`podList, d`vmList, d.db
    ensures d.Valid()
    ensures var r := ListenOutcome(d, old(d.podList), old(d.vmList), old(d.db.data), d.db.faults, Received(conns[0]),
                                   Received(conns[1]), Received(conns[2]), vmId, lazy, ttys, rx);
            err == r.err && d.podList == r.pods && d.vmList == r.vms && d.db.data == r.data
    ensures cause == "" && (code == 0 <==> err.None?) && (err.Some? ==> code == -1)
  {
    var pId := GetMata(conns[0]);
    var pArgs := GetMata(conns[1]);
    var cId := GetMata(conns[2]);
    var (cName, cImage) := rx.firstContainer(pArgs, pId);
    var podId, podArgs := pId, pArgs;
    if podId in d.podList {
      return -1, "", Some("The pos has existed(" + podId + ")");
    }
    if !rx.known(cId) {
      var e := rx.restore(cName, cImage, cId);
      if e.Some? {
        return -1, "", Some("Restore Container(" + cId + ") error");
      }
    }
    var _ := d.db.Put(PodContainersKey(podId), cId);
    var p := GetPod(d, podId, podArgs, rx.createPod);
    if p.Err? {
      return -1, "", Some(p.msg);
    }
    var e := PodListen(d, p.value, vmId, lazy, ttys, rx);
    if e.Some? {
      return -1, "", e;
    }
    return 0, "", None;
  }

  /** CmdPodListen's terminal tag as written: the second argument, which is the port. */
  function ListenTagAsWritten(args: seq<string>): string
    requires |args| >= 2
  {
    if |args| > 2 then args[1] else ""
  }

  /** With a tag given, the written code tags the terminal with the port instead. */
  lemma ListenTagIsPort()
    ensures var args := ["10.0.0.2", "8000", "tty-1"];
            ListenTagAsWritten(args) == "8000" && ListenTagAsWritten(args) != args[2]
  {
  }

  /** CmdPodListen's terminal tag: the third argument, when there is one. */
  function ListenTag(args: seq<string>): (tag: string)
    requires |args| >= 2
    ensures |args| > 2 ==> tag == args[2]
    ensures |args| == 2 ==> tag == ""
  {
    if |args| > 2 then args[2] else ""
  }

  /** The terminals attached: one for a non-empty tag, none otherwise. */
  function Ttys(tag: string): (ttys: seq<string>)
    ensures tag == "" <==> ttys == []
    ensures tag != "" ==> ttys == [tag]
  {
    if tag != "" then [tag] else []
  }

  /**
   * CmdPodListen: an address is required, and the address and port are
   * the first two arguments (the source indexes the port unchecked); the
   * terminal, if tagged, is attached to the listening pod under the tag
   * the source computes, which is the port (see ListenTagIsPort). VMs are started
   * lazily whenever the hypervisor driver supports it.
   */
  method CmdPodListen(d: Daemon, args: seq<string>, conns: seq<seq<ReadOutcome>>, supportLazy: bool, rx: Receiver)
    returns (err: Option<string>)
    requires |args| != 1
    requires |conns| == 3 && forall k :: 0 <= k < 3 ==> ReadsFit(conns[k]) && EndsWithError(conns[k], 0)
    requires d.Valid() && Vms.SomeDrawFree(d.vmList, rx.draws)
    modifies d`podList, d`vmList, d.db
    ensures d.Valid()
    ensures |args| == 0 ==>
              err == Some("Can not execute 'listen' command without any pod name!")
              && d.podList == old(d.podList) && d.vmList == old(d.vmList) && d.db.data == old(d.db.data)
    ensures |args| >= 2 ==>
              var r := ListenOutcome(d, old(d.podList), old(d.vmList), old(d.db.data), d.db.faults, Received(conns[0]),
                                     Received(conns[1]), Received(conns[2]), "", supportLazy, Ttys(ListenTagAsWritten(args)), rx);
              err == r.err && d.podList == r.pods && d.vmList == r.vms && d.db.data == r.data
  {
    if |args| == 0 {
      return Some("Can not execute 'listen' command without any pod name!");
    }
    var tag := ListenTagAsWritten(args);
    var ttys := Ttys(tag);
    var _, _, e := ListenPod(d, args[0], args[1], "", conns, supportLazy, ttys, rx);
    err := e;
  }
}
