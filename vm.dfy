// The daemon's VM registry (hyper/daemon/vm.go): creating a VM from the
// `vm create` arguments, starting and looking up VMs, killing them,
// binding a pod to a VM, and releasing every VM (with the retry of
// DestroyAndKeepVm from hyper/daemon/daemon.go).
//
// The VM object's own operations (Launch, Kill, ReleaseVm, AssociateVm and
// the first response of a starting VM) are not part of this model: each
// call takes the outcome it would have had as a parameter. The random
// names NewVm tries are the successive strings pod.RandStr produces.

module Vms {
  import opened Common
  import opened HyperDaemon
  import Hypervisor

  const DefaultCpu: int := 1
  const DefaultMem: int := 128

  // -----------------------------------------------------------------------
  // `vm create` arguments
  // -----------------------------------------------------------------------

  datatype VmCreateArgs = VmCreateArgs(cpu: int, mem: int, async: bool)

  /** A number argument: empty keeps the default, anything else must parse. */
  function NumberArg(arg: string, default: int): (r: Result<int>)
    ensures arg == "" ==> r == Ok(default)
    ensures arg != "" ==> (r.Ok? <==> Atoi(arg).Some?)
    ensures arg != "" && r.Ok? ==> r.value == Atoi(arg).value
    ensures r.Err? ==> r.msg == AtoiError(arg)
  {
    if arg == "" then Ok(default)
    else match Atoi(arg)
      case Some(v) => Ok(v)
      case None => Err(AtoiError(arg))
  }

  /**
   * CmdVmCreate's arguments: cpu count, memory, and "yes" for an
   * asynchronous start. The command reads the first three arguments.
   */
  function ParseVmCreate(args: seq<string>): (r: Result<VmCreateArgs>)
    requires |args| >= 3
    ensures r.Ok? <==> NumberArg(args[0], DefaultCpu).Ok? && NumberArg(args[1], DefaultMem).Ok?
    ensures r.Ok? ==> r.value.async == (args[2] == "yes")
  {
    match NumberArg(args[0], DefaultCpu)
    case Err(e) => Err(e)
    case Ok(cpu) =>
      match NumberArg(args[1], DefaultMem)
      case Err(e) => Err(e)
      case Ok(mem) => Ok(VmCreateArgs(cpu, mem, args[2] == "yes"))
  }

  /** Empty arguments keep 1 CPU and 128 MB; the asynchronous flag is "yes" and nothing else. */
  lemma VmCreateDefaults(flag: string)
    ensures ParseVmCreate(["", "", flag]) == Ok(VmCreateArgs(1, 128, flag == "yes"))
  {
  }

  /** The numbers a client prints are the numbers the daemon reads. */
  lemma VmCreateRoundTrip(cpu: int, mem: int, flag: string)
    requires InInt64(cpu) && InInt64(mem)
    ensures ParseVmCreate([IntToDec(cpu), IntToDec(mem), flag]) == Ok(VmCreateArgs(cpu, mem, flag == "yes"))
  {
    AtoiIntToDec(cpu);
    AtoiIntToDec(mem);
    assert IntToDec(cpu) != "" && IntToDec(mem) != "";
  }

  /** A CPU count beyond 64 bits is strconv's range error, and nothing is started. */
  lemma VmCreateOutOfRange(cpu: int, mem: string, flag: string)
    requires !InInt64(cpu)
    ensures ParseVmCreate([IntToDec(cpu), mem, flag])
            == Err("strconv.Atoi: parsing " + ("\"" + IntToDec(cpu) + "\"") + ": value out of range")
  {
    AtoiOutOfRange(cpu);
    assert IntToDec(cpu) != "";
  }

  /** A malformed number is reported with strconv's error and nothing is started. */
  lemma VmCreateRejectsJunk(mem: string, flag: string)
    ensures ParseVmCreate(["two", mem, flag]) == Err(AtoiError("two"))
  {
    assert !IsDigit('t');
    assert Atoi("two").None?;
  }

  // -----------------------------------------------------------------------
  // Starting and finding VMs
  // -----------------------------------------------------------------------

  /** StartVm's substitution of the defaults for a non-positive value. */
  function OrDefault(v: int, default: int): int
  {
    if v <= 0 then default else v
  }

  /** hypervisor.NewVm: a VM that has not reported any state and serves no pod. */
  function FreshVm(id: string, cpu: int, mem: int, lazy: bool): Vm
  {
    Vm(id, cpu, mem, lazy, VmOtherStatus, None, map[])
  }

  /** Some random name is not taken (otherwise NewVm's search would not end). */
  predicate SomeDrawFree(vms: map<string, Vm>, draws: seq<string>)
  {
    exists j :: 0 <= j < |draws| && "vm-" + draws[j] !in vms
  }

  /** The first "vm-<random>" that VmList does not hold. */
  function FirstFreeVmId(vms: map<string, Vm>, draws: seq<string>): (id: string)
    requires SomeDrawFree(vms, draws)
    ensures id !in vms && IsPrefix("vm-", id)
    decreases |draws|
  {
    var id := "vm-" + draws[0];
    if id !in vms then
      assert id[..3] == "vm-";
      id
    else
      assert SomeDrawFree(vms, draws[1..]) by {
        var j :| 0 <= j < |draws| && "vm-" + draws[j] !in vms;
        assert j > 0 && draws[1..][j - 1] == draws[j];
      }
      FirstFreeVmId(vms, draws[1..])
  }

  /** When the k-th draw is the first free one, it is FirstFreeVmId's pick. */
  lemma {:induction false} FirstFreeIsFirstUntaken(vms: map<string, Vm>, draws: seq<string>, k: nat)
    requires k < |draws| && "vm-" + draws[k] !in vms
    requires forall j :: 0 <= j < k ==> "vm-" + draws[j] in vms
    ensures SomeDrawFree(vms, draws) && FirstFreeVmId(vms, draws) == "vm-" + draws[k]
    decreases k
  {
    if k > 0 {
      assert "vm-" + draws[0] in vms;
      assert forall j :: 0 <= j < k - 1 ==> draws[1..][j] == draws[j + 1];
      FirstFreeIsFirstUntaken(vms, draws[1..], k - 1);
    }
  }

  /**
   * NewVm: an explicit id is used as it is; an empty one is replaced by the
   * first "vm-<random>" that VmList does not hold.
   */
  method NewVm(d: Daemon, id: string, cpu: int, mem: int, lazy: bool, draws: seq<string>) returns (vm: Vm)
    requires id == "" ==> SomeDrawFree(d.vmList, draws)
    ensures vm == FreshVm(vm.id, cpu, mem, lazy)
    ensures id != "" ==> vm.id == id
    ensures id == "" ==> IsPrefix("vm-", vm.id) && vm.id !in d.vmList
    ensures id == "" ==> exists k :: 0 <= k < |draws| && vm.id == "vm-" + draws[k]
                                  && forall j :: 0 <= j < k ==> "vm-" + draws[j] in d.vmList
    ensures id == "" ==> vm.id == FirstFreeVmId(d.vmList, draws)
  {
    var vmId := id;
    if vmId == "" {
      var i := 0;
      while true
        invariant 0 <= i < |draws|
        invariant forall j :: 0 <= j < i ==> "vm-" + draws[j] in d.vmList
        invariant exists j :: i <= j < |draws| && "vm-" + draws[j] !in d.vmList
        decreases |draws| - i
      {
        vmId := "vm-" + draws[i];
        if vmId !in d.vmList {
          FirstFreeIsFirstUntaken(d.vmList, draws, i);
          break;
        }
        i := i + 1;
      }
    }
    return FreshVm(vmId, cpu, mem, lazy);
  }

  /** The boot configuration StartVm launches with. */
  function BootFor(d: Daemon, cpu: int, mem: int): Hypervisor.BootConfig
  {
    Hypervisor.BootConfig(OrDefault(cpu, DefaultCpu), OrDefault(mem, DefaultMem), d.kernel, d.initrd, d.bios, d.cbfs)
  }

  /**
   * StartVm: non-positive resources become 1 CPU and 128 MB; the VM is
   * registered only when its launch succeeds.
   */
  method StartVm(d: Daemon, vmId: string, cpu: int, mem: int, lazy: bool, draws: seq<string>,
                 launch: Hypervisor.BootConfig -> Option<string>) returns (r: Result<Vm>)
    requires d.Valid()
    requires vmId == "" ==> SomeDrawFree(d.vmList, draws)
    modifies d`vmList
    ensures d.Valid()
    ensures var b := BootFor(d, cpu, mem);
            if launch(b).Some? then r == Err(launch(b).value) && d.vmList == old(d.vmList)
            else r.Ok? && d.vmList == old(d.vmList)[r.value.id := r.value]
    ensures r.Ok? ==> r.value == FreshVm(r.value.id, OrDefault(cpu, DefaultCpu), OrDefault(mem, DefaultMem), lazy)
    ensures r.Ok? ==> r.value.cpu >= 1 && r.value.mem >= 1
    ensures r.Ok? && vmId != "" ==> r.value.id == vmId
    ensures r.Ok? && vmId == "" ==> IsPrefix("vm-", r.value.id) && r.value.id !in old(d.vmList)
    ensures r.Ok? && vmId == "" ==> r.value.id == FirstFreeVmId(old(d.vmList), draws)
  {
    var c := cpu;
    var m := mem;
    if c <= 0 {
      c := DefaultCpu;
    }
    if m <= 0 {
      m := DefaultMem;
    }
    var b := Hypervisor.BootConfig(c, m, d.kernel, d.initrd, d.bios, d.cbfs);
    var vm := NewVm(d, vmId, c, m, lazy, draws);
    var err := launch(b);
    if err.Some? {
      return Err(err.value);
    }
    d.AddVm(vm);
    return Ok(vm);
  }

  /** WaitVmStart: the VM's first response must say it is running. */
  function WaitVmStart(chanErr: Option<string>, response: Code): (r: Option<string>)
    ensures r.None? <==> chanErr.None? && response == EVmRunning
  {
    if chanErr.Some? then chanErr
    else if response != EVmRunning then Some("Vbox does not start successfully")
    else None
  }

  /**
   * GetVM's answer for VmList, the id asked for, the pod's resources and
   * the outcome of launching a new VM: "" starts the first free
   * "vm-<random>" with the resources (defaults for non-positive ones);
   * otherwise the VM must exist and have the pod's CPU count and memory.
   */
  function GetVmOutcome(vms: map<string, Vm>, vmId: string, res: Resource, lazy: bool, draws: seq<string>,
                        launched: Option<string>): (r: Result<Vm>)
    requires vmId == "" ==> SomeDrawFree(vms, draws)
    ensures vmId == "" ==> (r.Ok? <==> launched.None?)
    ensures vmId == "" && r.Err? ==> r.msg == launched.value
    ensures vmId == "" && r.Ok? ==>
              r.value.id !in vms && IsPrefix("vm-", r.value.id) && r.value.lazy == lazy
              && r.value.cpu >= 1 && r.value.mem >= 1 && r.value.pod.None?
    ensures vmId != "" ==> (r.Ok? <==> vmId in vms && vms[vmId].cpu == res.vcpu && vms[vmId].mem == res.memory)
    ensures vmId != "" && r.Ok? ==> r.value == vms[vmId]
  {
    if vmId == "" then
      if launched.Some? then Err(launched.value)
      else Ok(FreshVm(FirstFreeVmId(vms, draws), OrDefault(res.vcpu, DefaultCpu), OrDefault(res.memory, DefaultMem), lazy))
    else if vmId !in vms then Err("The VM " + vmId + " doesn't exist")
    else if res.vcpu != vms[vmId].cpu then Err("The new pod's cpu setting is different with the VM's cpu")
    else if res.memory != vms[vmId].mem then Err("The new pod's memory setting is different with the VM's memory")
    else Ok(vms[vmId])
  }

  /**
   * GetVM: "" starts a new VM; otherwise the VM must exist and have the
   * pod's CPU count and memory.
   */
  method GetVM(d: Daemon, vmId: string, res: Resource, lazy: bool, draws: seq<string>,
               launch: Hypervisor.BootConfig -> Option<string>) returns (r: Result<Vm>)
    requires d.Valid()
    requires vmId == "" ==> SomeDrawFree(d.vmList, draws)
    modifies d`vmList
    ensures d.Valid()
    ensures vmId != "" ==> d.vmList == old(d.vmList)
    ensures vmId != "" && vmId !in d.vmList ==> r == Err("The VM " + vmId + " doesn't exist")
    ensures vmId != "" && vmId in d.vmList ==>
              var vm := d.vmList[vmId];
              r == if res.vcpu != vm.cpu then Err("The new pod's cpu setting is different with the VM's cpu")
                   else if res.memory != vm.mem then Err("The new pod's memory setting is different with the VM's memory")
                   else Ok(vm)
    ensures vmId == "" ==> (r.Ok? <==> launch(BootFor(d, res.vcpu, res.memory)).None?)
    ensures vmId == "" && r.Ok? ==> r.value.id !in old(d.vmList) && d.vmList == old(d.vmList)[r.value.id := r.value]
    ensures vmId == "" && r.Err? ==> d.vmList == old(d.vmList)
    ensures r == GetVmOutcome(old(d.vmList), vmId, res, lazy, draws, launch(BootFor(d, res.vcpu, res.memory)))
  {
    if vmId == "" {
      r := StartVm(d, "", res.vcpu, res.memory, lazy, draws, launch);
      return;
    }
    if vmId !in d.vmList {
      return Err("The VM " + vmId + " doesn't exist");
    }
    var vm := d.vmList[vmId];
    if res.vcpu != vm.cpu {
      return Err("The new pod's cpu setting is different with the VM's cpu");
    }
    if res.memory != vm.mem {
      return Err("The new pod's memory setting is different with the VM's memory");
    }
    return Ok(vm);
  }

  // -----------------------------------------------------------------------
  // Killing VMs
  // -----------------------------------------------------------------------

  /** What vm.Kill returns: a code, a cause, an error. */
  datatype KillOutcome = KillOutcome(code: Code, cause: string, err: Option<string>)

  /**
   * KillVm: an unknown VM gives (0, "", nil) and changes nothing; a known
   * one leaves VmList only when its Kill succeeds.
   */
  method KillVm(d: Daemon, vmId: string, kill: KillOutcome) returns (r: KillOutcome)
    requires d.Valid()
    modifies d`vmList
    ensures d.Valid()
    ensures vmId !in old(d.vmList) ==> r == KillOutcome(EOk, "", None) && d.vmList == old(d.vmList)
    ensures vmId in old(d.vmList) ==> r == kill
    ensures vmId in old(d.vmList) ==> d.vmList == if kill.err.None? then old(d.vmList) - {vmId} else old(d.vmList)
  {
    if vmId !in d.vmList {
      return KillOutcome(EOk, "", None);
    }
    if kill.err.None? {
      d.RemoveVm(vmId);
    }
    return kill;
  }

  /**
   * CmdVmCreate: parse the arguments, start a lazy VM, and unless the start
   * is asynchronous wait for it to run; a VM that does not come up is
   * killed again.
   */
  method CmdVmCreate(d: Daemon, args: seq<string>, draws: seq<string>,
                     launch: Hypervisor.BootConfig -> Option<string>,
                     chanErr: Option<string>, response: Code, kill: KillOutcome)
    returns (err: Option<string>, vmId: string)
    requires |args| >= 3 && d.Valid() && SomeDrawFree(d.vmList, draws)
    modifies d`vmList
    ensures d.Valid()
    ensures ParseVmCreate(args).Err? ==> err == Some(ParseVmCreate(args).msg) && d.vmList == old(d.vmList)
    ensures ParseVmCreate(args).Ok? ==>
              var a := ParseVmCreate(args).value;
              var b := BootFor(d, a.cpu, a.mem);
              if launch(b).Some? then err == launch(b) && d.vmList == old(d.vmList)
              else
                && vmId !in old(d.vmList) && IsPrefix("vm-", vmId)
                && var vm := FreshVm(vmId, OrDefault(a.cpu, DefaultCpu), OrDefault(a.mem, DefaultMem), true);
                   if a.async || WaitVmStart(chanErr, response).None? then
                     err.None? && d.vmList == old(d.vmList)[vmId := vm]
                   else
                     err == WaitVmStart(chanErr, response)
                     && d.vmList == if kill.err.None? then old(d.vmList) else old(d.vmList)[vmId := vm]
  {
    vmId := "";
    var parsed := ParseVmCreate(args);
    if parsed.Err? {
      return Some(parsed.msg), vmId;
    }
    var a := parsed.value;
    var started := StartVm(d, "", a.cpu, a.mem, true, draws, launch);
    if started.Err? {
      return Some(started.msg), vmId;
    }
    var vm := started.value;
    vmId := vm.id;
    if !a.async {
      err := WaitVmStart(chanErr, response);
      if err.Some? {
        var _ := KillVm(d, vm.id, kill);
        return;
      }
    }
    return None, vmId;
  }

  // -----------------------------------------------------------------------
  // Binding a pod to a VM
  // -----------------------------------------------------------------------

  function AlreadyBound(podId: string, current: string, vmId: string): string
  {
    "pod " + podId + " already has vm " + current + ", but trying to associate with " + vmId
  }

  /**
   * Pod.AssociateVm: a pod bound to another VM is refused, a pod bound to
   * this VM is left as it is; otherwise the VM's saved data is read, a VM
   * object is made and bound, and on failure the binding is undone (the
   * status's VM becomes ""), on success the VM is registered.
   */
  method AssociateVm(d: Daemon, podId: string, vmId: string, draws: seq<string>, associate: Option<string>)
    returns (err: Option<string>)
    requires d.Valid() && podId in d.podList
    requires vmId == "" ==> SomeDrawFree(d.vmList, draws)
    modifies d`podList, d`vmList
    ensures d.Valid()
    ensures var p := old(d.podList[podId]);
            if p.vm.Some? && p.vm.value != vmId then
              err == Some(AlreadyBound(podId, p.vm.value, vmId)) && d.podList == old(d.podList) && d.vmList == old(d.vmList)
            else if p.vm.Some? then
              err.None? && d.podList == old(d.podList) && d.vmList == old(d.vmList)
            else if VmDataKey(vmId) !in d.db.data then
              err == Some(NotFound) && d.podList == old(d.podList) && d.vmList == old(d.vmList)
            else if associate.Some? then
              err == associate && d.vmList == old(d.vmList)
              && d.podList == old(d.podList)[podId := p.(status := p.status.(vm := ""))]
            else
              err.None? && podId in d.podList && d.podList[podId].vm.Some?
              && var id := d.podList[podId].vm.value;
                 && (vmId != "" ==> id == vmId)
                 && d.podList == old(d.podList)[podId := p.(vm := Some(id), status := p.status.(vm := vmId))]
                 && d.vmList == old(d.vmList)[id := FreshVm(id, p.resource.vcpu, p.resource.memory, false)]
  {
    var p := d.podList[podId];
    if p.vm.Some? && p.vm.value != vmId {
      return Some(AlreadyBound(p.id, p.vm.value, vmId));
    } else if p.vm.Some? {
      return None;
    }
    var data := d.GetVmData(vmId);
    if data.Err? {
      return Some(data.msg);
    }
    var vm := NewVm(d, vmId, p.resource.vcpu, p.resource.memory, false, draws);
    d.podList := d.podList[podId := p.(vm := Some(vm.id), status := p.status.(vm := vmId))];
    if associate.Some? {
      d.podList := d.podList[podId := p.(vm := None, status := p.status.(vm := ""))];
      return associate;
    }
    d.AddVm(vm);
    return None;
  }

  // -----------------------------------------------------------------------
  // Releasing every VM
  // -----------------------------------------------------------------------

  /** What vm.ReleaseVm returns. */
  type ReleaseOutcome = (Code, Option<string>)

  /** ReleaseAllVms from the given VM on: the last code, or the first error with its code. */
  function ReleaseFrom(order: seq<string>, release: string -> ReleaseOutcome, ret: Code): ReleaseOutcome
  {
    if order == [] then (ret, None)
    else
      var o := release(order[0]);
      if o.1.Some? then o else ReleaseFrom(order[1..], release, o.0)
  }

  /**
   * The release stops at the first VM that fails and reports that VM's code
   * and error; when none fails the error is nil.
   */
  lemma {:induction false} ReleaseStopsAtFirstError(order: seq<string>, release: string -> ReleaseOutcome, ret: Code)
    ensures ReleaseFrom(order, release, ret).1.None? <==> forall j :: 0 <= j < |order| ==> release(order[j]).1.None?
    ensures forall k :: 0 <= k < |order| && release(order[k]).1.Some?
                        && (forall j :: 0 <= j < k ==> release(order[j]).1.None?)
                        ==> ReleaseFrom(order, release, ret) == release(order[k])
  {
    if order != [] {
      var o := release(order[0]);
      ReleaseStopsAtFirstError(order[1..], release, o.0);
      forall j | 1 <= j < |order| ensures order[j] == order[1..][j - 1] { }
      forall k | 1 <= k < |order| && release(order[k]).1.Some?
                 && (forall j :: 0 <= j < k ==> release(order[j]).1.None?)
        ensures ReleaseFrom(order, release, ret) == release(order[k])
      {
        assert order[1..][k - 1] == order[k];
        forall j | 0 <= j < k - 1 ensures release(order[1..][j]).1.None? {
          assert order[1..][j] == order[j + 1];
        }
      }
    }
  }

  /** ReleaseAllVms: releases the VMs in VmList order, stopping at the first error. */
  method ReleaseAllVms(d: Daemon, order: seq<string>, release: string -> ReleaseOutcome) returns (ret: Code, err: Option<string>)
    requires Enumerates(order, d.vmList.Keys)
    ensures (ret, err) == ReleaseFrom(order, release, EOk)
  {
    ret := EOk;
    err := None;
    var i := 0;
    while i < |order|
      invariant 0 <= i <= |order|
      invariant err.None?
      invariant ReleaseFrom(order, release, EOk) == ReleaseFrom(order[i..], release, ret)
    {
      assert order[i..][1..] == order[i + 1..];
      ret, err := release(order[i]).0, release(order[i]).1;
      if err.Some? {
        return;
      }
      i := i + 1;
    }
  }

  /** DestroyAndKeepVm's retry from round i: only a busy failure is retried, three rounds at most. */
  function KeepVmFrom(rounds: nat -> ReleaseOutcome, i: nat): Option<string>
    decreases 3 - i
  {
    if i >= 3 then None
    else
      var o := rounds(i);
      if o.1.Some? && o.0 == EBusy then KeepVmFrom(rounds, i + 1) else o.1
  }

  /** Three busy rounds end the retry with a nil error; a round that is not a busy failure decides it. */
  lemma KeepVmOutcomes(rounds: nat -> ReleaseOutcome)
    ensures (forall i :: 0 <= i < 3 ==> rounds(i).1.Some? && rounds(i).0 == EBusy) ==> KeepVmFrom(rounds, 0) == None
    ensures !(rounds(0).1.Some? && rounds(0).0 == EBusy) ==> KeepVmFrom(rounds, 0) == rounds(0).1
    ensures KeepVmFrom(rounds, 0) in {rounds(0).1, rounds(1).1, rounds(2).1, None}
  {
  }

  /**
   * DestroyAndKeepVm (hyper/daemon/daemon.go): ReleaseAllVms up to three
   * times, again only after a busy failure. Round i's VMs answer `release(i, _)`.
   */
  method DestroyAndKeepVm(d: Daemon, order: seq<string>, release: (nat, string) -> ReleaseOutcome) returns (err: Option<string>)
    requires Enumerates(order, d.vmList.Keys)
    ensures err == KeepVmFrom((i: nat) => ReleaseFrom(order, v => release(i, v), EOk), 0)
  {
    ghost var rounds := (i: nat) => ReleaseFrom(order, v => release(i, v), EOk);
    var i := 0;
    while i < 3
      invariant 0 <= i <= 3
      invariant KeepVmFrom(rounds, 0) == KeepVmFrom(rounds, i)
    {
      var code, e := ReleaseAllVms(d, order, v => release(i, v));
      assert (code, e) == rounds(i);
      if e.Some? && code == EBusy {
        i := i + 1;
        continue;
      }
      return e;
    }
    return None;
  }
}
