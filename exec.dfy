// The daemon's `exitstatus` and `exec` commands (hyper/daemon/exec.go):
// resolving a container to the VM its pod runs on, reading a recorded exit
// code, and handing a command to the VM.
//
// The VM's Exec (which streams the job's stdin and stdout into the guest)
// is an oracle parameter; writing the exit code to the job's output is
// modelled as the returned code.

module Exec {
  import opened Common
  import opened HyperDaemon

  /** GetPodByContainer followed by GetVmByPodId: the VM id the container's pod names. */
  function ContainerVm(pods: map<string, Pod>, order: seq<string>, container: string): (r: Result<string>)
    requires forall i :: 0 <= i < |order| ==> order[i] in pods
    ensures r.Err? <==> ContainerPod(pods, order, container).None?
    ensures r.Err? ==> r.msg == "Can not find that container!"
    ensures r.Ok? ==> exists p :: p in pods && HasContainer(pods[p], container) && r.value == pods[p].status.vm
  {
    match ContainerPod(pods, order, container)
    case None => Err("Can not find that container!")
    case Some(p) => Ok(pods[p].status.vm)
  }

  /** Resolving a container through the daemon: the lookup methods agree with ContainerVm. */
  method ResolveContainer(d: Daemon, container: string, order: seq<string>) returns (r: Result<string>)
    requires d.Valid() && Enumerates(order, d.podList.Keys)
    ensures r == ContainerVm(d.podList, order, container)
  {
    var pod := d.GetPodByContainer(container, order);
    if pod.Err? {
      return Err(pod.msg);
    }
    r := d.GetVmByPodId(pod.value);
  }

  /** The exit code reported for a tag: the recorded one, -1 if none is recorded. */
  function ExitCodeFor(vm: Vm, tag: string): (code: int)
    ensures tag in vm.exitCodes ==> code == vm.exitCodes[tag]
    ensures tag !in vm.exitCodes ==> code == -1
  {
    if tag in vm.exitCodes then vm.exitCodes[tag] else -1
  }

  /** Recording a code for a tag makes it the one reported; other tags keep theirs. */
  lemma ExitCodeRecorded(vm: Vm, tag: string, other: string, code: int)
    ensures ExitCodeFor(vm.(exitCodes := vm.exitCodes[tag := code]), tag) == code
    ensures other != tag ==> ExitCodeFor(vm.(exitCodes := vm.exitCodes[tag := code]), other) == ExitCodeFor(vm, other)
  {
  }

  /**
   * CmdExitCode: a container id and a tag are required; the container
   * must resolve to a VM in VmList; the answer is the tag's recorded exit
   * code, or -1.
   */
  method CmdExitCode(d: Daemon, args: seq<string>, order: seq<string>) returns (err: Option<string>, code: int)
    requires d.Valid() && Enumerates(order, d.podList.Keys)
    ensures |args| == 0 ==> err == Some("Can not execute 'exitstatus' command without container id!")
    ensures |args| == 1 ==> err == Some("Can not execute 'exitstatus' command without tag!")
    ensures |args| >= 2 ==>
              match ContainerVm(d.podList, order, args[0])
              case Err(e) => err == Some(e)
              case Ok(vmId) =>
                if vmId !in d.vmList then err == Some("Can not find VM whose Id is " + vmId + "!")
                else err.None? && code == ExitCodeFor(d.vmList[vmId], args[1])
  {
    code := -1;
    if |args| == 0 {
      return Some("Can not execute 'exitstatus' command without container id!"), code;
    }
    if |args| == 1 {
      return Some("Can not execute 'exitstatus' command without tag!"), code;
    }
    var container, tag := args[0], args[1];
    var vmId := ResolveContainer(d, container, order);
    if vmId.Err? {
      return Some(vmId.msg), code;
    }
    if vmId.value !in d.vmList {
      return Some("Can not find VM whose Id is " + vmId.value + "!"), code;
    }
    var vm := d.vmList[vmId.value];
    if tag in vm.exitCodes {
      code := vm.exitCodes[tag];
    }
    err := None;
  }

  // -----------------------------------------------------------------------
  // exec
  // -----------------------------------------------------------------------

  /** CmdExec's argument check as written: only zero or one argument is refused. */
  function ExecGuardAsWritten(args: seq<string>): (err: Option<string>)
    ensures err.None? <==> |args| >= 2
  {
    if |args| == 0 then Some("Can not execute 'exec' command without any container ID!")
    else if |args| == 1 then Some("Can not execute 'exec' command without any command!")
    else None
  }

  /** CmdExec reads the command and the tag at indexes 2 and 3. */
  predicate ExecArgsInRange(args: seq<string>)
  {
    |args| > 3
  }

  /** Two arguments pass the written check, yet the command and the tag are read past the end. */
  lemma ExecGuardAdmitsShortArgs()
    ensures var args := ["pod", "vm-1"];
            ExecGuardAsWritten(args).None? && !ExecArgsInRange(args)
    ensures exists args: seq<string> :: ExecGuardAsWritten(args).None? && |args| == 3 && !ExecArgsInRange(args)
  {
    var three := ["pod", "vm-1", "ls"];
    assert ExecGuardAsWritten(three).None? && |three| == 3;
  }

  /**
   * The guard CmdExec needs: the target, the command and the tag must all be
   * there. Missing a command or a tag is refused the way the written code
   * refuses a missing command.
   */
  function ExecGuard(args: seq<string>): (err: Option<string>)
    ensures err.None? <==> ExecArgsInRange(args)
    ensures |args| < 2 ==> err == ExecGuardAsWritten(args)
  {
    if |args| == 0 then Some("Can not execute 'exec' command without any container ID!")
    else if |args| < 4 then Some("Can not execute 'exec' command without any command!")
    else None
  }

  /** The VM and container an exec is aimed at: "pod" names the VM directly, else a container is resolved. */
  function ExecTarget(pods: map<string, Pod>, order: seq<string>, typeKey: string, typeVal: string): (r: Result<(string, string)>)
    requires forall i :: 0 <= i < |order| ==> order[i] in pods
    ensures typeKey == "pod" ==> r == Ok((typeVal, ""))
    ensures typeKey != "pod" ==> match ContainerVm(pods, order, typeVal)
                                 case Err(e) => r == Err(e)
                                 case Ok(v) => r == Ok((v, typeVal))
  {
    if typeKey == "pod" then Ok((typeVal, ""))
    else
      match ContainerVm(pods, order, typeVal)
      case Err(e) => Err(e)
      case Ok(v) => Ok((v, typeVal))
  }

  /** vm.Exec's outcome for a VM id, command, tag and container. */
  type ExecOracle = (string, string, string, string) -> Option<string>

  /**
   * CmdExec: with its four arguments checked, the target resolves to a VM
   * in VmList, and the command's error is the answer.
   */
  method CmdExec(d: Daemon, args: seq<string>, order: seq<string>, exec: ExecOracle) returns (err: Option<string>)
    requires d.Valid() && Enumerates(order, d.podList.Keys)
    ensures ExecGuard(args).Some? ==> err == ExecGuard(args)
    ensures ExecGuard(args).None? ==>
              match ExecTarget(d.podList, order, args[0], args[1])
              case Err(e) => err == Some(e)
              case Ok((vmId, container)) =>
                if vmId !in d.vmList then err == Some("Can not find VM whose Id is " + vmId + "!")
                else err == exec(vmId, args[2], args[3], container)
  {
    var guard := ExecGuard(args);
    if guard.Some? {
      return guard;
    }
    var typeKey, typeVal, cmd, tag := args[0], args[1], args[2], args[3];
    var vmId, container;
    if typeKey == "pod" {
      vmId, container := typeVal, "";
    } else {
      container := typeVal;
      var v := ResolveContainer(d, container, order);
      if v.Err? {
        return Some(v.msg);
      }
      vmId := v.value;
    }
    if vmId !in d.vmList {
      return Some("Can not find VM whose Id is " + vmId + "!");
    }
    err := exec(vmId, cmd, tag, container);
  }
}
