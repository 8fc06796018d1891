// The daemon's `tty` command (hyper/daemon/tty.go): resizing a terminal of
// a VM picked by pod id, VM id or container id.
//
// The VM's Tty call is an oracle parameter; the log lines written for an
// unparsable height or width are not modelled.

module Tty {
  import opened Common
  import opened HyperDaemon
  import Exec

  /** CmdTty's argument check as written: fewer than three arguments do nothing. */
  predicate TtyGuardPassesAsWritten(args: seq<string>)
  {
    |args| >= 3
  }

  /** CmdTty reads the target, tag, height and width at indexes 0 to 3. */
  predicate TtyArgsInRange(args: seq<string>)
  {
    |args| > 3
  }

  /** Exactly three arguments pass the written check, yet the width is read past the end. */
  lemma TtyGuardAdmitsThreeArgs()
    ensures var args := ["pod-1", "tag", "24"];
            TtyGuardPassesAsWritten(args) && !TtyArgsInRange(args)
    ensures forall args: seq<string> :: TtyGuardPassesAsWritten(args) && !TtyArgsInRange(args) <==> |args| == 3
  {
  }

  /** The guard CmdTty needs: without all four arguments nothing is done. */
  predicate TtyGuardPasses(args: seq<string>)
  {
    |args| >= 4
  }

  /** The corrected check admits exactly the argument lists the reads stay within. */
  lemma TtyGuardSound(args: seq<string>)
    ensures TtyGuardPasses(args) <==> TtyArgsInRange(args)
    ensures TtyGuardPasses(args) ==> TtyGuardPassesAsWritten(args)
  {
  }

  /**
   * The VM a target names: an id containing "pod-" is looked up as a pod
   * (checked first); one containing "vm-" is the VM id itself; anything
   * else is a container, resolved through its pod.
   */
  function TtyVm(pods: map<string, Pod>, order: seq<string>, target: string): (r: Result<string>)
    requires forall i :: 0 <= i < |order| ==> order[i] in pods
    ensures Contains(target, "pod-") ==> (r.Ok? <==> target in pods)
    ensures Contains(target, "pod-") && r.Ok? ==> r.value == pods[target].status.vm
    ensures Contains(target, "pod-") && r.Err? ==> r.msg == "Not found Pod " + target
    ensures !Contains(target, "pod-") && Contains(target, "vm-") ==> r == Ok(target)
    ensures !Contains(target, "pod-") && !Contains(target, "vm-") ==> r == Exec.ContainerVm(pods, order, target)
  {
    if Contains(target, "pod-") then
      if target in pods then Ok(pods[target].status.vm) else Err("Not found Pod " + target)
    else if Contains(target, "vm-") then Ok(target)
    else Exec.ContainerVm(pods, order, target)
  }

  /** A name holding both markers is taken as a pod id, never as a VM id. */
  lemma PodMarkerWins(pods: map<string, Pod>, order: seq<string>, x: string)
    requires forall i :: 0 <= i < |order| ==> order[i] in pods
    requires "vm-pod-" + x !in pods
    ensures Contains("vm-pod-" + x, "vm-")
    ensures TtyVm(pods, order, "vm-pod-" + x) == Err("Not found Pod vm-pod-" + x)
  {
    var s := "vm-pod-" + x;
    assert IsPrefix("vm-", s);
    PrefixIsContained("vm-", s);
    assert OccursAt(s, "pod-", 3);
  }

  /** The error for an unknown VM: the format has a verb and no argument, so Go prints %!s(MISSING). */
  const UnknownVmError := "vm %!s(MISSING) doesn't exist!"

  /** vm.Tty's outcome for a VM id, tag, rows and columns. */
  type TtyOracle = (string, string, int, int) -> Option<string>

  /**
   * CmdTty, with the corrected argument check: the target resolves to a
   * VM in VmList and the terminal is resized to the parsed height and
   * width, 0 for either that does not parse.
   */
  method CmdTty(d: Daemon, args: seq<string>, order: seq<string>, tty: TtyOracle) returns (err: Option<string>)
    requires d.Valid() && Enumerates(order, d.podList.Keys)
    ensures !TtyGuardPasses(args) ==> err.None?
    ensures TtyGuardPasses(args) ==>
              match TtyVm(d.podList, order, args[0])
              case Err(e) => err == Some(e)
              case Ok(vmId) =>
                if vmId !in d.vmList then err == Some(UnknownVmError)
                else err == tty(vmId, args[1], AtoiValue(args[2]), AtoiValue(args[3]))
  {
    if |args| < 4 {
      return None;
    }
    var target, tag, h, w := args[0], args[1], args[2], args[3];
    var vmId: string;
    if Contains(target, "pod-") {
      var v := d.GetVmByPodId(target);
      if v.Err? {
        return Some(v.msg);
      }
      vmId := v.value;
    } else if Contains(target, "vm-") {
      vmId := target;
    } else {
      var v := Exec.ResolveContainer(d, target, order);
      if v.Err? {
        return Some(v.msg);
      }
      vmId := v.value;
    }
    if vmId !in d.vmList {
      return Some(UnknownVmError);
    }
    var row := AtoiValue(h);
    var column := AtoiValue(w);
    err := tty(vmId, tag, row, column);
  }
}
