// `hyper list` in the daemon (hyper/daemon/list.go): the argument parsing,
// the pod and VM filters, and the "a:b:c" lines written for VMs, pods and
// containers.
//
// The name of a service-discovery pod's proxy container comes from
// ServiceDiscoveryContainerName, which is not part of this model; it is a
// parameter. Writing the answer to the job's output is not modelled.

module Listing {
  import opened Common
  import opened HyperDaemon

  // -----------------------------------------------------------------------
  // Arguments
  // -----------------------------------------------------------------------

  /** The item to list, the pod and VM to restrict to, and whether auxiliary containers are shown. */
  datatype ListQuery = ListQuery(item: string, pod: Option<string>, vm: Option<string>, aux: bool)

  /** An argument that only counts when it is present and non-empty. */
  function Filter(args: seq<string>, i: nat): (r: Option<string>)
    ensures r.Some? <==> i < |args| && args[i] != ""
    ensures r.Some? ==> r.value == args[i]
  {
    if i < |args| && args[i] != "" then Some(args[i]) else None
  }

  /** CmdList's arguments: item (default "pod"), pod, VM, auxiliary ("yes" or "true"). */
  function ParseListArgs(args: seq<string>): (r: Result<ListQuery>)
    ensures var item := if |args| == 0 then "pod" else args[0];
            && (r.Ok? <==> item in {"pod", "container", "vm"})
            && (r.Err? ==> r.msg == "Can not support " + item + " list!")
            && (r.Ok? ==> r.value.item == item)
    ensures r.Ok? ==> r.value.pod == Filter(args, 1) && r.value.vm == Filter(args, 2)
    ensures r.Ok? ==> (r.value.aux <==> |args| > 3 && (args[3] == "yes" || args[3] == "true"))
  {
    var item := if |args| == 0 then "pod" else args[0];
    if item != "pod" && item != "container" && item != "vm" then Err("Can not support " + item + " list!")
    else Ok(ListQuery(item, Filter(args, 1), Filter(args, 2), |args| > 3 && (args[3] == "yes" || args[3] == "true")))
  }

  /** With no arguments every pod is listed, unfiltered and without auxiliary containers. */
  lemma ListDefaults()
    ensures ParseListArgs([]) == Ok(ListQuery("pod", None, None, false))
    ensures ParseListArgs(["pod", "", "", "no"]) == Ok(ListQuery("pod", None, None, false))
    ensures ParseListArgs(["image"]).Err?
  {
  }

  // -----------------------------------------------------------------------
  // Lines
  // -----------------------------------------------------------------------

  /** showVM's state word: associated, idle, or empty. */
  function VmStateWord(s: VmStatus): string
  {
    match s
    case VmAssociated => "associated"
    case VmIdle => "idle"
    case VmOtherStatus => ""
  }

  /** showVM: "<pod>:<state>", the pod "" when no pod runs on the VM. */
  function ShowVM(v: Vm): string
  {
    (if v.pod.Some? then v.pod.value else "") + ":" + VmStateWord(v.status)
  }

  /** showContainer's state word. */
  function ContainerStateWord(s: PodState): string
  {
    match s
    case PodRunning => "running"
    case PodCreated => "pending"
    case PodFailed => "failed"
    case PodSucceeded => "succeeded"
    case PodOtherState => ""
  }

  /** showPod's state word: a kubernetes pod's final states are marked "(kubernetes)". */
  function PodStateWord(s: PodState, podType: string): string
  {
    match s
    case PodFailed => if podType == "kubernetes" then "failed(kubernetes)" else "failed"
    case PodSucceeded => if podType == "kubernetes" then "succeeded(kubernetes)" else "succeeded"
    case _ => ContainerStateWord(s)
  }

  /** showPod: "<name>:<vm>:<state>". */
  function ShowPod(p: PodStatus): string
  {
    p.name + ":" + p.vm + ":" + PodStateWord(p.status, p.podType)
  }

  /** showContainer: "<id>:<name>:<pod>:<state>". */
  function ShowContainer(c: Container): string
  {
    c.id + ":" + c.name + ":" + c.podId + ":" + ContainerStateWord(c.status)
  }

  /** The "(kubernetes)" mark goes only on failed and succeeded pods, and only for the kubernetes type. */
  lemma KubernetesMark(s: PodState, podType: string)
    ensures (s == PodFailed || s == PodSucceeded) && podType == "kubernetes" ==> PodStateWord(s, podType) == ContainerStateWord(s) + "(kubernetes)"
    ensures !((s == PodFailed || s == PodSucceeded) && podType == "kubernetes") ==> PodStateWord(s, podType) == ContainerStateWord(s)
  {
    if s == PodFailed && podType == "kubernetes" {
      assert "failed(kubernetes)" == "failed" + "(kubernetes)";
    } else if s == PodSucceeded && podType == "kubernetes" {
      assert "succeeded(kubernetes)" == "succeeded" + "(kubernetes)";
    }
  }

  /** No state word holds a ":". */
  lemma StateWordsPlain(s: PodState, podType: string, v: VmStatus)
    ensures ':' !in ContainerStateWord(s) && ':' !in PodStateWord(s, podType) && ':' !in VmStateWord(v)
  {
    var w := ContainerStateWord(s);
    assert forall i :: 0 <= i < |w| ==> w[i] != ':';
    var p := PodStateWord(s, podType);
    assert forall i :: 0 <= i < |p| ==> p[i] != ':';
  }

  /** Four pieces joined with ":" are the pieces with ":" between them. */
  lemma JoinFour(a: string, b: string, c: string, w: string)
    ensures Join([a, b, c, w], ':') == a + ":" + b + ":" + c + ":" + w
  {
    assert [a, b, c, w][1..] == [b, c, w];
    assert [b, c, w][1..] == [c, w];
    assert [c, w][1..] == [w];
    assert Join([c, w], ':') == c + ":" + w;
    assert Join([b, c, w], ':') == b + ":" + (c + ":" + w);
    assert Join([a, b, c, w], ':') == a + ":" + (b + ":" + (c + ":" + w));
  }

  /** A container line splits back into its id, name, pod and state when those hold no ":". */
  lemma ShowContainerFields(c: Container)
    requires ':' !in c.id && ':' !in c.name && ':' !in c.podId
    ensures Split(ShowContainer(c), ':') == [c.id, c.name, c.podId, ContainerStateWord(c.status)]
  {
    var parts := [c.id, c.name, c.podId, ContainerStateWord(c.status)];
    StateWordsPlain(c.status, "", VmIdle);
    JoinFour(c.id, c.name, c.podId, ContainerStateWord(c.status));
    SplitJoin(parts, ':');
  }

  /** A pod line splits back into its name, VM and state when those hold no ":". */
  lemma ShowPodFields(p: PodStatus)
    requires ':' !in p.name && ':' !in p.vm
    ensures Split(ShowPod(p), ':') == [p.name, p.vm, PodStateWord(p.status, p.podType)]
  {
    var w := PodStateWord(p.status, p.podType);
    StateWordsPlain(p.status, p.podType, VmIdle);
    assert [p.name, p.vm, w][1..] == [p.vm, w];
    assert [p.vm, w][1..] == [w];
    assert Join([p.vm, w], ':') == p.vm + ":" + w;
    assert Join([p.name, p.vm, w], ':') == p.name + ":" + (p.vm + ":" + w);
    assert Join([p.name, p.vm, w], ':') == ShowPod(p);
    SplitJoin([p.name, p.vm, w], ':');
  }

  // -----------------------------------------------------------------------
  // The containers of a pod
  // -----------------------------------------------------------------------

  /** Whether showPodContainers drops container `c`: only the proxy, only when filtering. */
  predicate Dropped(c: Container, filter: bool, proxy: string)
  {
    filter && c.name == proxy
  }

  /** The lines of the containers that are kept, in order. */
  function ContainerLines(cs: seq<Container>, filter: bool, proxy: string): seq<string>
  {
    if cs == [] then []
    else
      var last := cs[|cs| - 1];
      ContainerLines(cs[..|cs| - 1], filter, proxy) + (if Dropped(last, filter, proxy) then [] else [ShowContainer(last)])
  }

  /** Without filtering every container is shown, one line each, in order. */
  lemma {:induction false} ContainerLinesUnfiltered(cs: seq<Container>, proxy: string)
    ensures |ContainerLines(cs, false, proxy)| == |cs|
    ensures forall i :: 0 <= i < |cs| ==> ContainerLines(cs, false, proxy)[i] == ShowContainer(cs[i])
  {
    if cs != [] {
      ContainerLinesUnfiltered(cs[..|cs| - 1], proxy);
    }
  }

  /** Filtering drops exactly the containers named like the proxy. */
  lemma {:induction false} ContainerLinesCount(cs: seq<Container>, filter: bool, proxy: string)
    ensures |ContainerLines(cs, filter, proxy)| == |cs| - |Named(cs, filter, proxy)|
  {
    if cs != [] {
      ContainerLinesCount(cs[..|cs| - 1], filter, proxy);
    }
  }

  /** The containers a filter drops. */
  function Named(cs: seq<Container>, filter: bool, proxy: string): seq<Container>
  {
    if cs == [] then []
    else
      var last := cs[|cs| - 1];
      Named(cs[..|cs| - 1], filter, proxy) + (if Dropped(last, filter, proxy) then [last] else [])
  }

  /**
   * showPodContainers: every container's line in order, except the
   * service-discovery proxy when auxiliary containers are not wanted.
   */
  method ShowPodContainers(p: PodStatus, aux: bool, proxy: string) returns (rsp: seq<string>)
    ensures rsp == ContainerLines(p.containers, !aux && p.podType == "service-discovery", proxy)
  {
    var filter := !aux && p.podType == "service-discovery";
    var cs := p.containers;
    rsp := [];
    var i := 0;
    while i < |cs|
      invariant 0 <= i <= |cs|
      invariant rsp == ContainerLines(cs[..i], filter, proxy)
    {
      assert cs[..i + 1][..i] == cs[..i];
      if !(filter && cs[i].name == proxy) {
        rsp := rsp + [ShowContainer(cs[i])];
      }
      i := i + 1;
    }
    assert cs[..|cs|] == cs;
  }

  // -----------------------------------------------------------------------
  // Which pods and VMs are listed
  // -----------------------------------------------------------------------

  predicate OnVm(p: Pod, vm: Option<string>)
  {
    vm.None? || p.status.vm == vm.value
  }

  /** The pods of a PodList walk that pass the VM filter, in walk order. */
  function Selected(pods: map<string, Pod>, order: seq<string>, vm: Option<string>): (r: seq<string>)
    requires forall i :: 0 <= i < |order| ==> order[i] in pods
    ensures forall i :: 0 <= i < |r| ==> r[i] in pods
  {
    if order == [] then []
    else
      var last := order[|order| - 1];
      Selected(pods, order[..|order| - 1], vm) + (if OnVm(pods[last], vm) then [last] else [])
  }

  /** With a VM filter a pod is listed exactly when its status names that VM; without one every pod is. */
  lemma {:induction false} SelectedIff(pods: map<string, Pod>, order: seq<string>, vm: Option<string>)
    requires forall i :: 0 <= i < |order| ==> order[i] in pods
    ensures forall k :: k in Selected(pods, order, vm) <==> k in order && OnVm(pods[k], vm)
    ensures vm.None? ==> Selected(pods, order, vm) == order
  {
    if order != [] {
      var init := order[..|order| - 1];
      SelectedIff(pods, init, vm);
      assert order == init + [order[|order| - 1]];
    }
  }

  function PodLine(p: Pod): string
  {
    p.id + ":" + ShowPod(p.status)
  }

  function PodLines(pods: map<string, Pod>, ids: seq<string>): (r: seq<string>)
    requires forall i :: 0 <= i < |ids| ==> ids[i] in pods
    ensures |r| == |ids| && forall i :: 0 <= i < |ids| ==> r[i] == PodLine(pods[ids[i]])
  {
    seq(|ids|, i requires 0 <= i < |ids| => PodLine(pods[ids[i]]))
  }

  function PodContainerLines(pods: map<string, Pod>, ids: seq<string>, aux: bool, proxyOf: string -> string): seq<string>
    requires forall i :: 0 <= i < |ids| ==> ids[i] in pods
  {
    if ids == [] then []
    else
      var p := pods[ids[|ids| - 1]].status;
      PodContainerLines(pods, ids[..|ids| - 1], aux, proxyOf)
        + ContainerLines(p.containers, !aux && p.podType == "service-discovery", proxyOf(p.name))
  }

  function VmLine(id: string, v: Vm): string
  {
    id + ":" + ShowVM(v)
  }

  function VmLines(vms: map<string, Vm>, ids: seq<string>): (r: seq<string>)
    requires forall i :: 0 <= i < |ids| ==> ids[i] in vms
    ensures |r| == |ids| && forall i :: 0 <= i < |ids| ==> r[i] == VmLine(ids[i], vms[ids[i]])
  {
    seq(|ids|, i requires 0 <= i < |ids| => VmLine(ids[i], vms[ids[i]]))
  }

  /** The pods a query lists: the named pod if it passes the VM filter, else every pod on the walk that does. */
  function ListedPods(pods: map<string, Pod>, order: seq<string>, q: ListQuery): (r: seq<string>)
    requires forall i :: 0 <= i < |order| ==> order[i] in pods
    requires q.pod.Some? ==> q.pod.value in pods
    ensures forall i :: 0 <= i < |r| ==> r[i] in pods
  {
    if q.pod.Some? then (if OnVm(pods[q.pod.value], q.vm) then [q.pod.value] else [])
    else Selected(pods, order, q.vm)
  }

  /**
   * The VMs a query lists: every VM; the named pod's VM if registered; the
   * named VM; or the named VM if the named pod runs on it.
   */
  function ListedVms(pods: map<string, Pod>, vms: map<string, Vm>, vmOrder: seq<string>, q: ListQuery): (r: seq<string>)
    requires forall i :: 0 <= i < |vmOrder| ==> vmOrder[i] in vms
    requires q.pod.Some? ==> q.pod.value in pods
    requires q.vm.Some? ==> q.vm.value in vms
    ensures forall i :: 0 <= i < |r| ==> r[i] in vms
  {
    if q.pod.None? && q.vm.None? then vmOrder
    else if q.vm.None? then
      var v := pods[q.pod.value].status.vm;
      if v in vms then [v] else []
    else if q.pod.None? then [q.vm.value]
    else if pods[q.pod.value].status.vm == q.vm.value then [q.vm.value] else []
  }

  /** The lists CmdList answers with; only the one for the item is filled. */
  datatype Listing = Listing(vmData: seq<string>, podData: seq<string>, cData: seq<string>)

  /** One more pod on the walk adds its line and its containers' lines when it passes the filter. */
  lemma SelectedStep(pods: map<string, Pod>, order: seq<string>, i: nat, vm: Option<string>, aux: bool, proxyOf: string -> string)
    requires i < |order| && forall j :: 0 <= j < |order| ==> order[j] in pods
    ensures var sel := Selected(pods, order[..i], vm);
            var sel' := Selected(pods, order[..i + 1], vm);
            var p := pods[order[i]].status;
            if OnVm(pods[order[i]], vm) then
              && PodLines(pods, sel') == PodLines(pods, sel) + [PodLine(pods[order[i]])]
              && PodContainerLines(pods, sel', aux, proxyOf)
                 == PodContainerLines(pods, sel, aux, proxyOf) + ContainerLines(p.containers, !aux && p.podType == "service-discovery", proxyOf(p.name))
            else sel' == sel
  {
    assert order[..i + 1][..i] == order[..i];
    var sel := Selected(pods, order[..i], vm);
    if OnVm(pods[order[i]], vm) {
      assert Selected(pods, order[..i + 1], vm) == sel + [order[i]];
      assert (sel + [order[i]])[..|sel|] == sel;
    }
  }

  /** The walk over PodList for the pod and container items. */
  method WalkPods(d: Daemon, order: seq<string>, vm: Option<string>, aux: bool, proxyOf: string -> string)
    returns (podData: seq<string>, cData: seq<string>)
    requires Enumerates(order, d.podList.Keys)
    ensures podData == PodLines(d.podList, Selected(d.podList, order, vm))
    ensures cData == PodContainerLines(d.podList, Selected(d.podList, order, vm), aux, proxyOf)
  {
    podData, cData := [], [];
    var i := 0;
    while i < |order|
      invariant 0 <= i <= |order|
      invariant podData == PodLines(d.podList, Selected(d.podList, order[..i], vm))
      invariant cData == PodContainerLines(d.podList, Selected(d.podList, order[..i], vm), aux, proxyOf)
    {
      SelectedStep(d.podList, order, i, vm, aux, proxyOf);
      var p := d.podList[order[i]];
      if vm.None? || p.status.vm == vm.value {
        podData := podData + [PodLine(p)];
        var cs := ShowPodContainers(p.status, aux, proxyOf(p.status.name));
        cData := cData + cs;
      }
      i := i + 1;
    }
    assert order[..|order|] == order;
  }

  /** The walk over VmList when neither a pod nor a VM is named. */
  method WalkVms(d: Daemon, order: seq<string>) returns (vmData: seq<string>)
    requires Enumerates(order, d.vmList.Keys)
    ensures vmData == VmLines(d.vmList, order)
  {
    vmData := [];
    var i := 0;
    while i < |order|
      invariant 0 <= i <= |order|
      invariant vmData == VmLines(d.vmList, order[..i])
    {
      vmData := vmData + [VmLine(order[i], d.vmList[order[i]])];
      i := i + 1;
    }
    assert order[..|order|] == order;
  }

  /** A named pod that passes the VM filter contributes its own line and its containers' lines. */
  lemma NamedPodLines(pods: map<string, Pod>, id: string, aux: bool, proxyOf: string -> string)
    requires id in pods
    ensures PodLines(pods, [id]) == [PodLine(pods[id])]
    ensures var p := pods[id].status;
            PodContainerLines(pods, [id], aux, proxyOf)
            == ContainerLines(p.containers, !aux && p.podType == "service-discovery", proxyOf(p.name))
  {
    assert [id][..0] == [];
  }

  /**
   * CmdList: the item must be pod, container or vm; a named pod and a named
   * VM must exist (the pod is checked first). Then the item's list holds the
   * listed pods', VMs' or containers' lines.
   */
  method CmdList(d: Daemon, args: seq<string>, podOrder: seq<string>, vmOrder: seq<string>, proxyOf: string -> string)
    returns (r: Result<Listing>)
    requires Enumerates(podOrder, d.podList.Keys) && Enumerates(vmOrder, d.vmList.Keys)
    ensures ParseListArgs(args).Err? ==> r == Err(ParseListArgs(args).msg)
    ensures ParseListArgs(args).Ok? ==>
              var q := ParseListArgs(args).value;
              if q.pod.Some? && q.pod.value !in d.podList then r == Err("Cannot find specified pod " + q.pod.value)
              else if q.vm.Some? && q.vm.value !in d.vmList then r == Err("Cannot find specified vm " + q.vm.value)
              else
                var pods := ListedPods(d.podList, podOrder, q);
                r == Ok(Listing(
                  if q.item == "vm" then VmLines(d.vmList, ListedVms(d.podList, d.vmList, vmOrder, q)) else [],
                  if q.item == "pod" then PodLines(d.podList, pods) else [],
                  if q.item == "container" then PodContainerLines(d.podList, pods, q.aux, proxyOf) else []))
  {
    var parsed := ParseListArgs(args);
    if parsed.Err? {
      return Err(parsed.msg);
    }
    var q := parsed.value;
    if q.pod.Some? && q.pod.value !in d.podList {
      return Err("Cannot find specified pod " + q.pod.value);
    }
    if q.vm.Some? && q.vm.value !in d.vmList {
      return Err("Cannot find specified vm " + q.vm.value);
    }
    var vmData, podData, cData := [], [], [];
    if q.item == "vm" {
      if q.pod.None? && q.vm.None? {
        vmData := WalkVms(d, vmOrder);
      } else {
        vmData := VmLines(d.vmList, ListedVms(d.podList, d.vmList, vmOrder, q));
      }
    } else if q.pod.Some? {
      var p := d.podList[q.pod.value];
      if q.vm.None? || p.status.vm == q.vm.value {
        NamedPodLines(d.podList, q.pod.value, q.aux, proxyOf);
        if q.item == "pod" {
          podData := [PodLine(p)];
        } else {
          cData := ShowPodContainers(p.status, q.aux, proxyOf(p.status.name));
        }
      }
    } else {
      var pd, cd := WalkPods(d, podOrder, q.vm, q.aux, proxyOf);
      if q.item == "pod" {
        podData := pd;
      } else {
        cData := cd;
      }
    }
    return Ok(Listing(vmData, podData, cData));
  }
}
