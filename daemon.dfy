// The hyper daemon's registries and its LevelDB key scheme
// (hyper/daemon/daemon.go): pods, their container lists, volume ids, the
// VM bound to each pod and each VM's saved data live under the prefixes
// "pod-", "pod-container-", "vol-", "vm-" and "vmdata-"; the in-memory
// PodList and VmList hold the live pods and VMs.
//
// LevelDB is an ordered map from key to value. A prefix scan is given the
// keys it visits as a parameter, listing every key under the prefix once.
// A write or delete either succeeds or fails with the store's own error;
// which keys fail, and how, is fixed when the store is built.

module HyperDaemon {
  import opened Common

  // -----------------------------------------------------------------------
  // Values the daemon keeps
  // -----------------------------------------------------------------------

  /** The result codes of runv's types package; their numbers are not part of this model. */
  datatype Code = EOk | EBusy | EVmShutdown | EVmRunning | OtherCode(n: int)

  /** types.S_POD_RUNNING, S_POD_CREATED, S_POD_FAILED, S_POD_SUCCEEDED, or any other state. */
  datatype PodState = PodRunning | PodCreated | PodFailed | PodSucceeded | PodOtherState

  /** hypervisor.Container: the fields the daemon reads. */
  datatype Container = Container(id: string, name: string, podId: string, status: PodState)

  /** hypervisor.PodStatus: the pod's name, the VM it runs on ("" for none), its state and type. */
  datatype PodStatus = PodStatus(name: string, vm: string, status: PodState, podType: string, containers: seq<Container>)

  /** pod.UserResource */
  datatype Resource = Resource(vcpu: int, memory: int)

  /** A live pod: its id, its status, the id of the VM object attached to it (`p.vm`), its resources. */
  datatype Pod = Pod(id: string, status: PodStatus, vm: Option<string>, resource: Resource)

  /** types.S_VM_ASSOCIATED, S_VM_IDLE, or any other VM state. */
  datatype VmStatus = VmAssociated | VmIdle | VmOtherStatus

  /** hypervisor.Vm: the fields the daemon reads. */
  datatype Vm = Vm(id: string, cpu: int, mem: int, lazy: bool, status: VmStatus, pod: Option<string>, exitCodes: map<string, int>)

  /** The error LevelDB's Get reports for a missing key. */
  const NotFound: string := "leveldb: not found"

  // -----------------------------------------------------------------------
  // The key scheme
  // -----------------------------------------------------------------------

  function PodKey(name: string): string { "pod-" + name }
  function PodContainersKey(podId: string): string { "pod-container-" + podId }
  function VolPrefix(podId: string): string { "vol-" + podId }
  function VolKey(podId: string, devId: string): string { "vol-" + podId + "-" + devId }
  function VolRecord(volName: string, devId: string): string { volName + ":" + devId }
  function VmKey(podId: string): string { "vm-" + podId }
  function VmDataKey(vmId: string): string { "vmdata-" + vmId }

  /** A key that the pod scans of Restore and GetPodNum count: under "pod-" but not a container list. */
  predicate IsPodEntry(k: string)
  {
    IsPrefix("pod-", k) && !Contains(k, "pod-container-")
  }

  ghost function PodEntries(d: map<string, string>): set<string>
  {
    set k | k in d && IsPodEntry(k)
  }

  ghost function PrefixKeys(d: map<string, string>, prefix: string): set<string>
  {
    set k | k in d && IsPrefix(prefix, k)
  }

  /**
   * The key spaces do not meet: the VM, VM-data and volume keys are never
   * under "pod-", a container list is never counted as a pod, and a VM key
   * is never a VM-data key.
   */
  lemma KeySpacesDisjoint(a: string, b: string, c: string)
    ensures !IsPrefix("pod-", VmKey(a)) && !IsPrefix("pod-", VmDataKey(a)) && !IsPrefix("pod-", VolKey(a, b))
    ensures !IsPodEntry(PodContainersKey(a))
    ensures VmKey(a) != VmDataKey(b)
    ensures VmKey(a) != VolKey(b, c) && VmDataKey(a) != VolKey(b, c)
    ensures PodKey(a) != PodContainersKey(a)
  {
    assert VmKey(a)[0] == 'v' && VmDataKey(a)[0] == 'v' && VolKey(a, b)[0] == 'v';
    assert VmKey(a)[2] == '-' && VmDataKey(b)[2] == 'd';
    assert VmKey(a)[1] == 'm' && VmDataKey(a)[1] == 'm' && VolKey(b, c)[1] == 'o';
    PrefixIsContained("pod-container-", PodContainersKey(a));
  }

  /**
   * The scheme is ambiguous: a pod named "container-x" is stored under the
   * key of x's container list, which the pod scans skip.
   */
  lemma PodKeyCollision(x: string)
    ensures PodKey("container-" + x) == PodContainersKey(x)
    ensures !IsPodEntry(PodKey("container-" + x))
  {
    assert PodKey("container-" + x) == PodContainersKey(x);
    PrefixIsContained("pod-container-", PodContainersKey(x));
  }

  /** The pod entries a scan has visited. */
  ghost function PodsIn(keys: seq<string>): set<string>
  {
    set k | k in keys && IsPodEntry(k)
  }

  /** The position in a scan of the first pod entry whose delete fails, or the scan's length when none does. */
  function FirstFaultyPod(order: seq<string>, faults: map<string, string>): (j: nat)
    ensures j <= |order|
    ensures forall i :: 0 <= i < j ==> !(IsPodEntry(order[i]) && order[i] in faults)
    ensures j < |order| ==> IsPodEntry(order[j]) && order[j] in faults
  {
    if order == [] then 0
    else if IsPodEntry(order[0]) && order[0] in faults then 0
    else
      var j := FirstFaultyPod(order[1..], faults);
      assert forall i :: 1 <= i < 1 + j ==> order[i] == order[1..][i - 1];
      1 + j
  }

  /** A scan of "pod-" visits exactly the pod entries. */
  lemma PodScanCoversEntries(order: seq<string>, d: map<string, string>)
    requires Enumerates(order, PrefixKeys(d, "pod-"))
    ensures PodsIn(order) == PodEntries(d)
  {
    forall k | k in PodEntries(d) ensures k in PodsIn(order) {
      assert k in PrefixKeys(d, "pod-");
    }
    forall k | k in PodsIn(order) ensures k in PodEntries(d) {
      var j :| 0 <= j < |order| && order[j] == k;
    }
  }

  /**
   * One more step of a scan of "pod-" adds the visited key to the visited
   * pod entries exactly when it is one, and then it is a stored key not
   * visited before.
   */
  lemma PodScanStep(order: seq<string>, d: map<string, string>, i: nat)
    requires Enumerates(order, PrefixKeys(d, "pod-"))
    requires i < |order|
    ensures PodsIn(order[..i + 1]) == if IsPodEntry(order[i]) then PodsIn(order[..i]) + {order[i]} else PodsIn(order[..i])
    ensures IsPodEntry(order[i]) ==> order[i] in d && order[i] !in PodsIn(order[..i])
  {
    assert order[..i + 1] == order[..i] + [order[i]];
    assert order[i] in PrefixKeys(d, "pod-");
    assert order[i] !in order[..i];
  }

  // -----------------------------------------------------------------------
  // The store
  // -----------------------------------------------------------------------

  /** The daemon's LevelDB database. */
  class Db {
    var data: map<string, string>
    /** Keys whose writes and deletes fail, with the error the store reports. */
    const faults: map<string, string>

    constructor (data0: map<string, string>, faults0: map<string, string>)
      ensures data == data0 && faults == faults0
    {
      data := data0;
      faults := faults0;
    }

    /** db.Get */
    function Get(key: string): Result<string>
      reads this
    {
      if key in data then Ok(data[key]) else Err(NotFound)
    }

    /** db.Put */
    method Put(key: string, value: string) returns (err: Option<string>)
      modifies this
      ensures err == (if key in faults then Some(faults[key]) else None)
      ensures data == if key in faults then old(data) else old(data)[key := value]
    {
      if key in faults {
        return Some(faults[key]);
      }
      data := data[key := value];
      return None;
    }

    /** db.Delete: deleting a missing key is not an error. */
    method Delete(key: string) returns (err: Option<string>)
      modifies this
      ensures err == (if key in faults then Some(faults[key]) else None)
      ensures data == if key in faults then old(data) else old(data) - {key}
    {
      if key in faults {
        return Some(faults[key]);
      }
      data := data - {key};
      return None;
    }
  }

  /** The store after db.Put of `v` under `k`: unchanged when the write fails. */
  function PutData(data: map<string, string>, faults: map<string, string>, k: string, v: string): (r: map<string, string>)
    ensures k !in faults ==> k in r && r[k] == v
    ensures forall x :: x in data && x != k ==> x in r && r[x] == data[x]
  {
    if k in faults then data else data[k := v]
  }

  /** DeleteVmByPod's store: the by-pod record and then the VM's data go, each unless its delete fails. */
  function DeleteVmByPodData(data: map<string, string>, faults: map<string, string>, podId: string): (r: map<string, string>)
    ensures r.Keys <= data.Keys && forall x :: x in r ==> r[x] == data[x]
    ensures VmKey(podId) in data && VmKey(podId) !in faults ==> VmKey(podId) !in r
  {
    var k := VmKey(podId);
    if k !in data || k in faults then data
    else
      var dk := VmDataKey(data[k]);
      if dk in faults then data - {k} else data - {k, dk}
  }

  /** AddPod's error: the pod record's write fails first, then the container list's. */
  function AddPodError(faults: map<string, string>, id: string): (r: Option<string>)
    ensures r.None? <==> PodKey(id) !in faults && PodContainersKey(id) !in faults
  {
    if PodKey(id) in faults then Some(faults[PodKey(id)])
    else if PodContainersKey(id) in faults then Some(faults[PodContainersKey(id)])
    else None
  }

  /** AddPod's store: both records on success, the pod record rolled back when the container list fails. */
  function AddPodData(data: map<string, string>, faults: map<string, string>, pod: Pod, podArgs: string): map<string, string>
  {
    var pk, ck := PodKey(pod.id), PodContainersKey(pod.id);
    if pk in faults then data
    else if ck in faults then data - {pk}
    else data[pk := podArgs][ck := ContainerValue(Ids(pod.status.containers))]
  }

  /** AddPod's PodList: the pod is registered on success and removed again when the container list fails. */
  function AddPodPods(pods: map<string, Pod>, faults: map<string, string>, pod: Pod): (r: map<string, Pod>)
    ensures AddPodError(faults, pod.id).None? ==> r == pods[pod.id := pod]
    ensures AddPodError(faults, pod.id).Some? ==> pod.id !in r || r == pods
  {
    if PodKey(pod.id) in faults then pods
    else if PodContainersKey(pod.id) in faults then pods - {pod.id}
    else pods[pod.id := pod]
  }

  // -----------------------------------------------------------------------
  // Container lists
  // -----------------------------------------------------------------------

  /**
   * The value WritePodAndContainers builds: each id is appended after a
   * ":", except while the value is still empty.
   */
  function ContainerValue(ids: seq<string>): string
  {
    if ids == [] then ""
    else
      var v := ContainerValue(ids[..|ids| - 1]);
      if v == "" then ids[|ids| - 1] else v + ":" + ids[|ids| - 1]
  }

  function Ids(cs: seq<Container>): (r: seq<string>)
    ensures |r| == |cs| && forall i :: 0 <= i < |cs| ==> r[i] == cs[i].id
  {
    seq(|cs|, i requires 0 <= i < |cs| => cs[i].id)
  }

  /** With no empty id, the value is the ids joined by ":". */
  lemma {:induction false} ContainerValueIsJoin(ids: seq<string>)
    requires forall i :: 0 <= i < |ids| ==> ids[i] != ""
    ensures ContainerValue(ids) == Join(ids, ':')
    ensures ids != [] ==> ContainerValue(ids) != ""
  {
    if |ids| > 1 {
      var init := ids[..|ids| - 1];
      ContainerValueIsJoin(init);
      JoinSnoc(init, ids[|ids| - 1], ':');
      assert init + [ids[|ids| - 1]] == ids;
    }
  }

  /**
   * GetPodContainersByName splits the stored value back into the list
   * WritePodAndContainers stored, provided the pod has a container and no
   * id is empty or holds a ":".
   */
  lemma ContainerListRoundTrip(ids: seq<string>)
    requires |ids| >= 1
    requires forall i :: 0 <= i < |ids| ==> ids[i] != "" && ':' !in ids[i]
    ensures Split(ContainerValue(ids), ':') == ids
  {
    ContainerValueIsJoin(ids);
    SplitJoin(ids, ':');
  }

  /** An empty first id is dropped: the round trip fails for ["", "b"]. */
  lemma ContainerListLosesEmptyId()
    ensures ContainerValue(["", "b"]) == "b"
    ensures Split(ContainerValue(["", "b"]), ':') == ["b"]
  {
    assert ["", "b"][..1] == [""];
    assert [""][..0] == [];
    SplitNoSep("b", ':');
  }

  // -----------------------------------------------------------------------
  // Volume records
  // -----------------------------------------------------------------------

  /** A record GetVolumeId can read: if it names `volName` it has a second field. */
  predicate RecordReadable(value: string, volName: string)
  {
    var f := Split(value, ':');
    f[0] == volName ==> |f| >= 2
  }

  predicate RecordsReadable(d: map<string, string>, keys: seq<string>, volName: string)
  {
    forall i :: 0 <= i < |keys| ==> keys[i] in d && RecordReadable(d[keys[i]], volName)
  }

  /** The device id of the last record naming `volName`, or 0 if none does. */
  function VolumeDev(d: map<string, string>, keys: seq<string>, volName: string): int
    requires RecordsReadable(d, keys, volName)
  {
    if keys == [] then 0
    else
      var f := Split(d[keys[|keys| - 1]], ':');
      if f[0] == volName then AtoiValue(f[1]) else VolumeDev(d, keys[..|keys| - 1], volName)
  }

  /** No record names the volume: the id is 0. */
  lemma {:induction false} VolumeDevNone(d: map<string, string>, keys: seq<string>, volName: string)
    requires RecordsReadable(d, keys, volName)
    requires forall i :: 0 <= i < |keys| ==> Split(d[keys[i]], ':')[0] != volName
    ensures VolumeDev(d, keys, volName) == 0
  {
    if keys != [] {
      VolumeDevNone(d, keys[..|keys| - 1], volName);
    }
  }

  /** A record written by SetVolumeId reads back its device id. */
  lemma RecordReadsBack(volName: string, n: nat)
    requires ':' !in volName && n <= MaxInt64
    ensures Split(VolRecord(volName, NatToDec(n)), ':') == [volName, NatToDec(n)]
    ensures AtoiValue(NatToDec(n)) == n
  {
    assert ':' !in NatToDec(n) by {
      forall i | 0 <= i < |NatToDec(n)| ensures NatToDec(n)[i] != ':' {
        assert IsDigit(NatToDec(n)[i]);
      }
    }
    SplitNoSep(NatToDec(n), ':');
    SplitAfterPiece(volName, NatToDec(n), ':');
    assert VolRecord(volName, NatToDec(n)) == volName + [':'] + NatToDec(n);
    AtoiIntToDec(n);
  }

  /**
   * SetVolumeId then GetVolumeId: when the record SetVolumeId wrote is the
   * only one naming the volume, GetVolumeId returns its device id.
   */
  lemma {:induction false} VolumeIdRoundTrip(d: map<string, string>, keys: seq<string>, volName: string, n: nat, j: nat)
    requires ':' !in volName && n <= MaxInt64
    requires j < |keys| && forall i :: 0 <= i < |keys| ==> keys[i] in d
    requires d[keys[j]] == VolRecord(volName, NatToDec(n))
    requires forall i :: 0 <= i < |keys| && i != j ==> Split(d[keys[i]], ':')[0] != volName
    ensures RecordsReadable(d, keys, volName)
    ensures VolumeDev(d, keys, volName) == n
  {
    RecordReadsBack(volName, n);
    var last := |keys| - 1;
    if j == last {
      VolumeDevNone(d, keys[..last], volName);
    } else {
      VolumeIdRoundTrip(d, keys[..last], volName, n, j);
    }
  }

  // -----------------------------------------------------------------------
  // Registry lookups
  // -----------------------------------------------------------------------

  predicate HasContainer(p: Pod, containerId: string)
  {
    exists j :: 0 <= j < |p.status.containers| && p.status.containers[j].id == containerId
  }

  /** GetPodByContainer's match: the first pod, in PodList order, running that container. */
  function ContainerPod(pods: map<string, Pod>, order: seq<string>, containerId: string): (r: Option<string>)
    requires forall i :: 0 <= i < |order| ==> order[i] in pods
    ensures r.Some? ==> r.value in order && HasContainer(pods[r.value], containerId)
    ensures r.None? <==> forall i :: 0 <= i < |order| ==> !HasContainer(pods[order[i]], containerId)
  {
    if order == [] then None
    else if HasContainer(pods[order[0]], containerId) then Some(order[0])
    else
      var r := ContainerPod(pods, order[1..], containerId);
      assert forall i :: 1 <= i < |order| ==> order[i] == order[1..][i - 1];
      r
  }

  /** GetPodByContainerIdOrName's match: the name with a leading slash, or the id. */
  predicate NameMatches(c: Container, name: string, wslash: string)
  {
    c.name == wslash || c.id == name
  }

  /** The name as Docker stores it: with a leading "/". */
  function Slashed(name: string): string
    requires name != ""
  {
    if name[0] != '/' then "/" + name else name
  }

  /** The first container of `cs` that the name matches. */
  function FirstMatch(cs: seq<Container>, name: string, wslash: string): (r: Option<nat>)
    ensures r.Some? ==> r.value < |cs| && NameMatches(cs[r.value], name, wslash)
    ensures r.Some? ==> forall j :: 0 <= j < r.value ==> !NameMatches(cs[j], name, wslash)
    ensures r.None? ==> forall j :: 0 <= j < |cs| ==> !NameMatches(cs[j], name, wslash)
  {
    if cs == [] then None
    else if NameMatches(cs[0], name, wslash) then Some(0)
    else
      match FirstMatch(cs[1..], name, wslash)
      case None => None
      case Some(j) => Some(j + 1)
  }

  /** The first pod, in PodList order, with a matching container, and that container's index. */
  function NamedContainer(pods: map<string, Pod>, order: seq<string>, name: string, wslash: string): (r: Option<(string, nat)>)
    requires forall i :: 0 <= i < |order| ==> order[i] in pods
    ensures r.Some? ==> r.value.0 in order && FirstMatch(pods[r.value.0].status.containers, name, wslash) == Some(r.value.1)
    ensures r.None? <==> forall i :: 0 <= i < |order| ==> FirstMatch(pods[order[i]].status.containers, name, wslash).None?
  {
    if order == [] then None
    else
      match FirstMatch(pods[order[0]].status.containers, name, wslash)
      case Some(j) => Some((order[0], j))
      case None =>
        var r := NamedContainer(pods, order[1..], name, wslash);
        assert forall i :: 1 <= i < |order| ==> order[i] == order[1..][i - 1];
        r
  }

  predicate PodsKeyed(pods: map<string, Pod>)
  {
    forall k :: k in pods ==> pods[k].id == k
  }

  predicate VmsKeyed(vms: map<string, Vm>)
  {
    forall k :: k in vms ==> vms[k].id == k
  }

  // -----------------------------------------------------------------------
  // The daemon
  // -----------------------------------------------------------------------

  class Daemon {
    const db: Db
    /** PodList: the live pods by id. */
    var podList: map<string, Pod>
    /** VmList: the live VMs by id. */
    var vmList: map<string, Vm>
    const kernel: string
    const initrd: string
    const bios: string
    const cbfs: string

    /** Every pod and every VM sits under its own id. */
    predicate Valid()
      reads this
    {
      PodsKeyed(podList) && VmsKeyed(vmList)
    }

    constructor (db: Db, kernel: string, initrd: string, bios: string, cbfs: string)
      ensures Valid() && this.db == db && podList == map[] && vmList == map[]
      ensures this.kernel == kernel && this.initrd == initrd && this.bios == bios
      ensures this.cbfs == cbfs
    {
      this.db := db;
      podList := map[];
      vmList := map[];
      this.kernel := kernel;
      this.initrd := initrd;
      this.bios := bios;
      this.cbfs := cbfs;
    }

    // --- pods in the store ------------------------------------------------

    /** GetPodNum: the number of pod entries (LevelDB iterator errors are not modelled). */
    method GetPodNum(order: seq<string>) returns (n: nat)
      requires Enumerates(order, PrefixKeys(db.data, "pod-"))
      ensures n == |PodEntries(db.data)|
    {
      n := 0;
      var i := 0;
      while i < |order|
        invariant 0 <= i <= |order|
        invariant n == |PodsIn(order[..i])|
      {
        var k := order[i];
        PodScanStep(order, db.data, i);
        if IsPodEntry(k) {
          n := n + 1;
        }
        i := i + 1;
      }
      assert order[..|order|] == order;
      PodScanCoversEntries(order, db.data);
    }

    /**
     * Restore's first half: every pod entry is deleted from the store and
     * its data recorded under the pod's name (the key without "pod-");
     * container lists stay. It stops at the first delete that fails.
     */
    method Restore(order: seq<string>) returns (err: Option<string>, recovered: map<string, string>)
      requires Enumerates(order, PrefixKeys(db.data, "pod-"))
      modifies db
      ensures err.None? <==> forall k :: k in PodEntries(old(db.data)) ==> k !in db.faults
      ensures err.Some? ==> exists k :: k in PodEntries(old(db.data)) && k in db.faults && err == Some(db.faults[k])
      ensures err.None? ==> db.data == old(db.data) - PodEntries(old(db.data))
      ensures err.None? ==> forall name :: name in recovered <==> PodKey(name) in PodEntries(old(db.data))
      ensures err.None? ==> forall name :: name in recovered ==> recovered[name] == old(db.data)[PodKey(name)]
      // A failing delete stops the scan: the pod entries visited before it are gone, the rest stay.
      ensures err.Some? ==>
                var j := FirstFaultyPod(order, db.faults);
                j < |order| && err == Some(db.faults[order[j]]) && db.data == old(db.data) - PodsIn(order[..j])
    {
      recovered := map[];
      var count := GetPodNum(order);
      if count == 0 {
        return None, recovered;
      }
      ghost var d0 := db.data;
      ghost var stop := FirstFaultyPod(order, db.faults);
      var i := 0;
      while i < |order|
        invariant 0 <= i <= |order|
        invariant db.data == d0 - PodsIn(order[..i])
        invariant forall k :: k in PodsIn(order[..i]) ==> k !in db.faults
        invariant forall name :: name in recovered <==> PodKey(name) in PodsIn(order[..i])
        invariant forall name :: name in recovered ==> recovered[name] == d0[PodKey(name)]
        invariant i <= stop
      {
        var k := order[i];
        PodScanStep(order, d0, i);
        if IsPodEntry(k) {
          var value := db.data[k];
          err := db.Delete(k);
          if err.Some? {
            assert i == stop;
            PodScanCoversEntries(order, d0);
            return err, recovered;
          }
          assert PodKey(k[4..]) == k;
          recovered := recovered[k[4..] := value];
        }
        i := i + 1;
      }
      assert order[..|order|] == order;
      PodScanCoversEntries(order, d0);
      return None, recovered;
    }

    /** WritePodToDB: "pod-<name>" holds the data afterwards, whether or not it existed. */
    method WritePodToDB(name: string, data: string) returns (err: Option<string>)
      modifies db
      ensures var k := PodKey(name);
              if k in db.faults then err == Some(db.faults[k]) && db.data == old(db.data)
              else err.None? && db.data == old(db.data)[k := data]
    {
      var key := PodKey(name);
      var r := db.Get(key);
      if r.Err? {
        err := db.Put(key, data);
      } else {
        err := db.Delete(key);
        if err.Some? {
          return;
        }
        err := db.Put(key, data);
      }
    }

    /** GetPodByName */
    function GetPodByName(name: string): Result<string>
      reads db
    {
      db.Get(PodKey(name))
    }

    /** DeletePodFromDB */
    method DeletePodFromDB(name: string) returns (err: Option<string>)
      modifies db
      ensures var k := PodKey(name);
              err == (if k in db.faults then Some(db.faults[k]) else None)
              && db.data == if k in db.faults then old(db.data) else old(db.data) - {k}
    {
      err := db.Delete(PodKey(name));
    }

    // --- container lists --------------------------------------------------

    /** WritePodAndContainers: the pod's container ids, ":"-joined, under "pod-container-<id>". */
    method WritePodAndContainers(podId: string) returns (err: Option<string>)
      modifies db
      ensures podId !in podList ==> err == Some("Cannot find Pod " + podId + " to write") && db.data == old(db.data)
      ensures podId in podList ==>
                var k := PodContainersKey(podId);
                if k in db.faults then err == Some(db.faults[k]) && db.data == old(db.data)
                else err.None? && db.data == old(db.data)[k := ContainerValue(Ids(podList[podId].status.containers))]
    {
      var key := PodContainersKey(podId);
      if podId !in podList {
        return Some("Cannot find Pod " + podId + " to write");
      }
      var cs := podList[podId].status.containers;
      var value := "";
      var i := 0;
      while i < |cs|
        invariant 0 <= i <= |cs|
        invariant value == ContainerValue(Ids(cs)[..i])
      {
        assert Ids(cs)[..i + 1][..i] == Ids(cs)[..i];
        if value == "" {
          value := cs[i].id;
        } else {
          value := value + ":" + cs[i].id;
        }
        i := i + 1;
      }
      assert Ids(cs)[..|cs|] == Ids(cs);
      err := db.Put(key, value);
    }

    /** GetPodContainersByName */
    function GetPodContainersByName(name: string): (r: Result<seq<string>>)
      reads db
      ensures r.Ok? <==> PodContainersKey(name) in db.data
      ensures r.Ok? ==> Join(r.value, ':') == db.data[PodContainersKey(name)]
    {
      match db.Get(PodContainersKey(name))
      case Err(e) => Err(e)
      case Ok(v) => JoinSplit(v, ':'); Ok(Split(v, ':'))
    }

    // --- volume ids -------------------------------------------------------

    /** SetVolumeId */
    method SetVolumeId(podId: string, volName: string, devId: string) returns (err: Option<string>)
      modifies db
      ensures var k := VolKey(podId, devId);
              err == (if k in db.faults then Some(db.faults[k]) else None)
              && db.data == if k in db.faults then old(db.data) else old(db.data)[k := VolRecord(volName, devId)]
    {
      err := db.Put(VolKey(podId, devId), VolRecord(volName, devId));
    }

    /**
     * GetVolumeId: the device id of the last record under "vol-<pod>" that
     * names the volume, 0 if none does (iterator errors are not modelled).
     */
    method GetVolumeId(podId: string, volName: string, order: seq<string>) returns (devId: int)
      requires Enumerates(order, PrefixKeys(db.data, VolPrefix(podId)))
      requires forall k :: k in PrefixKeys(db.data, VolPrefix(podId)) ==> RecordReadable(db.data[k], volName)
      ensures RecordsReadable(db.data, order, volName)
      ensures devId == VolumeDev(db.data, order, volName)
    {
      devId := 0;
      var i := 0;
      while i < |order|
        invariant 0 <= i <= |order|
        invariant RecordsReadable(db.data, order[..i], volName)
        invariant devId == VolumeDev(db.data, order[..i], volName)
      {
        var k := order[i];
        assert k in PrefixKeys(db.data, VolPrefix(podId));
        assert order[..i + 1][..i] == order[..i];
        var fields := Split(db.data[k], ':');
        if fields[0] == volName {
          devId := AtoiValue(fields[1]);
        }
        i := i + 1;
      }
      assert order[..|order|] == order;
    }

    // --- the VM of a pod and its data ------------------------------------

    /** DbGetVmByPod */
    function DbGetVmByPod(podId: string): Result<string>
      reads db
    {
      db.Get(VmKey(podId))
    }

    /** UpdateVmByPod: "vm-<pod>" holds the VM id afterwards, whether or not it existed. */
    method UpdateVmByPod(podId: string, vmId: string) returns (err: Option<string>)
      modifies db
      ensures var k := VmKey(podId);
              if k in db.faults then err == Some(db.faults[k]) && db.data == old(db.data)
              else err.None? && db.data == old(db.data)[k := vmId]
    {
      var key := VmKey(podId);
      var r := db.Get(key);
      if r.Ok? {
        err := db.Delete(key);
        if err.Some? {
          return;
        }
        err := db.Put(key, vmId);
      } else {
        err := db.Put(key, vmId);
      }
    }

    /** GetVmData */
    function GetVmData(vmId: string): Result<string>
      reads db
    {
      db.Get(VmDataKey(vmId))
    }

    /** DeleteVmData */
    method DeleteVmData(vmId: string) returns (err: Option<string>)
      modifies db
      ensures var k := VmDataKey(vmId);
              err == (if k in db.faults then Some(db.faults[k]) else None)
              && db.data == if k in db.faults then old(db.data) else old(db.data) - {k}
    {
      err := db.Delete(VmDataKey(vmId));
    }

    /** DeleteVmByPod: removes "vm-<pod>" and then the data of the VM it named. */
    method DeleteVmByPod(podId: string) returns (err: Option<string>)
      modifies db
      ensures var k := VmKey(podId);
              if k !in old(db.data) then err == Some(NotFound) && db.data == old(db.data)
              else if k in db.faults then err == Some(db.faults[k]) && db.data == old(db.data)
              else
                var dk := VmDataKey(old(db.data)[k]);
                if dk in db.faults then err == Some(db.faults[dk]) && db.data == old(db.data) - {k}
                else err.None? && db.data == old(db.data) - {k, dk}
      ensures db.data == DeleteVmByPodData(old(db.data), db.faults, podId)
    {
      var key := VmKey(podId);
      var r := db.Get(key);
      if r.Err? {
        return Some(r.msg);
      }
      err := db.Delete(key);
      if err.Some? {
        return;
      }
      err := DeleteVmData(r.value);
    }

    /**
     * UpdateVmData: like UpdateVmByPod for "vmdata-<vm>", except that a read
     * error other than a missing key would be returned as it is.
     */
    method UpdateVmData(vmId: string, data: string) returns (err: Option<string>)
      modifies db
      ensures var k := VmDataKey(vmId);
              if k in db.faults then err == Some(db.faults[k]) && db.data == old(db.data)
              else err.None? && db.data == old(db.data)[k := data]
    {
      var key := VmDataKey(vmId);
      var r := db.Get(key);
      assert OccursAt(NotFound, "not found", 9);
      match r
      case Ok(_) =>
        err := db.Delete(key);
        if err.Some? {
          return;
        }
        err := db.Put(key, data);
      case Err(msg) =>
        if Contains(msg, "not found") {
          err := db.Put(key, data);
        } else {
          err := Some(msg);
        }
    }

    // --- registry lookups -------------------------------------------------

    /** GetVmByPodId: the VM recorded in the pod's status. */
    function GetVmByPodId(podId: string): (r: Result<string>)
      reads this
      ensures r.Ok? <==> podId in podList
      ensures r.Ok? ==> r.value == podList[podId].status.vm
      ensures r.Err? ==> r.msg == "Not found Pod " + podId
    {
      if podId in podList then Ok(podList[podId].status.vm) else Err("Not found Pod " + podId)
    }

    /** GetPodByContainer: the first pod, in PodList order, running the container. */
    method GetPodByContainer(containerId: string, order: seq<string>) returns (r: Result<string>)
      requires Valid() && Enumerates(order, podList.Keys)
      ensures r == match ContainerPod(podList, order, containerId)
                   case Some(p) => Ok(p)
                   case None => Err("Can not find that container!")
    {
      var i := 0;
      while i < |order|
        invariant 0 <= i <= |order|
        invariant ContainerPod(podList, order, containerId) == ContainerPod(podList, order[i..], containerId)
      {
        var p := podList[order[i]];
        if HasContainer(p, containerId) {
          return Ok(p.id);
        }
        assert order[i..][1..] == order[i + 1..];
        i := i + 1;
      }
      return Err("Can not find that container!");
    }

    /**
     * GetPodByContainerIdOrName: the first pod with a container whose name is
     * `name` with a leading "/" or whose id is `name`, and that container's
     * index. An empty name would index out of range, so it is excluded.
     */
    method GetPodByContainerIdOrName(name: string, order: seq<string>) returns (r: Result<(string, nat)>)
      requires name != ""
      requires Valid() && Enumerates(order, podList.Keys)
      ensures r == match NamedContainer(podList, order, name, Slashed(name))
                   case Some(m) => Ok(m)
                   case None => Err("cannot found container " + name)
    {
      var wslash := name;
      if name[0] != '/' {
        wslash := "/" + name;
      }
      var i := 0;
      while i < |order|
        invariant 0 <= i <= |order|
        invariant NamedContainer(podList, order, name, wslash) == NamedContainer(podList, order[i..], name, wslash)
      {
        var p := podList[order[i]];
        var idx := FindContainer(p.status.containers, name, wslash);
        if idx.Some? {
          return Ok((p.id, idx.value));
        }
        assert order[i..][1..] == order[i + 1..];
        i := i + 1;
      }
      return Err("cannot found container " + name);
    }

    /** The inner loop of GetPodByContainerIdOrName's search. */
    static method FindContainer(cs: seq<Container>, name: string, wslash: string) returns (idx: Option<nat>)
      ensures idx == FirstMatch(cs, name, wslash)
    {
      var j := 0;
      while j < |cs|
        invariant 0 <= j <= |cs|
        invariant forall k :: 0 <= k < j ==> !NameMatches(cs[k], name, wslash)
      {
        if NameMatches(cs[j], name, wslash) {
          return Some(j);
        }
        j := j + 1;
      }
      return None;
    }

    // --- the registries ---------------------------------------------------

    /** RemovePod */
    method RemovePod(podId: string)
      requires Valid()
      modifies this`podList
      ensures Valid() && podList == old(podList) - {podId}
    {
      podList := podList - {podId};
    }

    /** AddVm: the VM is registered under its id, replacing any VM there. */
    method AddVm(vm: Vm)
      requires Valid()
      modifies this`vmList
      ensures Valid() && vmList == old(vmList)[vm.id := vm]
    {
      vmList := vmList[vm.id := vm];
    }

    /** RemoveVm */
    method RemoveVm(vmId: string)
      requires Valid()
      modifies this`vmList
      ensures Valid() && vmList == old(vmList) - {vmId}
    {
      vmList := vmList - {vmId};
    }

    /**
     * AddPod: the pod's arguments go to the store, the pod to PodList, its
     * container list to the store. When the container list cannot be
     * written, the pod entry and the PodList entry are removed again.
     */
    method AddPod(pod: Pod, podArgs: string) returns (err: Option<string>)
      requires Valid()
      modifies this`podList, db
      ensures Valid()
      ensures var pk := PodKey(pod.id);
              var ck := PodContainersKey(pod.id);
              if pk in db.faults then
                err == Some(db.faults[pk]) && db.data == old(db.data) && podList == old(podList)
              else if ck in db.faults then
                err == Some(db.faults[ck]) && db.data == old(db.data) - {pk} && podList == old(podList) - {pod.id}
              else
                err.None? && podList == old(podList)[pod.id := pod]
                && db.data == old(db.data)[pk := podArgs][ck := ContainerValue(Ids(pod.status.containers))]
      ensures err == AddPodError(db.faults, pod.id) && podList == AddPodPods(old(podList), db.faults, pod)
      ensures db.data == AddPodData(old(db.data), db.faults, pod, podArgs)
    {
      ghost var d0, p0 := db.data, podList;
      ghost var pk := PodKey(pod.id);
      err := WritePodToDB(pod.id, podArgs);
      if err.Some? {
        return;
      }
      podList := podList[pod.id := pod];
      err := WritePodAndContainers(pod.id);
      if err.Some? {
        KeySpacesDisjoint(pod.id, "", "");
        var _ := DeletePodFromDB(pod.id);
        assert d0[pk := podArgs] - {pk} == d0 - {pk};
        RemovePod(pod.id);
        assert p0[pod.id := pod] - {pod.id} == p0 - {pod.id};
      }
    }
  }
}
