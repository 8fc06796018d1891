// The RBD device set of the graph driver (hyper/lib/docker/daemon/graphdriver/rbd/rbd.go):
// the naming of images, snapshots and metadata objects, the registry of
// devices keyed by layer hash, the metadata cache, the mount reference count
// and the map/unmap guards.
//
// The rados and rbd libraries, the `rbd` command line and the mount system
// calls are outside the model: each call site takes the outcome it would
// have had as a parameter (an error or none, and for `rbd showmapped` the
// device it lists for the image).

module Rbd {
  import opened Common

  // -----------------------------------------------------------------------
  // Names (NewRbdSet fixes the prefixes; no option changes them)
  // -----------------------------------------------------------------------

  const DataPoolName: string := "rbd"
  const ImagePrefix: string := "docker_image"
  const SnapPrefix: string := "docker_snap"
  const MetaPrefix: string := "docker_meta"
  const BaseImageName: string := "base_image"

  /** getRbdImageName: the base image for the empty hash, otherwise the layer's own image. */
  function ImageName(hash: string): string
  {
    if hash == "" then ImagePrefix + "_" + BaseImageName else ImagePrefix + "_" + hash
  }

  /** getRbdSnapName: the snapshot a layer is cloned from; there is no base case. */
  function SnapName(hash: string): string
  {
    SnapPrefix + "_" + hash
  }

  /** getRbdMetaOid: the rados object holding a device's metadata. */
  function MetaOid(hash: string): string
  {
    if hash == "" then MetaPrefix + "_" + BaseImageName else MetaPrefix + "_" + hash
  }

  /** What follows a known prefix determines the whole string. */
  lemma SamePrefixSameSuffix(p: string, a: string, b: string)
    requires p + a == p + b
    ensures a == b
  {
    assert a == (p + a)[|p|..];
    assert b == (p + b)[|p|..];
  }

  /**
   * Distinct layers get distinct images, snapshots and metadata objects, and
   * the empty hash names the base image and its metadata.
   */
  lemma NamesDistinct(h1: string, h2: string)
    requires h1 != h2 && h1 != "" && h2 != ""
    ensures ImageName(h1) != ImageName(h2)
    ensures SnapName(h1) != SnapName(h2)
    ensures MetaOid(h1) != MetaOid(h2)
  {
    if ImageName(h1) == ImageName(h2) {
      SamePrefixSameSuffix(ImagePrefix + "_", h1, h2);
    }
    if SnapName(h1) == SnapName(h2) {
      SamePrefixSameSuffix(SnapPrefix + "_", h1, h2);
    }
    if MetaOid(h1) == MetaOid(h2) {
      SamePrefixSameSuffix(MetaPrefix + "_", h1, h2);
    }
  }

  /** The base image is named after baseImageName, whatever the empty hash. */
  lemma BaseNames()
    ensures ImageName("") == "docker_image_base_image"
    ensures MetaOid("") == "docker_meta_base_image"
    ensures SnapName("") == "docker_snap_"
  {
  }

  /** Images, snapshots and metadata objects never share a name: the prefixes differ at their eighth character. */
  lemma NameSpacesDisjoint(h1: string, h2: string)
    ensures ImageName(h1) != SnapName(h2)
    ensures ImageName(h1) != MetaOid(h2)
    ensures SnapName(h1) != MetaOid(h2)
  {
    assert ImageName(h1)[7] == 'i';
    assert SnapName(h2)[7] == 's';
    assert MetaOid(h2)[7] == 'm';
    assert SnapName(h1)[7] == 's';
  }

  // -----------------------------------------------------------------------
  // Devices as values
  // -----------------------------------------------------------------------

  /** A DevInfo's state: the persisted fields, then the mapped device, mount path and mount count. */
  datatype Dev = Dev(
    hash: string,
    device: string,
    size: int,
    baseHash: string,
    initialized: bool,
    mountPath: string,
    mountCount: int)

  /** What loadMetadata finds: no object, a read or decode error, or the stored record. */
  datatype MetaLoad = MetaMissing | MetaFailed(err: string) | MetaFound(size: int, baseHash: string, initialized: bool)

  /**
   * The outcome of one `rbd` command: the command's own error, and the
   * device that `rbd showmapped` lists for the image (None when the image is
   * not listed or the listing fails).
   */
  datatype RbdCli = RbdCli(runErr: Option<string>, listed: Option<string>)

  /** The outcome of the mount system call. */
  type SysResult = Option<string>

  /** A device read back from its metadata: the mapping and the mount state are not persisted. */
  function Loaded(hash: string, load: MetaLoad): (d: Dev)
    requires load.MetaFound?
    ensures d.hash == hash && d.device == "" && d.mountCount == 0 && d.mountPath == ""
    ensures d.size == load.size && d.baseHash == load.baseHash && d.initialized == load.initialized
  {
    Dev(hash, "", load.size, load.baseHash, load.initialized, "", 0)
  }

  /** A mount count is never negative. */
  predicate DevValid(d: Dev) { d.mountCount >= 0 }

  /**
   * mapImageToRbdDevice: nothing to do when a device is already set;
   * otherwise `rbd map`, then the device is taken from `rbd showmapped`,
   * whose silence is an error.
   */
  function MapDev(d: Dev, cli: RbdCli): (r: (Dev, Option<string>))
    ensures d.device != "" ==> r == (d, None)
    ensures d.device == "" && r.1.None? ==> cli.runErr.None? && cli.listed.Some? && r.0 == d.(device := cli.listed.value)
    ensures r.1.Some? ==> r.0 == d
  {
    if d.device != "" then (d, None)
    else if cli.runErr.Some? then (d, cli.runErr)
    else if cli.listed.Some? then (d.(device := cli.listed.value), None)
    else (d, Some("Unable map image " + ImageName(d.hash)))
  }

  /**
   * unmapImageFromRbdDevice: nothing to do when no device is set; an image
   * no longer listed just forgets its device; otherwise `rbd unmap`.
   */
  function UnmapDev(d: Dev, cli: RbdCli): (r: (Dev, Option<string>))
    ensures d.device == "" ==> r == (d, None)
    ensures r.1.None? ==> r.0 == d.(device := "")
    ensures r.1.Some? ==> r.0 == d && cli.listed.Some? && cli.runErr == r.1
  {
    if d.device == "" then (d, None)
    else if cli.listed.None? then (d.(device := ""), None)
    else if cli.runErr.Some? then (d, cli.runErr)
    else (d.(device := ""), None)
  }

  /**
   * MountDevice on a device in hand: a mounted device is shared only at
   * the same path, which counts one more user; otherwise the image is
   * mapped and mounted, and the first mount counts one user.
   */
  function MountDev(d: Dev, mountPoint: string, cli: RbdCli, mountErr: SysResult): (r: (Dev, Option<string>))
    requires DevValid(d)
    ensures DevValid(r.0)
    ensures d.mountCount > 0 ==> r.0.mountPath == d.mountPath && r.0.device == d.device
    ensures d.mountCount > 0 && mountPoint != d.mountPath ==> r.0 == d && r.1.Some?
    ensures r.1.None? ==> r.0.mountPath == mountPoint && r.0.mountCount == d.mountCount + 1
    ensures r.1.Some? ==> r.0.mountCount == d.mountCount && r.0.mountPath == d.mountPath
  {
    if d.mountCount > 0 then
      if mountPoint != d.mountPath then
        (d, Some("Trying to mount rbd device in multiple places (" + d.mountPath + "," + d.device + ")"))
      else (d.(mountCount := d.mountCount + 1), None)
    else
      var (m, err) := MapDev(d, cli);
      if err.Some? then (m, err)
      else if mountErr.Some? then
        (m, Some("Errorf mounting '" + m.device + "' on '" + mountPoint + "': " + mountErr.value))
      else (m.(mountCount := 1, mountPath := mountPoint), None)
  }

  /**
   * UnmountDevice on a device in hand: an unmounted device is an error;
   * otherwise one user less, and the last user's departure unmounts, clears
   * the path and unmaps. The count is already lowered when the unmount
   * system call fails.
   */
  function UnmountDev(d: Dev, unmountErr: SysResult, cli: RbdCli): (r: (Dev, Option<string>))
    requires DevValid(d)
    ensures DevValid(r.0)
    ensures d.mountCount == 0 ==> r.0 == d && r.1.Some?
    ensures d.mountCount > 0 ==> r.0.mountCount == d.mountCount - 1
    ensures d.mountCount > 1 ==> r == (d.(mountCount := d.mountCount - 1), None)
    ensures r.0.mountPath != d.mountPath ==> d.mountCount == 1 && r.0.mountPath == ""
  {
    if d.mountCount == 0 then (d, Some("UnmountDevice: device not-mounted id " + d.hash + "\n"))
    else
      var c := d.(mountCount := d.mountCount - 1);
      if c.mountCount > 0 then (c, None)
      else if unmountErr.Some? then (c, unmountErr)
      else UnmapDev(c.(mountPath := ""), cli)
  }

  /** A second user at the same path and its departure leave the device as it was. */
  lemma SharedMountUndone(d: Dev, cli: RbdCli, mountErr: SysResult, unmountErr: SysResult, cli2: RbdCli)
    requires DevValid(d) && d.mountCount > 0
    ensures var (m, err) := MountDev(d, d.mountPath, cli, mountErr);
            err.None? && UnmountDev(m, unmountErr, cli2) == (d, None)
  {
  }

  /**
   * The first mount of an unmapped device, undone by the last unmount with
   * every call succeeding, leaves the device as it was.
   */
  lemma FirstMountUndone(d: Dev, mountPoint: string, dev: string)
    requires DevValid(d) && d.mountCount == 0 && d.device == "" && d.mountPath == "" && dev != ""
    ensures var (m, err) := MountDev(d, mountPoint, RbdCli(None, Some(dev)), None);
            && err.None? && m.mountCount == 1 && m.device == dev && m.mountPath == mountPoint
            && UnmountDev(m, None, RbdCli(None, Some(dev))) == (d, None)
  {
    var m := d.(device := dev).(mountCount := 1, mountPath := mountPoint);
    assert MountDev(d, mountPoint, RbdCli(None, Some(dev)), None) == (m, None);
    assert m.(mountCount := 0).(mountPath := "").(device := "") == d;
  }

  /** `n` users at the same path. */
  function MountsAt(d: Dev, n: nat): (r: Dev)
    requires DevValid(d) && d.mountCount > 0
    ensures DevValid(r) && r.mountCount > 0
  {
    if n == 0 then d else MountDev(MountsAt(d, n - 1), d.mountPath, RbdCli(None, None), None).0
  }

  /** The reference count: `n` more users at the same path count `n` more and change nothing else. */
  lemma {:induction false} MountsCount(d: Dev, n: nat)
    requires DevValid(d) && d.mountCount > 0
    ensures MountsAt(d, n) == d.(mountCount := d.mountCount + n)
  {
    if n > 0 {
      MountsCount(d, n - 1);
    }
  }

  // -----------------------------------------------------------------------
  // The registry as a map of values
  // -----------------------------------------------------------------------

  /** Every device sits under its own hash and has a non-negative mount count. */
  predicate RegistryValid(st: map<string, Dev>)
  {
    forall h :: h in st ==> st[h].hash == h && DevValid(st[h])
  }

  /**
   * lookupDevice: a registered device; otherwise the stored metadata, which
   * is cached when found. The result is the device (if any), the error, and
   * the registry afterwards.
   */
  function Lookup(st: map<string, Dev>, hash: string, load: MetaLoad): (r: (Option<Dev>, Option<string>, map<string, Dev>))
    requires RegistryValid(st)
    ensures RegistryValid(r.2)
    ensures r.0.Some? <==> (hash in st || load.MetaFound?)
    ensures r.0.Some? ==> hash in r.2 && r.2[hash] == r.0.value
    ensures r.1.Some? <==> (hash !in st && load.MetaFailed?)
    ensures r.2.Keys == st.Keys + (if r.0.Some? then {hash} else {})
    ensures forall h :: h in st ==> r.2[h] == st[h]
  {
    if hash in st then (Some(st[hash]), None, st)
    else match load
      case MetaMissing => (None, None, st)
      case MetaFailed(e) => (None, Some(e), st)
      case MetaFound(_, _, _) => (Some(Loaded(hash, load)), None, st[hash := Loaded(hash, load)])
  }

  /**
   * A hash with neither an entry nor stored metadata leaves the Go code
   * with a nil device, which it then dereferences; the model ends the call
   * with this error instead.
   */
  const NoDevice: string := "no such rbd device"

  /** MountDevice on the registry: the looked-up device is mounted, every other device is untouched. */
  function Mount(st: map<string, Dev>, hash: string, mountPoint: string, load: MetaLoad, cli: RbdCli, mountErr: SysResult)
    : (r: (Option<string>, map<string, Dev>))
    requires RegistryValid(st)
    ensures RegistryValid(r.1)
    ensures forall h :: h in st && h != hash ==> h in r.1 && r.1[h] == st[h]
    ensures r.1.Keys <= st.Keys + {hash}
  {
    var (found, err, st1) := Lookup(st, hash, load);
    if err.Some? then (err, st1)
    else if found.None? then (Some(NoDevice), st1)
    else
      var (d, e) := MountDev(found.value, mountPoint, cli, mountErr);
      (e, st1[hash := d])
  }

  /** UnmountDevice on the registry. */
  function Unmount(st: map<string, Dev>, hash: string, load: MetaLoad, unmountErr: SysResult, cli: RbdCli)
    : (r: (Option<string>, map<string, Dev>))
    requires RegistryValid(st)
    ensures RegistryValid(r.1)
    ensures forall h :: h in st && h != hash ==> h in r.1 && r.1[h] == st[h]
    ensures r.1.Keys <= st.Keys + {hash}
  {
    var (found, err, st1) := Lookup(st, hash, load);
    if err.Some? then (err, st1)
    else if found.None? then (Some(NoDevice), st1)
    else
      var (d, e) := UnmountDev(found.value, unmountErr, cli);
      (e, st1[hash := d])
  }

  /** A device mounted elsewhere refuses a second path and keeps its count. */
  lemma MountElsewhereRefused(st: map<string, Dev>, hash: string, mountPoint: string, load: MetaLoad, cli: RbdCli, mountErr: SysResult)
    requires RegistryValid(st) && hash in st && st[hash].mountCount > 0 && st[hash].mountPath != mountPoint
    ensures Mount(st, hash, mountPoint, load, cli, mountErr) ==
      (Some("Trying to mount rbd device in multiple places (" + st[hash].mountPath + "," + st[hash].device + ")"), st)
  {
    assert st[hash := st[hash]] == st;
  }

  /** An unmounted device cannot be unmounted, and nothing changes. */
  lemma UnmountUnmountedRefused(st: map<string, Dev>, hash: string, load: MetaLoad, unmountErr: SysResult, cli: RbdCli)
    requires RegistryValid(st) && hash in st && st[hash].mountCount == 0
    ensures Unmount(st, hash, load, unmountErr, cli) == (Some("UnmountDevice: device not-mounted id " + hash + "\n"), st)
  {
    assert st[hash := st[hash]] == st;
  }

  /** registerDevice as written: the entry is dropped again when saving fails, but no error is returned. */
  function RegisterAsWritten(st: map<string, Dev>, hash: string, baseHash: string, size: int, saveErr: Option<string>)
    : (r: (Dev, Option<string>, map<string, Dev>))
    requires RegistryValid(st)
    ensures RegistryValid(r.2) && r.1.None?
    ensures r.0 == Dev(hash, "", size, baseHash, false, "", 0)
    ensures saveErr.None? ==> r.2 == st[hash := r.0]
    ensures saveErr.Some? ==> r.2 == st - {hash}
  {
    var info := Dev(hash, "", size, baseHash, false, "", 0);
    var st1 := st[hash := info];
    if saveErr.Some? then (info, None, st1 - {hash}) else (info, None, st1)
  }

  /** registerDevice reporting the failed save, as its rollback and AddDevice's error check intend. */
  function Register(st: map<string, Dev>, hash: string, baseHash: string, size: int, saveErr: Option<string>)
    : (r: (Dev, Option<string>, map<string, Dev>))
    requires RegistryValid(st)
    ensures RegistryValid(r.2)
    ensures r.1.None? <==> hash in r.2
    ensures r.1 == saveErr
    ensures r.1.None? ==> r.2 == st[hash := r.0] && r.0 == Dev(hash, "", size, baseHash, false, "", 0)
    ensures r.1.Some? ==> r.2 == st - {hash}
  {
    var info := Dev(hash, "", size, baseHash, false, "", 0);
    var st1 := st[hash := info];
    if saveErr.Some? then (info, saveErr, st1 - {hash}) else (info, None, st1)
  }

  /** The discrepancy: a failed save reports success although the device is not registered. */
  lemma RegisterSwallowsSaveError(st: map<string, Dev>, hash: string, baseHash: string, size: int, e: string)
    requires RegistryValid(st)
    ensures var r := RegisterAsWritten(st, hash, baseHash, size, Some(e));
            r.1.None? && hash !in r.2
    ensures Register(st, hash, baseHash, size, Some(e)).1 == Some(e)
  {
  }

  /**
   * unRegisterDevice: the entry is removed, and put back when deleting the
   * metadata fails. The result is always nil.
   */
  function Unregister(st: map<string, Dev>, info: Dev, removeErr: Option<string>): (r: (Option<string>, map<string, Dev>))
    requires RegistryValid(st) && DevValid(info)
    ensures RegistryValid(r.1) && r.0.None?
    ensures removeErr.None? ==> r.1 == st - {info.hash}
    ensures removeErr.Some? ==> r.1 == st[info.hash := info]
  {
    var st1 := st - {info.hash};
    if removeErr.Some? then (None, st1[info.hash := info]) else (None, st1)
  }

  /** Registering a new device and unregistering it with both metadata calls succeeding restores the registry. */
  lemma RegisterUnregisterUndone(st: map<string, Dev>, hash: string, baseHash: string, size: int)
    requires RegistryValid(st) && hash !in st
    ensures var (info, err, st1) := Register(st, hash, baseHash, size, None);
            err.None? && Unregister(st1, info, None) == (None, st)
  {
    var (info, err, st1) := Register(st, hash, baseHash, size, None);
    assert st1 - {hash} == st;
  }

  /** A failed metadata removal leaves the device registered as it was. */
  lemma UnregisterRollsBack(st: map<string, Dev>, hash: string, e: string)
    requires RegistryValid(st) && hash in st
    ensures Unregister(st, st[hash], Some(e)) == (None, st)
  {
    assert (st - {hash})[hash := st[hash]] == st;
  }

  /** HasDevice is true exactly when the device is registered or its metadata is stored. */
  function Has(st: map<string, Dev>, hash: string, load: MetaLoad): (b: bool)
    requires RegistryValid(st)
    ensures b <==> (hash in st || load.MetaFound?)
  {
    Lookup(st, hash, load).0.Some?
  }

  /** How far AddDevice gets before registering: finished with an answer, or registering a layer of the given size. */
  datatype AddStage = Finished(err: Option<string>, st: map<string, Dev>) | Registering(size: int, st: map<string, Dev>)

  /**
   * AddDevice up to its registerDevice call: the parent must be found; an
   * existing layer is left alone with no error; a failed clone registers
   * nothing; otherwise the layer is to be registered with the parent's size.
   */
  function AddUntilRegister(st: map<string, Dev>, hash: string, baseHash: string, baseLoad: MetaLoad, load: MetaLoad,
                            createErr: Option<string>): (r: AddStage)
    requires RegistryValid(st)
    ensures RegistryValid(r.st)
    ensures forall h :: h in st && h != hash ==> h in r.st && r.st[h] == st[h]
    ensures r.Registering? ==> hash !in r.st && createErr.None? && (baseHash in st || baseLoad.MetaFound?)
  {
    var (base, err, st1) := Lookup(st, baseHash, baseLoad);
    if err.Some? then Finished(err, st1)
    else if base.None? then Finished(Some(NoDevice), st1)
    else
      var (existing, _, st2) := Lookup(st1, hash, load);
      if existing.Some? then Finished(None, st2)
      else if createErr.Some? then Finished(createErr, st2)
      else Registering(base.value.size, st2)
  }

  /** AddDevice as written: the layer goes through registerDevice, whose failed save is reported as success. */
  function Add(st: map<string, Dev>, hash: string, baseHash: string, baseLoad: MetaLoad, load: MetaLoad,
               createErr: Option<string>, saveErr: Option<string>): (r: (Option<string>, map<string, Dev>))
    requires RegistryValid(st)
    ensures RegistryValid(r.1)
    ensures forall h :: h in st && h != hash ==> h in r.1 && r.1[h] == st[h]
  {
    match AddUntilRegister(st, hash, baseHash, baseLoad, load, createErr)
    case Finished(e, st2) => (e, st2)
    case Registering(size, st2) =>
      var (_, e, st3) := RegisterAsWritten(st2, hash, baseHash, size, saveErr);
      (e, st3)
  }

  /** AddDevice as its error check intends: a failed save is returned as AddDevice's error. */
  function AddChecked(st: map<string, Dev>, hash: string, baseHash: string, baseLoad: MetaLoad, load: MetaLoad,
                      createErr: Option<string>, saveErr: Option<string>): (r: (Option<string>, map<string, Dev>))
    requires RegistryValid(st)
    ensures RegistryValid(r.1)
    ensures forall h :: h in st && h != hash ==> h in r.1 && r.1[h] == st[h]
  {
    match AddUntilRegister(st, hash, baseHash, baseLoad, load, createErr)
    case Finished(e, st2) => (e, st2)
    case Registering(size, st2) =>
      var (_, e, st3) := Register(st2, hash, baseHash, size, saveErr);
      (e, st3)
  }

  /**
   * As written, adding a new layer whose metadata save fails reports
   * success and leaves the layer unregistered; the checked version
   * reports the save error.
   */
  lemma AddSwallowsSaveError(st: map<string, Dev>, hash: string, baseHash: string, baseLoad: MetaLoad, e: string)
    requires RegistryValid(st)
    requires hash != baseHash && hash !in st && (baseHash in st || baseLoad.MetaFound?)
    ensures var (err, st1) := Add(st, hash, baseHash, baseLoad, MetaMissing, None, Some(e));
            err.None? && hash !in st1
    ensures AddChecked(st, hash, baseHash, baseLoad, MetaMissing, None, Some(e)).0 == Some(e)
  {
    assert AddUntilRegister(st, hash, baseHash, baseLoad, MetaMissing, None).Registering?;
  }

  /** As written, a reported success leaves the layer registered when its metadata was saved, was found, or it existed. */
  lemma AddRegistersWhenSaved(st: map<string, Dev>, hash: string, baseHash: string, baseLoad: MetaLoad, load: MetaLoad,
                              createErr: Option<string>, saveErr: Option<string>)
    requires RegistryValid(st)
    requires saveErr.None? || hash in st || load.MetaFound?
    ensures var (err, st1) := Add(st, hash, baseHash, baseLoad, load, createErr, saveErr);
            err.None? ==> hash in st1
  {
  }

  /**
   * Checked AddDevice leaves the layer registered whenever it reports
   * success, with the parent's size when it is new; an existing layer is
   * left alone.
   */
  lemma AddRegistersOnSuccess(st: map<string, Dev>, hash: string, baseHash: string, baseLoad: MetaLoad, load: MetaLoad,
                              createErr: Option<string>, saveErr: Option<string>)
    requires RegistryValid(st)
    ensures var (err, st1) := AddChecked(st, hash, baseHash, baseLoad, load, createErr, saveErr);
            && (err.None? ==> hash in st1)
            && (err.None? && hash !in st && load.MetaMissing? && hash != baseHash ==>
                  var base := Lookup(st, baseHash, baseLoad).0.value;
                  st1[hash] == Dev(hash, "", base.size, baseHash, false, "", 0))
            && (hash in st && (baseHash in st || baseLoad.MetaFound?) ==> err.None? && st1 == Lookup(st, baseHash, baseLoad).2)
  {
    var (base, e0, st1) := Lookup(st, baseHash, baseLoad);
    var stage := AddUntilRegister(st, hash, baseHash, baseLoad, load, createErr);
    if stage.Registering? {
      assert e0.None? && base.Some? && stage.size == base.value.size;
      assert stage.st == Lookup(st1, hash, load).2 && hash !in st1;
      var r := Register(stage.st, hash, baseHash, stage.size, saveErr);
      assert AddChecked(st, hash, baseHash, baseLoad, load, createErr, saveErr) == (r.1, r.2);
    }
  }

  /** Shutdown on one device: a mounted device is detached and unmapped; errors are only logged. */
  function ShutdownDev(d: Dev, cli: RbdCli): (r: Dev)
    ensures r.mountCount == d.mountCount && r.mountPath == d.mountPath
    ensures d.mountCount == 0 ==> r == d
  {
    if d.mountCount > 0 then UnmapDev(d, cli).0 else d
  }

  /** Detaching a device twice is detaching it once. */
  lemma ShutdownIdempotent(d: Dev, cli: RbdCli)
    ensures ShutdownDev(ShutdownDev(d, cli), cli) == ShutdownDev(d, cli)
  {
  }

  /** Shutdown's progress: the first `i` listed devices are detached, the others may or may not be. */
  predicate ShutdownUpTo(st0: map<string, Dev>, st: map<string, Dev>, order: seq<string>, i: nat, cli: string -> RbdCli)
    requires i <= |order|
  {
    && st.Keys == st0.Keys
    && (forall j :: 0 <= j < |order| ==> order[j] in st0)
    && (forall h :: h in st ==> st[h] == st0[h] || st[h] == ShutdownDev(st0[h], cli(h)))
    && (forall j :: 0 <= j < i ==> st[order[j]] == ShutdownDev(st0[order[j]], cli(order[j])))
  }

  lemma ShutdownAdvances(st0: map<string, Dev>, prev: map<string, Dev>, next: map<string, Dev>,
                         order: seq<string>, i: nat, cli: string -> RbdCli)
    requires i < |order| && ShutdownUpTo(st0, prev, order, i, cli)
    requires next == prev[order[i] := ShutdownDev(prev[order[i]], cli(order[i]))]
    ensures ShutdownUpTo(st0, next, order, i + 1, cli)
  {
    var h := order[i];
    ShutdownIdempotent(st0[h], cli(h));
    forall j | 0 <= j < i + 1
      ensures next[order[j]] == ShutdownDev(st0[order[j]], cli(order[j]))
    {
      if order[j] != h {
        assert next[order[j]] == prev[order[j]];
      }
    }
  }

  lemma ShutdownAll(st0: map<string, Dev>, st: map<string, Dev>, order: seq<string>, cli: string -> RbdCli)
    requires Enumerates(order, st0.Keys) && ShutdownUpTo(st0, st, order, |order|, cli)
    ensures forall h :: h in st ==> st[h] == ShutdownDev(st0[h], cli(h))
  {
    forall h | h in st
      ensures st[h] == ShutdownDev(st0[h], cli(h))
    {
      var j :| 0 <= j < |order| && order[j] == h;
    }
  }

  // -----------------------------------------------------------------------
  // The objects
  // -----------------------------------------------------------------------

  class DevInfo {
    var hash: string
    var device: string
    var size: int
    var baseHash: string
    var initialized: bool
    var mountPath: string
    var mountCount: int

    function State(): Dev
      reads this
    {
      Dev(hash, device, size, baseHash, initialized, mountPath, mountCount)
    }

    constructor (d: Dev)
      ensures State() == d
    {
      hash := d.hash;
      device := d.device;
      size := d.size;
      baseHash := d.baseHash;
      initialized := d.initialized;
      mountPath := d.mountPath;
      mountCount := d.mountCount;
    }

    /** mapImageToRbdDevice */
    method MapImage(cli: RbdCli) returns (err: Option<string>)
      modifies this`device
      ensures (State(), err) == MapDev(old(State()), cli)
    {
      if device != "" {
        return None;
      }
      if cli.runErr.Some? {
        return cli.runErr;
      }
      if cli.listed.Some? {
        device := cli.listed.value;
        return None;
      }
      return Some("Unable map image " + ImageName(hash));
    }

    /** unmapImageFromRbdDevice */
    method UnmapImage(cli: RbdCli) returns (err: Option<string>)
      modifies this`device
      ensures (State(), err) == UnmapDev(old(State()), cli)
    {
      if device == "" {
        return None;
      }
      if cli.listed.None? {
        device := "";
        return None;
      }
      if cli.runErr.Some? {
        return cli.runErr;
      }
      device := "";
      return None;
    }

    /** MountDevice once the device is in hand. */
    method Mount(mountPoint: string, cli: RbdCli, mountErr: SysResult) returns (err: Option<string>)
      requires DevValid(State())
      modifies this`device, this`mountCount, this`mountPath
      ensures (State(), err) == MountDev(old(State()), mountPoint, cli, mountErr)
    {
      if mountCount > 0 {
        if mountPoint != mountPath {
          return Some("Trying to mount rbd device in multiple places (" + mountPath + "," + device + ")");
        }
        mountCount := mountCount + 1;
        return None;
      }
      err := MapImage(cli);
      if err.Some? {
        return err;
      }
      if mountErr.Some? {
        return Some("Errorf mounting '" + device + "' on '" + mountPoint + "': " + mountErr.value);
      }
      mountCount := 1;
      mountPath := mountPoint;
      return None;
    }

    /** UnmountDevice once the device is in hand. */
    method Unmount(unmountErr: SysResult, cli: RbdCli) returns (err: Option<string>)
      requires DevValid(State())
      modifies this`device, this`mountCount, this`mountPath
      ensures (State(), err) == UnmountDev(old(State()), unmountErr, cli)
    {
      if mountCount == 0 {
        return Some("UnmountDevice: device not-mounted id " + hash + "\n");
      }
      mountCount := mountCount - 1;
      if mountCount > 0 {
        return None;
      }
      if unmountErr.Some? {
        return unmountErr;
      }
      mountPath := "";
      err := UnmapImage(cli);
    }
  }

  class RbdSet {
    /** The Devices map of the metadata. */
    var devices: map<string, DevInfo>
    /** The state of every registered device. */
    ghost var state: map<string, Dev>

    /** `state` mirrors the device objects; each sits under its own hash, so no two keys share one. */
    ghost predicate Valid()
      reads this, devices.Values
    {
      && devices.Keys == state.Keys
      && (forall h :: h in devices ==> devices[h].State() == state[h])
      && RegistryValid(state)
    }

    /** NewRbdSet's empty registry (connecting to the cluster is not modelled). */
    constructor ()
      ensures Valid() && state == map[]
    {
      devices := map[];
      state := map[];
    }

    /** lookupDevice */
    method LookupDevice(hash: string, load: MetaLoad) returns (info: DevInfo?, err: Option<string>)
      requires Valid()
      modifies this`devices, this`state
      ensures Valid()
      ensures var (found, e, st) := Lookup(old(state), hash, load);
              && state == st && err == e && (info == null <==> found.None?)
              && (info != null ==> hash in devices && devices[hash] == info)
      ensures forall h :: h in old(devices) ==> h in devices && devices[h] == old(devices)[h]
      ensures info != null && hash !in old(devices) ==> fresh(info)
    {
      if hash in devices {
        return devices[hash], None;
      }
      match load
      case MetaMissing =>
        return null, None;
      case MetaFailed(e) =>
        return null, Some(e);
      case MetaFound(_, _, _) =>
        info := new DevInfo(Loaded(hash, load));
        Insert(info);
        return info, None;
    }

    /** HasDevice */
    method HasDevice(hash: string, load: MetaLoad) returns (b: bool)
      requires Valid()
      modifies this`devices, this`state
      ensures Valid()
      ensures b == Has(old(state), hash, load) && state == Lookup(old(state), hash, load).2
    {
      var info, _ := LookupDevice(hash, load);
      b := info != null;
    }

    /** The registered device under `hash` is changed in place; the mirror follows. */
    method Track(hash: string)
      requires devices.Keys == state.Keys && hash in devices
      requires devices[hash].hash == hash && DevValid(devices[hash].State())
      requires forall h :: h in state && h != hash ==> devices[h].State() == state[h] && devices[h] != devices[hash]
      requires forall h :: h in state && h != hash ==> state[h].hash == h && DevValid(state[h])
      modifies this`state
      ensures Valid() && state == old(state)[hash := devices[hash].State()]
    {
      state := state[hash := devices[hash].State()];
    }

    /** MountDevice */
    method MountDevice(hash: string, mountPoint: string, load: MetaLoad, cli: RbdCli, mountErr: SysResult)
      returns (err: Option<string>)
      requires Valid()
      modifies this`devices, this`state, devices.Values
      ensures Valid()
      ensures (err, state) == Mount(old(state), hash, mountPoint, load, cli, mountErr)
    {
      var info;
      info, err := LookupDevice(hash, load);
      if err.Some? {
        return err;
      }
      if info == null {
        return Some(NoDevice);
      }
      err := MountFound(hash, mountPoint, cli, mountErr);
    }

    /** MountDevice once the registered device is in hand. */
    method MountFound(hash: string, mountPoint: string, cli: RbdCli, mountErr: SysResult) returns (err: Option<string>)
      requires Valid() && hash in devices
      modifies this`state, devices[hash]
      ensures Valid() && devices == old(devices)
      ensures var (d, e) := MountDev(old(state)[hash], mountPoint, cli, mountErr);
              err == e && state == old(state)[hash := d]
    {
      OthersDistinct(hash);
      err := devices[hash].Mount(mountPoint, cli, mountErr);
      Track(hash);
    }

    /** UnmountDevice */
    method UnmountDevice(hash: string, load: MetaLoad, unmountErr: SysResult, cli: RbdCli)
      returns (err: Option<string>)
      requires Valid()
      modifies this`devices, this`state, devices.Values
      ensures Valid()
      ensures (err, state) == Unmount(old(state), hash, load, unmountErr, cli)
    {
      var info;
      info, err := LookupDevice(hash, load);
      if err.Some? {
        return err;
      }
      if info == null {
        return Some(NoDevice);
      }
      err := UnmountFound(hash, unmountErr, cli);
    }

    /** UnmountDevice once the registered device is in hand. */
    method UnmountFound(hash: string, unmountErr: SysResult, cli: RbdCli) returns (err: Option<string>)
      requires Valid() && hash in devices
      modifies this`state, devices[hash]
      ensures Valid() && devices == old(devices)
      ensures var (d, e) := UnmountDev(old(state)[hash], unmountErr, cli);
              err == e && state == old(state)[hash := d]
    {
      OthersDistinct(hash);
      err := devices[hash].Unmount(unmountErr, cli);
      Track(hash);
    }

    /** Devices under other hashes are other objects, since each sits under its own hash. */
    lemma OthersDistinct(hash: string)
      requires Valid() && hash in devices
      ensures forall h :: h in devices && h != hash ==> devices[h] != devices[hash]
    {
    }

    /** registerDevice as written: the failed save is swallowed. */
    method RegisterDevice(hash: string, baseHash: string, size: int, saveErr: Option<string>)
      returns (info: DevInfo, err: Option<string>)
      requires Valid()
      modifies this`devices, this`state
      ensures Valid()
      ensures var (d, e, st) := RegisterAsWritten(old(state), hash, baseHash, size, saveErr);
              info.State() == d && err == e && state == st
    {
      info := new DevInfo(Dev(hash, "", size, baseHash, false, "", 0));
      Insert(info);
      if saveErr.Some? {
        Remove(hash);
      }
      return info, None;
    }

    /** registerDevice reporting the failed save, as AddDevice's error check intends. */
    method RegisterDeviceChecked(hash: string, baseHash: string, size: int, saveErr: Option<string>)
      returns (info: DevInfo, err: Option<string>)
      requires Valid()
      modifies this`devices, this`state
      ensures Valid()
      ensures var (d, e, st) := Register(old(state), hash, baseHash, size, saveErr);
              info.State() == d && err == e && state == st
    {
      info := new DevInfo(Dev(hash, "", size, baseHash, false, "", 0));
      Insert(info);
      if saveErr.Some? {
        Remove(hash);
        return info, saveErr;
      }
      return info, None;
    }

    /** unRegisterDevice */
    method UnRegisterDevice(info: DevInfo, removeErr: Option<string>) returns (err: Option<string>)
      requires Valid() && DevValid(info.State())
      modifies this`devices, this`state
      ensures Valid()
      ensures (err, state) == Unregister(old(state), info.State(), removeErr)
    {
      Remove(info.hash);
      if removeErr.Some? {
        Insert(info);
      }
      return None;
    }

    /** A device object enters the registry under its hash. */
    method Insert(info: DevInfo)
      requires Valid() && DevValid(info.State())
      modifies this`devices, this`state
      ensures Valid()
      ensures devices == old(devices)[info.hash := info] && state == old(state)[info.hash := info.State()]
    {
      devices := devices[info.hash := info];
      state := state[info.hash := info.State()];
    }

    /** The device under `hash` leaves the registry. */
    method Remove(hash: string)
      requires Valid()
      modifies this`devices, this`state
      ensures Valid()
      ensures devices == old(devices) - {hash} && state == old(state) - {hash}
    {
      devices := devices - {hash};
      state := state - {hash};
    }

    /** AddDevice, through registerDevice as written. */
    method AddDevice(hash: string, baseHash: string, baseLoad: MetaLoad, load: MetaLoad,
                     createErr: Option<string>, saveErr: Option<string>) returns (err: Option<string>)
      requires Valid()
      modifies this`devices, this`state
      ensures Valid()
      ensures (err, state) == Add(old(state), hash, baseHash, baseLoad, load, createErr, saveErr)
    {
      var baseInfo;
      baseInfo, err := LookupDevice(baseHash, baseLoad);
      if err.Some? {
        return err;
      }
      if baseInfo == null {
        return Some(NoDevice);
      }
      var size := baseInfo.size;
      var info, _ := LookupDevice(hash, load);
      if info != null {
        return None;
      }
      if createErr.Some? {
        return createErr;
      }
      var _, e := RegisterDevice(hash, baseHash, size, saveErr);
      return e;
    }

    /**
     * Shutdown: every mounted device, visited in `order` (Go's map order),
     * is detached and unmapped, with errors only logged.
     */
    method Shutdown(order: seq<string>, cli: string -> RbdCli)
      requires Valid() && Enumerates(order, devices.Keys)
      modifies devices.Values, this`state
      ensures Valid() && devices == old(devices)
      ensures state.Keys == old(state).Keys
      ensures forall h :: h in state ==> state[h] == ShutdownDev(old(state)[h], cli(h))
    {
      ghost var st0 := state;
      var i := 0;
      while i < |order|
        invariant 0 <= i <= |order|
        invariant Valid() && devices == old(devices)
        invariant ShutdownUpTo(st0, state, order, i, cli)
      {
        var h := order[i];
        ghost var prev := state;
        ShutdownOne(h, cli(h));
        ShutdownAdvances(st0, prev, state, order, i, cli);
        i := i + 1;
      }
      ShutdownAll(st0, state, order, cli);
    }

    /** Shutdown's work on one device. */
    method ShutdownOne(h: string, c: RbdCli)
      requires Valid() && h in devices
      modifies devices[h], this`state
      ensures Valid() && devices == old(devices)
      ensures state == old(state)[h := ShutdownDev(old(state)[h], c)]
    {
      var info := devices[h];
      OthersDistinct(h);
      if info.mountCount > 0 {
        var _ := info.UnmapImage(c);
      }
      Track(h);
    }
  }
}
