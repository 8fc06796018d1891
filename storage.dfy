// The daemon's storage drivers (hyper/daemon/storage.go): choosing a driver
// from docker's reported backing storage, reading the driver's settings out
// of docker's DriverStatus pairs, probing an existing volume, and creating
// and removing a pod's devicemapper volume with its device id recorded in
// the daemon's database.
//
// Everything that touches the host (device-mapper commands, mounts, the VFS
// volume directory, probing a filesystem type) is an oracle parameter; the
// random device ids are given as the sequence of rand.Intn draws.

module Storage {
  import opened Common
  import opened HyperDaemon

  const DefaultPool := "hyper-volume-pool"
  const DefaultVolFs := "ext4"
  /** Device ids are drawn from [1, 2^24 - 1]; 0 is the pool device. */
  const MaxDevId := 0x100_0000 - 1

  /** One of docker's DriverStatus pairs. */
  type StatusPair = (string, string)

  /** A storage driver and the settings it was built with. */
  datatype Driver =
    | DevMapper(ctnPool: string, volPool: string, devPrefix: string, fsType: string, rootPath: string)
    | Aufs(rootPath: string)
    | Overlay(rootPath: string)
    | VBox(rootPath: string)
    | RbdStore(rootPath: string, rbdPrefix: string, rbdPool: string)

  /** What a volume is handed to the VM as. */
  datatype VolumeInfo = VolumeInfo(name: string, filepath: string, fstype: string, format: string)

  /** path.Join of a directory and a plain name. */
  function PathJoin(dir: string, name: string): string
  {
    dir + "/" + name
  }

  /** Each driver's Type(). */
  function TypeName(drv: Driver): string
  {
    match drv
    case DevMapper(_, _, _, _, _) => "devicemapper"
    case Aufs(_) => "aufs"
    case Overlay(_) => "overlay"
    case VBox(_) => "vbox"
    case RbdStore(_, _, _) => "rbd"
  }

  /** The drivers StorageDrivers registers, by docker's driver name. */
  predicate Supported(name: string)
  {
    name in {"devicemapper", "aufs", "overlay", "vbox", "rbd"}
  }

  // -----------------------------------------------------------------------
  // Reading DriverStatus
  // -----------------------------------------------------------------------

  /** DMFactory's filesystem choice for a "Backing Filesystem" value. */
  function FsTypeOf(backing: string): (r: string)
    ensures r in {"ext4", "xfs", "dir"}
    ensures Contains(backing, "ext") ==> r == "ext4"
    ensures !Contains(backing, "ext") && Contains(backing, "xfs") ==> r == "xfs"
    ensures r == "dir" <==> !Contains(backing, "ext") && !Contains(backing, "xfs")
  {
    if Contains(backing, "ext") then "ext4" else if Contains(backing, "xfs") then "xfs" else "dir"
  }

  /**
   * DMFactory's scan from the front: the latest "Pool Name" wins, and the
   * scan stops at the first "Backing Filesystem".
   */
  function DMScan(status: seq<StatusPair>, pool: string, fs: string): (string, string)
  {
    if status == [] then (pool, fs)
    else
      var pool' := if status[0].0 == "Pool Name" then status[0].1 else pool;
      if status[0].0 == "Backing Filesystem" then (pool', FsTypeOf(status[0].1))
      else DMScan(status[1..], pool', fs)
  }

  predicate HasBacking(status: seq<StatusPair>)
  {
    exists i :: 0 <= i < |status| && status[i].0 == "Backing Filesystem"
  }

  /** Nothing after the first "Backing Filesystem" pair is read. */
  lemma {:induction false} DMScanStopsAtBacking(status: seq<StatusPair>, rest: seq<StatusPair>, pool: string, fs: string)
    requires HasBacking(status)
    ensures DMScan(status + rest, pool, fs) == DMScan(status, pool, fs)
  {
    assert (status + rest)[0] == status[0];
    if status[0].0 != "Backing Filesystem" {
      var i :| 0 <= i < |status| && status[i].0 == "Backing Filesystem";
      assert status[1..][i - 1] == status[i];
      assert (status + rest)[1..] == status[1..] + rest;
      var pool' := if status[0].0 == "Pool Name" then status[0].1 else pool;
      DMScanStopsAtBacking(status[1..], rest, pool', fs);
    }
  }

  /** Without a "Backing Filesystem" pair the filesystem stays unset and the last "Pool Name" is taken. */
  lemma {:induction false} DMScanNoBacking(status: seq<StatusPair>, pool: string, fs: string)
    requires !HasBacking(status)
    ensures DMScan(status, pool, fs).1 == fs
    ensures DMScan(status, pool, fs).0 == LastValue(status, "Pool Name", pool)
  {
    if status != [] {
      var pool' := if status[0].0 == "Pool Name" then status[0].1 else pool;
      assert !HasBacking(status[1..]) by {
        forall i | 0 <= i < |status[1..]| ensures status[1..][i].0 != "Backing Filesystem" {
          assert status[1..][i] == status[i + 1];
        }
      }
      DMScanNoBacking(status[1..], pool', fs);
      LastValueFront(status, "Pool Name", pool);
    }
  }

  /** The value of the last pair with the given key, `dflt` if there is none. */
  function LastValue(status: seq<StatusPair>, key: string, dflt: string): (r: string)
    ensures r == dflt || exists i :: 0 <= i < |status| && status[i] == (key, r)
  {
    if status == [] then dflt
    else if status[|status| - 1].0 == key then status[|status| - 1].1
    else LastValue(status[..|status| - 1], key, dflt)
  }

  /** LastValue read from the front: the first pair only counts if no later pair has the key. */
  lemma {:induction false} LastValueFront(status: seq<StatusPair>, key: string, dflt: string)
    requires status != []
    ensures LastValue(status, key, dflt) == LastValue(status[1..], key, if status[0].0 == key then status[0].1 else dflt)
  {
    var d' := if status[0].0 == key then status[0].1 else dflt;
    if |status| == 1 {
    } else {
      var init := status[..|status| - 1];
      assert init[1..] == status[1..][..|status[1..]| - 1];
      assert init[0] == status[0];
      LastValueFront(init, key, dflt);
    }
  }

  /** The device prefix: the pool name up to its first "-pool". */
  function DevPrefixOf(pool: string): (r: string)
    requires Contains(pool, "-pool")
    ensures IsPrefix(r + "-pool", pool)
  {
    var k := IndexOf(pool, "-pool").value;
    assert pool[..k + 5] == pool[..k] + "-pool";
    pool[..k]
  }

  /** The prefix of "<x>-pool" is x, when x itself holds no "-pool". */
  lemma DevPrefixOfPool(x: string)
    requires !Contains(x, "-pool")
    ensures Contains(x + "-pool", "-pool")
    ensures DevPrefixOf(x + "-pool") == x
  {
    var s := x + "-pool";
    assert OccursAt(s, "-pool", |x|);
    forall j | 0 <= j < |x| ensures !OccursAt(s, "-pool", j) {
      if j + 5 <= |x| {
        assert x[j..j + 5] == s[j..j + 5];
        assert !OccursAt(x, "-pool", j);
      } else if j + 5 <= |s| {
        assert s[j..j + 5][|x| - j] == s[|x|] == '-';
        assert "-pool"[|x| - j] != '-';
        assert s[j..j + 5] != "-pool";
      }
    }
    var k := IndexOf(s, "-pool").value;
    assert k == |x|;
  }

  /**
   * DMFactory: the container pool name and filesystem from DriverStatus, the
   * device prefix cut from the pool name. The pool name must contain
   * "-pool": the Go slice expression panics otherwise.
   */
  method DMFactory(status: seq<StatusPair>, hyperRoot: string) returns (drv: Driver)
    requires Contains(DMScan(status, "", "").0, "-pool")
    ensures var (pool, fs) := DMScan(status, "", "");
            drv == DevMapper(pool, DefaultPool, DevPrefixOf(pool), fs, PathJoin(hyperRoot, "devicemapper"))
  {
    var pool, fs := "", "";
    var i := 0;
    while i < |status|
      invariant 0 <= i <= |status|
      invariant DMScan(status, "", "") == DMScan(status[i..], pool, fs)
    {
      assert status[i..][1..] == status[i + 1..];
      if status[i].0 == "Pool Name" {
        pool := status[i].1;
      }
      if status[i].0 == "Backing Filesystem" {
        fs := FsTypeOf(status[i].1);
        break;
      }
      i := i + 1;
    }
    var k := IndexOf(pool, "-pool");
    drv := DevMapper(pool, DefaultPool, pool[..k.value], fs, PathJoin(hyperRoot, "devicemapper"));
  }

  /** AufsFactory: the root directory is the last "Root Dir" value ("" if none). */
  method AufsFactory(status: seq<StatusPair>) returns (drv: Driver)
    ensures drv == Aufs(LastValue(status, "Root Dir", ""))
  {
    var root := "";
    var i := 0;
    while i < |status|
      invariant 0 <= i <= |status|
      invariant root == LastValue(status[..i], "Root Dir", "")
    {
      assert status[..i + 1][..i] == status[..i];
      if status[i].0 == "Root Dir" {
        root := status[i].1;
      }
      i := i + 1;
    }
    assert status[..|status|] == status;
    drv := Aufs(root);
  }

  /** StorageFactory: the driver docker reports, if hyperd has one for it. */
  method StorageFactory(driverName: string, status: seq<StatusPair>, hyperRoot: string) returns (r: Result<Driver>)
    requires driverName == "devicemapper" ==> Contains(DMScan(status, "", "").0, "-pool")
    ensures r.Ok? <==> Supported(driverName)
    ensures r.Err? ==> r.msg == "hyperd can not support docker's backing storage: " + driverName
    ensures r.Ok? ==> TypeName(r.value) == driverName
    ensures driverName == "aufs" ==> r == Ok(Aufs(LastValue(status, "Root Dir", "")))
    ensures driverName == "overlay" ==> r == Ok(Overlay(PathJoin(hyperRoot, "overlay")))
    ensures driverName == "vbox" ==> r == Ok(VBox(PathJoin(hyperRoot, "vbox")))
    ensures driverName == "rbd" ==> r == Ok(RbdStore(PathJoin(hyperRoot, "rbd"), "docker_image", "rbd"))
    ensures driverName == "devicemapper" ==> r.Ok? && r.value.volPool == DefaultPool && r.value.fsType == DMScan(status, "", "").1
  {
    if driverName == "devicemapper" {
      var d := DMFactory(status, hyperRoot);
      r := Ok(d);
    } else if driverName == "aufs" {
      var d := AufsFactory(status);
      r := Ok(d);
    } else if driverName == "overlay" {
      r := Ok(Overlay(PathJoin(hyperRoot, "overlay")));
    } else if driverName == "vbox" {
      r := Ok(VBox(PathJoin(hyperRoot, "vbox")));
    } else if driverName == "rbd" {
      r := Ok(RbdStore(PathJoin(hyperRoot, "rbd"), "docker_image", "rbd"));
    } else {
      r := Err("hyperd can not support docker's backing storage: " + driverName);
    }
  }

  // -----------------------------------------------------------------------
  // Existing volumes
  // -----------------------------------------------------------------------

  /** A volume named in a pod's spec. */
  datatype UserVolume = UserVolume(name: string, source: string, driver: string)

  /**
   * ProbeExistingVolume: a missing volume or one without a source is an
   * error; a "vfs" volume is mounted as a directory; anything else is
   * passed through in the driver's format, its filesystem probed with
   * ext4 as the fallback. `shown` is the %v rendering of the volume.
   */
  function ProbeExistingVolume(v: Option<UserVolume>, sharedDir: string, shown: string,
                               mountVfs: (string, string) -> Result<string>,
                               probeFs: string -> Option<string>): (r: Result<VolumeInfo>)
    ensures (v.None? || v.value.source == "") ==> r == Err("can not generate volume info from " + shown)
    ensures r.Ok? ==> v.Some? && v.value.source != "" && r.value.name == v.value.name
    ensures r.Ok? && v.value.driver == "vfs" ==> r.value.fstype == "dir" && r.value.format == ""
    ensures v.Some? && v.value.source != "" && v.value.driver != "vfs" ==>
              r.Ok? && r.value.filepath == v.value.source && r.value.format == v.value.driver
              && (probeFs(v.value.source).None? ==> r.value.fstype == DefaultVolFs)
              && (probeFs(v.value.source).Some? ==> r.value.fstype == probeFs(v.value.source).value)
    ensures v.Some? && v.value.source != "" && v.value.driver == "vfs" ==>
              (r.Ok? <==> mountVfs(v.value.source, sharedDir).Ok?)
              && (r.Ok? ==> r.value.filepath == mountVfs(v.value.source, sharedDir).value)
              && (r.Err? ==> r.msg == mountVfs(v.value.source, sharedDir).msg)
  {
    if v.None? || v.value.source == "" then Err("can not generate volume info from " + shown)
    else
      var u := v.value;
      if u.driver == "vfs" then
        match mountVfs(u.source, sharedDir)
        case Err(e) => Err(e)
        case Ok(path) => Ok(VolumeInfo(u.name, path, "dir", ""))
      else
        var fs := match probeFs(u.source) case Some(t) => t case None => DefaultVolFs;
        Ok(VolumeInfo(u.name, u.source, fs, u.driver))
  }

  // -----------------------------------------------------------------------
  // devicemapper volumes
  // -----------------------------------------------------------------------

  /** randDevId for a rand.Intn(2^24 - 1) draw `n`. */
  function RandDevId(n: int): (r: int)
    requires 0 <= n < MaxDevId
    ensures 1 <= r <= MaxDevId
  {
    n + 1
  }

  predicate ValidDraws(draws: seq<int>)
  {
    forall i :: 0 <= i < |draws| ==> 0 <= draws[i] < MaxDevId
  }

  /** A device-create error that means the id is taken and another may be tried. */
  predicate Collision(e: Option<string>)
  {
    e.Some? && Contains(e.value, "failed: File exists")
  }

  /** The outcome of dm.CreateVolume on attempt i, for a device id, restoring or not. */
  type CreateOracle = (nat, string, bool) -> Option<string>

  /** Some fresh attempt does not collide: the retry loop ends. */
  predicate SomeAttemptEnds(draws: seq<int>, create: CreateOracle)
    requires ValidDraws(draws)
  {
    exists k :: 0 <= k < |draws| && !Collision(create(k, IntToDec(RandDevId(draws[k])), false))
  }

  /** The attempt the retry loop ends on: the first that does not collide. */
  function FinalAttempt(draws: seq<int>, create: CreateOracle, i: nat): (k: nat)
    requires ValidDraws(draws) && i <= |draws|
    requires exists k :: i <= k < |draws| && !Collision(create(k, IntToDec(RandDevId(draws[k])), false))
    ensures i <= k < |draws| && !Collision(create(k, IntToDec(RandDevId(draws[k])), false))
    ensures forall j :: i <= j < k ==> Collision(create(j, IntToDec(RandDevId(draws[j])), false))
    decreases |draws| - i
  {
    if !Collision(create(i, IntToDec(RandDevId(draws[i])), false)) then i
    else FinalAttempt(draws, create, i + 1)
  }

  function DmVolName(drv: Driver, podId: string, shortName: string): string
    requires drv.DevMapper?
  {
    drv.volPool + "-" + podId + "-" + shortName
  }

  /** The volume's info once its device exists. */
  function DmVolumeInfo(shortName: string, volName: string, probeFs: string -> Option<string>): VolumeInfo
  {
    var dev := PathJoin("/dev/mapper", volName);
    VolumeInfo(shortName, dev, match probeFs(dev) case Some(t) => t case None => "ext4", "raw")
  }

  /**
   * The retry loop of DevMapperStorage.CreateVolume when no id is stored:
   * draw ids until dm.CreateVolume does not report a collision.
   */
  method CreateFresh(draws: seq<int>, create: CreateOracle) returns (devId: int, err: Option<string>)
    requires ValidDraws(draws) && SomeAttemptEnds(draws, create)
    ensures var k := FinalAttempt(draws, create, 0);
            devId == RandDevId(draws[k]) && err == create(k, IntToDec(devId), false)
  {
    var i := 0;
    while true
      invariant 0 <= i < |draws|
      invariant exists k :: i <= k < |draws| && !Collision(create(k, IntToDec(RandDevId(draws[k])), false))
      invariant FinalAttempt(draws, create, 0) == FinalAttempt(draws, create, i)
      decreases |draws| - i
    {
      devId := RandDevId(draws[i]);
      err := create(i, IntToDec(devId), false);
      if err.Some? && Contains(err.value, "failed: File exists") {
        i := i + 1;
        continue;
      }
      return;
    }
  }

  /**
   * DevMapperStorage.CreateVolume: a stored device id above 0 is restored
   * with one create call; otherwise fresh ids are drawn until one does not
   * collide. Any other error is returned; on success the id is recorded.
   */
  method DmCreateVolume(d: Daemon, drv: Driver, podId: string, shortName: string, order: seq<string>,
                        draws: seq<int>, create: CreateOracle, probeFs: string -> Option<string>)
    returns (r: Result<VolumeInfo>, ghost devId: int)
    requires drv.DevMapper?
    requires Enumerates(order, PrefixKeys(d.db.data, VolPrefix(podId)))
    requires forall k :: k in PrefixKeys(d.db.data, VolPrefix(podId)) ==> RecordReadable(d.db.data[k], DmVolName(drv, podId, shortName))
    requires ValidDraws(draws)
    requires VolumeDev(d.db.data, order, DmVolName(drv, podId, shortName)) <= 0 ==> SomeAttemptEnds(draws, create)
    modifies d.db
    ensures var volName := DmVolName(drv, podId, shortName);
            var stored := VolumeDev(old(d.db.data), order, volName);
            var outcome := if stored > 0 then create(0, IntToDec(stored), true)
                           else create(FinalAttempt(draws, create, 0), IntToDec(devId), false);
            && (stored > 0 ==> devId == stored)
            && (stored <= 0 ==> devId == RandDevId(draws[FinalAttempt(draws, create, 0)]) && 1 <= devId <= MaxDevId)
            && (outcome.Some? ==> r == Err(outcome.value) && d.db.data == old(d.db.data))
            && (outcome.None? ==>
                  r == Ok(DmVolumeInfo(shortName, volName, probeFs))
                  && var k := VolKey(podId, IntToDec(devId));
                     d.db.data == if k in d.db.faults then old(d.db.data) else old(d.db.data)[k := VolRecord(volName, IntToDec(devId))])
  {
    var volName := drv.volPool + "-" + podId + "-" + shortName;
    var id := d.GetVolumeId(podId, volName, order);
    var err: Option<string>;
    if id > 0 {
      err := create(0, IntToDec(id), true);
    } else {
      id, err := CreateFresh(draws, create);
    }
    devId := id;
    if err.Some? {
      return Err(err.value), devId;
    }
    var _ := d.SetVolumeId(podId, volName, IntToDec(id));
    r := Ok(DmVolumeInfo(shortName, volName, probeFs));
  }

  /** The device id DevMapperStorage.RemoveVolume reads: the record's second field, 0 if not a number. */
  function RecordDevId(record: string): (id: int)
    requires |Split(record, ':')| >= 2
  {
    AtoiValue(Split(record, ':')[1])
  }

  /** The record CreateVolume stores gives back the device id it was created with. */
  lemma RecordDevIdRoundTrip(volName: string, devId: int)
    requires ':' !in volName && InInt64(devId)
    ensures |Split(VolRecord(volName, IntToDec(devId)), ':')| >= 2
    ensures RecordDevId(VolRecord(volName, IntToDec(devId))) == devId
  {
    var dec := IntToDec(devId);
    DecHasNoColon(devId);
    assert [volName, dec][1..] == [dec];
    assert Join([volName, dec], ':') == VolRecord(volName, dec);
    SplitJoin([volName, dec], ':');
    AtoiIntToDec(devId);
  }

  lemma DecHasNoColon(i: int)
    ensures ':' !in IntToDec(i)
  {
    var s := IntToDec(i);
    var n := if i < 0 then -i else i;
    assert AllDigits(NatToDec(n));
    assert forall j :: 0 <= j < |NatToDec(n)| ==> NatToDec(n)[j] != ':';
    if i < 0 {
      assert s == "-" + NatToDec(n);
      assert forall j :: 0 <= j < |s| ==> s[j] != ':';
    }
  }

  /**
   * RemoveVolume: devicemapper deletes the device named by the record (the
   * record must have a second field: Go indexes it unchecked); every other
   * driver keeps its volumes.
   */
  function RemoveVolume(drv: Driver, record: string, deleteVolume: int -> Option<string>): (err: Option<string>)
    requires drv.DevMapper? ==> |Split(record, ':')| >= 2
    ensures !drv.DevMapper? ==> err.None?
    ensures drv.DevMapper? ==> err == deleteVolume(RecordDevId(record))
  {
    if drv.DevMapper? then deleteVolume(AtoiValue(Split(record, ':')[1])) else None
  }

  /**
   * CreateVolume per driver: devicemapper as above; aufs, overlay and vbox
   * make a VFS directory; rbd refuses.
   */
  method CreateVolume(d: Daemon, drv: Driver, podId: string, shortName: string, order: seq<string>,
                      draws: seq<int>, create: CreateOracle, probeFs: string -> Option<string>,
                      createVfs: (string, string) -> Result<string>)
    returns (r: Result<VolumeInfo>)
    requires drv.DevMapper? ==>
               && Enumerates(order, PrefixKeys(d.db.data, VolPrefix(podId)))
               && (forall k :: k in PrefixKeys(d.db.data, VolPrefix(podId)) ==> RecordReadable(d.db.data[k], DmVolName(drv, podId, shortName)))
               && ValidDraws(draws)
               && (VolumeDev(d.db.data, order, DmVolName(drv, podId, shortName)) <= 0 ==> SomeAttemptEnds(draws, create))
    modifies d.db
    ensures !drv.DevMapper? ==> d.db.data == old(d.db.data)
    ensures drv.RbdStore? ==> r == Err("rbd storage driver does not support volume yet")
    ensures (drv.Aufs? || drv.Overlay? || drv.VBox?) ==>
              r == match createVfs(podId, shortName)
                   case Err(e) => Err(e)
                   case Ok(path) => Ok(VolumeInfo(shortName, path, "dir", ""))
    ensures drv.DevMapper? && r.Ok? ==> r.value == DmVolumeInfo(shortName, DmVolName(drv, podId, shortName), probeFs)
  {
    match drv
    case DevMapper(_, _, _, _, _) =>
      var res, _ := DmCreateVolume(d, drv, podId, shortName, order, draws, create, probeFs);
      r := res;
    case RbdStore(_, _, _) =>
      r := Err("rbd storage driver does not support volume yet");
    case _ =>
      match createVfs(podId, shortName)
      case Err(e) =>
        r := Err(e);
      case Ok(path) =>
        r := Ok(VolumeInfo(shortName, path, "dir", ""));
  }
}
