# runv / hyperd control plane in Dafny

This project models the control plane of the runv hypervisor runtime and of the hyperd daemon. It proves properties about that model. The parts modelled are:

- **runv and runv-lazy.** This is the per-VM side:
  - the persistence codec that flattens a VM context into a record and rebuilds it;
  - the lazy VM lifecycle (the PREPARING state, device preparation, pending TTY attaches, network and block-device allocation);
  - the QMP device-session builders and the session executor's retry and FIFO behaviour;
  - the QEMU driver's pure logic (RBD filenames, `Dump`/`LoadContext`, command-line arguments, lazy device queues);
  - the IP allocator.
- **hyperd.** This is the daemon side:
  - the RBD device set of the graph driver (naming, mount reference counts, register/unregister with rollback);
  - the daemon's LevelDB key scheme and its pod and VM registries;
  - the VM commands;
  - the `list`, `exitstatus`, `exec`, `tty`, `migrate` and `listen` commands;
  - the storage drivers;
  - the engine's run-once jobs;
  - the HTTP server's error classification, parameter parsing, version gate and route registration.

One Dafny module stands for each source file. The shared modules are:

- `Common`: Option and Result, string search, split/join, decimal and hex text, case folding;
- `Hypervisor`: runv's shared types and the VM context class.

Code that changes state in place is modelled in the same way:

- classes hold the fields it updates (`VmContext`, `QemuContext`, `AllocatedMap`, `IPAllocator`, `DevInfo`, `RbdSet`, `Db`, `Daemon`, `Job`);
- methods carry `modifies` clauses;
- loops carry invariants.

Each such method is proved against a specification function, and the function's properties are proved as lemmas. Code that only computes is modelled as functions and lemmas.

Everything outside the modelled code is a parameter of the operation that uses it. This covers:

- the driver, Docker, rados/rbd and exec calls;
- sockets, the clock and random numbers;
- Go's map iteration order, given as a sequence that lists each key once (`Enumerates`).

Three points of the code are easy to misread:

- the QMP disk-remove session sends `drive_del` first and `device_del` second;
- `vmContext` rebuilds the shared volumes but never stores them. `Persistence.Restore` keeps this behaviour; `Persistence.VolumesFrom` builds the volumes it drops, and `Persistence.VolumesRoundTrip` proves they are the dumped ones (see Findings);
- `DiskId2Name` is not part of this model. The model gives it the bijective base-26 naming of SCSI disks (`a` … `z`, `aa`, …).

## Model

| member | source | states |
|---|---|---|
| Persistence.DumpBlock | runv/hypervisor/persistence.go:106-115 | the persisted record carries the descriptor's name, filename, format, fstype, device name and SCSI id, with no containers or mount points yet |
| Persistence.BlockInfo | runv/hypervisor/persistence.go:117-126 | blockInfo is the inverse of dump: dumping the rebuilt descriptor gives the record back (less containers and mount points); Options are not persisted |
| Persistence.BlockRoundTrip | runv/hypervisor/persistence.go:106-126 | blockInfo(dump(b)) equals b on name, filename, format, fstype, device name and SCSI id |
| Persistence.LoadHwStatus | runv/hypervisor/persistence.go:92-104 | after loadHwStatus, dumpHwInfo gives back exactly the recorded PCI address, SCSI id and attach id |
| Persistence.VolLookup | runv/hypervisor/persistence.go:147-154 | the first volume mounted at the mount point, or none when no volume is mounted there |
| Persistence.MapLookup | runv/hypervisor/persistence.go:138-145 | the first fs mapping whose path is the mount point, or none when no mapping has it |
| Persistence.RoLookupAnswers | runv/hypervisor/persistence.go:128-136 | a volume at the mount point decides the read-only flag; failing that a mapping at it decides; failing both the answer is false |
| Persistence.DumpVolume | runv/hypervisor/persistence.go:64-76 | a volume's record lists its container indices in visiting order, each paired with its own mount point from pos |
| Persistence.Dump | runv/hypervisor/persistence.go:40-90 | a driver Dump error is returned; otherwise the record holds the id, driver info, both specs and counters, a volume list of exactly #images + #volumes entries and a network list of #networks entries |
| Persistence.DumpVolumes | runv/hypervisor/persistence.go:52-76 | the volume list is the image entries followed by the volume entries, in visiting order, every slot filled |
| Persistence.DumpImagesInto | runv/hypervisor/persistence.go:56-62 | the image loop fills the first #images slots with the image entries and leaves the rest untouched |
| Persistence.DumpVolumesInto | runv/hypervisor/persistence.go:64-76 | the volume loop fills the slots after the images, so the whole list is the dumped volume list |
| Persistence.DumpNetworks | runv/hypervisor/persistence.go:78-87 | the network list copies index, PCI address, device name and IP of every network, in visiting order |
| Persistence.DumpedImageShape | runv/hypervisor/persistence.go:57-62 | every image entry has exactly one container index, its pos, at mount point "/", and reads back as its descriptor |
| Persistence.DumpedVolumeShape | runv/hypervisor/persistence.go:64-76 | every volume entry has as many containers as mount points as positions, pairing each index with its mount point, and lists every position |
| Persistence.FirstFaultAt | runv/hypervisor/persistence.go:193-197 | the first entry whose counts mismatch (or whose index is outside the pod) decides vmContext's error |
| Persistence.NoFirstFault | runv/hypervisor/persistence.go:193-197 | with no faulty entry vmContext reports no error |
| Persistence.TtysFrom | runv/hypervisor/persistence.go:186-191 | a persistent TTY slot exists exactly for each container's tty and each stderr > 0, and names a container owning that stream |
| Persistence.PosMapFacts | runv/hypervisor/persistence.go:210-212 | the rebuilt position map has exactly the listed container indices, each with its own mount point when the indices are distinct |
| Persistence.ReadOnlyMapFacts | runv/hypervisor/persistence.go:210-213 | the rebuilt read-only map has exactly the listed indices, each flag being roLookup of that container at its mount point |
| Persistence.PosMapOfEntry | runv/hypervisor/persistence.go:64-76 | reading back the pairs dump wrote for a volume gives exactly its position map |
| Persistence.ImagesFromValue | runv/hypervisor/persistence.go:198-203 | an image-shaped entry is stored under its name with pos = Containers[0], unless a later image entry has the same name |
| Persistence.VolumesFromValue | runv/hypervisor/persistence.go:204-215 | a shared-volume entry rebuilds its volumeInfo under its name, unless a later volume entry has the same name |
| Persistence.NetworksFromValue | runv/hypervisor/persistence.go:218-225 | a network entry is stored under its Index with copied fields, unless a later entry has the same Index |
| Persistence.ImagesFromKeys | runv/hypervisor/persistence.go:198-203 | the rebuilt image map's names are exactly those of the image-shaped entries |
| Persistence.VolumesFromKeys | runv/hypervisor/persistence.go:204-215 | the rebuilt volume map's names are exactly those of the shared-volume entries |
| Persistence.NetworksFromKeys | runv/hypervisor/persistence.go:218-225 | the rebuilt network map's keys are exactly the entries' indices |
| Persistence.RebuildTtys | runv/hypervisor/persistence.go:186-191 | the TTY loop builds exactly TtysFrom of the containers |
| Persistence.RebuildVolume | runv/hypervisor/persistence.go:205-214 | the inner loop rebuilds an entry's position and read-only maps, and fails only when some container index is outside the pod |
| Persistence.RebuildNetworks | runv/hypervisor/persistence.go:218-225 | the network loop builds exactly NetworksFrom of the list |
| Persistence.RebuildDevices | runv/hypervisor/persistence.go:193-216 | the volume-list loop stops with the first entry's fault; otherwise it yields the rebuilt image map and the volumes it builds, which `vmContext` then drops |
| Persistence.Restore | runv/hypervisor/persistence.go:166-228 | a driver load or init error gives no context; a corrupt entry gives "persistent data corrupt" and no context; otherwise the context has the record's id, specs, counters, TTY slots, the image and network maps rebuilt from the lists, and an empty volume map |
| Persistence.RestoredContext | runv/hypervisor/persistence.go:175-184 | the restored context holds the record's id, specs and hardware counters verbatim |
| Persistence.DumpedEntries | runv/hypervisor/persistence.go:56-76 | in a dumped list the image entries come first and read back as images, and the volume entries read back as volumes without fault |
| Persistence.ImagesRoundTrip | runv/hypervisor/persistence.go:56-62 | vmContext(dump(ctx)) has exactly the context's images, less their Options |
| Persistence.VolumeEntryRoundTrip | runv/hypervisor/persistence.go:64-76 | reading back a dumped volume entry gives the volume with its read-only flags looked up again |
| Persistence.VolumesRoundTrip | runv/hypervisor/persistence.go:204-215 | rebuilding the dumped volumes, as evidently intended, gives exactly the context's volumes with read-only flags looked up again |
| Persistence.NetworksRoundTrip | runv/hypervisor/persistence.go:218-225 | vmContext(dump(ctx)) has exactly the context's networks, less the host side that is not persisted |
| Persistence.RestoreLosesVolumes | runv/hypervisor/persistence.go:204-215 | dumping a context that has shared volumes and restoring the record gives a context whose volume map is empty, although the dumped list rebuilds a non-empty one; the images come back stripped of their runtime fields |
| Persistence.ReadOnlyMapOfPositions | runv/hypervisor/persistence.go:210-213 | looking the read-only flags up pair by pair, in any visiting order, gives one flag per position |
| Lazy.StillPending | runv/hypervisor/lazy.go:102-113 | no more attaches are queued again than were pending, and none of their containers is in the pod |
| Lazy.Bound | runv/hypervisor/lazy.go:102-113 | each attach bound carries the index of its container in the pod |
| Lazy.DrawnFromPending | runv/hypervisor/lazy.go:102-113 | every attach queued again and every attach bound was one of the pending ones |
| Lazy.PendingPartition | runv/hypervisor/lazy.go:102-113 | every pending attach is either bound to its container or queued again; none is lost |
| Lazy.NothingBoundWhenNoneFound | runv/hypervisor/lazy.go:102-113 | when no pending container is in the pod, the queue is unchanged, in its original order |
| Lazy.RequeuePendingTtys | runv/hypervisor/lazy.go:102-113 | the loop leaves exactly StillPending queued and attaches exactly Bound, in order |
| Lazy.EthName | runv/hypervisor/lazy.go:185 | interface names start with "eth" |
| Lazy.EthNameInjective | runv/hypervisor/lazy.go:185 | distinct interfaces get distinct names |
| Lazy.NetworkConfigure | runv/hypervisor/lazy.go:168-181 | the host side takes the bridge as bridge and gateway; the guest side takes index, PCI address and device name from the interface |
| Lazy.FirstAllocError | runv/hypervisor/lazy.go:184-190 | the first interface whose allocation fails; all before it succeed |
| Lazy.NicActions | runv/hypervisor/lazy.go:191-193 | one LazyAddNic request per allocated interface |
| Lazy.NicActionAt | runv/hypervisor/lazy.go:191-193 | the j-th LazyAddNic request carries the networkConfigure of the j-th allocated interface |
| Lazy.InstallNic | runv/hypervisor/lazy.go:191-193 | an allocated interface is recorded under its index and handed to the driver |
| Lazy.AllocateNetworks | runv/hypervisor/lazy.go:183-197 | each interface takes the next PCI address; the error is the first failed allocation; exactly the interfaces before it are recorded and handed to the driver |
| Lazy.AllocateEach | runv/hypervisor/lazy.go:184-194 | the loop consumes one PCI address per attempted interface and stops at the first failure |
| Lazy.KnownCount | runv/hypervisor/lazy.go:199-211 | at most one SCSI id per queued block device |
| Lazy.DiskActionIds | runv/hypervisor/lazy.go:199-211 | exactly the names in either map get a LazyAddDisk request, on consecutive SCSI ids |
| Lazy.VolumeBeforeImage | runv/hypervisor/lazy.go:201-206 | a name in both maps is added as a volume, never as an image |
| Lazy.AddBlockDevices | runv/hypervisor/lazy.go:199-211 | the SCSI counter advances by the number of known names, and unknown names are skipped without an id |
| Lazy.InitDeviceContext | runv/hypervisor/lazy.go:95 | the context takes the spec, the device maps and the device queues |
| Lazy.SetUpDevices | runv/hypervisor/lazy.go:95-124 | after the count check the device state becomes SetUpState of the old one: spec, maps and queues installed, pending attaches sorted out, networks allocated, block devices added only when every network was allocated; a failed allocation is logged |
| Lazy.SetUpState | runv/hypervisor/lazy.go:95-124 | the device state after preparation: the spec and InitDeviceContext's maps and queues installed; a preparable pod adds no report, an allocation failure adds one; pciAddr grows unless there are no networks, scsiId never goes down |
| Lazy.AttachAndAdd | runv/hypervisor/lazy.go:102-124 | pending attaches, then networks, then block devices; a failed allocation is reported as a VM fault |
| Lazy.AddDevices | runv/hypervisor/lazy.go:117-124 | block devices are added only after every network was allocated; a failed allocation reports a VM fault and adds no block device |
| Lazy.PrepareDevice | runv/hypervisor/lazy.go:88-125 | a spec/container count mismatch reports a bad request and sets no device context; with matching counts the device state is SetUpState of the old one and a failed allocation is logged; success iff the count matches and every network is allocated |
| Lazy.StatePreparing | runv/hypervisor/lazy.go:47-86 | exit and interrupt change nothing; shutdown and release report "VM shutdown" and become NONE; a run or replace ends as PrepareAndStart states, a listen as PrepareAndListen states, both with the device state SetUpDevices leaves |
| Lazy.PrepareAndListen | runv/hypervisor/lazy.go:73-82 | a count mismatch only reports the bad request; otherwise the device state is SetUpState of the old one, and a prepared listen asks the driver to listen, starts the sockets and becomes RUNNING, an unprepared one becomes None; the timeout is kept |
| Lazy.PrepareAndStart | runv/hypervisor/lazy.go:62-72 | a count mismatch only reports the bad request; otherwise the device state is SetUpState of the old one, and a prepared run starts the sockets, launches lazily, sets a 60 s timeout and becomes STARTING, an unprepared one becomes None |
| Lazy.LaunchPrepared | runv/hypervisor/lazy.go:64-68 | starts the sockets, launches lazily, sets a 60 s timeout and becomes STARTING, leaving the device state alone |
| Lazy.ListenPrepared | runv/hypervisor/lazy.go:73-78 | asks the driver to listen on the address, starts the sockets and becomes RUNNING, leaving the device state alone |
| Lazy.Quit | runv/hypervisor/lazy.go:69-71 | becomes None with no handler, leaving the device state alone |
| Lazy.LazyVmLoop | runv/hypervisor/lazy.go:11-45 | an InitContext error answers E_BAD_REQUEST with no context; a non-lazy driver or an InitVM failure reports a bad request; otherwise the loop enters PREPARING |
| QmpWrapper.DiskId2Name | runv-lazy/hypervisor/qemu/qmp_wrapper.go:20-22 | the disk suffix is one or more lower-case letters |
| QmpWrapper.DiskNameRoundTrip | runv-lazy/hypervisor/qemu/qmp_wrapper.go:20-22 | the disk number can be read back from its name (bijective base 26) |
| QmpWrapper.ScsiId2Name | runv-lazy/hypervisor/qemu/qmp_wrapper.go:20-22 | every SCSI device name starts with "sd" and has a suffix |
| QmpWrapper.ScsiNameInjective | runv-lazy/hypervisor/qemu/qmp_wrapper.go:20-22 | two SCSI ids never share a device name |
| QmpWrapper.Respond | runv-lazy/hypervisor/qemu/qmp_wrapper.go:24-36 | on success exactly the callback is posted, or nothing for a nil callback; on error DeviceFailed carrying the callback is posted |
| QmpWrapper.QuitSession | runv-lazy/hypervisor/qemu/qmp_wrapper.go:13-18 | the quit session is a single `quit` command with no arguments and posts nothing on success |
| QmpWrapper.DiskAddSession | runv-lazy/hypervisor/qemu/qmp_wrapper.go:38-64 | exactly two commands, drive_add through the human monitor and then a scsi-hd device_add on scsi0.0 with drive `drive<id>`, id `scsi-disk<id>` and a scsi-id that is the id in decimal; success posts BlockdevInserted with name, source type, scsiId2Name(id) and id |
| QmpWrapper.DiskDelSession | runv-lazy/hypervisor/qemu/qmp_wrapper.go:66-84 | command 0 is `drive_del drive<id>` and command 1 is `device_del scsi-disk<id>`; the caller's callback is posted |
| QmpWrapper.DiskDelUndoesAdd | runv-lazy/hypervisor/qemu/qmp_wrapper.go:38-84 | the disk-del session removes exactly the drive and the device the disk-add session created |
| QmpWrapper.FdAsInt | runv-lazy/hypervisor/qemu/qmp_wrapper.go:89 | int(fd) of a uint64 is the 64-bit two's-complement value congruent to fd |
| QmpWrapper.BusAddrReadsBack | runv-lazy/hypervisor/qemu/qmp_wrapper.go:87 | the hot-plug bus address `0x%x` reads back, in hexadecimal, as the PCI address |
| QmpWrapper.NetworkAddSession | runv-lazy/hypervisor/qemu/qmp_wrapper.go:86-124 | getfd with the descriptor as SCM rights, then a tap netdev_add on `fd<device>`, then a virtio-net-pci device_add on pci.0 at `0x%x` of the address; success posts NetDevInserted with index, device and address |
| QmpWrapper.NetworkDelSession | runv-lazy/hypervisor/qemu/qmp_wrapper.go:126-145 | device_del and then netdev_del, both on the same device id; the caller's callback is posted |
| QmpWrapper.NetworkDelUndoesAdd | runv-lazy/hypervisor/qemu/qmp_wrapper.go:86-145 | the net-del session removes the device and the backend the net-add session created |
| QmpWrapper.QmpChannel.Send | runv-lazy/hypervisor/qemu/qmp_wrapper.go:17 | a session is queued at the end of the channel |
| QmpWrapper.QmpChannel.Quit | runv-lazy/hypervisor/qemu/qmp_wrapper.go:13-18 | qmpQemuQuit queues exactly the quit session |
| QmpWrapper.QmpChannel.NewDiskAddSession | runv-lazy/hypervisor/qemu/qmp_wrapper.go:38-64 | queues exactly the disk-add session |
| QmpWrapper.QmpChannel.NewDiskDelSession | runv-lazy/hypervisor/qemu/qmp_wrapper.go:66-84 | queues exactly the disk-del session |
| QmpWrapper.QmpChannel.NewNetworkAddSession | runv-lazy/hypervisor/qemu/qmp_wrapper.go:86-124 | queues exactly the net-add session |
| QmpWrapper.QmpChannel.NewNetworkDelSession | runv-lazy/hypervisor/qemu/qmp_wrapper.go:126-145 | queues exactly the net-del session |
| QmpExecutor.Decode | runv-lazy/hypervisor/qemu/qmp_test.go:11-36 | a message with `error` is an error reply, else one with `event` is an event, else one with `return` is a result; anything else is not a reply |
| QmpExecutor.AsyncEvent | runv-lazy/hypervisor/qemu/qmp_test.go:102-120 | the SHUTDOWN monitor event, and only it, becomes the VM's exit event |
| QmpExecutor.Submit | runv-lazy/hypervisor/qemu/qmp_test.go:400-483 | a queued session goes behind the others; its first command is written at once only when nothing is in flight |
| QmpExecutor.Finish | runv-lazy/hypervisor/qemu/qmp_test.go:229-266 | the finished session's response is posted and the next queued session's first command is written |
| QmpExecutor.Step | runv-lazy/hypervisor/qemu/qmp_test.go:229-354 | every reply keeps the executor's invariant: the last command written is the step in flight, with fewer than three errors on it |
| QmpExecutor.Run | runv-lazy/hypervisor/qemu/qmp_test.go:229-354 | any sequence of replies keeps the invariant and the session queue |
| QmpExecutor.RunAppend | runv-lazy/hypervisor/qemu/qmp_test.go:229-354 | replies can be processed in any split |
| QmpExecutor.ErrorResendsStep | runv-lazy/hypervisor/qemu/qmp_test.go:267-311 | an error below the limit resends the very command that failed and posts nothing |
| QmpExecutor.ResultClearsErrors | runv-lazy/hypervisor/qemu/qmp_test.go:267-311 | a result after an error goes on to the next step with the error count reset |
| QmpExecutor.ThreeErrorsFail | runv-lazy/hypervisor/qemu/qmp_test.go:312-354 | three errors in a row send the step three times and fail the session with DeviceFailed carrying its callback |
| QmpExecutor.ErrorAtLimitFails | runv-lazy/hypervisor/qemu/qmp_test.go:312-354 | the error that reaches the limit fails the session |
| QmpExecutor.ResultAdvances | runv-lazy/hypervisor/qemu/qmp_test.go:229-266 | a result on a step that is not the last sends the next step and posts nothing |
| QmpExecutor.ResultFinishes | runv-lazy/hypervisor/qemu/qmp_test.go:229-266 | a result on the last step finishes the session successfully |
| QmpExecutor.ResultsComplete | runv-lazy/hypervisor/qemu/qmp_test.go:229-266 | when every remaining step succeeds, the remaining commands are written in order and the success response is posted once |
| QmpExecutor.ResultsQuiet | runv-lazy/hypervisor/qemu/qmp_test.go:229-266 | results before the last step post nothing and do not finish the session |
| QmpExecutor.ErrorThenResults | runv-lazy/hypervisor/qemu/qmp_test.go:267-311 | one error followed by successes still completes the session, with the failed step sent twice |
| QmpExecutor.FifoSessions | runv-lazy/hypervisor/qemu/qmp_test.go:400-483 | two queued sessions run in queue order: the first's commands, then the second's, with the responses posted in that order |
| QmpExecutor.FirstOfTwo | runv-lazy/hypervisor/qemu/qmp_test.go:400-483 | after the first session's results, it is done, its response posted and the second has started |
| QmpExecutor.SecondOfTwo | runv-lazy/hypervisor/qemu/qmp_test.go:400-483 | the second session then completes after the first |
| Qemu.EscapeHead | runv/hypervisor/qemu/qemu.go:193-201 | an escaped non-empty monitor address is non-empty and never starts with ':' |
| Qemu.EscapeKeeps | runv/hypervisor/qemu/qemu.go:193-201 | escaping introduces no character other than the backslash and ':' |
| Qemu.UnescapeEscape | runv/hypervisor/qemu/qemu.go:193-201 | reading `\:` back as `:` recovers every escaped monitor address |
| Qemu.EscapeAll | runv/hypervisor/qemu/qemu.go:193-201 | each monitor is escaped in place, the list keeping its length |
| Qemu.UnescapeAll | runv/hypervisor/qemu/qemu.go:193-201 | each piece is unescaped in place, the list keeping its length |
| Qemu.AuthSuffix | runv/hypervisor/qemu/qemu.go:185-191 | the credentials are written exactly when both the keyring and the user are set |
| Qemu.MonHostSnoc | runv/hypervisor/qemu/qemu.go:193-201 | each loop step adds ":mon_host=" before the first monitor and ';' before every later one, then the escaped monitor |
| Qemu.PlainFilename | runv/hypervisor/qemu/qemu.go:179-206 | a disk that is not an RBD image with options is added under its own filename |
| Qemu.MonitorsRoundTrip | runv/hypervisor/qemu/qemu.go:193-201 | splitting the written host list on ';' and unescaping each piece gives back the configured monitors |
| Qemu.RbdFilename | runv/hypervisor/qemu/qemu.go:179-203 | an RBD disk's filename is the image, then the credentials when both are set, then the monitor list |
| Qemu.Dump | runv/hypervisor/qemu/qemu.go:132-142 | refused when no process runs; otherwise a record of exactly the driver type "qemu", the socket and the pid |
| Qemu.LoadContext | runv/hypervisor/qemu/qemu.go:76-120 | succeeds exactly when the driver type is "qemu", the socket is a string, the pid an int and the process is found; then it holds that socket and pid; a wrong driver type gives its own error |
| Qemu.LoadDump | runv/hypervisor/qemu/qemu.go:76-142 | a dumped context with a live process loads back with the same socket and pid |
| Qemu.KernelFlags | runv/hypervisor/qemu/qemu.go:245-259 | a kernel boot passes -kernel, -initrd and -append |
| Qemu.BiosFlags | runv/hypervisor/qemu/qemu.go:245-259 | a BIOS boot passes -bios before the kernel's flags |
| Qemu.FlashFlags | runv/hypervisor/qemu/qemu.go:245-259 | a CBFS boot passes one flash drive per firmware image |
| Qemu.BootSelection | runv/hypervisor/qemu/qemu.go:245-259 | the kernel is passed exactly when there is no CBFS image, the BIOS exactly when there is one and no CBFS, and 0, 1 or 2 flash drives accordingly |
| Qemu.NicDevice | runv/hypervisor/qemu/qemu.go:289-294 | the evidently intended -device value: its PCI address in hexadecimal after "0x", which reads back as the address |
| Qemu.AllNicParams | runv/hypervisor/qemu/qemu.go:289-294 | four command-line words per queued NIC |
| Qemu.AllImageParams | runv/hypervisor/qemu/qemu.go:296-301 | four command-line words per queued image |
| Qemu.NicParamsInOrder | runv/hypervisor/qemu/qemu.go:289-294 | words 4i to 4i+3 are -netdev, the i-th NIC's tap descriptor and device, -device, and its device line as written: named netchan<i>, with its MAC and its PCI address in decimal after "0x" |
| Qemu.ImageParamsInOrder | runv/hypervisor/qemu/qemu.go:296-301 | words 4i to 4i+3 are -drive, the i-th image's drive description, -device, and a SCSI disk on that drive named and addressed by its SCSI id |
| Qemu.ColdPlugMatchesHotPlug | runv/hypervisor/qemu/qemu.go:296-301 | an image on the command line is described exactly as a hot-plugged drive_add describes it |
| Qemu.NicAddressReadsBack | runv/hypervisor/qemu/qemu.go:289-294 | with the address in hexadecimal, the PCI address after "0x" reads back as the address the guest is given |
| Qemu.NicAddressAsWrittenMisread | runv/hypervisor/qemu/qemu.go:292 | as written, PCI address 10 is put on the command line as "0x10" and reads back as 16 |
| Qemu.QemuContext.constructor | runv/hypervisor/qemu/qemu.go:66-74 | no process, empty NIC, image and callback queues, the monitor socket under the VM's home directory |
| Qemu.BuildDiskFilename | runv/hypervisor/qemu/qemu.go:184-202 | the filename AddDisk builds: an RBD image with options gets ":id=<user>:key=<keyring>" when both are set, then its monitors, colons escaped, after ":mon_host=" and joined by ";"; any other image keeps its filename |
| Qemu.QemuContext.AddDisk | runv/hypervisor/qemu/qemu.go:179-206 | queues exactly one disk-add session with the RBD-completed filename |
| Qemu.QemuContext.RemoveDisk | runv/hypervisor/qemu/qemu.go:208-212 | queues exactly one disk-del session for the SCSI id |
| Qemu.QemuContext.AddNic | runv/hypervisor/qemu/qemu.go:214-216 | queues exactly one net-add session with the host's descriptor and MAC and the guest's device, index and address |
| Qemu.QemuContext.RemoveNic | runv/hypervisor/qemu/qemu.go:218-220 | queues exactly one net-del session for the device |
| Qemu.QemuContext.Shutdown | runv/hypervisor/qemu/qemu.go:153-155 | queues the quit session |
| Qemu.QemuContext.LazyAddNic | runv/hypervisor/qemu/qemu.go:307-322 | appends one interface-inserted callback and one NIC to the launch queue |
| Qemu.QemuContext.LazyAddDisk | runv/hypervisor/qemu/qemu.go:324-340 | appends one block-inserted callback named after the SCSI id and one image to the launch queue |
| Qemu.QemuContext.Arguments | runv/hypervisor/qemu/qemu.go:227-304 | a missing boot configuration becomes the default; the command line is machine, boot source, fixed part, queued NICs (PCI addresses written in decimal after "0x"), queued images |
| Qemu.QemuContext.CommandLine | runv/hypervisor/qemu/qemu.go:238-301 | the command line for a given boot configuration, NICs and images last and in queue order, each NIC's device line as written |
| Qemu.BootOrDefault | runv/hypervisor/qemu/qemu.go:228-236 | the VM's boot configuration, the default one installed when it had none |
| Qemu.DefaultBootParams | runv/hypervisor/qemu/qemu.go:228-235 | the default boot configuration gives 128 MB and one CPU |
| Qemu.AppendMonitors | runv/hypervisor/qemu/qemu.go:193-201 | the loop appends exactly the monitor list to the filename |
| Qemu.AppendNicParams | runv/hypervisor/qemu/qemu.go:289-294 | the loop appends exactly the NIC words, in queue order, with the device lines as written |
| Qemu.AppendImageParams | runv/hypervisor/qemu/qemu.go:296-301 | the loop appends exactly the image words, in queue order |
| IpAllocator.NetIPSameAddress | runv-lazy/hypervisor/network/ipallocator/ipallocator.go:34-40 | the address form NetworkRange picks is nil exactly for an address neither 4 nor 16 bytes long; otherwise it is the same address, in 4 bytes exactly when the address is IPv4 (4 bytes or IPv4-mapped) |
| IpAllocator.IpToBigInt | runv-lazy/hypervisor/network/ipallocator/ipallocator.go:166-177 | an address has a value exactly when it is 4 or 16 bytes long; otherwise ipToBigInt gives nil |
| IpAllocator.MappedSameValue | runv-lazy/hypervisor/network/ipallocator/ipallocator.go:166-177 | an IPv4-mapped address has the value of its 4-byte form |
| IpAllocator.Masked | runv-lazy/hypervisor/network/ipallocator/ipallocator.go:47 | the first address is the address with the host bits cleared; a 16-byte mask whose first 12 bytes are all ones applies to a 4-byte address by its last 4 bytes, a 4-byte mask to an IPv4-mapped address by that address's last 4 bytes, and any other pair of different lengths gives nil |
| IpAllocator.LastAddr | runv-lazy/hypervisor/network/ipallocator/ipallocator.go:42-46 | each byte of the last address is the address form's byte with the host bits of the mask's byte at the same position set; a mask shorter than the address form is the index-out-of-range panic |
| IpAllocator.NetworkRange | runv-lazy/hypervisor/network/ipallocator/ipallocator.go:32-48 | the method's result is RangeOf: nil and nil for an address neither 4 nor 16 bytes long, the index panic for a mask shorter than the address form, else the first address by Masked and the last by LastAddr, both over the To4 form when there is one and the To16 form otherwise |
| IpAllocator.SameLengthRange | runv-lazy/hypervisor/network/ipallocator/ipallocator.go:32-48 | for a mask as long as its address (a 16-byte address not IPv4-mapped), the first address is the address with the host bits cleared and the last one the address with them set (section 3.1 of RFC 4632) |
| IpAllocator.RangeContainsAddress | runv-lazy/hypervisor/network/ipallocator/ipallocator.go:32-48 | whenever the first address is not nil, the first address, the address form and the last address have one length and the address form lies between the two |
| IpAllocator.MappedAddressSameRange | runv-lazy/hypervisor/network/ipallocator/ipallocator.go:32-40 | an IPv4-mapped 16-byte address has the range and the pool of its 4-byte form, whatever the mask |
| IpAllocator.WideMaskEndsAtAddress | runv-lazy/hypervisor/network/ipallocator/ipallocator.go:42-47 | for an IPv4 address with a 16-byte mask whose first 12 bytes are all ones, the last address is the address itself, so the usable range ends just before it, and a network given by its own first address hands out nothing |
| IpAllocator.UsableRange | runv-lazy/hypervisor/network/ipallocator/ipallocator.go:19-21 | the usable range runs from one past the first address's value to one before the last address's; the index panic passes through, and a nil address is the nil-pointer panic of big.Int arithmetic |
| IpAllocator.Bounds | runv-lazy/hypervisor/network/ipallocator/ipallocator.go:19-21 | the big.Int computation gives UsableRange, the panics included |
| IpAllocator.NewPool | runv-lazy/hypervisor/network/ipallocator/ipallocator.go:18-29 | an empty pool over the usable range with the cursor just before it, so the first address handed out is the beginning; the panics of UsableRange otherwise |
| IpAllocator.NewPoolFails | runv-lazy/hypervisor/network/ipallocator/ipallocator.go:18-29 | making a pool fails exactly for an address neither 4 nor 16 bytes long, a mask shorter than the address form or a mask that cannot be applied; the first of these with the nil-pointer panic, the second with the index panic, the third with the nil-pointer panic |
| IpAllocator.Check | runv-lazy/hypervisor/network/ipallocator/ipallocator.go:129-144 | an allocated address is refused first, then one outside the range; otherwise exactly that address is recorded |
| IpAllocator.Release | runv-lazy/hypervisor/network/ipallocator/ipallocator.go:123-125 | only the released address leaves the set |
| IpAllocator.ProbesCover | runv-lazy/hypervisor/network/ipallocator/ipallocator.go:148-164 | stepping from the cursor with wrap-around visits every address of the range within one full turn |
| IpAllocator.NextFreeFromFacts | runv-lazy/hypervisor/network/ipallocator/ipallocator.go:151-163 | the search returns a free address of the range with every address passed on the way allocated, or finds every probed address allocated |
| IpAllocator.NextIPFresh | runv-lazy/hypervisor/network/ipallocator/ipallocator.go:148-164 | getNextIP hands out a free address of the range, records it, makes it the cursor and keeps the pool valid; on failure the pool is unchanged and the error is "no available ip addresses on network" |
| IpAllocator.NextIPFirstFree | runv-lazy/hypervisor/network/ipallocator/ipallocator.go:148-164 | the address handed out is the first free one after the cursor, going round the range |
| IpAllocator.NextIPExhausted | runv-lazy/hypervisor/network/ipallocator/ipallocator.go:148-164 | getNextIP fails exactly when every address of the range is allocated |
| IpAllocator.FirstAllocationIsBegin | runv-lazy/hypervisor/network/ipallocator/ipallocator.go:18-29 | on a fresh network the first automatic allocation is the beginning of the range |
| IpAllocator.ReleaseUndoesCheck | runv-lazy/hypervisor/network/ipallocator/ipallocator.go:119-144 | releasing an address that checkIP has just recorded gives back the pool as it was |
| IpAllocator.ReleasedIsAvailable | runv-lazy/hypervisor/network/ipallocator/ipallocator.go:119-144 | a released address of the range can be requested again |
| IpAllocator.CheckKeepsValid | runv-lazy/hypervisor/network/ipallocator/ipallocator.go:129-144 | checkIP keeps every allocated address inside the range |
| IpAllocator.SubnetPool | runv-lazy/hypervisor/network/ipallocator/ipallocator.go:76-91 | the network's panic comes first, then the subnet's; a subnet is then accepted exactly when its usable range lies inside the network's and holds more than one address, and the pool starts empty just before it; otherwise "network does not contain specified subnet" |
| IpAllocator.NewAllocatedMap | runv-lazy/hypervisor/network/ipallocator/ipallocator.go:18-29 | the new pool object holds the network's fresh pool, or the panic making it is returned |
| IpAllocator.AllocatedMap.constructor | runv-lazy/hypervisor/network/ipallocator/ipallocator.go:22-28 | the new pool object is empty over the given range, with the cursor just before it |
| IpAllocator.AllocatedMap.Narrow | runv-lazy/hypervisor/network/ipallocator/ipallocator.go:89-91 | the pool is cut down to the subnet's range with the cursor just before it, its set unchanged |
| IpAllocator.AllocatedMap.CheckIP | runv-lazy/hypervisor/network/ipallocator/ipallocator.go:129-144 | result and new state are those of Check |
| IpAllocator.AllocatedMap.Allocate | runv-lazy/hypervisor/network/ipallocator/ipallocator.go:111-114 | with no address the next free one, otherwise the given one checked; the pool stays valid |
| IpAllocator.AllocatedMap.GetNextIP | runv-lazy/hypervisor/network/ipallocator/ipallocator.go:148-164 | the loop's result and new state are those of the wrap-around search over at most the whole range |
| IpAllocator.IPAllocator.constructor | runv-lazy/hypervisor/network/ipallocator/ipallocator.go:65-67 | no network is registered |
| IpAllocator.IPAllocator.RegisterSubnet | runv-lazy/hypervisor/network/ipallocator/ipallocator.go:72-94 | a registered network is refused with "network already registered"; a panic making either pool, or a subnet outside the network ("network does not contain specified subnet"), registers nothing; otherwise exactly that network gets the subnet's pool |
| IpAllocator.IPAllocator.Install | runv-lazy/hypervisor/network/ipallocator/ipallocator.go:92 | the new pool object becomes that network's pool and nothing else changes |
| IpAllocator.IPAllocator.RequestIP | runv-lazy/hypervisor/network/ipallocator/ipallocator.go:100-115 | an unknown network is registered with its whole range first, or the panic making its pool is returned with nothing registered; the result and that network's new pool are those of the request; other networks are untouched |
| IpAllocator.IPAllocator.Allot | runv-lazy/hypervisor/network/ipallocator/ipallocator.go:111-114 | the request's work on a registered network's pool, the other pools untouched |
| IpAllocator.IPAllocator.PoolFor | runv-lazy/hypervisor/network/ipallocator/ipallocator.go:104-109 | the network's pool object, created over its whole range when it was not registered and distinct from every other network's; or the panic making it, with nothing registered |
| IpAllocator.IPAllocator.ReleaseIP | runv-lazy/hypervisor/network/ipallocator/ipallocator.go:119-127 | never an error; a known network's pool loses the address; an unknown network changes nothing |
| Rbd.NamesDistinct | hyper/lib/docker/daemon/graphdriver/rbd/rbd.go:82-100 | distinct layer hashes get distinct images, snapshots and metadata objects |
| Rbd.BaseNames | hyper/lib/docker/daemon/graphdriver/rbd/rbd.go:82-100 | the empty hash names the base image and its metadata, while its snapshot name has no base case |
| Rbd.NameSpacesDisjoint | hyper/lib/docker/daemon/graphdriver/rbd/rbd.go:82-100 | an image, a snapshot and a metadata object never share a name |
| Rbd.Loaded | hyper/lib/docker/daemon/graphdriver/rbd/rbd.go:128-150 | a device read back from its metadata keeps the stored size, parent and initialised flag, with no mapping and no mount |
| Rbd.MapDev | hyper/lib/docker/daemon/graphdriver/rbd/rbd.go:314-333 | a device already set is left alone; otherwise success means `rbd map` succeeded and the device is the one `rbd showmapped` lists; a failure changes nothing |
| Rbd.UnmapDev | hyper/lib/docker/daemon/graphdriver/rbd/rbd.go:335-353 | an unset device is left alone; success clears the device; a failure changes nothing and is the `rbd unmap` error for a listed image |
| Rbd.MountDev | hyper/lib/docker/daemon/graphdriver/rbd/rbd.go:152-201 | a device mounted elsewhere is refused unchanged; a success records the path and counts one more user; a failure keeps the count and the path |
| Rbd.UnmountDev | hyper/lib/docker/daemon/graphdriver/rbd/rbd.go:203-234 | an unmounted device is an error; otherwise one user less, and only the last user's departure clears the path |
| Rbd.SharedMountUndone | hyper/lib/docker/daemon/graphdriver/rbd/rbd.go:161-224 | a second user at the same path and its departure leave the device as it was |
| Rbd.FirstMountUndone | hyper/lib/docker/daemon/graphdriver/rbd/rbd.go:171-233 | the first mount of an unmapped device, undone by the last unmount with every call succeeding, leaves the device as it was |
| Rbd.MountsCount | hyper/lib/docker/daemon/graphdriver/rbd/rbd.go:161-168 | n more users at the same path count n more and change nothing else |
| Rbd.Lookup | hyper/lib/docker/daemon/graphdriver/rbd/rbd.go:64-80 | a device is found exactly when it is registered or its metadata is stored; stored metadata is cached; the error is the metadata read's, only for an unregistered hash; other entries are untouched |
| Rbd.Mount | hyper/lib/docker/daemon/graphdriver/rbd/rbd.go:152-201 | MountDevice on the registry: every other device is untouched and no unrelated hash appears |
| Rbd.Unmount | hyper/lib/docker/daemon/graphdriver/rbd/rbd.go:203-234 | UnmountDevice on the registry: every other device is untouched and no unrelated hash appears |
| Rbd.MountElsewhereRefused | hyper/lib/docker/daemon/graphdriver/rbd/rbd.go:161-168 | a device mounted at another path refuses the new one and keeps its count |
| Rbd.UnmountUnmountedRefused | hyper/lib/docker/daemon/graphdriver/rbd/rbd.go:203-213 | unmounting an unmounted device is the "device not-mounted" error and changes nothing |
| Rbd.RegisterAsWritten | hyper/lib/docker/daemon/graphdriver/rbd/rbd.go:236-260 | the new uninitialised, unmapped device is registered; on a failed save the entry is dropped again, yet no error is returned |
| Rbd.Register | hyper/lib/docker/daemon/graphdriver/rbd/rbd.go:236-260 | the save's error is returned, and the device is registered exactly when there is none |
| Rbd.RegisterSwallowsSaveError | hyper/lib/docker/daemon/graphdriver/rbd/rbd.go:236-260 | as written, a failed save reports success although the device is no longer registered |
| Rbd.Unregister | hyper/lib/docker/daemon/graphdriver/rbd/rbd.go:262-276 | never an error; the entry leaves the registry and is put back when deleting the metadata fails |
| Rbd.RegisterUnregisterUndone | hyper/lib/docker/daemon/graphdriver/rbd/rbd.go:236-276 | registering a new device and unregistering it, both metadata calls succeeding, restores the registry |
| Rbd.UnregisterRollsBack | hyper/lib/docker/daemon/graphdriver/rbd/rbd.go:262-276 | a failed metadata removal leaves the device registered as it was |
| Rbd.Has | hyper/lib/docker/daemon/graphdriver/rbd/rbd.go:278-281 | true exactly when the device is registered or its metadata is stored |
| Rbd.Add | hyper/lib/docker/daemon/graphdriver/rbd/rbd.go:542-569 | AddDevice as written, through registerDevice: the registry stays valid and devices under other hashes are untouched |
| Rbd.AddUntilRegister | hyper/lib/docker/daemon/graphdriver/rbd/rbd.go:542-565 | AddDevice up to registerDevice: the registry stays valid, other hashes are untouched, and registration is reached only for a new layer whose parent is known and whose image was created |
| Rbd.AddChecked | hyper/lib/docker/daemon/graphdriver/rbd/rbd.go:542-569 | AddDevice with registerDevice's save error returned: the registry stays valid and other hashes are untouched |
| Rbd.AddSwallowsSaveError | hyper/lib/docker/daemon/graphdriver/rbd/rbd.go:236-260 | a new layer whose metadata save fails is reported as success by Add yet is not registered; AddChecked returns the save error |
| Rbd.AddRegistersWhenSaved | hyper/lib/docker/daemon/graphdriver/rbd/rbd.go:542-569 | as written, a reported success leaves the layer registered when its metadata was saved, was found, or it already existed |
| Rbd.AddRegistersOnSuccess | hyper/lib/docker/daemon/graphdriver/rbd/rbd.go:542-569 | with the save error returned (AddChecked), a reported success leaves the layer registered, a new one with its parent's size; an existing layer with a known parent is success with nothing created |
| Rbd.ShutdownDev | hyper/lib/docker/daemon/graphdriver/rbd/rbd.go:626-641 | an unmounted device is left alone; the mount count and path are kept |
| Rbd.ShutdownIdempotent | hyper/lib/docker/daemon/graphdriver/rbd/rbd.go:626-641 | detaching a device twice is detaching it once |
| Rbd.ShutdownAdvances | hyper/lib/docker/daemon/graphdriver/rbd/rbd.go:626-641 | each loop step detaches one more listed device |
| Rbd.ShutdownAll | hyper/lib/docker/daemon/graphdriver/rbd/rbd.go:614-649 | after the loop every registered device is detached |
| Rbd.DevInfo.constructor | hyper/lib/docker/daemon/graphdriver/rbd/rbd.go:236-245 | the object holds the given device state |
| Rbd.DevInfo.MapImage | hyper/lib/docker/daemon/graphdriver/rbd/rbd.go:314-333 | result and new state are those of MapDev |
| Rbd.DevInfo.UnmapImage | hyper/lib/docker/daemon/graphdriver/rbd/rbd.go:335-353 | result and new state are those of UnmapDev |
| Rbd.DevInfo.Mount | hyper/lib/docker/daemon/graphdriver/rbd/rbd.go:152-201 | result and new state are those of MountDev |
| Rbd.DevInfo.Unmount | hyper/lib/docker/daemon/graphdriver/rbd/rbd.go:203-234 | result and new state are those of UnmountDev |
| Rbd.RbdSet.constructor | hyper/lib/docker/daemon/graphdriver/rbd/rbd.go:651-672 | the registry starts empty |
| Rbd.RbdSet.LookupDevice | hyper/lib/docker/daemon/graphdriver/rbd/rbd.go:64-80 | result and registry are those of Lookup; registered objects are kept, a newly loaded one is fresh |
| Rbd.RbdSet.HasDevice | hyper/lib/docker/daemon/graphdriver/rbd/rbd.go:278-281 | the answer is Has, with the lookup's caching |
| Rbd.RbdSet.MountDevice | hyper/lib/docker/daemon/graphdriver/rbd/rbd.go:152-201 | error and registry are those of Mount |
| Rbd.RbdSet.MountFound | hyper/lib/docker/daemon/graphdriver/rbd/rbd.go:152-201 | the registered device object is mounted in place, the other objects untouched |
| Rbd.RbdSet.UnmountDevice | hyper/lib/docker/daemon/graphdriver/rbd/rbd.go:203-234 | error and registry are those of Unmount |
| Rbd.RbdSet.UnmountFound | hyper/lib/docker/daemon/graphdriver/rbd/rbd.go:203-234 | the registered device object is unmounted in place, the other objects untouched |
| Rbd.RbdSet.RegisterDevice | hyper/lib/docker/daemon/graphdriver/rbd/rbd.go:236-260 | the registry is that of RegisterAsWritten |
| Rbd.RbdSet.RegisterDeviceChecked | hyper/lib/docker/daemon/graphdriver/rbd/rbd.go:236-260 | error and registry are those of Register |
| Rbd.RbdSet.UnRegisterDevice | hyper/lib/docker/daemon/graphdriver/rbd/rbd.go:262-276 | error and registry are those of Unregister |
| Rbd.RbdSet.AddDevice | hyper/lib/docker/daemon/graphdriver/rbd/rbd.go:542-569 | the error and the new registry are those of Add, as written |
| Rbd.RbdSet.Shutdown | hyper/lib/docker/daemon/graphdriver/rbd/rbd.go:614-649 | the device objects are kept and each device's state becomes ShutdownDev of its old state |
| Rbd.RbdSet.ShutdownOne | hyper/lib/docker/daemon/graphdriver/rbd/rbd.go:626-641 | exactly one device is detached |
| HyperDaemon.KeySpacesDisjoint | hyper/daemon/daemon.go:310-655 | VM, VM-data and volume keys are never under "pod-", a container list is never counted as a pod, and the VM, VM-data and volume key spaces do not meet |
| HyperDaemon.PodKeyCollision | hyper/daemon/daemon.go:118-140 | a pod named "container-x" is stored under x's container-list key, which the pod scans skip |
| HyperDaemon.PodScanCoversEntries | hyper/daemon/daemon.go:288-304 | a scan of "pod-" that skips container lists visits exactly the pod entries |
| HyperDaemon.PodScanStep | hyper/daemon/daemon.go:288-304 | one more step of the "pod-" scan adds the visited key to the visited pod entries exactly when it is one, and then it is a stored key not visited before |
| HyperDaemon.ContainerValueIsJoin | hyper/daemon/daemon.go:422-442 | with no empty id, the stored container list is the ids joined by ':' and is non-empty for a pod with containers |
| HyperDaemon.ContainerListRoundTrip | hyper/daemon/daemon.go:422-452 | GetPodContainersByName splits back exactly the ids WritePodAndContainers stored, when there is at least one and none is empty or holds ':' |
| HyperDaemon.ContainerListLosesEmptyId | hyper/daemon/daemon.go:422-452 | an empty first id is dropped: ["", "b"] reads back as ["b"] |
| HyperDaemon.VolumeDevNone | hyper/daemon/daemon.go:384-401 | when no record names the volume, the id is 0 |
| HyperDaemon.RecordReadsBack | hyper/daemon/daemon.go:375-401 | a record SetVolumeId writes splits into the volume name and the device id, which parses back when it fits 64 bits |
| HyperDaemon.VolumeIdRoundTrip | hyper/daemon/daemon.go:375-401 | when the record SetVolumeId wrote is the only one naming the volume, GetVolumeId returns its device id, for any id within 64 bits |
| HyperDaemon.ContainerPod | hyper/daemon/daemon.go:524-544 | the first pod in PodList order running the container; none exactly when no pod runs it |
| HyperDaemon.FirstMatch | hyper/daemon/daemon.go:546-574 | the first container whose name, with a leading '/', or id matches; none exactly when none matches |
| HyperDaemon.NamedContainer | hyper/daemon/daemon.go:546-574 | the first pod in PodList order with a matching container, and that container's index; none exactly when no pod has one |
| HyperDaemon.Daemon.constructor | hyper/daemon/daemon.go:238-255 | empty PodList and VmList over the given store and boot images |
| HyperDaemon.Daemon.GetPodNum | hyper/daemon/daemon.go:288-304 | the number of pod entries in the store, container lists excluded |
| HyperDaemon.Daemon.Restore | hyper/daemon/daemon.go:118-140 | success exactly when no pod entry's delete fails; then every pod entry is gone, container lists stay, and each pod name maps to its stored data; on failure the error is that of the first pod entry in scan order whose delete fails, and exactly the pod entries before it are gone |
| HyperDaemon.FirstFaultyPod | hyper/daemon/daemon.go:126-138 | the scan position of the first pod entry whose delete fails: every entry before it deletes, and it is a pod entry that fails, or the scan's end when none fails |
| HyperDaemon.Daemon.WritePodToDB | hyper/daemon/daemon.go:310-329 | "pod-<name>" holds the data afterwards, whether or not it existed; a store error changes nothing |
| HyperDaemon.Daemon.DeletePodFromDB | hyper/daemon/daemon.go:366-373 | "pod-<name>" is removed, or the store error is returned |
| HyperDaemon.Daemon.WritePodAndContainers | hyper/daemon/daemon.go:422-442 | an unknown pod is "Cannot find Pod <id> to write"; otherwise the container-list key holds the pod's container ids |
| HyperDaemon.Daemon.GetPodContainersByName | hyper/daemon/daemon.go:444-452 | found exactly when the container-list key exists, and the list joins back to the stored value |
| HyperDaemon.Daemon.SetVolumeId | hyper/daemon/daemon.go:375-382 | "vol-<pod>-<dev>" holds "<volume>:<dev>", or the store error is returned |
| HyperDaemon.Daemon.GetVolumeId | hyper/daemon/daemon.go:384-401 | the device id of the last record under "vol-<pod>" that names the volume, 0 if none does |
| HyperDaemon.Daemon.UpdateVmByPod | hyper/daemon/daemon.go:472-493 | "vm-<pod>" holds the VM id afterwards, whether or not it existed; a store error changes nothing |
| HyperDaemon.Daemon.DeleteVmData | hyper/daemon/daemon.go:648-655 | "vmdata-<vm>" is removed, or the store error is returned |
| HyperDaemon.Daemon.DeleteVmByPod | hyper/daemon/daemon.go:495-510 | a missing "vm-<pod>" is LevelDB's not-found error; otherwise it is removed and then the data of the VM it named |
| HyperDaemon.Daemon.UpdateVmData | hyper/daemon/daemon.go:617-637 | "vmdata-<vm>" holds the data afterwards, whether or not it existed; a store error changes nothing |
| HyperDaemon.Daemon.GetVmByPodId | hyper/daemon/daemon.go:512-522 | the VM recorded in a live pod's status; "Not found Pod <id>" for an unknown pod |
| HyperDaemon.Daemon.GetPodByContainer | hyper/daemon/daemon.go:524-544 | the pod ContainerPod picks, or "Can not find that container!" |
| HyperDaemon.Daemon.GetPodByContainerIdOrName | hyper/daemon/daemon.go:546-574 | the pod and index NamedContainer picks, or "cannot found container <name>" |
| HyperDaemon.Daemon.FindContainer | hyper/daemon/daemon.go:555-566 | the inner loop finds FirstMatch |
| HyperDaemon.Daemon.RemovePod | hyper/daemon/daemon.go:604-606 | only that pod leaves PodList |
| HyperDaemon.Daemon.AddVm | hyper/daemon/daemon.go:608-611 | the VM is registered under its id, replacing any VM there |
| HyperDaemon.Daemon.RemoveVm | hyper/daemon/daemon.go:613-615 | only that VM leaves VmList |
| HyperDaemon.Daemon.AddPod | hyper/daemon/daemon.go:576-602 | the pod's arguments, its PodList entry and its container list are written; a failed pod write changes nothing; a failed container-list write removes the pod entry and the PodList entry again |
| Vms.NumberArg | hyper/daemon/vm.go:22-34 | an empty argument keeps the default; any other must be a number within 64 bits, else strconv's error: "invalid syntax", or "value out of range" for a number too large |
| Common.QuoteRoundTrip | hyper/daemon/vm.go:24-34 | the escaped text strconv.Quote writes in an Atoi error reads back as the argument |
| Common.QuoteDec | hyper/daemon/vm.go:24-34 | a decimal number is quoted as it stands |
| Common.AtoiOutcomeOf | hyper/daemon/vm.go:23-34 | strconv.Atoi's outcome: a sign and digits within 64 bits are that number; a well-formed number beyond 64 bits is a range error with the bound of its sign; otherwise a syntax error, or a range error when the leading digits already exceed 2^64 - 1 |
| Common.Atoi | hyper/daemon/vm.go:23-34 | a number exactly when the text is an optional sign and digits whose value fits 64 bits, and then that value |
| Common.AtoiValue | hyper/daemon/tty.go:49-56 | what a caller that ignores the error gets: always within 64 bits; the number when it parses, the bound of its sign when it is too large |
| Common.AtoiIntToDec | hyper/daemon/vm.go:23-34 | strconv.Atoi reads back every 64-bit int strconv.Itoa writes |
| Common.AtoiOutOfRange | hyper/daemon/vm.go:23-34 | beyond 64 bits the written number is refused with the "value out of range" error |
| Vms.ParseVmCreate | hyper/daemon/vm.go:14-38 | accepted exactly when both numbers are empty or parse as 64-bit ints; asynchronous exactly when the third argument is "yes" |
| Vms.VmCreateDefaults | hyper/daemon/vm.go:14-38 | empty arguments give 1 CPU and 128 MB |
| Vms.VmCreateRoundTrip | hyper/daemon/vm.go:22-34 | the 64-bit numbers a client prints are the numbers the daemon reads |
| Vms.VmCreateOutOfRange | hyper/daemon/vm.go:22-34 | a CPU count beyond 64 bits is refused with strconv's "value out of range" error |
| Vms.VmCreateRejectsJunk | hyper/daemon/vm.go:22-26 | a malformed CPU count is reported with strconv's error |
| Vms.NewVm | hyper/daemon/vm.go:224-236 | an explicit id is used as it is; an empty one becomes the first drawn "vm-" name not in VmList; the VM is fresh |
| Vms.FirstFreeVmId | hyper/daemon/vm.go:227-233 | the first draw whose "vm-" name is not in VmList: a "vm-" name, not taken |
| Vms.FirstFreeIsFirstUntaken | hyper/daemon/vm.go:227-233 | when draw k is free and every earlier one taken, the id chosen is "vm-" and draw k |
| Vms.StartVm | hyper/daemon/vm.go:151-184 | non-positive CPU count and memory become 1 and 128; the VM is launched with the daemon's boot images and enters VmList exactly when the launch succeeds; without an id it is the first free drawn name |
| Vms.WaitVmStart | hyper/daemon/vm.go:186-199 | success exactly when the response channel opens and the first response says the VM is running |
| Vms.GetVM | hyper/daemon/vm.go:201-221 | the answer is GetVmOutcome's for VmList before the call; VmList changes only for a started VM |
| Vms.GetVmOutcome | hyper/daemon/vm.go:201-221 | "" starts a VM: success exactly when the launch succeeds, with a fresh "vm-" id, the lazy flag, at least 1 CPU and 1 MB and no pod, else the launch error; an explicit id succeeds exactly when that VM exists with the pod's CPU count and memory, and is that VM; else "The VM <id> doesn't exist" or the mismatch error |
| Vms.KillVm | hyper/daemon/vm.go:95-105 | an unknown VM gives (0, "", nil) and changes nothing; a known VM's kill outcome is returned, and it leaves VmList only when the kill succeeds |
| Vms.CmdVmCreate | hyper/daemon/vm.go:14-59 | a malformed argument is returned before anything starts; otherwise a lazy VM is started, and a VM that does not come up when waited for is killed again |
| Vms.AssociateVm | hyper/daemon/vm.go:107-132 | a pod bound to another VM is refused, one bound to this VM is left alone; otherwise the VM's saved data is read, the VM bound and registered, and on failure the binding is undone |
| Vms.ReleaseStopsAtFirstError | hyper/daemon/vm.go:134-149 | the release's error is nil exactly when no VM fails, and otherwise it is the first failing VM's code and error |
| Vms.ReleaseAllVms | hyper/daemon/vm.go:134-149 | the loop's code and error are those of releasing in VmList order, stopping at the first error |
| Vms.KeepVmOutcomes | hyper/daemon/daemon.go:680-690 | three busy rounds end with a nil error; a round that is not a busy failure decides the outcome |
| Vms.DestroyAndKeepVm | hyper/daemon/daemon.go:680-690 | the error is that of retrying the release up to three times, again only after a busy failure |
| Engine.CallString | hyper/engine/job.go:101-103 | with no argument the call string is the name and "()", with one it is the name and the argument in parentheses |
| Engine.JoinWithLength | hyper/engine/job.go:101-103 | joining puts exactly one ", " between neighbouring arguments |
| Engine.CallStringShape | hyper/engine/job.go:101-103 | the call string starts with the name and "(", ends with ")", holds each argument at its offset with ", " after every argument but the last, and has exactly the length of the name, the arguments, the separators and the parentheses, so nothing else is in it |
| Engine.JoinWithPieces | hyper/engine/job.go:101-103 | in the joined arguments each argument stands after the arguments before it and their separators, followed by ", " unless it is the last |
| Engine.RunError | hyper/engine/job.go:41-99 | a shut-down engine refuses unless overridden, then a completed job is refused, then a job without a handler is "command not found"; otherwise the handler's error |
| Engine.SecondRunRefused | hyper/engine/job.go:73-96 | a job runs its handler at most once: after a run that reached the handler every further run is refused |
| Engine.Job.constructor | hyper/engine/job.go:20-37 | a job that has not completed, not been cancelled and has its streams open |
| Engine.Job.Run | hyper/engine/job.go:41-99 | the error is RunError; the job is marked completed at the given time exactly when the handler ran; with closeIO set the three streams are closed on every path |
| Engine.Job.CloseStreams | hyper/engine/job.go:42-55 | with closeIO set stdout, stderr and stdin are closed, and nothing else changes |
| Engine.Job.SetCloseIO | hyper/engine/job.go:207-209 | only the closeIO flag changes |
| Engine.Job.Cancel | hyper/engine/job.go:212-216 | the job is cancelled afterwards, however often it is called, and nothing else changes |
| Exec.ContainerVm | hyper/daemon/exec.go:27-35 | an error exactly when no pod runs the container, "Can not find that container!"; otherwise the VM named by a pod running it |
| Exec.ResolveContainer | hyper/daemon/exec.go:27-35 | the daemon's lookups agree with ContainerVm |
| Exec.ExitCodeFor | hyper/daemon/exec.go:42-44 | the tag's recorded exit code, -1 when none is recorded |
| Exec.ExitCodeRecorded | hyper/daemon/exec.go:42-44 | a code recorded for a tag is the one reported; other tags keep theirs |
| Exec.CmdExitCode | hyper/daemon/exec.go:10-45 | a missing container id or tag is refused with its own message; the container must resolve to a VM in VmList; the answer is the tag's exit code or -1 |
| Exec.ExecGuardAsWritten | hyper/daemon/exec.go:57-62 | as written, only zero or one argument is refused |
| Exec.ExecGuardAdmitsShortArgs | hyper/daemon/exec.go:57-67 | two or three arguments pass the written check, yet the command and the tag are read past the end |
| Exec.ExecGuard | hyper/daemon/exec.go:57-67 | the corrected check passes exactly when all four arguments are there, and refuses zero or one argument as written |
| Exec.ExecTarget | hyper/daemon/exec.go:74-85 | "pod" names the VM directly with no container; otherwise the container is resolved to its pod's VM |
| Exec.CmdExec | hyper/daemon/exec.go:56-106 | with the four arguments checked, the target must resolve to a VM in VmList, and the VM's exec error is the answer |
| Tty.TtyGuardAdmitsThreeArgs | hyper/daemon/tty.go:12-19 | exactly three arguments pass the written check, yet the width is read past the end |
| Tty.TtyGuardSound | hyper/daemon/tty.go:12-19 | the corrected check passes exactly when the four reads stay within the arguments, and implies the written one |
| Tty.TtyVm | hyper/daemon/tty.go:24-42 | a target containing "pod-" must be a live pod, whose VM it is; else one containing "vm-" is the VM id itself; else it is resolved as a container |
| Tty.PodMarkerWins | hyper/daemon/tty.go:24-31 | a name holding both markers is taken as a pod id, never as a VM id |
| Tty.CmdTty | hyper/daemon/tty.go:11-65 | without four arguments nothing is done; the target must resolve to a VM in VmList, else the unformatted "vm %!s(MISSING) doesn't exist!"; the terminal is resized to the height and width strconv.Atoi returns with its error ignored (`AtoiValue`) |
| Listing.Filter | hyper/daemon/list.go:35-43 | a pod or VM filter counts exactly when its argument is present and non-empty |
| Listing.ParseListArgs | hyper/daemon/list.go:26-47 | the item, "pod" by default, must be pod, container or vm, else "Can not support <item> list!"; the pod and VM filters; auxiliary containers exactly for "yes" or "true" |
| Listing.ListDefaults | hyper/daemon/list.go:26-47 | with no arguments every pod is listed, unfiltered and without auxiliary containers; "image" is refused |
| Listing.KubernetesMark | hyper/daemon/list.go:166-189 | the "(kubernetes)" mark goes on failed and succeeded pods of the kubernetes type and nowhere else |
| Listing.StateWordsPlain | hyper/daemon/list.go:145-223 | no state word holds a ':' |
| Listing.ShowContainerFields | hyper/daemon/list.go:206-223 | a container line splits back into its id, name, pod and state when those hold no ':' |
| Listing.ShowPodFields | hyper/daemon/list.go:166-189 | a pod line splits back into its name, VM and state when those hold no ':' |
| Listing.ContainerLinesUnfiltered | hyper/daemon/list.go:191-204 | without filtering every container is shown, one line each, in order |
| Listing.ContainerLinesCount | hyper/daemon/list.go:191-204 | filtering drops exactly the containers named like the service-discovery proxy |
| Listing.ShowPodContainers | hyper/daemon/list.go:191-204 | the loop gives every container's line in order, dropping the proxy only for a service-discovery pod without auxiliary containers |
| Listing.Selected | hyper/daemon/list.go:101-106 | the pods a PodList walk keeps are registered pods |
| Listing.SelectedIff | hyper/daemon/list.go:93-106 | with a VM filter a pod is listed exactly when its status names that VM; without one every pod is, in walk order |
| Listing.PodLines | hyper/daemon/list.go:92-113 | one "<id>:<name>:<vm>:<state>" line per listed pod, in order |
| Listing.VmLines | hyper/daemon/list.go:73-90 | one "<id>:<pod>:<state>" line per listed VM, in order |
| Listing.SelectedStep | hyper/daemon/list.go:93-134 | one more pod on the walk adds its line and its containers' lines exactly when it passes the filter |
| Listing.WalkPods | hyper/daemon/list.go:93-134 | the walk's pod and container lists are those of the selected pods |
| Listing.WalkVms | hyper/daemon/list.go:74-77 | the walk lists every VM in VmList order |
| Listing.NamedPodLines | hyper/daemon/list.go:98-122 | a named pod contributes its own line and its containers' lines |
| Listing.CmdList | hyper/daemon/list.go:12-136 | a bad item is refused; a named pod, then a named VM, must exist; then only the item's list is filled, with the listed VMs', pods' or containers' lines |
| Storage.FsTypeOf | hyper/daemon/storage.go:110-118 | a backing filesystem containing "ext" is ext4, else one containing "xfs" is xfs, else dir |
| Storage.DMScanStopsAtBacking | hyper/daemon/storage.go:106-120 | nothing after the first "Backing Filesystem" pair is read |
| Storage.DMScanNoBacking | hyper/daemon/storage.go:106-120 | without a "Backing Filesystem" pair the filesystem stays unset and the last "Pool Name" is taken |
| Storage.LastValue | hyper/daemon/storage.go:241-245 | the value of a pair with the key, or the default |
| Storage.LastValueFront | hyper/daemon/storage.go:241-245 | read from the front, a pair only counts if no later pair has the key |
| Storage.DevPrefixOf | hyper/daemon/storage.go:121 | the device prefix followed by "-pool" starts the pool name |
| Storage.DevPrefixOfPool | hyper/daemon/storage.go:121 | the prefix of "x-pool" is x when x holds no "-pool" |
| Storage.DMFactory | hyper/daemon/storage.go:101-124 | the volume pool is the default one; the container pool, filesystem and device prefix are those the scan of DriverStatus gives; the root is under the hyper root |
| Storage.AufsFactory | hyper/daemon/storage.go:239-247 | the root directory is the last "Root Dir" value, "" if none |
| Storage.StorageFactory | hyper/daemon/storage.go:48-61 | succeeds exactly for devicemapper, aufs, overlay, vbox and rbd, with a driver of that type and its settings; any other driver is "hyperd can not support docker's backing storage: <name>" |
| Storage.ProbeExistingVolume | hyper/daemon/storage.go:63-90 | a missing volume or one without a source is an error; a vfs volume is a mounted directory; any other keeps its source and driver format and its probed filesystem, ext4 when probing fails |
| Storage.RandDevId | hyper/daemon/storage.go:231-233 | a device id in [1, 2^24 - 1], 0 being the pool device |
| Storage.FinalAttempt | hyper/daemon/storage.go:186-204 | the retry loop ends on the first fresh draw whose create does not report a collision |
| Storage.CreateFresh | hyper/daemon/storage.go:186-204 | the device id and error are those of the final attempt, every earlier draw having collided |
| Storage.DmCreateVolume | hyper/daemon/storage.go:179-219 | a stored id above 0 is restored with one create call; otherwise fresh ids are drawn until one does not collide; any other error is returned; on success the id is recorded and the volume is /dev/mapper/<pool>-<pod>-<name> in raw format |
| Storage.RecordDevIdRoundTrip | hyper/daemon/storage.go:179-229 | the record CreateVolume stores gives RemoveVolume back the device id it was created with, for any id within 64 bits |
| Storage.RemoveVolume | hyper/daemon/storage.go:221-229 | devicemapper deletes the device the record names; every other driver keeps its volumes |
| Storage.CreateVolume | hyper/daemon/storage.go:179-465 | devicemapper as DmCreateVolume; aufs, overlay and vbox make a VFS directory; rbd refuses with "rbd storage driver does not support volume yet" |
| Server.HttpStatus | hyper/server/server.go:111-135 | in the lower-cased error text "no such" gives 404, before "bad parameter" giving 400, before "conflict" giving 409; 500 exactly when none of the six markers occurs; the code is always one of 400, 401, 403, 404, 406, 409, 500 |
| Server.ToLowerIdempotent | hyper/server/server.go:116 | lower-casing twice is lower-casing once |
| Server.HttpStatusIgnoresCase | hyper/server/server.go:111-135 | the status does not depend on the case of the error text |
| Server.ParseBool | hyper/server/server.go:162 | strconv.ParseBool's accepted spellings of true and false, and nothing else |
| Server.GetBoolParam | hyper/server/server.go:158-167 | an absent value is false; a value is read with ParseBool; an unparsable one is "Bad parameter" |
| Server.GetBoolParamRoundTrip | hyper/server/server.go:158-167 | "true"/"false" and "1"/"0" read back as the boolean they spell |
| Server.BadBoolIsBadRequest | hyper/server/server.go:111-167 | an unparsable boolean parameter is answered with 400 Bad Request |
| Server.BadParameterMarked | hyper/server/server.go:111-167 | "Bad parameter" lower-cased carries the bad-parameter marker and not the not-found one |
| Server.CheckForJson | hyper/server/server.go:76-91 | accepted exactly when there is no Content-Type and no or an empty body, or the type matches application/json; otherwise the "must be 'application/json'" error |
| Server.ParseForm | hyper/server/server.go:94-102 | an error exactly when there is a request whose form fails to parse with an error not starting "mime:", and then it is that error |
| Server.Dispatch | hyper/server/server.go:1174-1190 | the URL's version, the server's when absent, above the server's is refused with 404 before the handler runs; a handler error is answered with HttpStatus |
| Server.VersionGateSkipsHandler | hyper/server/server.go:1182-1185 | a refused version never reaches the handler: any two handlers get the same reply |
| Server.NoVersionPasses | hyper/server/server.go:1174-1190 | without a version in the URL the request reaches the handler |
| Server.CorsHeaders | hyper/server/server.go:1273-1275 | an explicit header is kept; without one the header is "*" exactly when CORS is enabled |
| Server.RoutesRegistered | hyper/server/server.go:1277-1296 | every non-empty route is reachable with and without the version prefix, the empty route by its method alone |
| Server.RegistrationsFromRoutes | hyper/server/server.go:1277-1296 | every registration comes from some route of the table |
| Server.CreateRouter | hyper/server/server.go:1277-1296 | the loop makes exactly the registrations of the route table, in walk order |
| Server.YesFlagsIff | hyper/server/server.go:360-365 | a flag is passed exactly when it is listed and its form value is "yes" |
| Server.ContainerLogsArgs | hyper/server/server.go:359-365 | the job gets the container, tail and since values, then the "yes" flags among follow, timestamps, stdout, stderr in that order |
| Server.DelImagesArgs | hyper/server/server.go:1029-1039 | the job gets the image, then force and noprune, each "yes" unless given |
| Server.SplitProtoAddr | hyper/server/server.go:1411 | present exactly when the address contains "://"; the parts rejoin with "://" to the address, the first holding no "://" |
| Server.SplitProtoAddrRoundTrip | hyper/server/server.go:1411 | proto://addr with a plain protocol splits back into its parts |
| Server.NewServerCheck | hyper/server/server.go:1445-1454 | only tcp and unix are served; anything else is "Invalid protocol format." |
| Server.FirstMalformed | hyper/server/server.go:1410-1414 | the first address without "://"; none exactly when every address has one |
| Server.ParseServeArgs | hyper/server/server.go:1400-1414 | no address, or one without "://", is the usage error; otherwise one protocol and address pair per argument, rejoining to it |
| Server.ServeOutcome | hyper/server/server.go:1414-1430 | an address's outcome: the protocol error, else the listener setup's error whatever its text, else srv.Serve()'s error unless it reports a closed network connection; nil exactly when all three pass |
| Server.AwaitServers | hyper/server/server.go:1434-1441 | nil exactly when every server's outcome is nil; otherwise the error of the first server in arrival order whose outcome is an error, every earlier arrival having been nil |
| Migrate.GetMata | hyper/daemon/migrate.go:169-181 | the blob read is every chunk up to the connection's first read error, in order |
| Migrate.ReceivedReassembles | hyper/daemon/migrate.go:169-181 | however the sender's bytes are cut into reads, the receiver reassembles exactly them, and nothing after the connection's end |
| Migrate.SendStop | hyper/daemon/migrate.go:236-247 | the send loop stops at the blob's end or at the first failed write, never before its start |
| Migrate.SendMata | hyper/daemon/migrate.go:230-249 | a dial error is returned with nothing sent; otherwise nil exactly when every byte was written, else the first write error with the bytes written before it |
| Migrate.MigratePod | hyper/daemon/migrate.go:183-228 | an unknown pod is an error and nothing is sent or changed; otherwise pod id, arguments and container ids go out on three connections; a pod without VM answers E_VM_SHUTDOWN with nothing changed; a VM that accepts the migration is dropped from VmList, its by-pod record deleted from the store (`DeleteVmByPodData`), and the pod's clean result is the answer; a refused migration changes nothing |
| Migrate.CmdPodMigrate | hyper/daemon/migrate.go:12-38 | no pod id is an error; an unknown pod is MigratePod's error; otherwise the answer names the pod with MigratePod's code and cause, and VmList and the store change exactly as MigratePod says |
| Migrate.GetPod | hyper/daemon/daemon.go:331-355 | without arguments the pod must be in PodList and nothing changes; with arguments a creation error leaves everything as it was, and a created pod is added to PodList and the store as AddPod does, whose failure is the answer |
| Migrate.ListenOutcome | hyper/daemon/migrate.go:103-167 | a pod already present is refused with "The pos has existed(<id>)" and nothing changes; a container restore error changes nothing; no pod arguments stores only the container ids and gives "Can not find the POD instance of <id>"; a failure leaves VmList as it was unless a started VM could not be killed |
| Migrate.ListenSucceedsIff | hyper/daemon/migrate.go:103-167 | nil exactly when the pod is new, its containers are known or restored, it has arguments, it is created, its "pod-" and "pod-container-" writes succeed, it gets a VM, it prepares, and its "vmdata-" and "vm-" writes succeed |
| Migrate.ListenSucceeds | hyper/daemon/migrate.go:103-167 | on success the pod is in PodList, a started VM is in VmList, and the store holds the container ids, the pod's arguments and container list, the empty VM data and the pod's VM |
| Migrate.PodListenOutcome | hyper/daemon/migrate.go:251-305 | nil exactly when the pod gets a VM, prepares, and both writes succeed; a GetVM error changes nothing; success records "vmdata-<vm>" empty and "vm-<pod>" as the VM, with a started VM added to VmList; on failure a started VM leaves VmList when it is killed, and "vm-<pod>" is not written |
| Migrate.PodListen | hyper/daemon/migrate.go:251-305 | its error, VmList and store are PodListenOutcome's for the state before the call |
| Migrate.ListenPod | hyper/daemon/migrate.go:103-167 | its error, PodList, VmList and store are ListenOutcome's for the three received messages and the state before the call; the code is 0 exactly on success and -1 otherwise, with an empty cause |
| Migrate.ListenTagIsPort | hyper/daemon/migrate.go:52-56 | with three arguments the written code takes the port, not the third argument, as the terminal tag |
| Migrate.ListenTag | hyper/daemon/migrate.go:52-56 | the terminal tag is the third argument when there is one, else empty |
| Migrate.CmdPodListen | hyper/daemon/migrate.go:40-101 | no argument is an error and changes nothing; with an address the error and the new PodList, VmList and store are ListenOutcome's with a new VM and the terminal tagged by the port as written |

## Left out

- LevelDB is modelled as a map with a set of keys whose writes fail (`HyperDaemon.Db`). Iterator errors, snapshots and on-disk ordering beyond sorted keys are not modelled.
- The second phase of `Daemon.Restore` is not modelled: rebuilding each pod from its stored arguments through Docker and the hypervisor driver.
- VirtualBox (`vbox`) driver specifics are not modelled. Only the storage factory's constant results for it are.
- The `VM_KEEP` policy names and logging (`glog`) have no effect on the modelled state and are left out.
- The engine (hyper/engine/engine.go) is not part of this model. `Engine.Eng` stands for it with only its shutdown flag. The engine's task `WaitGroup` and the "serveapi" task bookkeeping are left out.
- Job environments are not modelled, except the `overrideShutdown` flag. The `Env.WriteTo` writes of a job's stdout are not modelled either: `CmdVmCreate` (hyper/daemon/vm.go:62-68), `CmdExitCode` (hyper/daemon/exec.go:46-51), `CmdList` (hyper/daemon/list.go:138-140) and `CmdPodMigrate` (hyper/daemon/migrate.go:30-36) return their answer as a value instead. `CmdPodListen` (hyper/daemon/migrate.go:93-99) has its write commented out; its code and cause are returned as values too.
- HTTP plumbing is left out: hijacking, TLS, listeners, pprof/expvar, request bodies and JSON encoding of responses. The server's handlers other than `getContainerLogs` and `delImages` are not modelled, since they only forward to engine jobs.
- `ServeApi` starts a server for each well-formed address before it meets a malformed one. `Server.ParseServeArgs` checks every address first, so those earlier servers are not modelled.
- `path.Join` cleaning of the device directory and mount paths is not modelled; paths are joined with "/".
- `CleanPod`'s effects on pod state are not modelled. Its code and cause are a parameter of `Migrate.MigratePod`.
- `Migrate.ListenPod`: parsing the received pod arguments (`ProcessPodBytes`) is a parameter returning the first container's name and image. Its parse failure, and the nil dereference it would cause, are not modelled.
- `net.Listen`, `Accept` and `Dial` failures on the receiving side are not modelled. Each connection is given as the sequence of its reads.
- Tty.CmdTty: three arguments are a silent no-op (`TtyGuardSound`'s guard), where the source passes its own guard, reads the fourth argument past the end and panics (see Findings).
- Exec.CmdExec: two or three arguments give the missing-command error (`ExecGuard`), where the source passes its own guard, reads the command or tag past the end and panics (see Findings).
- `Migrate.CmdPodMigrate` requires no arguments or at least three, because the source reads the address and port unchecked and panics with one or two.
- `Migrate.CmdPodListen` requires other than exactly one argument, because the source reads the port unchecked and panics with one.
- `Storage.DMFactory` requires the pool name to contain "-pool", because the source slices at its index unchecked and panics otherwise.
- `HyperDaemon.Daemon.GetVolumeId` requires every "vol-<pod>" record to be readable (`RecordReadable`). The source indexes `fields[1]` unchecked (hyper/daemon/daemon.go:390-392) and panics on a record named after the volume that has no ":". The storage operations that call it (`Storage.DmCreateVolume`, `Storage.CreateVolume`) inherit the requirement.
- `Storage.RemoveVolume` requires a devicemapper record to have a second ":"-separated field, because the source indexes it unchecked.
- `Vms.CmdVmCreate` requires at least three arguments, because the source reads the first three unchecked.
- `HyperDaemon.Daemon.GetPodByContainerIdOrName` requires a non-empty name, because the source reads its first character unchecked.
- `vmContext` indexes the container list with a stored container index unchecked. The model reports an out-of-range index as the `IndexPanic` error instead of a panic.
- `lookupDevice` returns a nil device when metadata cannot be loaded, and its callers then dereference it. The model reports this as the "no such rbd device" error.
- Go's `%v` rendering of values in error messages is a parameter.
- `Common.QuoteChar` takes every character beyond ASCII as printable. strconv.Quote also escapes the non-printable ones (`\u`, `\U`) by Unicode's tables, and invalid UTF-8 (`\x`), which a string of characters cannot hold. ASCII is escaped as strconv does.
- The QMP executor (`qmpHandler`) is not part of this model. `QmpExecutor` models it as the FIFO queue with per-step retries that runv-lazy/hypervisor/qemu/qmp_test.go pins.
- The goroutines that launch and watch QEMU, `Kill`/`Close` channel ordering, and process spawning are concurrency and process I/O, and are left out.
- runv/hypervisor/context.go is not part of this model. The counters `nextPciAddr` and `nextScsiId`, state changes and event reporting of `Hypervisor.VmContext` stand for it.
- `CmdVmKill` (hyper/daemon/vm.go:73-93) is not modelled; `Vms.KillVm`, which it calls, is.
- In hyper/lib/docker/daemon/graphdriver/rbd/rbd.go, `DeleteDevice`, `createImage`, `deleteImage`, `setupBaseImage`, `initRbdSet`, `createFilesystem` and the rados connection are not modelled. They are calls into rados, rbd and mkfs, and their outcomes are parameters where the modelled operations use them.
- The VM object's own operations (`Launch`, `Kill`, `AssociateVm`, `MigratePod`) are parameters returning their outcome.
- `Migrate.PodListen`: hyper/daemon/pod.go is not part of this model. `Pod.GetVM` and `Pod.KillVM` are taken to be the daemon's `GetVM` on the pod's resources and `KillVm` of the VM it got. `Prepare`, `startLogging`, `AttachTtys` and `vm.ListenPod` are one parameter giving their error, and the logger stopped on failure is not modelled. The pod's own `vm` field is not tracked.
- `Vms.NewVm`: the random id draws are a parameter, a sequence of candidate ids of which at least one is unused. The source loops until it draws one.
- `IpAllocator.NewPool`, `IpAllocator.SubnetPool`, `IpAllocator.IPAllocator.RegisterSubnet`, `IpAllocator.IPAllocator.RequestIP` and `IpAllocator.IPAllocator.PoolFor` return the source's panics as errors that carry the Go runtime's message, without the index detail. The panics are a mask shorter than the address form (NetworkRange's loop, runv-lazy/hypervisor/network/ipallocator/ipallocator.go:44-46) and ipToBigInt's nil given to big.Int arithmetic (lines 20-21 and 82-83). In the source the lock is released on the way out and nothing is registered; the model registers nothing either.
- `IpAllocator.IPAllocator` keys networks by their IPNet value. The source keys them by `network.String()`, which prints the unmasked address in its 4-byte form when it has one, with the mask trimmed to match. So "::ffff:10.0.0.0/120" and "10.0.0.0/24" share one pool in the source and have two in the model, and so do any two IPNets whose texts agree.
- `IpAllocator.Pool` keys a pool's set by the address's value. The source keys it by `ip.String()`, and getNextIP writes its addresses through `bigIntToIP`, which drops leading zero bytes (runv-lazy/hypervisor/network/ipallocator/ipallocator.go:180-182). An address whose first byte is zero, such as 0.0.0.1 in 0.0.0.0/24, is therefore recorded by getNextIP under a text (`?01`) that checkIP and ReleaseIP never look up: the source can hand it out twice and cannot release it, and the model does neither. getNextIP's result is the address's value in the model, the shortened byte string in the source.
- `IpAllocator.IPAllocator.RequestIP` and `IpAllocator.IPAllocator.ReleaseIP` take the requested address as its ipToBigInt value. An address that value cannot be computed for (neither 4 nor 16 bytes) makes checkIP's comparison panic in the source, and is not modelled.
- Sockets, the clock, random numbers, Docker, exec, syscalls and the device-mapper, aufs and overlay helpers are parameters of the operations that use them.

## Findings

| source | as written | input that shows it | evidently intended | confidence | as-written member | corrected member |
|---|---|---|---|---|---|---|
| runv/hypervisor/persistence.go:204-215 | each shared volume is rebuilt into a local value that is never stored in `volumeMap` | any context with one shared volume, dumped and restored | the restored context has the dumped volumes | not executed | Persistence.RestoreLosesVolumes | Persistence.VolumesRoundTrip |
| runv/hypervisor/qemu/qemu.go:292 | the NIC's PCI address is written as `0x%d`, decimal digits after a hex prefix | PCI address 10 is written "0x10", which reads back as 16 | `0x%x`, as hot-plug writes it | not executed | Qemu.NicAddressAsWrittenMisread | Qemu.NicAddressReadsBack |
| hyper/daemon/migrate.go:52-56 | with more than two arguments the terminal tag is `Args[1]`, the port | arguments ["10.0.0.2", "8000", "tty-1"] tag the terminal "8000" | the tag is the third argument | not executed | Migrate.ListenTagIsPort | Migrate.ListenTag |
| hyper/lib/docker/daemon/graphdriver/rbd/rbd.go:236-260 | when saving the metadata fails, the entry is removed but success is returned | any registration whose metadata save fails | the save error is returned | not executed | Rbd.RegisterSwallowsSaveError | Rbd.Register |
| hyper/daemon/tty.go:12-19 | fewer than three arguments are refused, yet the width is read at index 3 | arguments ["pod-1", "tag", "24"] pass the guard and index past the end | fewer than four arguments are refused | not executed | Tty.TtyGuardAdmitsThreeArgs | Tty.TtyGuardSound |
| hyper/daemon/exec.go:57-68 | only zero or one argument is refused, yet the command and tag are read at indexes 2 and 3 | arguments ["pod", "vm-1"] pass the guard and index past the end | fewer than four arguments are refused | not executed | Exec.ExecGuardAdmitsShortArgs | Exec.ExecGuard |
