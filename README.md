# mydocker, modeled in Dafny

mydocker is a small container engine written in Go. It has six subcommands:

- `run` starts a command in new namespaces on an aufs workspace, records the container and puts it into cgroups.
- `exec` enters a running container.
- `ps` lists the recorded containers.
- `stop` signals a container and marks its record stopped.
- `rm` removes a stopped container.
- `commit` and `logs` are also present; only their argument checks are modelled.

Nearly every line of the engine calls the kernel or an external command. This model keeps what lies around those calls: which calls are made, in what order, under which guards, and what each one does to the host.

**The host.** The host is one state, `Host.HostState`, made of:

- its directories;
- its files (cgroup control files, container records, logs);
- its stack of mounts;
- the process environment;
- the pipe `run` hands the command down;
- the trace of every side-effecting call made so far.

Each kernel call or external command is an `Op`. `Host.Step` makes one call: the kernel may refuse it, and some calls also fail because of the state. The fixed set `refused` stands for what the kernel would answer, and the state part is, for example, making a directory where a directory or a file already is, removing a directory that is not empty, unmounting a target that has no mount, unmounting a target with a later mount below it, or removing a directory with a mount at or below it (both the kernel's `EBUSY`, `Host.Busy` and `Host.MountedUnder`). Every call is appended to the trace. It changes the state only when it succeeds.

`Host.Steps` makes a sequence of calls whatever each returns. This is how the Go code behaves: it mostly logs a failure and goes on. Queries (`ReadFile`, `Stat`, `ReadDir`) can be refused too, but they are not traced.

**The form of the model.** Go functions that change the host are methods on a `Host.Host` object. Its fields are the host state, and every call goes through `Host.Host.Perform`.

Each method is proved equal to a specification function of the old state, with the form `ensures (h.State(), r) == XSpec(old(h.State()), h.refused, ...)`. The lemmas next to those functions state what the functions mean:

- the order of the calls;
- what a failure leaves unchanged;
- round trips: building a workspace and tearing it down, or joining the command and splitting it again;
- the record's state machine: `run`, then `stop`, then `rm`.

The cgroup manager is a class with its `path`, and its three loops are `for` loops with invariants. `randStringBytes` fills an array, and `ps` appends to a sequence in a loop.

**What the kernel decides is a parameter.** These answers are passed in from outside:

- the random digits of a container id (`draws`);
- the clock (`now`);
- the pid the kernel gives the child;
- what the container's init reads from the pipe (`msg`);
- its working directory (`pwd`);
- the `$PATH` search (`lookPath`);
- the names `ioutil.ReadDir` returns;
- where each cgroup hierarchy is mounted (`cgroupRoots`).

**The snapshot modelled.** Only the latest snapshot of each file is modelled:

- the subsystem list of chapter 5.1;
- the memory and cpuset drivers of 4.2 and the cpu driver of 4.1;
- the manager of 4.4;
- the workspace and parent process of 5.3;
- `init` of 4.1;
- `run`, `stop` and the command line of 5.6;
- `ps` of 5.3 and `exec` of 5.5.

Three places where the code does something other than what its comments or names suggest are modelled as written:

- **The cpuset driver's guard.** It tests the cpu share but writes the cpu set (`cpu_set.go:19-20`). A configuration with only a cpu set writes no control file. One with only a cpu share writes `""` into `cpuset.cpus`. `Cgroups.CpuSetAloneWritesNothing` and `Cgroups.CpuShareAloneClearsCpuSet` state both consequences.
- **A volume can leave the mount point.** `path.Join(mntURL, v[1])` cleans `..` away, so `-v /h:../../x` makes and mounts `/x` on the host, outside the container's root. The teardown removes the mount point and the writable layer only, so that directory stays. `ContainerProcess.VolumeEscapes` and `ContainerProcess.EscapedVolumeStays` state this; the removal lemmas promise the volume's directory is gone only when it lies inside the mount point (`ContainerProcess.VolumeInside`).
- **The `ps` registry root.** The comment at `list.go:16` says `/var/run/mydocker`. But `DefaultInfoLocation` formatted with `""` is `/var/run/mydocker//`, and dropping its last character leaves `/var/run/mydocker/`, trailing slash included. `List.ListRootIsInfoRoot` states this.

## Model

| member | source | states |
|---|---|---|
| Host.ReadRecordIn | code/chapter5/5.6/stop.go:61-72 | a record is read exactly when the read is allowed, the file exists and decodes; then it is the record the file encodes; otherwise the error is the refused read, the missing file or the undecodable file |
| Host.WrittenRecordReads | code/chapter5/5.6/run.go:119-122 | a record file written with an encoded record, and readable, reads back as exactly that record |
| Host.ReadDirIn | code/chapter5/5.3/list.go:20-24 | listing a directory fails exactly when the listing is refused or the directory is absent |
| Strings.Split | code/chapter4/4.1/container/init.go:51 | `strings.Split` on one character gives at least one piece, no piece holds the separator, and joining the pieces with the separator gives back the input |
| Strings.SplitJoin | code/chapter5/5.6/run.go:68 | splitting the join of a non-empty list of separator-free strings gives the list back |
| Strings.Itoa | code/chapter5/5.6/run.go:88 | the decimal text of an int is non-empty, made of digits, with a leading minus exactly for negative numbers |
| Strings.Atoi | code/chapter5/5.6/stop.go:24 | a string that parses is non-empty, holds no space, and its value fits a 64-bit int |
| Strings.AtoiItoa | code/chapter5/5.6/stop.go:24-28 | `Atoi` reads back every 64-bit int that `Itoa` writes, so the pid `run` records can be parsed by `stop` |
| Strings.JoinNames | code/chapter5/5.3/container/container_process.go:178 | `path.Join` of a directory made of names and a relative path made of names is their concatenation, and lies in the directory |
| Strings.CleanNoTrailingSlash | code/chapter5/5.3/container/container_process.go:63 | a cleaned rooted path is `/` or does not end in a slash |
| Records.Marshal | code/chapter5/5.6/run.go:96 | the encoding of a record decodes to that record |
| Records.InfoDirOf | code/chapter5/5.6/run.go:104 | the container's directory of a listed name is the directory made of `var`, `run`, `mydocker` and the name, all plain names |
| Records.RecordPathSpellings | code/chapter5/5.3/list.go:62-63 | for every directory entry name, the record path spelt by concatenation in `ps` equals the path-joined one used by `stop`, `rm` and `exec`, and lies in the container's directory |
| Subsystems.SubsystemsInsOnce | code/chapter5/5.1/cgroups/subsystems/subsystems.go:28-34 | the driver list has exactly three entries, each driver occurs exactly once, and their hierarchy names and control files are pairwise distinct |
| Subsystems.ResolveSpec | code/chapter4/4.2/cgroups/subsystems/memory.go:20 | the resolved directory is the cgroup path under the subsystem's hierarchy and exists afterwards; without auto-create nothing changes; the only possible change is making that one directory; with nothing refused and auto-create it always resolves; no hierarchy means an error and no change |
| Subsystems.GetCgroupPath | code/chapter4/4.2/cgroups/subsystems/cpu_set.go:18 | the resolver's host and result are those of `ResolveSpec` |
| Subsystems.SetSpec | code/chapter5/5.1/cgroups/subsystems/subsystems.go:17-18 | a driver's `Set` writes no file but its own control file, and that one only with the driver's value when its field is set; an unset field or a resolver error writes nothing, and the resolver error is returned; with nothing refused the value is written |
| Subsystems.ApplySpec | code/chapter5/5.1/cgroups/subsystems/subsystems.go:20-21 | a driver's `Apply` writes at most the decimal pid into its `tasks` file; a resolver error writes nothing and comes back wrapped as `get cgroup <path> error` for cpu and cpuset and unwrapped for memory; with nothing refused the pid is written |
| Subsystems.RemoveSpec | code/chapter5/5.1/cgroups/subsystems/subsystems.go:23-24 | a driver's `Remove` makes no directory; a success leaves nothing at or below the cgroup directory; with nothing refused and nothing mounted below it the directory is gone; a mount at or below it makes `Remove` fail and keep every directory; a failure removes nothing |
| Memory.Set | code/chapter4/4.2/cgroups/subsystems/memory.go:18-32 | host and error are `SetSpec` of the memory driver: `memory.limit_in_bytes` gets the memory limit only when it is non-empty, and a failed write is wrapped as `set cgroup memory fail` |
| Memory.Apply | code/chapter4/4.2/cgroups/subsystems/memory.go:45-55 | host and error are `ApplySpec` of the memory driver: the decimal pid goes into `tasks`, after resolving with auto-create |
| Memory.Remove | code/chapter4/4.2/cgroups/subsystems/memory.go:35-42 | host and error are `RemoveSpec` of the memory driver: resolve without auto-create, then remove the directory recursively |
| CpuSet.Set | code/chapter4/4.2/cgroups/subsystems/cpu_set.go:16-28 | host and error are `SetSpec` of the cpuset driver: `cpuset.cpus` is written with the cpu set exactly when the cpu share is non-empty |
| CpuSet.Apply | code/chapter4/4.2/cgroups/subsystems/cpu_set.go:41-51 | host and error are `ApplySpec` of the cpuset driver, including the wrapped resolver error |
| CpuSet.Remove | code/chapter4/4.2/cgroups/subsystems/cpu_set.go:31-38 | host and error are `RemoveSpec` of the cpuset driver |
| Cpu.Set | code/chapter4/4.1/cgroups/subsystems/cpu.go:16-28 | host and error are `SetSpec` of the cpu driver: `cpu.shares` gets the cpu share only when it is non-empty, and a failed write is wrapped as `set cgroup CPU share fail` |
| Cpu.Apply | code/chapter4/4.1/cgroups/subsystems/cpu.go:41-51 | host and error are `ApplySpec` of the cpu driver, including the wrapped resolver error |
| Cpu.Remove | code/chapter4/4.1/cgroups/subsystems/cpu.go:31-38 | host and error are `RemoveSpec` of the cpu driver; the resolver's error is returned unchanged |
| Cgroups.SetWith | code/chapter4/4.4/cgroups/cgroup_manager.go:34 | a `Set` through the interface is the `Set` of the driver chosen |
| Cgroups.ApplyWith | code/chapter4/4.4/cgroups/cgroup_manager.go:26 | an `Apply` through the interface is the `Apply` of the driver chosen |
| Cgroups.RemoveWith | code/chapter4/4.4/cgroups/cgroup_manager.go:42 | a `Remove` through the interface is the `Remove` of the driver chosen |
| Cgroups.CgroupManager.constructor | code/chapter4/4.4/cgroups/cgroup_manager.go:17-21 | the new manager holds the given path and no resource configuration |
| Cgroups.CgroupManager.Apply | code/chapter4/4.4/cgroups/cgroup_manager.go:24-29 | the host is every driver's `Apply` in list order with the manager's path and the pid, each one whatever the ones before returned, and the result is nil |
| Cgroups.CgroupManager.Set | code/chapter4/4.4/cgroups/cgroup_manager.go:32-37 | the host is every driver's `Set` in list order, whatever each returned; the result is nil and the configuration is not stored |
| Cgroups.CgroupManager.Destroy | code/chapter4/4.4/cgroups/cgroup_manager.go:40-47 | the host is every driver's `Remove` in list order, going on after a failure; the result is nil |
| Cgroups.SetAllWritesOnlyLimits | code/chapter4/4.4/cgroups/cgroup_manager.go:32-37 | setting limits through any list of drivers changes no file except the control files of the drivers that write, and removes no directory or mount |
| Cgroups.SetMemoryOnly | code/chapter4/4.2/cgroups/subsystems/memory.go:18-32 | with only a memory limit configured, the manager's `Set` changes no file except the memory driver's `memory.limit_in_bytes` |
| Cgroups.CpuSetAloneWritesNothing | code/chapter4/4.2/cgroups/subsystems/cpu_set.go:19-23 | with only a cpu set configured, the manager's `Set` writes no file at all, whatever is refused |
| Cgroups.CpuShareAloneClearsCpuSet | code/chapter4/4.2/cgroups/subsystems/cpu_set.go:19-20 | with only a cpu share configured and nothing refused, the cpuset driver succeeds and writes `""` into `cpuset.cpus` |
| Cgroups.ApplyAllJoinsEvery | code/chapter4/4.4/cgroups/cgroup_manager.go:24-29 | with nothing refused, after `Apply` the `tasks` file of every driver whose hierarchy is mounted holds the decimal pid |
| Cgroups.DestroyAllRemovesEvery | code/chapter4/4.4/cgroups/cgroup_manager.go:40-47 | with nothing refused and nothing mounted below the cgroup directories, `Destroy` makes no directory, keeps the mount table and leaves no cgroup directory of any driver whose hierarchy is mounted |
| Cgroups.SetAllKeeps | code/chapter4/4.4/cgroups/cgroup_manager.go:32-37 | setting limits keeps the mount table and the pipe and removes no directory |
| Cgroups.ApplyAllKeeps | code/chapter4/4.4/cgroups/cgroup_manager.go:24-29 | joining the cgroups keeps the mount table and the pipe and removes no directory |
| ContainerProcess.PathExists | code/chapter5/5.3/container/container_process.go:256-265 | three answers: true exactly when the stat succeeds; an error exactly when the stat itself fails; false with no error exactly when the path is absent |
| ContainerProcess.VolumeOfPair | code/chapter5/5.3/container/container_process.go:162-166 | two non-empty colon-free names joined by a colon make a valid volume and split back into the two names |
| ContainerProcess.ValidVolumeIsPair | code/chapter5/5.3/container/container_process.go:97-101 | every volume the guard accepts is two colon-free parts joined by one colon |
| ContainerProcess.CreateReadOnlyLayer | code/chapter5/5.3/container/container_process.go:110-128 | the host is the calls of the image layer: none when `busybox` exists; otherwise the directory is made and the archive extracted into it, also when the existence check failed |
| ContainerProcess.CreateWriteLayer | code/chapter5/5.3/container/container_process.go:131-139 | the host is the one call that makes `writeLayer` |
| ContainerProcess.CreateMountPoint | code/chapter5/5.3/container/container_process.go:142-159 | the host is the mount point made and then the aufs mount of `writeLayer` over `busybox` on it, the second whether or not the first worked |
| ContainerProcess.MountVolume | code/chapter5/5.3/container/container_process.go:169-194 | the host is the host directory made, then the directory `path.Join(mntURL, v[1])` (cleaned, so `..` can climb out of the mount point), then the aufs mount of `v[0]` on it, each whether or not the previous worked |
| ContainerProcess.NewWorkSpace | code/chapter5/5.3/container/container_process.go:92-107 | the host is, in order, the image layer, the writable layer, the union mount, then the volume's calls only when the option splits into two non-empty parts |
| ContainerProcess.DeleteMountPoint | code/chapter5/5.3/container/container_process.go:229-243 | the host is the unmount of the mount point followed by its recursive removal, even when the unmount failed |
| ContainerProcess.DeleteMountPointWithVolume | code/chapter5/5.3/container/container_process.go:213-226 | the host is the volume unmount, then the unmount and removal of the mount point |
| ContainerProcess.DeleteWriteLayer | code/chapter5/5.3/container/container_process.go:246-253 | the host is the recursive removal of `writeLayer` |
| ContainerProcess.DeleteWorkSpace | code/chapter5/5.3/container/container_process.go:197-210 | the host is the mount point's teardown, with the volume's unmount first when the option is valid, followed by the writable layer's removal |
| ContainerProcess.ReadOnlyLayerIdempotent | code/chapter5/5.3/container/container_process.go:113-127 | once the image directory could be made and can be seen, a second extraction makes no call at all |
| ContainerProcess.ImageLayerMakesImage | code/chapter5/5.3/container/container_process.go:110-128 | with nothing refused, the image directory exists after the image layer step |
| ContainerProcess.TeardownOrder | code/chapter5/5.3/container/container_process.go:197-210 | the teardown is exactly: the volume's unmount (if valid), the mount point's unmount, its removal, and the writable layer's removal last |
| ContainerProcess.TeardownKeepsImage | code/chapter5/5.3/container/container_process.go:197-253 | no teardown, whatever is refused and whatever the volume, removes the shared image directory |
| ContainerProcess.TeardownRemoves | code/chapter5/5.3/container/container_process.go:229-253 | with nothing refused, the workspace's mounts on top of the mount table and nothing else mounted at or below the mount point or the writable layer, the teardown leaves neither the mount point, nor the writable layer, nor the volume's directory when that directory lies inside the mount point |
| ContainerProcess.TeardownWithoutVolumeKeepsMounts | code/chapter5/5.3/container/container_process.go:229-244 | a teardown told of no volume while a volume is mounted inside the mount point finds the mount point busy: the unmount fails, every mount stays, and the mount point, which `os.RemoveAll` cannot remove while mounted, stays on the host |
| ContainerProcess.WorkspaceRoundTrip | code/chapter5/5.3/container/container_process.go:92-210 | with nothing refused, no file where the mount points go and nothing mounted at or below the mount point or the writable layer, building and tearing down restores the mount table, keeps the image layer, and leaves no mount point, no writable layer, and no volume directory that lay inside the mount point |
| ContainerProcess.PlainVolumeInside | code/chapter5/5.3/container/container_process.go:169-194 | a volume whose container part is plain names (no `.`, `..` or empty element) is valid, lies inside the mount point, and its directory is the mount point followed by those names |
| ContainerProcess.VolumeEscapes | code/chapter5/5.3/container/container_process.go:178 | `/h:../../x` passes the volume guard, and its directory is `/x`, outside the mount point |
| ContainerProcess.EscapedVolumeStays | code/chapter5/5.3/container/container_process.go:197-253 | a volume directory outside both the mount point and the writable layer survives the teardown |
| ContainerProcess.WorkspaceRoundTripMounts | code/chapter5/5.3/container/container_process.go:92-210 | with nothing refused and no file where the mount points go, the mount table after building and tearing down is the one before |
| ContainerProcess.BuiltMounts | code/chapter5/5.3/container/container_process.go:92-107 | with nothing refused and no file where the mount points go, building pushes exactly the union mount and then, for a valid volume, the volume mount |
| ContainerProcess.BuiltHasImage | code/chapter5/5.3/container/container_process.go:92-107 | with nothing refused, the built workspace has the image directory |
| ContainerProcess.BuiltHasMountPoint | code/chapter5/5.3/container/container_process.go:142-159 | with nothing refused and no file at the mount point's path, the built workspace has its mount point |
| ContainerProcess.MountPointPushes | code/chapter5/5.3/container/container_process.go:142-159 | with nothing refused and no file at the mount point's path, the writable layer and the mount point push exactly the union mount |
| ContainerProcess.VolumePushes | code/chapter5/5.3/container/container_process.go:169-194 | with nothing refused and no file at the volume's mount point, a valid volume pushes exactly its mount and an invalid one pushes nothing |
| ContainerProcess.VolumePops | code/chapter5/5.3/container/container_process.go:213-223 | unmounting the volume pops exactly the volume's mount |
| ContainerProcess.MountPointPops | code/chapter5/5.3/container/container_process.go:229-243 | unmounting and removing the mount point and the writable layer pops exactly the union mount |
| ContainerProcess.TeardownPops | code/chapter5/5.3/container/container_process.go:197-226 | tearing down a workspace whose mounts are on top of the table pops exactly those, volume before union mount |
| ContainerProcess.WorkspaceBuilds | code/chapter5/5.3/container/container_process.go:92-107 | building the workspace makes only directories, extractions and mounts |
| ContainerProcess.StdioSpec | code/chapter5/5.3/container/container_process.go:52-69 | a terminal keeps the engine's stdio; otherwise output goes to `container.log` in the container's directory, which is made first; there is no output setting exactly when, without a terminal, that directory cannot be made (refused, or a file is in its place); the pipe and mounts are untouched |
| ContainerProcess.NewParentProcessSpec | code/chapter5/5.3/container/container_process.go:42-80 | no command exactly when the pipe cannot be made, or, without a terminal, the container's directory cannot (refused, or a file is in its place); otherwise `/proc/self/exe init` in the five new namespaces, with the pipe's read end as its only extra file, `/root/mnt/` as its directory, the terminal exactly when asked for, and the pipe open and empty |
| ContainerProcess.ParentUnrefused | code/chapter5/5.3/container/container_process.go:42-80 | with nothing refused, and without a terminal no file where the container's directory goes, there is a command, and its host is the workspace built on the host after the pipe and output were set up |
| ContainerProcess.NewParentProcess | code/chapter5/5.3/container/container_process.go:42-80 | host and command are `NewParentProcessSpec` of the old host |
| ContainerInit.ReadUserCommand | code/chapter4/4.1/container/init.go:42-52 | a read error gives nil; otherwise at least one space-free word whose join with single spaces is the message |
| ContainerInit.ReadCommandNeverEmpty | code/chapter4/4.1/container/init.go:22-25 | the command is nil or non-empty, so the empty-array half of the guard never fires |
| ContainerInit.AttemptIsPrefix | code/chapter4/4.1/container/init.go:73-120 | the pivot makes a prefix of its calls; no error means all of them; an error is the wrapped failure of the last one made |
| ContainerInit.AttemptStopsAtFirstFailure | code/chapter4/4.1/container/init.go:73-120 | every call the pivot makes before its last succeeds, and the last fails exactly when an error is returned |
| ContainerInit.PivotDirOnlyIfAbsent | code/chapter4/4.1/container/init.go:89-95 | `.pivot_root` is created exactly when the stat says it is absent; the root is made private and bound first, `pivot_root` is fourth from the end, and the removal of the old root is last |
| ContainerInit.PivotOpsAt | code/chapter4/4.1/container/init.go:73-120 | the calls by position: make `/` private, bind the root, make `.pivot_root` if absent, `pivot_root`, `chdir /`, detach `/.pivot_root`, remove it |
| ContainerInit.PivotSucceeds | code/chapter4/4.1/container/init.go:73-120 | with nothing refused, `.pivot_root` absent, and nothing but it below the old root's place, the pivot returns no error |
| ContainerInit.SetupMountSpec | code/chapter4/4.1/container/init.go:54-71 | with no working directory nothing happens; otherwise the pivot, then `/proc` and `/dev` are mounted whatever the pivot returned |
| ContainerInit.SetupMountsLast | code/chapter4/4.1/container/init.go:62-70 | whatever prefix of the pivot ran and whether or not it failed, the last two calls mount `/proc` and then `/dev` |
| ContainerInit.SetupMountMounts | code/chapter4/4.1/container/init.go:62-70 | when neither mount is refused and both mount points exist, `setupMount` pushes `/proc` and then `/dev` onto the mount table, whatever became of the pivot |
| ContainerInit.AttemptKeeps | code/chapter4/4.1/container/init.go:73-120 | the pivot's calls keep the mount table and every directory but the old root's, wherever they stop |
| ContainerInit.InitSpec | code/chapter4/4.1/container/init.go:21-40 | a failed read returns an error having mounted nothing; an exec runs the split message with its first word found on `$PATH`, after `setupMount`; a failed search returns its error after the mounts; a nil return means the exec call was made |
| ContainerInit.PivotRootSteps | code/chapter4/4.1/container/init.go:73-120 | host and error are those of making the pivot's calls in order up to the first failure |
| ContainerInit.SetupMount | code/chapter4/4.1/container/init.go:54-71 | the host is `SetupMountSpec` of the old host |
| ContainerInit.RunContainerInitProcess | code/chapter4/4.1/container/init.go:21-40 | host and outcome are `InitSpec` of the old host |
| Run.IdOf | code/chapter5/5.6/run.go:138-146 | the id has one character per draw, each a character of `0123456789ABCDEF` |
| Run.IdOfInjective | code/chapter5/5.6/run.go:139-143 | different draws give different ids |
| Run.RandStringBytes | code/chapter5/5.6/run.go:138-146 | the buffer it fills is the id the draws give |
| Run.RecordSpec | code/chapter5/5.6/run.go:75-126 | recording keeps mounts and pipe and removes no directory |
| Run.RecordWritesRecord | code/chapter5/5.6/run.go:80-93 | a successful recording returns the given name, or the id when none was given, and leaves in the record file a record with that id, the decimal pid, that name, the arguments run together without a separator, the time, and status `Running` |
| Run.RecordFails | code/chapter5/5.6/run.go:96-122 | a failed recording returns `""` and the failure of its mkdir, create or write; with nothing refused and no file where the container's directory goes, it does not fail |
| Run.RecordRoom | code/chapter5/5.3/container/container_process.go:52-69 | after `NewParentProcess` there is still room for the record: the log it creates never lands on the way to the record's directory. A named container's log directory was just made by `os.MkdirAll`, so the create fails there; an unnamed one logs to `/var/run/mydocker/container.log`, which no id-named directory passes through |
| Run.LogFileApart | code/chapter5/5.3/container/container_process.go:63 | the log file's path is no directory spelt with a trailing slash |
| Run.RecordContainerInfo | code/chapter5/5.6/run.go:75-126 | host, name and error are `RecordSpec` of the old host |
| Run.DeleteContainerInfo | code/chapter5/5.6/run.go:128-135 | the host is the recursive removal of the container's directory |
| Run.DeleteRemovesRecord | code/chapter5/5.6/run.go:128-135 | once removed, with nothing mounted below it, the directory is gone in both spellings (`/var/run/mydocker/<name>/` and `/var/run/mydocker/<name>`, as `os.MkdirAll` made them), and so is its record file |
| Run.HandOffSpec | code/chapter5/5.6/run.go:67-72 | the hand-off touches only the pipe; with nothing refused an empty open pipe ends closed, holding the arguments joined by single spaces |
| Run.SendInitCommand | code/chapter5/5.6/run.go:67-72 | the host is `HandOffSpec`: write the joined command, then close |
| Run.CommandRoundTrip | code/chapter5/5.6/run.go:68 | what the parent sends, the init reads back: a non-empty list of space-free arguments survives the hand-off |
| Run.ConfigureSpec | code/chapter5/5.6/run.go:39-44 | setting the limits and then joining the cgroups keeps mounts and pipe and removes no directory |
| Run.Run | code/chapter5/5.6/run.go:20-65 | host and outcome are `RunSpec`: parent process, start, record, `Set`, `Apply`, hand-off, and only with a terminal wait and clean up; the deferred `Destroy` never runs |
| Run.RunEnds | code/chapter5/5.6/run.go:20-35 | no parent exactly when `NewParentProcess` gives none; a panic only when starting is refused; a failed recording ends on its failed call; otherwise it ends under the recorded name; with nothing refused and no file in the way of the directories it makes (`Run.RoomToRun`), it always ends under that name |
| Run.Launches | code/chapter5/5.6/run.go:21-25 | with nothing refused and no file in the way (`Run.LaunchRoom`), the parent exists, the pipe is open and empty, the mount point exists, and the workspace's mounts are on top of the table |
| Run.MiddleKeeps | code/chapter5/5.6/run.go:26-47 | with nothing refused and no file where the container's directory goes, from start to hand-off: recording succeeds under the expected name, mounts are kept, no directory goes, the container's directory exists, and the pipe ends closed holding the joined command |
| Run.CleansUp | code/chapter5/5.6/run.go:48-56 | with nothing refused and nothing mounted in the way (`Run.CleanupClear`: below the workspace's own mounts nothing at or below the mount point, the writable layer or the container's directory, and no escaped volume landing in that directory), the terminal clean-up pops the workspace's mounts and removes the container's directory in both spellings, the mount point and the writable layer |
| Run.Discards | code/chapter5/5.6/stop.go:86-92 | with nothing refused and nothing mounted in the way (`Run.CleanupClear`), discarding a container whose workspace is up pops its mounts and removes its directory (both spellings), mount point and writable layer |
| Run.RunHandsOverCommand | code/chapter5/5.6/run.go:47 | with nothing refused and no file in the way, the container's init reads back exactly the command it was given, with or without a terminal |
| Run.TtyRunCleansUp | code/chapter5/5.6/run.go:48-56 | with a terminal, nothing refused, no file in the way and nothing mounted in the way of the clean-up (`Run.CleanupClear`), `Run` ends under its name with the mount table as before and no container directory in either spelling, mount point or writable layer |
| Run.DetachedRunStays | code/chapter5/5.6/run.go:48-56 | detached, with nothing refused and no file in the way, the container's directory, the mount point and the workspace's mounts stay in place |
| Exec.PidByNameReads | code/chapter5/5.5/exec.go:46-63 | the pid is found exactly when the record file is there, readable and decodable, and it is that record's pid field; the error is the failed read, the missing file or the undecodable file |
| Exec.GetContainerPidByName | code/chapter5/5.5/exec.go:46-63 | returns the record's pid and no error, or `""` and the error |
| Exec.ExecContainer | code/chapter5/5.5/exec.go:20-44 | the host is nothing on a failed lookup, otherwise both variables set and then the helper run |
| Exec.ExecNeedsPid | code/chapter5/5.5/exec.go:20-44 | a failed lookup leaves the host as it was; otherwise exactly the two `Setenv` calls and the helper are made, and no file, directory, mount or pipe changes |
| Exec.ExecHandsOver | code/chapter5/5.5/exec.go:28-41 | the helper runs last, with `mydocker_pid` holding the record's pid whatever the status, including a stopped container's blank pid, and `mydocker_cmd` holding the command joined by single spaces |
| Stop.LookupsAgree | code/chapter5/5.6/stop.go:56-73 | the pid lookup and the record lookup succeed together and agree on the pid and the error |
| Stop.GetContainerInfoByName | code/chapter5/5.6/stop.go:56-73 | returns the record in the container's `config.json`, or the read or decode error |
| Stop.StoppedRecord | code/chapter5/5.6/stop.go:41-42 | the stopped record has status `Stopped`, pid `" "`, and every other field unchanged |
| Stop.StopContainer | code/chapter5/5.6/stop.go:16-54 | host and outcome are `StopSpec` of the old host |
| Stop.StopFailureKeepsRecord | code/chapter5/5.6/stop.go:18-33 | a failed lookup or a pid that is not an integer changes nothing; any stop whose final write does not go through changes no file, directory, mount, variable or pipe |
| Stop.StopRewritesRecord | code/chapter5/5.6/stop.go:35-53 | a stop that goes through signalled the record's pid, changed no other file, and the record now reads back as its stopped form |
| Stop.StopGoesThrough | code/chapter5/5.6/stop.go:16-54 | with nothing refused, a readable record with an integer pid is always stopped |
| Stop.StopStoppedDoesNothing | code/chapter5/5.6/stop.go:24-28 | stopping a record whose pid is `" "` changes nothing and signals nothing |
| Stop.StopTwice | code/chapter5/5.6/stop.go:16-54 | after a stop that went through, a second stop changes nothing |
| Stop.RemoveContainer | code/chapter5/5.6/stop.go:75-93 | host and outcome are `RemoveContainerSpec`: nothing without a record or unless it says stopped, otherwise remove the directory and then, if the mount point is there, the workspace |
| Stop.RemoveGuard | code/chapter5/5.6/stop.go:76-85 | `rm` goes ahead exactly when the record loads and says `Stopped`; otherwise the host is unchanged |
| Stop.RemoveForgets | code/chapter5/5.6/stop.go:86 | after a removal whose directory could be removed, with nothing mounted below it, the directory is gone in both spellings and a later lookup fails |
| Stop.DiscardForgets | code/chapter5/5.6/stop.go:86-92 | once its directory can be removed, with nothing mounted below it, discarding a container leaves neither its directory, in either spelling, nor its record file, whatever else the teardown meets |
| Stop.RemoveTearsDown | code/chapter5/5.6/stop.go:86-92 | with nothing refused and nothing mounted in the way (`Run.CleanupClear`), removing a stopped container whose workspace is up pops its mounts and removes its directory (both spellings), mount point and writable layer |
| Stop.RemoveAfterRunRefuses | code/chapter5/5.6/stop.go:82-85 | the record a successful `run` writes reads back as running, so `rm` right after refuses and changes nothing |
| Stop.RemoveAfterStop | code/chapter5/5.6/stop.go:82-86 | a container whose stop went through can be removed |
| Stop.RemoveKeepsVolumeMounts | code/chapter5/5.6/stop.go:86-92 | `rm` passes no volume, so for a container run with a volume inside the mount point the volume's mount keeps the mount point busy: the mount table is left exactly as it was and the mount point stays on the host |
| List.ListRootIsInfoRoot | code/chapter5/5.3/list.go:17-18 | the registry root `ps` lists is `/var/run/mydocker/`, trailing slash kept |
| List.EntryPathsAgree | code/chapter5/5.3/list.go:60-63 | for every entry name, `ps` reads the same record file as `stop`, `rm` and `exec` |
| List.GetContainerInfo | code/chapter5/5.3/list.go:58-78 | returns the entry's record, or its read or decode error |
| List.LoadedMembers | code/chapter5/5.3/list.go:26-35 | a record is listed exactly when some entry loads to it |
| List.LoadedAppend | code/chapter5/5.3/list.go:28-35 | listing keeps the entries' order: the records of `a + b` are those of `a` followed by those of `b` |
| List.LoadedCount | code/chapter5/5.3/list.go:26-35 | at most one record per entry; one each exactly when every entry loads, and then the i-th record is the i-th entry's |
| List.RowCells | code/chapter5/5.3/list.go:43-49 | a row has as many cells as the header |
| List.Lines | code/chapter5/5.3/list.go:42-50 | one line per record, the i-th line being the i-th record's row |
| List.TableLines | code/chapter5/5.3/list.go:41-50 | cut at newlines, the output is the header, then one line per record in order, then nothing, provided no field holds a newline |
| List.TableJoin | code/chapter5/5.3/list.go:41-50 | the output is the header and the record lines joined by newlines, ending in a newline |
| List.RowColumns | code/chapter5/5.3/list.go:43-49 | cut at tabs, a row is the six fields in header order (id, name, pid, status, command, created) then an empty rest, provided no field holds a tab |
| List.ListContainers | code/chapter5/5.3/list.go:15-56 | the output is nothing when the root cannot be listed, otherwise the table of exactly the records that load, in listing order |
| List.ListShowsRecorded | code/chapter5/5.3/list.go:26-35 | a container whose record loads is listed under any listing that names it |
| List.RecordedIsListed | code/chapter5/5.3/list.go:17-35 | once `run` has recorded a container, the registry root can be listed (`os.MkdirAll` made it), and a listing that names the container yields the running record just written |
| Cli.RunArgsError | code/chapter5/5.6/main_command.go:56-68 | `run` is accepted exactly with at least one argument and not both `ti` and `d`; each refusal carries its own message |
| Cli.ResourceConfigOf | code/chapter5/5.6/main_command.go:69-73 | the three limits are the flags `m`, `cpushare` and `cpuset` |
| Cli.CollectArgs | code/chapter5/5.6/main_command.go:59-62 | the collected command is the argument list, in order |
| Cli.RunAction | code/chapter5/5.6/main_command.go:55-79 | host and error are `RunActionSpec` of the old host |
| Cli.RunActionGuards | code/chapter5/5.6/main_command.go:55-79 | no arguments, or both `ti` and `d`, returns the message and changes nothing; otherwise it is `Run` with all the arguments, `ti`, `v`, the three limits and `name`, and no error, also when that run ends with a panicked start (`Run.Run`), where the source's process crashes |
| Cli.ExecAction | code/chapter5/5.6/main_command.go:136-157 | host and error are `ExecActionSpec` of the old host |
| Cli.ExecActionGuards | code/chapter5/5.6/main_command.go:136-157 | with `mydocker_pid` set it returns nil at once; otherwise fewer than two arguments is an error with no change, and two or more is `exec` of the first as the name and the rest as the command |
| Cli.ExecHelperReturns | code/chapter5/5.6/main_command.go:137-143 | after a first `exec` of a container with a non-empty pid, the helper's own `exec` returns at once and changes nothing |
| Cli.NameArg | code/chapter5/5.6/main_command.go:164-167 | `commit`, `logs`, `stop` and `rm` take the first argument, and with none fail with `missing container name` |
| Cli.StopAction | code/chapter5/5.6/main_command.go:163-170 | host and error are `StopActionSpec` of the old host |
| Cli.RemoveAction | code/chapter5/5.6/main_command.go:176-183 | host and error are `RemoveActionSpec` of the old host, always with the volume `""` |
| Cli.NamedActionsGuard | code/chapter5/5.6/main_command.go:164-183 | without arguments `stop` and `rm` fail and change nothing; with some they act on the first and ignore the rest |

## Left out

- Kernel semantics. What `mount`, `umount`, `tar`, `pivot_root`, `chdir`, `exec`, `kill`, process start and wait actually do is not modelled:
  - each is one traced call that may be refused;
  - only its effect on the modelled state is given;
  - extracting, signalling, starting and the calls that rearrange the container's root leave the modelled state as it was.
- Randomness, the clock, the pid the kernel assigns, what the pipe yields, `os.Getwd` and `exec.LookPath` are parameters, not computed.
- `ioutil.ReadDir`: only whether it succeeds is modelled; the entry names and their order are a parameter of `ps`.
- `GetCgroupPath` is not part of this model. `Subsystems.ResolveSpec` stands in for it, specified from its documented use: find the cgroup directory under the subsystem's mounted hierarchy, and create it when asked to. The hierarchy roots are a parameter.
- JSON encoding is lossless and never fails. Key names are not modelled, because the struct tags at `container_process.go:16-21` are unterminated and the id/pid comments are swapped.
- Logging, `fmt` and the tabwriter's column alignment and `Flush` are not modelled. `List.ListContainers` produces the text handed to the table writer.
- `Cgroups.CgroupManager.Destroy` is modelled, but `Run.Run` does not end with it: the deferred call is skipped by `os.Exit(0)`, so no cgroup removal is claimed after `run`.
- Run.Run: a failed `Start` leaves `parent.Process` nil, and the next line dereferences it. The model ends the run with `StartPanicked` and does not describe the panic further.
- Run.Run: the pipe's write end is the host's one pipe, not a separate file returned by `NewParentProcess`.
- The `init` subcommand's action only forwards to `ContainerInit.RunContainerInitProcess`, so it has no separate member.
- `commit` and `logs` are modelled only up to their argument check (`Cli.NameArg`). What they then do (tar the mount point, copy the log file) is I/O only.
- The `nsenter` C constructor, which enters the namespaces in the `exec` helper, is foreign code that runs before Go's runtime starts. Only the environment it reads is modelled.
- Cli.RemoveAction: `rm` declares no `v` flag, so it always passes `""` as the volume. A workspace built with a volume is torn down as if it had none: the unmount of the mount point fails because the volume is still mounted below it, both mounts stay, and so does the mount point, which `os.RemoveAll` cannot remove while mounted (`Stop.RemoveKeepsVolumeMounts`).
- Host.Effect: an aufs mount does not make its branches' contents appear under its target. `os.RemoveAll` of a directory with a mount at or below it deletes what it can reach through the mounts before the kernel refuses to remove the mount point with `EBUSY`; the model lets that removal fail and remove nothing. So when `rm` runs `os.RemoveAll` on the still-mounted mount point, the source deletes files of the writable layer and of the host volume through the aufs mounts, while the model keeps them.
- Process liveness, the timing of signal delivery and the race between `stop` and `rm` are concurrency concerns and are left out.
- `Strings.Atoi` models the 64-bit `strconv.Atoi` (optional sign, decimal digits, range check). Other syntax it might accept is not modelled.
- Strings.PathJoin: `path.Clean` is modelled lexically, on the spelling alone. The model keeps the elements, drops empty ones and `.`, and lets `..` remove the element before it. Symbolic links are not followed.
- Host paths are compared as spelt, with one exception: a directory with and without its trailing slash is the same directory to `os.MkdirAll` (which makes both spellings) and to `os.RemoveAll` (which removes both, `Strings.Under`). The kernel's own resolution of `.`, `..`, doubled slashes and trailing slashes in paths built with `fmt.Sprintf` (the container directory `/var/run/mydocker/<name>/`) is not modelled. A container name such as `.` makes that directory the registry itself, so `rm .` would remove every record; the model treats it as a directory of its own. The lemmas about listed records therefore take plain entry names (`Records.IsEntryName`).
- Host.Permits: a missing parent directory for `os.Mkdir`, `os.Create` and `ioutil.WriteFile`, and permission bits, are not part of the state. Such failures can only come from `refused`. A file in the way of `os.MkdirAll`, and a directory standing where a file is created or written, are part of the state.
- Host.Permits: `os.Remove` of an absent path succeeds in the model. `pivot_root` does not move the modelled tree, so the old root's place `/.pivot_root` is not known to exist in the host state.
- ContainerInit.PivotSucceeds: after the lazy unmount the kernel leaves the old root's place empty. The model does not derive this; the lemma takes it as a hypothesis on the host.
