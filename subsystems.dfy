/** The cgroup subsystem layer: the resource configuration, the closed list
    of three drivers, the resolver that finds (and optionally creates) a
    cgroup directory under a subsystem's hierarchy, and the specification of
    what each driver's `Set`, `Apply` and `Remove` do to the host. The three
    drivers differ only in the entries of a small table (their name, their
    control file, the value `Set` writes and when, the error texts), so the
    specification is written once against that table and each driver's
    method is proved against it. */
module Subsystems {
  import opened Results
  import opened Strings
  import opened Records
  import opened Host

  /** `ResourceConfig`: three independent limits, "" meaning "not set". */
  datatype ResourceConfig = ResourceConfig(memoryLimit: string, cpuShare: string, cpuSet: string)

  datatype Subsystem = CpusetSubSystem | MemorySubSystem | CpuSubSystem
  {
    /** `Name()`: the hierarchy the driver works in. */
    function Name(): string
    {
      match this
      case CpusetSubSystem => "cpuset"
      case MemorySubSystem => "memory"
      case CpuSubSystem => "cpu"
    }

    /** The control file `Set` writes. */
    function LimitFile(): string
    {
      match this
      case CpusetSubSystem => "cpuset.cpus"
      case MemorySubSystem => "memory.limit_in_bytes"
      case CpuSubSystem => "cpu.shares"
    }

    /** What `Set` writes into the control file, if it writes at all. The
        cpuset driver decides on the cpu share but writes the cpu set. */
    function Limit(res: ResourceConfig): Option<string>
    {
      match this
      case CpusetSubSystem => if res.cpuShare != "" then Some(res.cpuSet) else None
      case MemorySubSystem => if res.memoryLimit != "" then Some(res.memoryLimit) else None
      case CpuSubSystem => if res.cpuShare != "" then Some(res.cpuShare) else None
    }

    /** The context `Set` puts around a failed write. */
    function SetFailure(): string
    {
      match this
      case CpusetSubSystem => "set cgroup CPUset fail"
      case MemorySubSystem => "set cgroup memory fail"
      case CpuSubSystem => "set cgroup CPU share fail"
    }

    /** Whether `Apply` wraps a resolver error (memory returns it as is). */
    predicate WrapsApplyError()
    {
      !MemorySubSystem?
    }
  }

  /** `SubsystemsIns`: every driver once, in this order. */
  const SubsystemsIns: seq<Subsystem> := [CpusetSubSystem, MemorySubSystem, CpuSubSystem]

  /** The list is closed and visits each resource kind exactly once, and the
      three drivers work in three different hierarchies. */
  lemma SubsystemsInsOnce()
    ensures |SubsystemsIns| == 3
    ensures forall k: Subsystem :: multiset(SubsystemsIns)[k] == 1
    ensures forall i, j :: 0 <= i < j < |SubsystemsIns| ==> SubsystemsIns[i].Name() != SubsystemsIns[j].Name()
    ensures forall i, j :: 0 <= i < j < |SubsystemsIns| ==> SubsystemsIns[i].LimitFile() != SubsystemsIns[j].LimitFile()
  {
    var m := multiset{CpusetSubSystem} + multiset{MemorySubSystem} + multiset{CpuSubSystem};
    assert multiset(SubsystemsIns) == m;
    forall k: Subsystem ensures m[k] == 1 {
      match k
      case CpusetSubSystem =>
      case MemorySubSystem =>
      case CpuSubSystem =>
    }
  }

  /** The file the pid is written to. */
  const TasksFile: string := "tasks"

  /** The cgroup directory of `cgroupPath` in the hierarchy of `name`. */
  function CgroupDir(roots: map<string, Path>, name: string, cgroupPath: Path): Path
    requires name in roots
  {
    PathJoin(roots[name], cgroupPath)
  }

  /** `GetCgroupPath(name, cgroupPath, autoCreate)`: the directory when it
      exists, or when it is absent and `autoCreate` allows creating it; an
      error otherwise. A subsystem without a mounted hierarchy has no
      directory at all. */
  function ResolveSpec(s: HostState, refused: set<Op>, roots: map<string, Path>,
                       name: string, cgroupPath: Path, autoCreate: bool): (r: (HostState, Result<Path, Error>))
    ensures name !in roots ==> r == (s, Err(NoHierarchy(name)))
    ensures r.1.Ok? ==> name in roots && r.1.value == CgroupDir(roots, name, cgroupPath)
    ensures r.1.Ok? ==> r.1.value in r.0.dirs || r.1.value in r.0.files
    ensures r.0.files == s.files && r.0.mounts == s.mounts && s.dirs <= r.0.dirs && r.0.pipe == s.pipe
    ensures name in roots ==> r.0.dirs <= s.dirs + {CgroupDir(roots, name, cgroupPath)}
    ensures !autoCreate ==> r.0 == s
    ensures r.0 == s || (name in roots && r.0 == Step(s, refused, Mkdir(CgroupDir(roots, name, cgroupPath))).0)
    ensures refused == {} && autoCreate && name in roots ==> r.1 == Ok(CgroupDir(roots, name, cgroupPath))
  {
    if name !in roots then (s, Err(NoHierarchy(name)))
    else
      var dir := CgroupDir(roots, name, cgroupPath);
      match StatIn(s, refused, dir)
      case Exists => (s, Ok(dir))
      case StatError(e) => (s, Err(Wrapped("cgroup path error", e)))
      case NotExist =>
        if !autoCreate then (s, Err(Wrapped("cgroup path error", Missing(dir))))
        else
          StepMkdir(s, refused, dir);
          var made := Step(s, refused, Mkdir(dir));
          if made.1 then (made.0, Ok(dir))
          else (made.0, Err(Wrapped("error create cgroup", Failed(Mkdir(dir)))))
  }

  /** `GetCgroupPath`. */
  method GetCgroupPath(h: Host, name: string, cgroupPath: Path, autoCreate: bool) returns (r: Result<Path, Error>)
    modifies h
    ensures (h.State(), r) == ResolveSpec(old(h.State()), h.refused, h.cgroupRoots, name, cgroupPath, autoCreate)
  {
    if name !in h.cgroupRoots {
      return Err(NoHierarchy(name));
    }
    ghost var s0 := h.State();
    var dir := CgroupDir(h.cgroupRoots, name, cgroupPath);
    var st := h.Stat(dir);
    assert st == StatIn(s0, h.refused, dir);
    match st
    case Exists => r := Ok(dir);
    case StatError(e) => r := Err(Wrapped("cgroup path error", e));
    case NotExist =>
      if !autoCreate {
        r := Err(Wrapped("cgroup path error", Missing(dir)));
      } else {
        var ok := h.Perform(Mkdir(dir));
        assert (h.State(), ok) == Step(s0, h.refused, Mkdir(dir));
        r := if ok then Ok(dir) else Err(Wrapped("error create cgroup", Failed(Mkdir(dir))));
      }
  }

  /** The write `Set` makes once the directory is known. */
  function LimitWrite(sub: Subsystem, dir: Path, value: string): Op
  {
    WriteFile(PathJoin(dir, sub.LimitFile()), Text(value))
  }

  /** The write `Apply` makes once the directory is known. */
  function TasksWrite(dir: Path, pid: int): Op
  {
    WriteFile(PathJoin(dir, TasksFile), Text(Itoa(pid)))
  }

  /** No directory stands where `file` of the cgroup directory goes, and the
      cgroup directory, which resolving may make, is not that path either:
      what writing the control file needs. */
  predicate ControlClear(s: HostState, roots: map<string, Path>, sub: Subsystem, cgroupPath: Path, file: string)
    requires sub.Name() in roots
  {
    var d := CgroupDir(roots, sub.Name(), cgroupPath);
    PathJoin(d, file) !in s.dirs + {d}
  }

  /** `Set(cgroupPath, res)` of driver `sub`: resolve with auto-create, then
      write the driver's limit when the driver's field is set. It writes no
      file but the driver's control file, and none at all when the field is
      unset or the directory cannot be had. */
  function SetSpec(s: HostState, refused: set<Op>, roots: map<string, Path>,
                   sub: Subsystem, cgroupPath: Path, res: ResourceConfig): (r: (HostState, Option<Error>))
    ensures r.0.mounts == s.mounts && s.dirs <= r.0.dirs && r.0.pipe == s.pipe
    ensures sub.Limit(res).None? ==> r.0.files == s.files && r.1.None? == ResolveSpec(s, refused, roots, sub.Name(), cgroupPath, true).1.Ok?
    ensures ResolveSpec(s, refused, roots, sub.Name(), cgroupPath, true).1.Err? ==>
              r.0.files == s.files && r.1 == Some(ResolveSpec(s, refused, roots, sub.Name(), cgroupPath, true).1.error)
    ensures r.0.files == s.files ||
              (sub.Limit(res).Some? && sub.Name() in roots &&
               r.0.files == s.files[PathJoin(CgroupDir(roots, sub.Name(), cgroupPath), sub.LimitFile()) := Text(sub.Limit(res).value)])
    ensures refused == {} && sub.Name() in roots && sub.Limit(res).Some? &&
            ControlClear(s, roots, sub, cgroupPath, sub.LimitFile()) ==>
              r.1.None? &&
              r.0.files == s.files[PathJoin(CgroupDir(roots, sub.Name(), cgroupPath), sub.LimitFile()) := Text(sub.Limit(res).value)]
  {
    var resolved := ResolveSpec(s, refused, roots, sub.Name(), cgroupPath, true);
    match resolved.1
    case Err(e) => (resolved.0, Some(e))
    case Ok(d) =>
      match sub.Limit(res)
      case None => (resolved.0, None)
      case Some(v) =>
        StepWriteFile(resolved.0, refused, PathJoin(d, sub.LimitFile()), Text(v));
        var written := Step(resolved.0, refused, LimitWrite(sub, d, v));
        (written.0, if written.1 then None else Some(Wrapped(sub.SetFailure(), Failed(LimitWrite(sub, d, v)))))
  }

  /** `Apply(cgroupPath, pid)` of driver `sub`: resolve with auto-create, then
      write the decimal pid into `tasks`. */
  function ApplySpec(s: HostState, refused: set<Op>, roots: map<string, Path>,
                     sub: Subsystem, cgroupPath: Path, pid: int): (r: (HostState, Option<Error>))
    ensures r.0.mounts == s.mounts && s.dirs <= r.0.dirs && r.0.pipe == s.pipe
    ensures r.0.files == s.files ||
              (sub.Name() in roots &&
               r.0.files == s.files[PathJoin(CgroupDir(roots, sub.Name(), cgroupPath), TasksFile) := Text(Itoa(pid))])
    ensures ResolveSpec(s, refused, roots, sub.Name(), cgroupPath, true).1.Err? ==>
              var e := ResolveSpec(s, refused, roots, sub.Name(), cgroupPath, true).1.error;
              r.0.files == s.files &&
              r.1 == Some(if sub.WrapsApplyError() then Wrapped("get cgroup " + cgroupPath + " error", e) else e)
    ensures sub.Name() in roots ==> r.0.dirs <= s.dirs + {CgroupDir(roots, sub.Name(), cgroupPath)}
    ensures sub.Name() !in roots ==> r.0.dirs == s.dirs
    ensures refused == {} && sub.Name() in roots && ControlClear(s, roots, sub, cgroupPath, TasksFile) ==>
              r.1.None? &&
              r.0.files == s.files[PathJoin(CgroupDir(roots, sub.Name(), cgroupPath), TasksFile) := Text(Itoa(pid))]
  {
    var resolved := ResolveSpec(s, refused, roots, sub.Name(), cgroupPath, true);
    match resolved.1
    case Err(e) =>
      (resolved.0, Some(if sub.WrapsApplyError() then Wrapped("get cgroup " + cgroupPath + " error", e) else e))
    case Ok(d) =>
      StepWriteFile(resolved.0, refused, PathJoin(d, TasksFile), Text(Itoa(pid)));
      var written := Step(resolved.0, refused, TasksWrite(d, pid));
      (written.0, if written.1 then None else Some(Wrapped("set cgroup proc fail", Failed(TasksWrite(d, pid)))))
  }

  /** `Remove(cgroupPath)` of driver `sub`: resolve without auto-create, then
      delete the directory and everything below it. It never creates a
      directory; with nothing refused and nothing mounted below the cgroup
      it leaves nothing of the cgroup, and a mount below it makes the
      removal fail and keep every directory. */
  function RemoveSpec(s: HostState, refused: set<Op>, roots: map<string, Path>,
                      sub: Subsystem, cgroupPath: Path): (r: (HostState, Option<Error>))
    ensures r.0.dirs <= s.dirs && r.0.mounts == s.mounts
    ensures r.1.None? ==>
              sub.Name() in roots &&
              forall d :: d in r.0.dirs ==> !Under(d, CgroupDir(roots, sub.Name(), cgroupPath))
    ensures refused == {} && sub.Name() in roots && !MountedUnder(s.mounts, CgroupDir(roots, sub.Name(), cgroupPath)) ==>
              CgroupDir(roots, sub.Name(), cgroupPath) !in r.0.dirs
    ensures sub.Name() in roots && MountedUnder(s.mounts, CgroupDir(roots, sub.Name(), cgroupPath)) ==>
              r.1.Some? && r.0.dirs == s.dirs
    ensures r.1.None? || r.0.dirs == s.dirs
  {
    var resolved := ResolveSpec(s, refused, roots, sub.Name(), cgroupPath, false);
    match resolved.1
    case Err(e) => (resolved.0, Some(e))
    case Ok(d) =>
      StepRemoveAll(resolved.0, refused, d);
      var removed := Step(resolved.0, refused, RemoveAll(d));
      (removed.0, if removed.1 then None else Some(Failed(RemoveAll(d))))
  }
}
