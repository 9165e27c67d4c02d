/** `CgroupManager`: one cgroup path, shared by every subsystem, and the three
    operations that run a driver operation on every subsystem in list order.
    Errors of the drivers are dropped and the loop goes on: there is no
    rollback, and each operation reports success. */
module Cgroups {
  import opened Results
  import opened Strings
  import opened Records
  import opened Host
  import opened Subsystems
  import Memory
  import CpuSet
  import Cpu

  /** `subSysIns.Set(path, res)` through the `Subsystem` interface. */
  method SetWith(h: Host, sub: Subsystem, cgroupPath: Path, res: ResourceConfig) returns (err: Option<Error>)
    modifies h
    ensures (h.State(), err) == SetSpec(old(h.State()), h.refused, h.cgroupRoots, sub, cgroupPath, res)
  {
    match sub
    case CpusetSubSystem => err := CpuSet.Set(h, cgroupPath, res);
    case MemorySubSystem => err := Memory.Set(h, cgroupPath, res);
    case CpuSubSystem => err := Cpu.Set(h, cgroupPath, res);
  }

  /** `subSysIns.Apply(path, pid)` through the `Subsystem` interface. */
  method ApplyWith(h: Host, sub: Subsystem, cgroupPath: Path, pid: int) returns (err: Option<Error>)
    modifies h
    ensures (h.State(), err) == ApplySpec(old(h.State()), h.refused, h.cgroupRoots, sub, cgroupPath, pid)
  {
    match sub
    case CpusetSubSystem => err := CpuSet.Apply(h, cgroupPath, pid);
    case MemorySubSystem => err := Memory.Apply(h, cgroupPath, pid);
    case CpuSubSystem => err := Cpu.Apply(h, cgroupPath, pid);
  }

  /** `subSysIns.Remove(path)` through the `Subsystem` interface. */
  method RemoveWith(h: Host, sub: Subsystem, cgroupPath: Path) returns (err: Option<Error>)
    modifies h
    ensures (h.State(), err) == RemoveSpec(old(h.State()), h.refused, h.cgroupRoots, sub, cgroupPath)
  {
    match sub
    case CpusetSubSystem => err := CpuSet.Remove(h, cgroupPath);
    case MemorySubSystem => err := Memory.Remove(h, cgroupPath);
    case CpuSubSystem => err := Cpu.Remove(h, cgroupPath);
  }

  /** The host after `Set` on each driver of `subs` in turn, whatever each
      returned. */
  function SetAll(s: HostState, refused: set<Op>, roots: map<string, Path>,
                  subs: seq<Subsystem>, cgroupPath: Path, res: ResourceConfig): HostState
    decreases |subs|
  {
    if subs == [] then s
    else SetSpec(SetAll(s, refused, roots, subs[..|subs| - 1], cgroupPath, res),
                 refused, roots, subs[|subs| - 1], cgroupPath, res).0
  }

  /** The host after `Apply` on each driver of `subs` in turn. */
  function ApplyAll(s: HostState, refused: set<Op>, roots: map<string, Path>,
                    subs: seq<Subsystem>, cgroupPath: Path, pid: int): HostState
    decreases |subs|
  {
    if subs == [] then s
    else ApplySpec(ApplyAll(s, refused, roots, subs[..|subs| - 1], cgroupPath, pid),
                   refused, roots, subs[|subs| - 1], cgroupPath, pid).0
  }

  /** The host after `Remove` on each driver of `subs` in turn. */
  function DestroyAll(s: HostState, refused: set<Op>, roots: map<string, Path>,
                      subs: seq<Subsystem>, cgroupPath: Path): HostState
    decreases |subs|
  {
    if subs == [] then s
    else RemoveSpec(DestroyAll(s, refused, roots, subs[..|subs| - 1], cgroupPath),
                    refused, roots, subs[|subs| - 1], cgroupPath).0
  }

  /** One more driver at the end of the list is one more step. */
  lemma SetAllSnoc(s: HostState, refused: set<Op>, roots: map<string, Path>,
                   subs: seq<Subsystem>, i: nat, cgroupPath: Path, res: ResourceConfig)
    requires i < |subs|
    ensures SetAll(s, refused, roots, subs[..i + 1], cgroupPath, res) ==
            SetSpec(SetAll(s, refused, roots, subs[..i], cgroupPath, res), refused, roots, subs[i], cgroupPath, res).0
  {
    assert subs[..i + 1][..i] == subs[..i];
  }

  lemma ApplyAllSnoc(s: HostState, refused: set<Op>, roots: map<string, Path>,
                     subs: seq<Subsystem>, i: nat, cgroupPath: Path, pid: int)
    requires i < |subs|
    ensures ApplyAll(s, refused, roots, subs[..i + 1], cgroupPath, pid) ==
            ApplySpec(ApplyAll(s, refused, roots, subs[..i], cgroupPath, pid), refused, roots, subs[i], cgroupPath, pid).0
  {
    assert subs[..i + 1][..i] == subs[..i];
  }

  lemma DestroyAllSnoc(s: HostState, refused: set<Op>, roots: map<string, Path>,
                       subs: seq<Subsystem>, i: nat, cgroupPath: Path)
    requires i < |subs|
    ensures DestroyAll(s, refused, roots, subs[..i + 1], cgroupPath) ==
            RemoveSpec(DestroyAll(s, refused, roots, subs[..i], cgroupPath), refused, roots, subs[i], cgroupPath).0
  {
    assert subs[..i + 1][..i] == subs[..i];
  }

  class CgroupManager {
    /** The cgroup's path inside every hierarchy. */
    var path: Path
    /** The resource configuration; nothing in the core ever stores one. */
    var resource: Option<ResourceConfig>

    /** `NewCgroupManager(path)`. */
    constructor (path: Path)
      ensures this.path == path && resource == None
    {
      this.path := path;
      resource := None;
    }

    /** `Apply(pid)`: every driver's `Apply`, in list order. */
    method Apply(h: Host, pid: int) returns (err: Option<Error>)
      modifies h
      ensures h.State() == ApplyAll(old(h.State()), h.refused, h.cgroupRoots, SubsystemsIns, path, pid)
      ensures err == None
    {
      for i := 0 to |SubsystemsIns|
        invariant h.State() == ApplyAll(old(h.State()), h.refused, h.cgroupRoots, SubsystemsIns[..i], path, pid)
      {
        ApplyAllSnoc(old(h.State()), h.refused, h.cgroupRoots, SubsystemsIns, i, path, pid);
        var _ := ApplyWith(h, SubsystemsIns[i], path, pid);
      }
      assert SubsystemsIns[..|SubsystemsIns|] == SubsystemsIns;
      return None;
    }

    /** `Set(res)`: every driver's `Set`, in list order; `res` is not kept. */
    method Set(h: Host, res: ResourceConfig) returns (err: Option<Error>)
      modifies h
      ensures h.State() == SetAll(old(h.State()), h.refused, h.cgroupRoots, SubsystemsIns, path, res)
      ensures err == None
    {
      for i := 0 to |SubsystemsIns|
        invariant h.State() == SetAll(old(h.State()), h.refused, h.cgroupRoots, SubsystemsIns[..i], path, res)
      {
        SetAllSnoc(old(h.State()), h.refused, h.cgroupRoots, SubsystemsIns, i, path, res);
        var _ := SetWith(h, SubsystemsIns[i], path, res);
      }
      assert SubsystemsIns[..|SubsystemsIns|] == SubsystemsIns;
      return None;
    }

    /** `Destroy()`: every driver's `Remove`, in list order, going on after a
        failure. */
    method Destroy(h: Host) returns (err: Option<Error>)
      modifies h
      ensures h.State() == DestroyAll(old(h.State()), h.refused, h.cgroupRoots, SubsystemsIns, path)
      ensures err == None
    {
      for i := 0 to |SubsystemsIns|
        invariant h.State() == DestroyAll(old(h.State()), h.refused, h.cgroupRoots, SubsystemsIns[..i], path)
      {
        DestroyAllSnoc(old(h.State()), h.refused, h.cgroupRoots, SubsystemsIns, i, path);
        var _ := RemoveWith(h, SubsystemsIns[i], path);
      }
      assert SubsystemsIns[..|SubsystemsIns|] == SubsystemsIns;
      return None;
    }
  }

  // -------------------------------------------------------------- properties

  /** The control files the `Set` of the drivers in `subs` may write. */
  function LimitPaths(roots: map<string, Path>, subs: seq<Subsystem>, cgroupPath: Path, res: ResourceConfig): set<Path>
    decreases |subs|
  {
    if subs == [] then {}
    else
      var last := subs[|subs| - 1];
      LimitPaths(roots, subs[..|subs| - 1], cgroupPath, res) +
      (if last.Limit(res).Some? && last.Name() in roots
       then {PathJoin(CgroupDir(roots, last.Name(), cgroupPath), last.LimitFile())} else {})
  }

  /** `b` is `a` except, possibly, at the paths in `changed`. */
  ghost predicate SameOutside(a: map<Path, Blob>, b: map<Path, Blob>, changed: set<Path>)
  {
    forall f :: f !in changed ==> (f in a <==> f in b) && (f in a ==> a[f] == b[f])
  }

  /** Setting limits changes no file but the control files of the drivers
      whose field is set, and removes no directory or mount. */
  lemma {:induction false} SetAllWritesOnlyLimits(s: HostState, refused: set<Op>, roots: map<string, Path>,
                                                  subs: seq<Subsystem>, cgroupPath: Path, res: ResourceConfig)
    ensures var r := SetAll(s, refused, roots, subs, cgroupPath, res);
            SameOutside(s.files, r.files, LimitPaths(roots, subs, cgroupPath, res)) &&
            s.dirs <= r.dirs && r.mounts == s.mounts
    decreases |subs|
  {
    if subs != [] {
      var init := subs[..|subs| - 1];
      var last := subs[|subs| - 1];
      SetAllWritesOnlyLimits(s, refused, roots, init, cgroupPath, res);
      var mid := SetAll(s, refused, roots, init, cgroupPath, res);
      var r := SetSpec(mid, refused, roots, last, cgroupPath, res).0;
      assert SameOutside(mid.files, r.files, LimitPaths(roots, subs, cgroupPath, res));
    }
  }

  /** A configuration with only the memory limit set writes at most the
      memory driver's `memory.limit_in_bytes`. */
  lemma SetMemoryOnly(s: HostState, refused: set<Op>, roots: map<string, Path>, cgroupPath: Path, limit: string)
    requires "memory" in roots
    ensures var r := SetAll(s, refused, roots, SubsystemsIns, cgroupPath, ResourceConfig(limit, "", ""));
            SameOutside(s.files, r.files, {PathJoin(CgroupDir(roots, "memory", cgroupPath), "memory.limit_in_bytes")})
  {
    var res := ResourceConfig(limit, "", "");
    SetAllWritesOnlyLimits(s, refused, roots, SubsystemsIns, cgroupPath, res);
    MemoryOnlyLimitPaths(roots, cgroupPath, limit);
    SameOutsideGrows(s.files, SetAll(s, refused, roots, SubsystemsIns, cgroupPath, res).files,
                     LimitPaths(roots, SubsystemsIns, cgroupPath, res),
                     {PathJoin(CgroupDir(roots, "memory", cgroupPath), "memory.limit_in_bytes")});
  }

  lemma MemoryOnlyLimitPaths(roots: map<string, Path>, cgroupPath: Path, limit: string)
    requires "memory" in roots
    ensures LimitPaths(roots, SubsystemsIns, cgroupPath, ResourceConfig(limit, "", "")) <=
            {PathJoin(CgroupDir(roots, "memory", cgroupPath), "memory.limit_in_bytes")}
  {
    var res := ResourceConfig(limit, "", "");
    var subs := SubsystemsIns;
    assert subs[..2] == [CpusetSubSystem, MemorySubSystem];
    assert subs[..2][..1] == [CpusetSubSystem];
    assert subs[..2][..1][..0] == [];
    assert LimitPaths(roots, subs[..1], cgroupPath, res) == {};
    assert LimitPaths(roots, subs, cgroupPath, res) == LimitPaths(roots, subs[..2], cgroupPath, res);
  }

  lemma SameOutsideGrows(a: map<Path, Blob>, b: map<Path, Blob>, changed: set<Path>, more: set<Path>)
    requires SameOutside(a, b, changed) && changed <= more
    ensures SameOutside(a, b, more)
  {
  }

  /** Because the cpuset driver tests the cpu share, a configuration that
      sets only the cpu set writes no control file at all. */
  lemma CpuSetAloneWritesNothing(s: HostState, refused: set<Op>, roots: map<string, Path>, cgroupPath: Path, cpus: string)
    ensures SetAll(s, refused, roots, SubsystemsIns, cgroupPath, ResourceConfig("", "", cpus)).files == s.files
  {
    var res := ResourceConfig("", "", cpus);
    SetAllWritesOnlyLimits(s, refused, roots, SubsystemsIns, cgroupPath, res);
    assert SubsystemsIns[..2] == [CpusetSubSystem, MemorySubSystem];
    assert SubsystemsIns[..2][..1] == [CpusetSubSystem];
    assert LimitPaths(roots, SubsystemsIns[..1], cgroupPath, res) == {};
    assert LimitPaths(roots, SubsystemsIns[..2], cgroupPath, res) == {};
    assert LimitPaths(roots, SubsystemsIns, cgroupPath, res) == {};
  }

  /** ... and a configuration that sets only the cpu share writes the empty
      cpu set into `cpuset.cpus` when nothing is refused. */
  lemma CpuShareAloneClearsCpuSet(s: HostState, roots: map<string, Path>, cgroupPath: Path, shares: string)
    requires "cpuset" in roots && shares != ""
    requires ControlClear(s, roots, CpusetSubSystem, cgroupPath, CpusetSubSystem.LimitFile())
    ensures var r := SetSpec(s, {}, roots, CpusetSubSystem, cgroupPath, ResourceConfig("", shares, ""));
            r.1 == None && r.0.files == s.files[PathJoin(CgroupDir(roots, "cpuset", cgroupPath), "cpuset.cpus") := Text("")]
  {
  }

  /** The path of driver `sub`'s `tasks` file. */
  function TasksPath(roots: map<string, Path>, sub: Subsystem, cgroupPath: Path): Path
    requires sub.Name() in roots
  {
    PathJoin(CgroupDir(roots, sub.Name(), cgroupPath), TasksFile)
  }

  /** The cgroup directories of the drivers of `subs` whose hierarchy is
      mounted. */
  function CgroupDirs(roots: map<string, Path>, subs: seq<Subsystem>, cgroupPath: Path): set<Path>
    decreases |subs|
  {
    if subs == [] then {}
    else
      var last := subs[|subs| - 1];
      CgroupDirs(roots, subs[..|subs| - 1], cgroupPath) +
      (if last.Name() in roots then {CgroupDir(roots, last.Name(), cgroupPath)} else {})
  }

  /** With nothing refused, and no directory, before or made on the way,
      where a `tasks` file goes, `Apply` makes no directory but the cgroup
      directories and leaves the decimal pid in the `tasks` file of every
      driver whose hierarchy is mounted. */
  lemma {:induction false} ApplyAllJoinsEvery(s: HostState, roots: map<string, Path>,
                                              subs: seq<Subsystem>, cgroupPath: Path, pid: int)
    requires forall i :: 0 <= i < |subs| && subs[i].Name() in roots ==>
               TasksPath(roots, subs[i], cgroupPath) !in s.dirs + CgroupDirs(roots, subs, cgroupPath)
    ensures var r := ApplyAll(s, {}, roots, subs, cgroupPath, pid);
            r.dirs <= s.dirs + CgroupDirs(roots, subs, cgroupPath) &&
            forall i :: 0 <= i < |subs| && subs[i].Name() in roots ==>
              TasksPath(roots, subs[i], cgroupPath) in r.files &&
              r.files[TasksPath(roots, subs[i], cgroupPath)] == Text(Itoa(pid))
    decreases |subs|
  {
    if subs != [] {
      var init := subs[..|subs| - 1];
      var last := subs[|subs| - 1];
      forall i | 0 <= i < |init| && init[i].Name() in roots
        ensures TasksPath(roots, init[i], cgroupPath) !in s.dirs + CgroupDirs(roots, init, cgroupPath)
      {
        assert init[i] == subs[i];
      }
      ApplyAllJoinsEvery(s, roots, init, cgroupPath, pid);
      var mid := ApplyAll(s, {}, roots, init, cgroupPath, pid);
      if last.Name() in roots {
        assert subs[|subs| - 1] == last;
        assert ControlClear(mid, roots, last, cgroupPath, TasksFile);
      }
      var r := ApplySpec(mid, {}, roots, last, cgroupPath, pid).0;
      assert ApplyAll(s, {}, roots, subs, cgroupPath, pid) == r;
      var joined := Text(Itoa(pid));
      if last.Name() in roots {
        assert r.files == mid.files[TasksPath(roots, last, cgroupPath) := joined];
      } else {
        assert r.files == mid.files;
      }
      forall i | 0 <= i < |subs| && subs[i].Name() in roots
        ensures TasksPath(roots, subs[i], cgroupPath) in r.files
        ensures r.files[TasksPath(roots, subs[i], cgroupPath)] == Text(Itoa(pid))
      {
        if i < |init| {
          assert subs[i] == init[i];
        } else {
          assert i == |subs| - 1;
        }
      }
    }
  }

  /** With nothing refused, `Destroy` leaves no cgroup directory of any
      driver whose hierarchy is mounted, from every state where nothing is
      mounted below those directories. */
  lemma {:induction false} DestroyAllRemovesEvery(s: HostState, roots: map<string, Path>,
                                                  subs: seq<Subsystem>, cgroupPath: Path)
    requires forall i :: 0 <= i < |subs| && subs[i].Name() in roots ==>
               !MountedUnder(s.mounts, CgroupDir(roots, subs[i].Name(), cgroupPath))
    ensures var r := DestroyAll(s, {}, roots, subs, cgroupPath);
            r.dirs <= s.dirs && r.mounts == s.mounts &&
            forall i :: 0 <= i < |subs| && subs[i].Name() in roots ==>
              CgroupDir(roots, subs[i].Name(), cgroupPath) !in r.dirs
    decreases |subs|
  {
    if subs != [] {
      var init := subs[..|subs| - 1];
      assert forall i :: 0 <= i < |init| ==> init[i] == subs[i];
      DestroyAllRemovesEvery(s, roots, init, cgroupPath);
      var prev := DestroyAll(s, {}, roots, init, cgroupPath);
      var last := subs[|subs| - 1];
      var r := RemoveSpec(prev, {}, roots, last, cgroupPath).0;
      assert DestroyAll(s, {}, roots, subs, cgroupPath) == r;
      assert r.dirs <= prev.dirs;
      forall i | 0 <= i < |subs| && subs[i].Name() in roots
        ensures CgroupDir(roots, subs[i].Name(), cgroupPath) !in r.dirs
      {
        var dir := CgroupDir(roots, subs[i].Name(), cgroupPath);
        if i < |init| {
          assert init[i] == subs[i];
          assert dir !in prev.dirs;
        } else {
          assert i == |subs| - 1;
        }
      }
    }
  }

  /** Neither setting limits nor joining the cgroups touches the mount
      table or the hand-off pipe, or removes a directory. */
  lemma {:induction false} SetAllKeeps(s: HostState, refused: set<Op>, roots: map<string, Path>,
                                       subs: seq<Subsystem>, cgroupPath: Path, res: ResourceConfig)
    ensures var r := SetAll(s, refused, roots, subs, cgroupPath, res);
            r.mounts == s.mounts && r.pipe == s.pipe && s.dirs <= r.dirs
    decreases |subs|
  {
    if subs != [] {
      SetAllKeeps(s, refused, roots, subs[..|subs| - 1], cgroupPath, res);
    }
  }

  lemma {:induction false} ApplyAllKeeps(s: HostState, refused: set<Op>, roots: map<string, Path>,
                                         subs: seq<Subsystem>, cgroupPath: Path, pid: int)
    ensures var r := ApplyAll(s, refused, roots, subs, cgroupPath, pid);
            r.mounts == s.mounts && r.pipe == s.pipe && s.dirs <= r.dirs
    decreases |subs|
  {
    if subs != [] {
      ApplyAllKeeps(s, refused, roots, subs[..|subs| - 1], cgroupPath, pid);
    }
  }
}
