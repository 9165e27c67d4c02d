/** `CPUSubSystem`: the cpu driver. `Set` writes the cpu share into
    `cpu.shares` when it is set. */
module Cpu {
  import opened Results
  import opened Strings
  import opened Records
  import opened Host
  import opened Subsystems

  /** `Set(cgroupPath, res)`. */
  method Set(h: Host, cgroupPath: Path, res: ResourceConfig) returns (err: Option<Error>)
    modifies h
    ensures (h.State(), err) == SetSpec(old(h.State()), h.refused, h.cgroupRoots, CpuSubSystem, cgroupPath, res)
  {
    ghost var s0 := h.State();
    var dir := GetCgroupPath(h, CpuSubSystem.Name(), cgroupPath, true);
    assert (h.State(), dir) == ResolveSpec(s0, h.refused, h.cgroupRoots, CpuSubSystem.Name(), cgroupPath, true);
    if dir.Err? {
      return Some(dir.error);
    }
    assert CpuSubSystem.Limit(res).Some? == (res.cpuShare != "");
    err := None;
    if res.cpuShare != "" {
      var write := WriteFile(PathJoin(dir.value, "cpu.shares"), Text(res.cpuShare));
      var ok := h.Perform(write);
      if !ok {
        err := Some(Wrapped("set cgroup CPU share fail", Failed(write)));
      }
    }
  }

  /** `Apply(cgroupPath, pid)`. */
  method Apply(h: Host, cgroupPath: Path, pid: int) returns (err: Option<Error>)
    modifies h
    ensures (h.State(), err) == ApplySpec(old(h.State()), h.refused, h.cgroupRoots, CpuSubSystem, cgroupPath, pid)
  {
    var dir := GetCgroupPath(h, CpuSubSystem.Name(), cgroupPath, true);
    if dir.Err? {
      return Some(Wrapped("get cgroup " + cgroupPath + " error", dir.error));
    }
    var write := WriteFile(PathJoin(dir.value, TasksFile), Text(Itoa(pid)));
    var ok := h.Perform(write);
    err := if ok then None else Some(Wrapped("set cgroup proc fail", Failed(write)));
  }

  /** `Remove(cgroupPath)`. */
  method Remove(h: Host, cgroupPath: Path) returns (err: Option<Error>)
    modifies h
    ensures (h.State(), err) == RemoveSpec(old(h.State()), h.refused, h.cgroupRoots, CpuSubSystem, cgroupPath)
  {
    var dir := GetCgroupPath(h, CpuSubSystem.Name(), cgroupPath, false);
    if dir.Err? {
      return Some(dir.error);
    }
    var ok := h.Perform(RemoveAll(dir.value));
    err := if ok then None else Some(Failed(RemoveAll(dir.value)));
  }
}
