/** `MemorySubSystem`: the memory driver. `Set` writes the memory limit into
    `memory.limit_in_bytes` when it is set. */
module Memory {
  import opened Results
  import opened Strings
  import opened Records
  import opened Host
  import opened Subsystems

  /** `Set(cgroupPath, res)`. */
  method Set(h: Host, cgroupPath: Path, res: ResourceConfig) returns (err: Option<Error>)
    modifies h
    ensures (h.State(), err) == SetSpec(old(h.State()), h.refused, h.cgroupRoots, MemorySubSystem, cgroupPath, res)
  {
    ghost var s0 := h.State();
    var dir := GetCgroupPath(h, MemorySubSystem.Name(), cgroupPath, true);
    assert (h.State(), dir) == ResolveSpec(s0, h.refused, h.cgroupRoots, MemorySubSystem.Name(), cgroupPath, true);
    if dir.Err? {
      return Some(dir.error);
    }
    assert MemorySubSystem.Limit(res).Some? == (res.memoryLimit != "");
    err := None;
    if res.memoryLimit != "" {
      var write := WriteFile(PathJoin(dir.value, "memory.limit_in_bytes"), Text(res.memoryLimit));
      var ok := h.Perform(write);
      if !ok {
        err := Some(Wrapped("set cgroup memory fail", Failed(write)));
      }
    }
  }

  /** `Apply(cgroupPath, pid)`. */
  method Apply(h: Host, cgroupPath: Path, pid: int) returns (err: Option<Error>)
    modifies h
    ensures (h.State(), err) == ApplySpec(old(h.State()), h.refused, h.cgroupRoots, MemorySubSystem, cgroupPath, pid)
  {
    var dir := GetCgroupPath(h, MemorySubSystem.Name(), cgroupPath, true);
    if dir.Err? {
      return Some(dir.error);
    }
    var write := WriteFile(PathJoin(dir.value, TasksFile), Text(Itoa(pid)));
    var ok := h.Perform(write);
    err := if ok then None else Some(Wrapped("set cgroup proc fail", Failed(write)));
  }

  /** `Remove(cgroupPath)`. */
  method Remove(h: Host, cgroupPath: Path) returns (err: Option<Error>)
    modifies h
    ensures (h.State(), err) == RemoveSpec(old(h.State()), h.refused, h.cgroupRoots, MemorySubSystem, cgroupPath)
  {
    var dir := GetCgroupPath(h, MemorySubSystem.Name(), cgroupPath, false);
    if dir.Err? {
      return Some(dir.error);
    }
    var ok := h.Perform(RemoveAll(dir.value));
    err := if ok then None else Some(Failed(RemoveAll(dir.value)));
  }
}
