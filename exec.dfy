/** `mydocker exec`: look up the pid of a recorded container and start the
    engine once more as `/proc/self/exe exec`, with the pid and the command
    in the environment, so that the `setns` constructor linked into the
    binary enters the container's namespaces and runs the command there. */
module Exec {
  import opened Results
  import opened Strings
  import opened Records
  import opened Host

  /** The environment variables the helper process reads. */
  const EnvExecPid: string := "mydocker_pid"
  const EnvExecCmd: string := "mydocker_cmd"

  /** The helper process: the engine itself, asked to `exec`. */
  const ExecArgv: seq<string> := ["/proc/self/exe", "exec"]

  /** `getContainerPIDByName(name)`: the pid field of the record in the
      container's directory, or why it cannot be had. */
  function PidByName(s: HostState, refused: set<Op>, containerName: string): Result<string, Error>
  {
    match ReadRecordIn(s, refused, RecordPath(containerName))
    case Err(e) => Err(e)
    case Ok(info) => Ok(info.pid)
  }

  /** The pid is found exactly when the record file is there, readable and
      decodable, and it is the pid that file holds; the status is not
      looked at. */
  lemma PidByNameReads(s: HostState, refused: set<Op>, containerName: string)
    ensures var p := RecordPath(containerName);
            var r := PidByName(s, refused, containerName);
            (r.Ok? <==> ReadFile(p) !in refused && p in s.files && Unmarshal(s.files[p]).Some?) &&
            (r.Ok? ==> r.value == Unmarshal(s.files[p]).value.pid) &&
            (r.Err? ==> r.error == Failed(ReadFile(p)) || r.error == Missing(p) || r.error == Undecodable(p))
  {
  }

  /** `getContainerPIDByName`: `""` and the error when the record cannot be
      read or decoded. */
  method GetContainerPidByName(h: Host, containerName: string) returns (pid: string, err: Option<Error>)
    ensures err.None? <==> PidByName(h.State(), h.refused, containerName).Ok?
    ensures err.None? ==> pid == PidByName(h.State(), h.refused, containerName).value
    ensures err.Some? ==> pid == "" && err.value == PidByName(h.State(), h.refused, containerName).error
  {
    var configFileDir := InfoDir(containerName);
    var configFilePath := PathJoin(configFileDir, ConfigName);
    var content := h.ReadFile(configFilePath);
    if content.Err? {
      return "", Some(content.error);
    }
    var containerInfo := Unmarshal(content.value);
    if containerInfo.None? {
      return "", Some(Undecodable(configFilePath));
    }
    return containerInfo.value.pid, None;
  }

  /** The calls `execContainer` makes once it has the pid: both variables
      are set before the helper runs. */
  function ExecOps(pid: string, cmdArray: seq<string>): seq<Op>
  {
    [Setenv(EnvExecPid, pid), Setenv(EnvExecCmd, Join(cmdArray, " ")), RunProcess(ExecArgv)]
  }

  /** `execContainer(name, cmdArray)`; a failure of the helper is only
      logged. */
  function ExecSpec(s: HostState, refused: set<Op>, containerName: string, cmdArray: seq<string>): HostState
  {
    match PidByName(s, refused, containerName)
    case Err(_) => s
    case Ok(pid) => Steps(s, refused, ExecOps(pid, cmdArray))
  }

  method ExecContainer(h: Host, containerName: string, cmdArray: seq<string>)
    modifies h
    ensures h.State() == ExecSpec(old(h.State()), h.refused, containerName, cmdArray)
  {
    var pid, err := GetContainerPidByName(h, containerName);
    if err.Some? {
      return;
    }
    ghost var s0 := h.State();
    var cmdString := Join(cmdArray, " ");
    var _ := h.Perform(Setenv(EnvExecPid, pid));
    var _ := h.Perform(Setenv(EnvExecCmd, cmdString));
    var _ := h.Perform(RunProcess(ExecArgv));
    Steps3(s0, h.refused, Setenv(EnvExecPid, pid), Setenv(EnvExecCmd, cmdString), RunProcess(ExecArgv));
    Steps2(s0, h.refused, Setenv(EnvExecPid, pid), Setenv(EnvExecCmd, cmdString));
  }

  /** A helper runs exactly when the pid was found: a failed lookup leaves
      the host as it was, and otherwise the two variables are set and the
      helper started, in that order, and nothing else is touched. */
  lemma ExecNeedsPid(s: HostState, refused: set<Op>, containerName: string, cmdArray: seq<string>)
    ensures var r := ExecSpec(s, refused, containerName, cmdArray);
            var pid := PidByName(s, refused, containerName);
            (pid.Err? ==> r == s) &&
            (pid.Ok? ==> r.calls == s.calls + ExecOps(pid.value, cmdArray) &&
                         r.dirs == s.dirs && r.files == s.files && r.mounts == s.mounts && r.pipe == s.pipe)
  {
    var pid := PidByName(s, refused, containerName);
    if pid.Ok? {
      var ops := ExecOps(pid.value, cmdArray);
      Steps3(s, refused, ops[0], ops[1], ops[2]);
      Steps2(s, refused, ops[0], ops[1]);
    }
  }

  /** When the environment can be set, the helper finds in it the pid of
      the record, whatever the record's status (a stopped container's blank
      pid included), and the command joined by single spaces. */
  lemma ExecHandsOver(s: HostState, refused: set<Op>, containerName: string, cmdArray: seq<string>, info: Info)
    requires ReadRecordIn(s, refused, RecordPath(containerName)) == Ok(info)
    requires forall k, v :: Setenv(k, v) !in refused
    ensures var r := ExecSpec(s, refused, containerName, cmdArray);
            EnvExecPid in r.env && r.env[EnvExecPid] == info.pid &&
            EnvExecCmd in r.env && r.env[EnvExecCmd] == Join(cmdArray, " ") &&
            r.calls[|r.calls| - 1] == RunProcess(ExecArgv)
  {
    var ops := ExecOps(info.pid, cmdArray);
    Steps3(s, refused, ops[0], ops[1], ops[2]);
    Steps2(s, refused, ops[0], ops[1]);
    assert Setenv(EnvExecPid, info.pid) !in refused && Setenv(EnvExecCmd, Join(cmdArray, " ")) !in refused;
  }
}
