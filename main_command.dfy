/** The command line: the checks each subcommand's action makes on its
    arguments and flags before it hands over to the engine. */
module Cli {
  import opened Results
  import opened Strings
  import opened Records
  import opened Host
  import opened Subsystems
  import opened Run
  import opened Exec
  import opened Stop

  /** The flags of `mydocker run`; a string flag not given is `""`. */
  datatype RunFlags = RunFlags(ti: bool, d: bool, v: string, m: string, cpushare: string, cpuset: string,
                               name: string)

  const MissingCommand: string := "missing container command"
  const TtyAndDetach: string := "ti and d parameters cannot be provided at the same time"
  const MissingNameOrCommand: string := "missing container name or command"
  const MissingName: string := "missing container name"

  /** Why `run` refuses its arguments, if it does: a command is needed,
      and a terminal and detaching exclude each other. */
  function RunArgsError(args: seq<string>, flags: RunFlags): (r: Option<Error>)
    ensures r.None? <==> |args| >= 1 && !(flags.ti && flags.d)
    ensures |args| == 0 ==> r == Some(Message(MissingCommand))
    ensures |args| >= 1 && flags.ti && flags.d ==> r == Some(Message(TtyAndDetach))
  {
    if |args| < 1 then Some(Message(MissingCommand))
    else if flags.ti && flags.d then Some(Message(TtyAndDetach))
    else None
  }

  /** The limits `run` asks for, one flag each. */
  function ResourceConfigOf(flags: RunFlags): (r: ResourceConfig)
    ensures r.memoryLimit == flags.m && r.cpuShare == flags.cpushare && r.cpuSet == flags.cpuset
  {
    ResourceConfig(flags.m, flags.cpushare, flags.cpuset)
  }

  /** The loop that copies the positional arguments into the command. */
  method CollectArgs(args: seq<string>) returns (cmdArray: seq<string>)
    ensures cmdArray == args
  {
    cmdArray := [];
    for i := 0 to |args|
      invariant cmdArray == args[..i]
    {
      cmdArray := cmdArray + [args[i]];
    }
  }

  /** The action of `run`: when the arguments pass, `Run` with the whole
      argument list as the command, the terminal flag, the volume, the
      limits and the name; the action itself then returns no error. */
  function RunActionSpec(s: HostState, refused: set<Op>, roots: map<string, Path>, args: seq<string>,
                         flags: RunFlags, draws: seq<Nibble>, pid: int, now: string): (HostState, Option<Error>)
  {
    if RunArgsError(args, flags).Some? then (s, RunArgsError(args, flags))
    else (RunSpec(s, refused, roots, flags.ti, flags.v, args, ResourceConfigOf(flags), flags.name,
                  draws, pid, now).0, None)
  }

  method RunAction(h: Host, args: seq<string>, flags: RunFlags, draws: seq<Nibble>, pid: int, now: string)
    returns (err: Option<Error>)
    requires |draws| == IdLength
    modifies h
    ensures (h.State(), err) == RunActionSpec(old(h.State()), h.refused, h.cgroupRoots, args, flags, draws, pid, now)
  {
    if |args| < 1 {
      return Some(Message(MissingCommand));
    }
    var cmdArray := CollectArgs(args);
    var tty := flags.ti;
    var detach := flags.d;
    var volume := flags.v;
    if tty && detach {
      return Some(Message(TtyAndDetach));
    }
    var resConf := ResourceConfig(flags.m, flags.cpushare, flags.cpuset);
    var containerName := flags.name;
    var _ := Run.Run(h, tty, volume, cmdArray, resConf, containerName, draws, pid, now);
    return None;
  }

  /** A refused `run` changes nothing; an accepted one is `Run` of exactly
      the arguments given. */
  lemma RunActionGuards(s: HostState, refused: set<Op>, roots: map<string, Path>, args: seq<string>,
                        flags: RunFlags, draws: seq<Nibble>, pid: int, now: string)
    ensures var r := RunActionSpec(s, refused, roots, args, flags, draws, pid, now);
            (|args| == 0 ==> r == (s, Some(Message(MissingCommand)))) &&
            (|args| >= 1 && flags.ti && flags.d ==> r == (s, Some(Message(TtyAndDetach)))) &&
            (r.1.None? <==> |args| >= 1 && !(flags.ti && flags.d)) &&
            (r.1.None? ==> r.0 == RunSpec(s, refused, roots, flags.ti, flags.v, args,
                                          ResourceConfig(flags.m, flags.cpushare, flags.cpuset), flags.name,
                                          draws, pid, now).0)
  {
  }

  /** `os.Getenv`: `""` for a variable that is not set. */
  function Getenv(env: map<string, string>, key: string): string
  {
    if key in env then env[key] else ""
  }

  /** The action of `exec`: in the helper the engine started for itself
      (the pid variable set) nothing more happens; otherwise a name and a
      command are needed, and everything after the name is the command. */
  function ExecActionSpec(s: HostState, refused: set<Op>, args: seq<string>): (HostState, Option<Error>)
  {
    if Getenv(s.env, EnvExecPid) != "" then (s, None)
    else if |args| < 2 then (s, Some(Message(MissingNameOrCommand)))
    else (ExecSpec(s, refused, args[0], args[1..]), None)
  }

  method ExecAction(h: Host, args: seq<string>) returns (err: Option<Error>)
    modifies h
    ensures (h.State(), err) == ExecActionSpec(old(h.State()), h.refused, args)
  {
    if Getenv(h.env, EnvExecPid) != "" {
      return None;
    }
    if |args| < 2 {
      return Some(Message(MissingNameOrCommand));
    }
    var containerName := args[0];
    var cmdArray := CollectArgs(args[1..]);
    ExecContainer(h, containerName, cmdArray);
    return None;
  }

  /** The helper's own `exec` stops at once, so the engine does not start
      itself again and again; a first `exec` with a name and a command runs
      that command in that container, and a first `exec` short of either
      changes nothing. */
  lemma ExecActionGuards(s: HostState, refused: set<Op>, args: seq<string>)
    ensures var r := ExecActionSpec(s, refused, args);
            (EnvExecPid in s.env && s.env[EnvExecPid] != "" ==> r == (s, None)) &&
            (Getenv(s.env, EnvExecPid) == "" && |args| < 2 ==> r == (s, Some(Message(MissingNameOrCommand)))) &&
            (Getenv(s.env, EnvExecPid) == "" && |args| >= 2 ==>
               r == (ExecSpec(s, refused, args[0], args[1..]), None) && [args[0]] + args[1..] == args)
  {
  }

  /** After a first `exec` whose container has a record, the helper is
      running and finds the pid variable set, unless the record's pid is
      empty: the helper's `exec`, started with no arguments of its own (or
      with any others), then returns at once. */
  lemma ExecHelperReturns(s: HostState, refused: set<Op>, args: seq<string>, info: Info)
    requires Getenv(s.env, EnvExecPid) == "" && |args| >= 2
    requires ReadRecordIn(s, refused, RecordPath(args[0])) == Ok(info) && info.pid != ""
    requires forall k, v :: Setenv(k, v) !in refused
    ensures var t := ExecActionSpec(s, refused, args).0;
            ExecActionSpec(t, refused, []) == (t, None) &&
            forall helperArgs :: ExecActionSpec(t, refused, helperArgs) == (t, None)
  {
    ExecHandsOver(s, refused, args[0], args[1..], info);
  }

  /** The argument `commit`, `logs`, `stop` and `rm` act on: the first, which
      must be there. */
  function NameArg(args: seq<string>): (r: Result<string, Error>)
    ensures r.Ok? <==> |args| >= 1
    ensures r.Ok? ==> r.value == args[0]
    ensures r.Err? ==> r.error == Message(MissingName)
  {
    if |args| < 1 then Err(Message(MissingName)) else Ok(args[0])
  }

  /** The action of `stop`. */
  function StopActionSpec(s: HostState, refused: set<Op>, args: seq<string>): (HostState, Option<Error>)
  {
    match NameArg(args)
    case Err(e) => (s, Some(e))
    case Ok(containerName) => (StopSpec(s, refused, containerName).0, None)
  }

  method StopAction(h: Host, args: seq<string>) returns (err: Option<Error>)
    modifies h
    ensures (h.State(), err) == StopActionSpec(old(h.State()), h.refused, args)
  {
    if |args| < 1 {
      return Some(Message(MissingName));
    }
    var containerName := args[0];
    var _ := StopContainer(h, containerName);
    return None;
  }

  /** The action of `rm`. It declares no `v` flag, so the volume it passes
      is always `""`, and a workspace built with a volume is torn down as
      if it had none. */
  function RemoveActionSpec(s: HostState, refused: set<Op>, args: seq<string>): (HostState, Option<Error>)
  {
    match NameArg(args)
    case Err(e) => (s, Some(e))
    case Ok(containerName) => (RemoveContainerSpec(s, refused, containerName, "").0, None)
  }

  method RemoveAction(h: Host, args: seq<string>) returns (err: Option<Error>)
    modifies h
    ensures (h.State(), err) == RemoveActionSpec(old(h.State()), h.refused, args)
  {
    if |args| < 1 {
      return Some(Message(MissingName));
    }
    // `context.String("v")` of a flag `rm` does not declare
    var volume := "";
    var containerName := args[0];
    var _ := RemoveContainer(h, containerName, volume);
    return None;
  }

  /** Without a name, `stop` and `rm` change nothing; with one, they act on
      the first argument and ignore the rest. */
  lemma NamedActionsGuard(s: HostState, refused: set<Op>, args: seq<string>)
    ensures |args| == 0 ==> StopActionSpec(s, refused, args) == (s, Some(Message(MissingName))) &&
                            RemoveActionSpec(s, refused, args) == (s, Some(Message(MissingName)))
    ensures |args| >= 1 ==> StopActionSpec(s, refused, args) == (StopSpec(s, refused, args[0]).0, None) &&
                            RemoveActionSpec(s, refused, args) == (RemoveContainerSpec(s, refused, args[0], "").0, None)
  {
  }
}
