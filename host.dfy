/** The host the engine runs on, as one abstract state: its directories,
    its files (cgroup control files, records, logs), its stack of mounts, the
    process environment, the command hand-off pipe, and the trace of every
    side-effecting call made so far. Each kernel call or external command is
    one `Op`; the kernel may refuse it (the constant set `refused`, which
    stands for whatever the kernel would answer) and some calls also fail
    because of the state (creating a directory that exists, unmounting a
    target that is not mounted). */
module Host {
  import opened Results
  import opened Strings
  import opened Records

  /** One entry of the mount table. */
  datatype Mount = Mount(fstype: string, options: string, target: Path)

  /** The hand-off pipe of the run in progress: what has been written to its
      write end, and whether that end is still open. */
  datatype Pipe = NoPipe | Open(written: string) | Closed(written: string)

  /** The calls the core makes into the kernel or into external commands. */
  datatype Op =
    | Mkdir(path: Path)                    // os.Mkdir
    | MkdirAll(path: Path)                 // os.MkdirAll
    | Untar(archive: Path, dest: Path)     // tar -xvf archive -C dest
    | MountFs(mount: Mount)                // mount -t <fstype> -o <options> none <target>
    | Umount(target: Path)                 // umount <target>
    | RemoveAll(path: Path)                // os.RemoveAll
    | WriteFile(path: Path, blob: Blob)    // ioutil.WriteFile, File.WriteString
    | CreateFile(path: Path)               // os.Create
    | Kill(pid: int)                       // syscall.Kill(pid, SIGTERM)
    | Setenv(key: string, value: string)   // os.Setenv
    | NewPipe                              // os.Pipe
    | WritePipe(data: string)              // writePipe.WriteString
    | ClosePipe                            // writePipe.Close
    | Start(argv: seq<string>)             // exec.Cmd.Start
    | Wait                                 // exec.Cmd.Wait
    | RunProcess(argv: seq<string>)        // exec.Cmd.Run
    | MakeRPrivate(target: Path)           // mount("", target, "", MS_PRIVATE|MS_REC)
    | BindMount(dir: Path)                 // mount(dir, dir, "bind", MS_BIND|MS_REC)
    | PivotRoot(newRoot: Path, putOld: Path) // pivot_root
    | Chdir(dir: Path)                     // chdir
    | DetachMount(target: Path)            // umount2(target, MNT_DETACH)
    | Remove(path: Path)                   // os.Remove
    | Exec(file: Path, argv: seq<string>)  // execve
    | ReadFile(path: Path)                 // ioutil.ReadFile (a query)
    | Stat(path: Path)                     // os.Stat (a query)
    | ReadDir(path: Path)                  // ioutil.ReadDir (a query)

  /** The errors the core passes around. */
  datatype Error =
    | Failed(op: Op)                          // the call was refused or failed
    | Missing(path: Path)                     // a stat or read of an absent path
    | Undecodable(path: Path)                 // json.Unmarshal failed
    | NoHierarchy(subsystem: string)          // no hierarchy mounted for a subsystem
    | Wrapped(context: string, cause: Error)  // fmt.Errorf("<context> %v", cause)
    | Message(text: string)                   // fmt.Errorf("<text>")
    | NotInPath(file: string)                 // exec.LookPath found nothing

  datatype HostState = HostState(
    dirs: set<Path>,
    files: map<Path, Blob>,
    mounts: seq<Mount>,
    env: map<string, string>,
    pipe: Pipe,
    calls: seq<Op>)

  /** The index of the topmost mount on `target`, or -1. */
  function LastMountAt(mounts: seq<Mount>, target: Path): (k: int)
    ensures -1 <= k < |mounts|
    ensures k >= 0 ==> mounts[k].target == target
    ensures forall i :: k < i < |mounts| ==> mounts[i].target != target
  {
    if |mounts| == 0 then -1
    else if mounts[|mounts| - 1].target == target then |mounts| - 1
    else LastMountAt(mounts[..|mounts| - 1], target)
  }

  /** The mount table after unmounting the topmost mount on `target`. */
  function Unmounted(mounts: seq<Mount>, target: Path): seq<Mount>
  {
    var k := LastMountAt(mounts, target);
    if k < 0 then mounts else mounts[..k] + mounts[k + 1..]
  }

  /** Everything that is not `path` or below it. */
  function RemovedDirs(dirs: set<Path>, path: Path): (r: set<Path>)
    ensures forall d :: d in r <==> d in dirs && !Under(d, path)
  {
    set d | d in dirs && !Under(d, path)
  }

  function RemovedFiles(files: map<Path, Blob>, path: Path): (r: map<Path, Blob>)
    ensures forall f :: f in r <==> f in files && !Under(f, path)
    ensures forall f :: f in r ==> r[f] == files[f]
  {
    map f | f in files && !Under(f, path) :: files[f]
  }

  /** No file stands at `p` or on the way to it: what `os.MkdirAll(p)`
      needs. */
  predicate PathClear(s: HostState, p: Path)
  {
    Ancestry(p) !! s.files.Keys
  }

  /** A mount made after the topmost one on `t` lies at or below `t`: the
      kernel then refuses to unmount `t`. */
  predicate Busy(mounts: seq<Mount>, t: Path)
  {
    exists j :: LastMountAt(mounts, t) < j < |mounts| && Under(mounts[j].target, t)
  }

  /** Some mount stands at or below `p`: the kernel refuses to remove the
      directory it is mounted on, so a recursive removal of `p` fails. */
  predicate MountedUnder(mounts: seq<Mount>, p: Path)
  {
    exists j :: 0 <= j < |mounts| && Under(mounts[j].target, p)
  }

  /** Nothing but `p` itself lies at or below `p`: what `os.Remove` needs of
      a directory. */
  predicate Emptied(s: HostState, p: Path)
  {
    (forall d :: d in s.dirs && d != p ==> !Under(d, p)) &&
    (forall f :: f in s.files && f != p ==> !Under(f, p))
  }

  /** Whether the state lets `op` succeed, refusals aside. */
  predicate Permits(s: HostState, op: Op)
  {
    match op
    case Mkdir(p) => p !in s.dirs && p !in s.files
    case MkdirAll(p) => PathClear(s, p)
    case Remove(p) => Emptied(s, p)
    case RemoveAll(p) => !MountedUnder(s.mounts, p)
    case Untar(_, dest) => dest in s.dirs
    case MountFs(m) => m.target in s.dirs
    case Umount(t) => LastMountAt(s.mounts, t) >= 0 && !Busy(s.mounts, t)
    case CreateFile(p) => p !in s.dirs
    case WriteFile(p, _) => p !in s.dirs
    case WritePipe(_) => s.pipe.Open?
    case ClosePipe => s.pipe.Open?
    case _ => true
  }

  /** What a successful `op` does to the state. Extracting an archive,
      signalling, starting, replacing and waiting for processes, and the calls
      that rearrange the root inside a container (mount propagation, bind
      mounts, `pivot_root`, `chdir`, lazy unmounts), leave the modelled state
      as it was. */
  function Effect(s: HostState, op: Op): HostState
    requires Permits(s, op)
  {
    match op
    case Mkdir(p) => s.(dirs := s.dirs + {p})
    case MkdirAll(p) => s.(dirs := s.dirs + Ancestry(p))
    case MountFs(m) => s.(mounts := s.mounts + [m])
    case Umount(t) => s.(mounts := Unmounted(s.mounts, t))
    case RemoveAll(p) => s.(dirs := RemovedDirs(s.dirs, p), files := RemovedFiles(s.files, p))
    case WriteFile(p, b) => s.(files := s.files[p := b])
    case CreateFile(p) => s.(files := s.files[p := Text("")])
    case Setenv(k, v) => s.(env := s.env[k := v])
    case NewPipe => s.(pipe := Open(""))
    case WritePipe(d) => s.(pipe := Open(s.pipe.written + d))
    case ClosePipe => s.(pipe := Closed(s.pipe.written))
    case Remove(p) => s.(dirs := s.dirs - {p}, files := s.files - {p})
    case _ => s
  }

  /** One side-effecting call: it is traced whether or not it succeeds, and
      it changes the state only when it succeeds. */
  function Step(s: HostState, refused: set<Op>, op: Op): (r: (HostState, bool))
    ensures r.1 == (op !in refused && Permits(s, op))
    ensures r.0.calls == s.calls + [op]
    ensures !r.1 ==> r.0 == s.(calls := s.calls + [op])
  {
    var ok := op !in refused && Permits(s, op);
    var s' := if ok then Effect(s, op) else s;
    (s'.(calls := s.calls + [op]), ok)
  }

  /** No path is both a directory and a file, as on every real host. */
  predicate Coherent(s: HostState)
  {
    s.dirs !! s.files.Keys
  }

  /** Every call keeps the host coherent: the calls that create check the
      other kind is not in the way, and the removals take both away. */
  lemma StepKeepsCoherent(s: HostState, refused: set<Op>, op: Op)
    requires Coherent(s)
    ensures Coherent(Step(s, refused, op).0)
  {
    if op !in refused && Permits(s, op) {
      match op
      case MkdirAll(p) =>
        assert Ancestry(p) !! s.files.Keys;
      case _ =>
    }
  }

  /** Creating a directory adds it and nothing else. */
  lemma StepMkdir(s: HostState, refused: set<Op>, p: Path)
    ensures var r := Step(s, refused, Mkdir(p));
            r.1 == (Mkdir(p) !in refused && p !in s.dirs && p !in s.files) &&
            r.0 == s.(dirs := if r.1 then s.dirs + {p} else s.dirs, calls := s.calls + [Mkdir(p)])
  {
  }

  /** Writing a file sets its contents and nothing else. */
  lemma StepWriteFile(s: HostState, refused: set<Op>, p: Path, b: Blob)
    ensures var r := Step(s, refused, WriteFile(p, b));
            r.1 == (WriteFile(p, b) !in refused && p !in s.dirs) &&
            r.0 == s.(files := if r.1 then s.files[p := b] else s.files, calls := s.calls + [WriteFile(p, b)])
  {
  }

  /** Signalling a process changes nothing but the trace. */
  lemma StepKill(s: HostState, refused: set<Op>, pid: int)
    ensures var r := Step(s, refused, Kill(pid));
            r.1 == (Kill(pid) !in refused) && r.0 == s.(calls := s.calls + [Kill(pid)])
  {
  }

  /** Only mounting and unmounting change the mount table. */
  lemma StepKeepsMounts(s: HostState, refused: set<Op>, op: Op)
    requires !op.MountFs? && !op.Umount?
    ensures Step(s, refused, op).0.mounts == s.mounts
  {
  }

  /** Unmounting takes the topmost mount on the target off the table. */
  lemma StepUmount(s: HostState, refused: set<Op>, target: Path)
    ensures var r := Step(s, refused, Umount(target));
            r.1 == (Umount(target) !in refused && LastMountAt(s.mounts, target) >= 0 && !Busy(s.mounts, target)) &&
            r.0 == s.(mounts := if r.1 then Unmounted(s.mounts, target) else s.mounts,
                      calls := s.calls + [Umount(target)])
  {
  }

  /** A recursive removal takes away what lies at or below its path and
      nothing else. */
  lemma StepRemoveAll(s: HostState, refused: set<Op>, p: Path)
    ensures var r := Step(s, refused, RemoveAll(p));
            r.1 == (RemoveAll(p) !in refused && !MountedUnder(s.mounts, p)) &&
            r.0 == s.(dirs := if r.1 then RemovedDirs(s.dirs, p) else s.dirs,
                      files := if r.1 then RemovedFiles(s.files, p) else s.files,
                      calls := s.calls + [RemoveAll(p)])
  {
  }

  /** The host after the calls `ops`, made one after the other whatever
      each of them returned. */
  function Steps(s: HostState, refused: set<Op>, ops: seq<Op>): (r: HostState)
    ensures r.calls == s.calls + ops
    decreases |ops|
  {
    if ops == [] then s
    else Step(Steps(s, refused, ops[..|ops| - 1]), refused, ops[|ops| - 1]).0
  }

  lemma StepsSnoc(s: HostState, refused: set<Op>, ops: seq<Op>, op: Op)
    ensures Steps(s, refused, ops + [op]) == Step(Steps(s, refused, ops), refused, op).0
  {
    assert (ops + [op])[..|ops|] == ops;
  }

  lemma Steps1(s: HostState, refused: set<Op>, a: Op)
    ensures Steps(s, refused, [a]) == Step(s, refused, a).0
  {
    StepsSnoc(s, refused, [], a);
  }

  lemma Steps2(s: HostState, refused: set<Op>, a: Op, b: Op)
    ensures Steps(s, refused, [a, b]) == Step(Step(s, refused, a).0, refused, b).0
  {
    Steps1(s, refused, a);
    StepsSnoc(s, refused, [a], b);
    assert [a] + [b] == [a, b];
  }

  lemma Steps3(s: HostState, refused: set<Op>, a: Op, b: Op, c: Op)
    ensures Steps(s, refused, [a, b, c]) == Step(Steps(s, refused, [a, b]), refused, c).0
  {
    StepsSnoc(s, refused, [a, b], c);
    assert [a, b] + [c] == [a, b, c];
  }

  /** Making `a` and then `b` is making `a + b`. */
  lemma {:induction false} StepsAppend(s: HostState, refused: set<Op>, a: seq<Op>, b: seq<Op>)
    ensures Steps(s, refused, a + b) == Steps(Steps(s, refused, a), refused, b)
    decreases |b|
  {
    if b == [] {
      assert a + b == a;
    } else {
      var b' := b[..|b| - 1];
      assert (a + b)[..|a + b| - 1] == a + b';
      StepsAppend(s, refused, a, b');
    }
  }

  /** Making `a` and then `rest` is making `[a] + rest`. */
  lemma StepsCons(s: HostState, refused: set<Op>, a: Op, rest: seq<Op>)
    ensures Steps(s, refused, [a] + rest) == Steps(Step(s, refused, a).0, refused, rest)
  {
    StepsAppend(s, refused, [a], rest);
    Steps1(s, refused, a);
  }

  /** A directory survives every sequence of calls that removes nothing it
      lies below and removes no single entry. */
  lemma {:induction false} StepsKeepDir(s: HostState, refused: set<Op>, ops: seq<Op>, d: Path)
    requires d in s.dirs
    requires forall i :: 0 <= i < |ops| && ops[i].RemoveAll? ==> !Under(d, ops[i].path)
    requires forall i :: 0 <= i < |ops| ==> !ops[i].Remove?
    ensures d in Steps(s, refused, ops).dirs
    decreases |ops|
  {
    if ops != [] {
      StepsKeepDir(s, refused, ops[..|ops| - 1], d);
    }
  }

  /** A successful recursive removal leaves nothing at or below its path. */
  lemma RemoveAllClears(s: HostState, refused: set<Op>, p: Path, d: Path)
    requires RemoveAll(p) !in refused && !MountedUnder(s.mounts, p) && Under(d, p)
    ensures d !in Step(s, refused, RemoveAll(p)).0.dirs
  {
  }

  /** A recursive removal keeps what does not lie at or below its path. */
  lemma RemoveAllKeeps(s: HostState, refused: set<Op>, p: Path, d: Path)
    requires d in s.dirs && !Under(d, p)
    ensures d in Step(s, refused, RemoveAll(p)).0.dirs
  {
    StepRemoveAll(s, refused, p);
  }

  /** Only the two removals take a directory away. */
  lemma StepKeepsDir(s: HostState, refused: set<Op>, op: Op, d: Path)
    requires d in s.dirs && !op.RemoveAll? && !op.Remove?
    ensures d in Step(s, refused, op).0.dirs
  {
  }

  /** Only the two directory-creating calls add a directory. */
  lemma StepKeepsAbsent(s: HostState, refused: set<Op>, op: Op, d: Path)
    requires d !in s.dirs && !op.Mkdir? && !op.MkdirAll?
    ensures d !in Step(s, refused, op).0.dirs
  {
  }

  /** A directory that is absent stays absent through calls that create
      none. */
  lemma {:induction false} StepsKeepAbsent(s: HostState, refused: set<Op>, ops: seq<Op>, d: Path)
    requires d !in s.dirs
    requires forall i :: 0 <= i < |ops| ==> !ops[i].Mkdir? && !ops[i].MkdirAll?
    ensures d !in Steps(s, refused, ops).dirs
    decreases |ops|
  {
    if ops != [] {
      StepsKeepAbsent(s, refused, ops[..|ops| - 1], d);
    }
  }

  /** Calls that create directories only one at a time, each within `m`,
      leave the directories within those of before and `m`. */
  lemma {:induction false} StepsDirsWithin(s: HostState, refused: set<Op>, ops: seq<Op>, m: set<Path>)
    requires forall i :: 0 <= i < |ops| ==> !ops[i].MkdirAll? && (ops[i].Mkdir? ==> ops[i].path in m)
    ensures Steps(s, refused, ops).dirs <= s.dirs + m
    decreases |ops|
  {
    if ops != [] {
      StepsDirsWithin(s, refused, ops[..|ops| - 1], m);
    }
  }

  /** Only the pipe calls change the pipe. */
  lemma {:induction false} StepsKeepPipe(s: HostState, refused: set<Op>, ops: seq<Op>)
    requires forall i :: 0 <= i < |ops| ==> !ops[i].NewPipe? && !ops[i].WritePipe? && !ops[i].ClosePipe?
    ensures Steps(s, refused, ops).pipe == s.pipe
    decreases |ops|
  {
    if ops != [] {
      StepsKeepPipe(s, refused, ops[..|ops| - 1]);
    }
  }

  /** `ioutil.ReadFile`. */
  function ReadFileIn(s: HostState, refused: set<Op>, p: Path): Result<Blob, Error>
  {
    if ReadFile(p) in refused then Err(Failed(ReadFile(p)))
    else if p !in s.files then Err(Missing(p))
    else Ok(s.files[p])
  }

  /** `ioutil.ReadFile` followed by `json.Unmarshal` into a record: the
      record the file holds, or why there is none. */
  function ReadRecordIn(s: HostState, refused: set<Op>, p: Path): (r: Result<Info, Error>)
    ensures r.Ok? <==> ReadFile(p) !in refused && p in s.files && Unmarshal(s.files[p]).Some?
    ensures r.Ok? ==> Marshal(r.value) == s.files[p]
    ensures r.Err? ==> r.error == Failed(ReadFile(p)) || r.error == Missing(p) || r.error == Undecodable(p)
  {
    match ReadFileIn(s, refused, p)
    case Err(e) => Err(e)
    case Ok(b) =>
      match Unmarshal(b)
      case None => Err(Undecodable(p))
      case Some(info) => Ok(info)
  }

  /** A record whose write succeeds is read back whole. */
  lemma WrittenRecordReads(s: HostState, refused: set<Op>, p: Path, info: Info)
    requires ReadFile(p) !in refused
    ensures var w := Step(s, refused, WriteFile(p, Marshal(info)));
            w.1 ==> ReadRecordIn(w.0, refused, p) == Ok(info)
  {
  }

  /** Whether `ioutil.ReadDir` can list `p`: it cannot when it is refused or
      when `p` is no directory. */
  function ReadDirIn(s: HostState, refused: set<Op>, p: Path): (r: Option<Error>)
    ensures r.None? <==> ReadDir(p) !in refused && p in s.dirs
  {
    if ReadDir(p) in refused then Some(Failed(ReadDir(p)))
    else if p !in s.dirs then Some(Missing(p))
    else None
  }

  /** A file that is absent stays absent through calls that write none. */
  lemma {:induction false} StepsKeepFileAbsent(s: HostState, refused: set<Op>, ops: seq<Op>, f: Path)
    requires f !in s.files
    requires forall i :: 0 <= i < |ops| ==> !ops[i].WriteFile? && !ops[i].CreateFile?
    ensures f !in Steps(s, refused, ops).files
    decreases |ops|
  {
    if ops != [] {
      StepsKeepFileAbsent(s, refused, ops[..|ops| - 1], f);
    }
  }

  /** The three answers of `os.Stat` the core tells apart. */
  datatype StatResult = Exists | NotExist | StatError(error: Error)

  function StatIn(s: HostState, refused: set<Op>, p: Path): StatResult
  {
    if Stat(p) in refused then StatError(Failed(Stat(p)))
    else if p in s.dirs || p in s.files then Exists
    else NotExist
  }

  /** The host, updated in place by every call the core makes. */
  class Host {
    var dirs: set<Path>
    var files: map<Path, Blob>
    var mounts: seq<Mount>
    var env: map<string, string>
    var pipe: Pipe
    var calls: seq<Op>
    /** The calls the kernel refuses. */
    const refused: set<Op>
    /** Where each cgroup subsystem's hierarchy is mounted. */
    const cgroupRoots: map<string, Path>

    function State(): HostState
      reads this
    {
      HostState(dirs, files, mounts, env, pipe, calls)
    }

    constructor (initial: HostState, refused: set<Op>, cgroupRoots: map<string, Path>)
      ensures State() == initial
      ensures this.refused == refused && this.cgroupRoots == cgroupRoots
    {
      dirs, files, mounts := initial.dirs, initial.files, initial.mounts;
      env, pipe, calls := initial.env, initial.pipe, initial.calls;
      this.refused, this.cgroupRoots := refused, cgroupRoots;
    }

    /** Makes the call `op`; `ok` is false when it failed. */
    method Perform(op: Op) returns (ok: bool)
      modifies this
      ensures (State(), ok) == Step(old(State()), refused, op)
    {
      ok := op !in refused && Permits(State(), op);
      ghost var next := if ok then Effect(State(), op) else State();
      if ok {
        match op
        case Mkdir(p) => dirs := dirs + {p};
        case MkdirAll(p) => dirs := dirs + Ancestry(p);
        case MountFs(m) => mounts := mounts + [m];
        case Umount(t) => mounts := Unmounted(mounts, t);
        case RemoveAll(p) =>
          dirs := RemovedDirs(dirs, p);
          files := RemovedFiles(files, p);
        case WriteFile(p, b) => files := files[p := b];
        case CreateFile(p) => files := files[p := Text("")];
        case Setenv(k, v) => env := env[k := v];
        case NewPipe => pipe := Open("");
        case WritePipe(d) => pipe := Open(pipe.written + d);
        case ClosePipe => pipe := Closed(pipe.written);
        case Remove(p) =>
          dirs := dirs - {p};
          files := files - {p};
        case _ =>
      }
      assert State() == next;
      calls := calls + [op];
    }

    function ReadFile(p: Path): Result<Blob, Error>
      reads this
    {
      ReadFileIn(State(), refused, p)
    }

    function Stat(p: Path): StatResult
      reads this
    {
      StatIn(State(), refused, p)
    }

    function ReadDir(p: Path): Option<Error>
      reads this
    {
      ReadDirIn(State(), refused, p)
    }
  }
}
