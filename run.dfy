/** `mydocker run`: start the container's init in new namespaces, record the
    container, put it into its cgroups, hand it its command, and, with a
    terminal, wait for it and clean up after it. The random draws of the
    container id, the clock, and the pid the kernel gives the child are
    parameters. */
module Run {
  import opened Results
  import opened Strings
  import opened Records
  import opened Host
  import opened Subsystems
  import opened Cgroups
  import opened ContainerProcess
  import opened ContainerInit

  // ------------------------------------------------------------ the id

  /** One draw of `rand.Intn(len(letterBytes))`. */
  type Nibble = x: int | 0 <= x < 16

  const LetterBytes: string := "0123456789ABCDEF"

  /** The length of a container id. */
  const IdLength: nat := 10

  predicate IsHexDigit(c: char)
  {
    '0' <= c <= '9' || 'A' <= c <= 'F'
  }

  /** The string the draws spell, one letter per draw. */
  function IdOf(draws: seq<Nibble>): (id: string)
    ensures |id| == |draws|
    ensures forall i :: 0 <= i < |id| ==> IsHexDigit(id[i])
  {
    seq(|draws|, i requires 0 <= i < |draws| => LetterBytes[draws[i]])
  }

  /** Different draws spell different ids: the sixteen letters are
      distinct. */
  lemma IdOfInjective(a: seq<Nibble>, b: seq<Nibble>)
    requires IdOf(a) == IdOf(b)
    ensures a == b
  {
    forall i | 0 <= i < |a| ensures a[i] == b[i] {
      assert LetterBytes[a[i]] == IdOf(a)[i] == IdOf(b)[i] == LetterBytes[b[i]];
      LettersDistinct(a[i], b[i]);
    }
  }

  lemma LettersDistinct(x: Nibble, y: Nibble)
    requires LetterBytes[x] == LetterBytes[y]
    ensures x == y
  {
  }

  /** `randStringBytes(n)`: fills an `n`-byte buffer one letter per draw. */
  method RandStringBytes(n: nat, draws: seq<Nibble>) returns (s: string)
    requires |draws| == n
    ensures s == IdOf(draws)
  {
    var b := new char[n];
    for i := 0 to n
      invariant forall j :: 0 <= j < i ==> b[j] == LetterBytes[draws[j]]
    {
      b[i] := LetterBytes[draws[i]];
    }
    s := b[..];
    assert forall j :: 0 <= j < n ==> s[j] == IdOf(draws)[j];
  }

  // -------------------------------------------------------- the record

  /** The name the container is registered under: the given one, or its id. */
  function RecordName(containerName: string, id: string): string
  {
    if containerName == "" then id else containerName
  }

  /** The record of a container that has just started. */
  function NewRecord(pid: int, commandArray: seq<string>, name: string, id: string, now: string): Info
  {
    Info(id, Itoa(pid), name, Join(commandArray, ""), now, Running)
  }

  /** `recordContainerInfo(pid, commandArray, containerName)`: make the
      container's directory, create the record file, and write the encoded
      record into it; the name used, or `""` and the error of the first call
      that failed. */
  function RecordSpec(s: HostState, refused: set<Op>, pid: int, commandArray: seq<string>,
                      containerName: string, draws: seq<Nibble>, now: string)
    : (r: (HostState, string, Option<Error>))
    ensures r.0.mounts == s.mounts && r.0.pipe == s.pipe && s.dirs <= r.0.dirs
  {
    var id := IdOf(draws);
    var name := RecordName(containerName, id);
    var blob := Marshal(NewRecord(pid, commandArray, name, id, now));
    var (s1, made) := Step(s, refused, MkdirAll(InfoDir(name)));
    if !made then (s1, "", Some(Failed(MkdirAll(InfoDir(name)))))
    else
      var (s2, created) := Step(s1, refused, CreateFile(RecordPath(name)));
      if !created then (s2, "", Some(Failed(CreateFile(RecordPath(name)))))
      else
        var (s3, written) := Step(s2, refused, WriteFile(RecordPath(name), blob));
        if !written then (s3, "", Some(Failed(WriteFile(RecordPath(name), blob))))
        else (s3, name, None)
  }

  /** A successful recording returns the name it used and leaves, in the
      record file, the encoding of a running container's record: its id,
      its decimal pid, its name, its arguments run together without a
      separator, and the time of day. */
  lemma RecordWritesRecord(s: HostState, refused: set<Op>, pid: int, commandArray: seq<string>,
                           containerName: string, draws: seq<Nibble>, now: string)
    ensures var r := RecordSpec(s, refused, pid, commandArray, containerName, draws, now);
            var name := RecordName(containerName, IdOf(draws));
            r.2.None? ==>
              r.1 == name && InfoDir(name) in r.0.dirs && InfoRoot in r.0.dirs && RecordPath(name) in r.0.files &&
              Unmarshal(r.0.files[RecordPath(name)]) == Some(NewRecord(pid, commandArray, name, IdOf(draws), now))
  {
    var d := InfoDir(RecordName(containerName, IdOf(draws)));
    AncestrySelf(d);
    assert d[..|InfoRoot|] == InfoRoot;
    AncestorAt(d, |InfoRoot|);
  }

  /** No file stands where the container's directory goes or on the way to
      it, and no directory where its record file goes, counting those the
      recording makes itself. */
  predicate RecordClear(s: HostState, name: string)
  {
    PathClear(s, InfoDir(name)) && RecordPath(name) !in s.dirs + Ancestry(InfoDir(name))
  }

  /** A failed recording returns no name and the failure of one of its
      three calls; with nothing refused it does not fail. */
  lemma RecordFails(s: HostState, refused: set<Op>, pid: int, commandArray: seq<string>,
                    containerName: string, draws: seq<Nibble>, now: string)
    ensures var r := RecordSpec(s, refused, pid, commandArray, containerName, draws, now);
            var name := RecordName(containerName, IdOf(draws));
            r.2.Some? ==>
              r.1 == "" && r.2.value.Failed? &&
              (r.2.value.op == MkdirAll(InfoDir(name)) || r.2.value.op == CreateFile(RecordPath(name)) ||
               r.2.value.op.WriteFile?)
    ensures refused == {} && RecordClear(s, RecordName(containerName, IdOf(draws))) ==>
              RecordSpec(s, refused, pid, commandArray, containerName, draws, now).2.None?
  {
  }

  /** `recordContainerInfo`, with the ten draws of the id and the formatted
      time of day. */
  method RecordContainerInfo(h: Host, pid: int, commandArray: seq<string>, containerName: string,
                             draws: seq<Nibble>, now: string) returns (name: string, err: Option<Error>)
    requires |draws| == IdLength
    modifies h
    ensures (h.State(), name, err) == RecordSpec(old(h.State()), h.refused, pid, commandArray, containerName, draws, now)
  {
    var id := RandStringBytes(IdLength, draws);
    var command := Join(commandArray, "");
    name := containerName;
    if name == "" {
      name := id;
    }
    var info := Info(id, Itoa(pid), name, command, now, Running);
    var blob := Marshal(info);
    var saveDirURL := InfoDir(name);
    var made := h.Perform(MkdirAll(saveDirURL));
    if !made {
      return "", Some(Failed(MkdirAll(saveDirURL)));
    }
    var saveFileName := PathJoin(saveDirURL, ConfigName);
    var created := h.Perform(CreateFile(saveFileName));
    if !created {
      return "", Some(Failed(CreateFile(saveFileName)));
    }
    var written := h.Perform(WriteFile(saveFileName, blob));
    if !written {
      return "", Some(Failed(WriteFile(saveFileName, blob)));
    }
    return name, None;
  }

  /** `deleteContainerInfo(name)`: remove the container's directory; a
      failure is only logged. */
  method DeleteContainerInfo(h: Host, containerName: string)
    modifies h
    ensures h.State() == Step(old(h.State()), h.refused, RemoveAll(InfoDir(containerName))).0
  {
    var _ := h.Perform(RemoveAll(InfoDir(containerName)));
  }

  /** Once the directory is removed, neither it nor the record in it is
      left; nothing mounted below it may keep it busy. */
  lemma DeleteRemovesRecord(s: HostState, refused: set<Op>, name: string)
    requires RemoveAll(InfoDir(name)) !in refused && !MountedUnder(s.mounts, InfoDir(name))
    ensures var r := Step(s, refused, RemoveAll(InfoDir(name))).0;
            InfoDirGone(r.dirs, name) && (IsEntryName(name) ==> RecordPath(name) !in r.files)
  {
    if IsEntryName(name) {
      RecordPathSpellings(name);
    }
  }

  // ------------------------------------------------------ the hand-off

  /** `sendInitCommand(comArray, writePipe)`: the arguments joined by single
      spaces, written, and the write end closed; errors are ignored. */
  function HandOffSpec(s: HostState, refused: set<Op>, comArray: seq<string>): (r: HostState)
    ensures r.mounts == s.mounts && r.dirs == s.dirs && r.files == s.files
    ensures s.pipe == Open("") && refused == {} ==> r.pipe == Closed(Join(comArray, " "))
  {
    var (s1, _) := Step(s, refused, WritePipe(Join(comArray, " ")));
    assert s.pipe == Open("") && refused == {} ==> s1.pipe == Open("" + Join(comArray, " "));
    assert "" + Join(comArray, " ") == Join(comArray, " ");
    Step(s1, refused, ClosePipe).0
  }

  method SendInitCommand(h: Host, comArray: seq<string>)
    modifies h
    ensures h.State() == HandOffSpec(old(h.State()), h.refused, comArray)
  {
    var command := Join(comArray, " ");
    var _ := h.Perform(WritePipe(command));
    var _ := h.Perform(ClosePipe);
  }

  /** What the parent sends, the container's init reads back: a non-empty
      argument list whose arguments hold no space survives the hand-off. */
  lemma CommandRoundTrip(comArray: seq<string>)
    requires |comArray| >= 1
    requires forall i :: 0 <= i < |comArray| ==> ' ' !in comArray[i]
    ensures ReadUserCommand(Some(Join(comArray, " "))) == Some(comArray)
  {
    SplitJoin(comArray, ' ');
  }

  // ------------------------------------------------------------- Run

  /** The cgroup every container is put into. */
  const CgroupName: Path := "mydocker-cgroup"

  /** The limits, then the joining of the cgroups, on every subsystem. */
  function ConfigureSpec(s: HostState, refused: set<Op>, roots: map<string, Path>,
                         res: ResourceConfig, pid: int): (r: HostState)
    ensures r.mounts == s.mounts && r.pipe == s.pipe && s.dirs <= r.dirs
  {
    SetAllKeeps(s, refused, roots, SubsystemsIns, CgroupName, res);
    var s1 := SetAll(s, refused, roots, SubsystemsIns, CgroupName, res);
    ApplyAllKeeps(s1, refused, roots, SubsystemsIns, CgroupName, pid);
    ApplyAll(s1, refused, roots, SubsystemsIns, CgroupName, pid)
  }

  /** The record goes, and the workspace goes too when the mount point is
      still there: what a terminal session ends with, and what `rm` does to
      a stopped container. */
  function DiscardSpec(s: HostState, refused: set<Op>, name: string, volume: string): HostState
  {
    var s1 := Step(s, refused, RemoveAll(InfoDir(name))).0;
    if StatIn(s1, refused, MntURL).NotExist? then s1
    else Steps(s1, refused, DeleteWorkSpaceOps(RootURL, MntURL, volume))
  }

  /** With a terminal, after the container has exited. */
  function CleanUpSpec(s: HostState, refused: set<Op>, name: string, volume: string): HostState
  {
    DiscardSpec(Step(s, refused, Wait).0, refused, name, volume)
  }

  /** How `Run` ends. A failed `Start` leaves the command without a process,
      and reading its pid then dereferences nil. */
  datatype RunEnd = NoParent | StartPanicked | NotRecorded(error: Error) | Finished(name: string)

  /** Everything `Run` does once the container is recorded under `name`. */
  function AfterRecord(s: HostState, refused: set<Op>, roots: map<string, Path>, tty: bool, volume: string,
                       comArray: seq<string>, res: ResourceConfig, name: string, pid: int): HostState
  {
    var s1 := HandOffSpec(ConfigureSpec(s, refused, roots, res, pid), refused, comArray);
    if tty then CleanUpSpec(s1, refused, name, volume) else s1
  }

  /** `Run(tty, volume, comArray, res, containerName)`, given the draws of the
      id, the pid of the started child and the time of day. */
  function RunSpec(s: HostState, refused: set<Op>, roots: map<string, Path>, tty: bool, volume: string,
                   comArray: seq<string>, res: ResourceConfig, containerName: string,
                   draws: seq<Nibble>, pid: int, now: string): (r: (HostState, RunEnd))
  {
    RunFrom(NewParentProcessSpec(s, refused, tty, containerName, volume), refused, roots, tty, volume,
            comArray, res, containerName, draws, pid, now)
  }

  /** `Run` once `NewParentProcess` has answered. */
  function RunFrom(launched: (HostState, Option<Cmd>), refused: set<Op>, roots: map<string, Path>, tty: bool,
                   volume: string, comArray: seq<string>, res: ResourceConfig, containerName: string,
                   draws: seq<Nibble>, pid: int, now: string): (HostState, RunEnd)
  {
    if launched.1.None? then (launched.0, NoParent)
    else
      var started := Step(launched.0, refused, Start(launched.1.value.argv));
      if !started.1 then (started.0, StartPanicked)
      else
        var rec := RecordSpec(started.0, refused, pid, comArray, containerName, draws, now);
        if rec.2.Some? then (rec.0, NotRecorded(rec.2.value))
        else (AfterRecord(rec.0, refused, roots, tty, volume, comArray, res, rec.1, pid), Finished(rec.1))
  }

  /** `Run`. The deferred `Destroy` of the cgroups never runs: the function
      ends in `os.Exit(0)`, which skips deferred calls. */
  method Run(h: Host, tty: bool, volume: string, comArray: seq<string>, res: ResourceConfig,
             containerName: string, draws: seq<Nibble>, pid: int, now: string) returns (end: RunEnd)
    requires |draws| == IdLength
    modifies h
    ensures (h.State(), end) == RunSpec(old(h.State()), h.refused, h.cgroupRoots, tty, volume, comArray,
                                        res, containerName, draws, pid, now)
  {
    var parent := NewParentProcess(h, tty, containerName, volume);
    if parent.None? {
      return NoParent;
    }
    var started := h.Perform(Start(parent.value.argv));
    if !started {
      return StartPanicked;
    }
    var name, err := RecordContainerInfo(h, pid, comArray, containerName, draws, now);
    if err.Some? {
      return NotRecorded(err.value);
    }
    ghost var s4 := h.State();
    var cgroupManager := new CgroupManager(CgroupName);
    var _ := cgroupManager.Set(h, res);
    var _ := cgroupManager.Apply(h, pid);
    assert h.State() == ConfigureSpec(s4, h.refused, h.cgroupRoots, res, pid);
    SendInitCommand(h, comArray);
    if tty {
      var _ := h.Perform(Wait);
      DeleteContainerInfo(h, name);
      var st := h.Stat(MntURL);
      if !st.NotExist? {
        DeleteWorkSpace(h, RootURL, MntURL, volume);
      }
    }
    return Finished(name);
  }

  // ------------------------------------------------------ the properties

  /** How `Run` ends: without a command exactly when `NewParentProcess`
      gives none, in a panic only when the kernel refuses to start the
      child, on a failed call when the recording fails, and otherwise under
      the name the container was recorded with. With nothing refused it runs
      to its end. */
  lemma RunEnds(s: HostState, refused: set<Op>, roots: map<string, Path>, tty: bool, volume: string,
                comArray: seq<string>, res: ResourceConfig, containerName: string,
                draws: seq<Nibble>, pid: int, now: string)
    ensures var r := RunSpec(s, refused, roots, tty, volume, comArray, res, containerName, draws, pid, now);
            (r.1 == NoParent <==> NewParentProcessSpec(s, refused, tty, containerName, volume).1.None?) &&
            (r.1 == StartPanicked ==> Start(["/proc/self/exe", "init"]) in refused) &&
            (r.1.NotRecorded? ==> r.1.error.Failed?) &&
            (r.1.Finished? ==> r.1.name == RecordName(containerName, IdOf(draws))) &&
            (refused == {} && RoomToRun(s, tty, containerName, volume, draws) ==>
               r.1 == Finished(RecordName(containerName, IdOf(draws))))
  {
    var launched := NewParentProcessSpec(s, refused, tty, containerName, volume);
    if refused == {} && RoomToRun(s, tty, containerName, volume, draws) {
      Launches(s, tty, containerName, volume);
      RecordRoom(s, tty, containerName, volume, draws);
    }
    RunFromEnds(launched, refused, roots, tty, volume, comArray, res, containerName, draws, pid, now,
                RoomToRun(s, tty, containerName, volume, draws));
  }

  lemma RunFromEnds(launched: (HostState, Option<Cmd>), refused: set<Op>, roots: map<string, Path>, tty: bool,
                    volume: string, comArray: seq<string>, res: ResourceConfig, containerName: string,
                    draws: seq<Nibble>, pid: int, now: string, room: bool)
    requires launched.1.Some? ==> launched.1.value.argv == ["/proc/self/exe", "init"]
    requires refused == {} && room ==> launched.1.Some?
    requires refused == {} && room ==> RecordClear(launched.0, RecordName(containerName, IdOf(draws)))
    ensures var r := RunFrom(launched, refused, roots, tty, volume, comArray, res, containerName, draws, pid, now);
            (r.1 == NoParent <==> launched.1.None?) &&
            (r.1 == StartPanicked ==> Start(["/proc/self/exe", "init"]) in refused) &&
            (r.1.NotRecorded? ==> r.1.error.Failed?) &&
            (r.1.Finished? ==> r.1.name == RecordName(containerName, IdOf(draws))) &&
            (refused == {} && room ==> r.1 == Finished(RecordName(containerName, IdOf(draws))))
  {
    if launched.1.Some? {
      var started := Step(launched.0, refused, Start(launched.1.value.argv));
      RecordFails(started.0, refused, pid, comArray, containerName, draws, now);
      RecordWritesRecord(started.0, refused, pid, comArray, containerName, draws, now);
    }
  }

  /** With nothing refused, a launched child is recorded and the rest of
      `Run` follows. */
  lemma RunFromLaunched(launched: (HostState, Option<Cmd>), roots: map<string, Path>, tty: bool,
                        volume: string, comArray: seq<string>, res: ResourceConfig, containerName: string,
                        draws: seq<Nibble>, pid: int, now: string)
    requires launched.1.Some?
    requires RecordClear(launched.0, RecordName(containerName, IdOf(draws)))
    ensures var rec := RecordSpec(Step(launched.0, {}, Start(launched.1.value.argv)).0, {}, pid, comArray,
                                  containerName, draws, now);
            rec.2.None? &&
            RunFrom(launched, {}, roots, tty, volume, comArray, res, containerName, draws, pid, now) ==
              (AfterRecord(rec.0, {}, roots, tty, volume, comArray, res, rec.1, pid), Finished(rec.1))
  {
    var started := Step(launched.0, {}, Start(launched.1.value.argv));
    assert started.0 == launched.0.(calls := launched.0.calls + [Start(launched.1.value.argv)]);
    assert RecordClear(started.0, RecordName(containerName, IdOf(draws)));
    RecordFails(started.0, {}, pid, comArray, containerName, draws, now);
  }

  /** With nothing refused, `NewParentProcess` gives a command and leaves the
      pipe open and empty, the mount point in place, and the workspace's
      mounts on top of the mount table. */
  lemma Launches(s: HostState, tty: bool, containerName: string, volume: string)
    requires LaunchRoom(s, tty, containerName, volume)
    ensures var r := NewParentProcessSpec(s, {}, tty, containerName, volume);
            r.1.Some? && r.0.pipe == Open("") && MntURL in r.0.dirs &&
            r.0.mounts == s.mounts + [UnionMount(RootURL, MntURL)] +
              (if ValidVolume(volume) then [VolumeMount(MntURL, VolumeURLExtract(volume))] else [])
  {
    ParentUnrefused(s, tty, containerName, volume);
    var s1 := Step(s, {}, NewPipe).0;
    var s2 := StdioSpec(s1, {}, tty, containerName).0;
    LogFileApart(containerName, MntURL);
    StdioFiles(s1, tty, containerName, MntURL);
    if ValidVolume(volume) {
      StdioFiles(s1, tty, containerName, ContainerVolumeURL(MntURL, VolumeURLExtract(volume)));
    }
    BuiltMounts(s2, volume);
    BuiltHasMountPoint(s2, volume);
  }

  /** No file stands where `NewParentProcess` makes a directory: the
      workspace's mount points and, when detached, the container's log
      directory and its ancestors; nor does the log file take the volume's
      place. */
  predicate LaunchRoom(s: HostState, tty: bool, containerName: string, volume: string)
  {
    WorkspaceClear(s, volume) &&
    (!tty ==> PathClear(s, InfoDir(containerName)) &&
              (ValidVolume(volume) ==> ContainerVolumeURL(MntURL, VolumeURLExtract(volume)) != LogFilePath(containerName)))
  }

  /** The directories `NewParentProcess` may make: the workspace's and, when
      detached, the log directory with its ancestors. */
  function LaunchDirs(tty: bool, containerName: string, volume: string): set<Path>
  {
    WorkspaceDirs(volume) + (if tty then {} else Ancestry(InfoDir(containerName)))
  }

  /** `LaunchRoom`, and room for the record: no file on the way to its
      directory (the log file included), and no directory, before or made
      on the way, where the record file goes. */
  predicate RoomToRun(s: HostState, tty: bool, containerName: string, volume: string, draws: seq<Nibble>)
  {
    var d := InfoDir(RecordName(containerName, IdOf(draws)));
    LaunchRoom(s, tty, containerName, volume) && PathClear(s, d) &&
    RecordPath(RecordName(containerName, IdOf(draws))) !in s.dirs + LaunchDirs(tty, containerName, volume) + Ancestry(d)
  }

  /** The log file is no directory spelt with a trailing slash. */
  lemma LogFileApart(containerName: string, d: Path)
    requires |d| > 1 && d[|d| - 1] == '/'
    ensures LogFilePath(containerName) != d
  {
    var p := InfoDir(containerName) + "/" + ContainerLogFile;
    assert p[0] == '/';
    CleanNoTrailingSlash(p);
  }

  /** Setting up the output creates no file but the log file, and that one
      not on the way to the container's directory, which it has just made. */
  lemma StdioFiles(s: HostState, tty: bool, containerName: string, f: Path)
    requires f !in s.files
    requires !tty ==> f != LogFilePath(containerName) || f in Ancestry(InfoDir(containerName))
    ensures f !in StdioSpec(s, {}, tty, containerName).0.files
  {
    if !tty {
      var made := Step(s, {}, MkdirAll(InfoDir(containerName)));
      if made.1 {
        assert Ancestry(InfoDir(containerName)) <= made.0.dirs;
      }
    }
  }

  /** `NewParentProcess` creates no file but the log file, and that one not
      on the way to the container's directory. */
  lemma LaunchedFiles(s: HostState, tty: bool, containerName: string, volume: string, f: Path)
    requires f !in s.files
    requires !tty ==> f != LogFilePath(containerName) || f in Ancestry(InfoDir(containerName))
    ensures f !in NewParentProcessSpec(s, {}, tty, containerName, volume).0.files
  {
    var s1 := Step(s, {}, NewPipe).0;
    StdioFiles(s1, tty, containerName, f);
    var stdio := StdioSpec(s1, {}, tty, containerName);
    if stdio.1.Some? {
      var ops := NewWorkSpaceOps(stdio.0, {}, RootURL, MntURL, volume);
      NoFileThroughWorkspace(stdio.0, volume, ops, f);
    }
  }

  /** `NewParentProcess` makes no directory but those of `LaunchDirs`. */
  lemma LaunchedDirs(s: HostState, refused: set<Op>, tty: bool, containerName: string, volume: string)
    ensures NewParentProcessSpec(s, refused, tty, containerName, volume).0.dirs <= s.dirs + LaunchDirs(tty, containerName, volume)
  {
    var s1 := Step(s, refused, NewPipe).0;
    var stdio := StdioSpec(s1, refused, tty, containerName);
    assert stdio.0.dirs <= s.dirs + (if tty then {} else Ancestry(InfoDir(containerName)));
    if stdio.1.Some? {
      WorkspaceDirsWithin(stdio.0, refused, volume);
    }
  }

  /** A container without a name logs to `/var/run/mydocker/container.log`,
      which lies on the way to no container directory named by an id. */
  lemma LogFileOfNoName(id: string, f: Path)
    requires forall i :: 0 <= i < |id| ==> IsHexDigit(id[i])
    requires f in Ancestry(InfoDir(id))
    ensures f != LogFilePath("")
  {
    LogFileNoName();
    var d := InfoDir(id);
    var log := InfoRoot + ContainerLogFile;
    var i :| 0 < i <= |d| && d[..i] == f;
    assert |log| == 31 && log[18] == 'c';
    if |f| > 18 {
      assert f[18] == d[18];
      if |id| > 0 {
        assert d[18] == id[0];
      } else {
        assert d[18] == '/';
      }
    }
  }

  /** `path.Join("/var/run/mydocker//", "container.log")` drops the doubled
      slash. */
  lemma LogFileNoName()
    ensures LogFilePath("") == InfoRoot + ContainerLogFile
  {
    InfoRootOf();
    assert IsName(ContainerLogFile);
    JoinAfterDoubledSlash(InfoRootNames, ContainerLogFile);
    assert InfoDir("") == DirOf(InfoRootNames) + "/";
  }

  /** After `NewParentProcess`, still room for the record. */
  lemma RecordRoom(s: HostState, tty: bool, containerName: string, volume: string, draws: seq<Nibble>)
    requires RoomToRun(s, tty, containerName, volume, draws)
    ensures RecordClear(NewParentProcessSpec(s, {}, tty, containerName, volume).0, RecordName(containerName, IdOf(draws)))
  {
    var name := RecordName(containerName, IdOf(draws));
    var t := NewParentProcessSpec(s, {}, tty, containerName, volume).0;
    forall f | f in Ancestry(InfoDir(name)) ensures f !in t.files {
      if containerName == "" {
        LogFileOfNoName(IdOf(draws), f);
      }
      LaunchedFiles(s, tty, containerName, volume, f);
    }
    LaunchedDirs(s, {}, tty, containerName, volume);
  }

  /** With nothing refused, from the start of the child to the hand-off: the
      mount table is kept, no directory goes, the container's directory is
      made, and the pipe carries the command and is closed. */
  lemma MiddleKeeps(b: HostState, roots: map<string, Path>, argv: seq<string>, comArray: seq<string>,
                    res: ResourceConfig, containerName: string, draws: seq<Nibble>, pid: int, now: string)
    requires b.pipe == Open("") && RecordClear(b, RecordName(containerName, IdOf(draws)))
    ensures var rec := RecordSpec(Step(b, {}, Start(argv)).0, {}, pid, comArray, containerName, draws, now);
            var t := HandOffSpec(ConfigureSpec(rec.0, {}, roots, res, pid), {}, comArray);
            rec.2.None? && rec.1 == RecordName(containerName, IdOf(draws)) &&
            t.mounts == b.mounts && b.dirs <= t.dirs && InfoDir(rec.1) in t.dirs &&
            t.pipe == Closed(Join(comArray, " "))
  {
    var b2 := Step(b, {}, Start(argv)).0;
    assert b2.pipe == b.pipe && b2.mounts == b.mounts && b2.dirs == b.dirs;
    RecordFails(b2, {}, pid, comArray, containerName, draws, now);
    RecordWritesRecord(b2, {}, pid, comArray, containerName, draws, now);
    var rec := RecordSpec(b2, {}, pid, comArray, containerName, draws, now);
    var c := ConfigureSpec(rec.0, {}, roots, res, pid);
    assert c.pipe == Open("") && InfoDir(rec.1) in c.dirs;
  }

  /** The container's directories lie apart from the mount point. */
  lemma InfoApart(name: string)
    ensures !Under(MntURL, InfoDir(name))
  {
    var d := InfoDir(name);
    assert d[1] == 'v' && MntURL[1] == 'r';
    assert Slashed(d) == d;
  }

  /** Nothing inside the mount point lies below a container's directory. */
  lemma InsideApart(p: Path, name: string)
    requires Under(p, MntURL)
    ensures !Under(p, InfoDir(name))
  {
    var d := InfoDir(name);
    assert d[1] == 'v' && MntURL[1] == 'r' && Slashed(MntURL) == MntURL;
    assert Slashed(d) == d;
    assert p[1] == 'r';
  }

  /** Nothing keeps the clean-up's removals from going through: below the
      workspace's own mounts, nothing is mounted at or below the mount point,
      the writable layer or the container's directory, and a volume that
      climbs out of the mount point does not land below that directory. */
  predicate CleanupClear(base: seq<Mount>, name: string, volume: string)
  {
    NoMountBelowWorkspace(base) && !MountedUnder(base, InfoDir(name)) &&
    (ValidVolume(volume) && !VolumeInside(volume) ==>
       !Under(ContainerVolumeURL(MntURL, VolumeURLExtract(volume)), InfoDir(name)))
  }

  /** With the workspace's mounts on top, nothing keeps the container's
      directory busy. */
  lemma CleanupClearMounts(t: HostState, base: seq<Mount>, name: string, volume: string)
    requires t.mounts == base + [UnionMount(RootURL, MntURL)] +
               (if ValidVolume(volume) then [VolumeMount(MntURL, VolumeURLExtract(volume))] else [])
    requires CleanupClear(base, name, volume)
    ensures !MountedUnder(t.mounts, InfoDir(name))
  {
    forall j | 0 <= j < |t.mounts|
      ensures !Under(t.mounts[j].target, InfoDir(name))
    {
      if j < |base| {
        assert t.mounts[j] == base[j];
      } else if j == |base| {
        InfoApart(name);
      } else {
        var cv := ContainerVolumeURL(MntURL, VolumeURLExtract(volume));
        assert t.mounts[j].target == cv;
        if VolumeInside(volume) {
          InsideApart(cv, name);
        }
      }
    }
  }

  /** The clean-up after a terminal session leaves the pipe alone. */
  lemma CleanUpKeepsPipe(t: HostState, refused: set<Op>, name: string, volume: string)
    ensures CleanUpSpec(t, refused, name, volume).pipe == t.pipe
  {
    var teardown := DeleteWorkSpaceOps(RootURL, MntURL, volume);
    TeardownOrder(RootURL, MntURL, volume);
    assert forall i :: 0 <= i < |teardown| ==> teardown[i].Umount? || teardown[i].RemoveAll?;
    var s1 := Step(Step(t, refused, Wait).0, refused, RemoveAll(InfoDir(name))).0;
    StepsKeepPipe(s1, refused, teardown);
  }

  /** With nothing refused and nothing mounted in the way, the clean-up
      after a terminal session removes the container's directory, pops the workspace's mounts and removes the
      mount point and the writable layer; the pipe is left alone. */
  lemma CleansUp(t: HostState, base: seq<Mount>, name: string, volume: string)
    requires t.mounts == base + [UnionMount(RootURL, MntURL)] +
               (if ValidVolume(volume) then [VolumeMount(MntURL, VolumeURLExtract(volume))] else [])
    requires MntURL in t.dirs && CleanupClear(base, name, volume)
    ensures var r := CleanUpSpec(t, {}, name, volume);
            r.mounts == base && r.pipe == t.pipe &&
            InfoDirGone(r.dirs, name) && MntURL !in r.dirs && WriteURL(RootURL) !in r.dirs
  {
    Discards(Step(t, {}, Wait).0, base, name, volume);
  }

  /** With nothing refused and nothing mounted in the way, discarding a
      container whose workspace is up removes its directory and its workspace and pops the workspace's
      mounts. */
  lemma Discards(t: HostState, base: seq<Mount>, name: string, volume: string)
    requires t.mounts == base + [UnionMount(RootURL, MntURL)] +
               (if ValidVolume(volume) then [VolumeMount(MntURL, VolumeURLExtract(volume))] else [])
    requires MntURL in t.dirs && CleanupClear(base, name, volume)
    ensures var r := DiscardSpec(t, {}, name, volume);
            r.mounts == base && r.pipe == t.pipe &&
            InfoDirGone(r.dirs, name) && MntURL !in r.dirs && WriteURL(RootURL) !in r.dirs
  {
    CleanupClearMounts(t, base, name, volume);
    Forgets(t, name);
    var u := Step(t, {}, RemoveAll(InfoDir(name))).0;
    TearsDown(u, base, name, volume);
  }

  /** Removing the container's directory keeps the mount point and the
      mounts. */
  lemma Forgets(t: HostState, name: string)
    requires MntURL in t.dirs && !MountedUnder(t.mounts, InfoDir(name))
    ensures var u := Step(t, {}, RemoveAll(InfoDir(name))).0;
            u.mounts == t.mounts && u.pipe == t.pipe && MntURL in u.dirs && InfoDirGone(u.dirs, name)
  {
    InfoApart(name);
    RemoveAllClears(t, {}, InfoDir(name), InfoDir(name));
    RemoveAllClears(t, {}, InfoDir(name), InfoRoot + name);
  }

  /** The workspace teardown, once the mount point is known to be there. */
  lemma TearsDown(u: HostState, base: seq<Mount>, name: string, volume: string)
    requires u.mounts == base + [UnionMount(RootURL, MntURL)] +
               (if ValidVolume(volume) then [VolumeMount(MntURL, VolumeURLExtract(volume))] else [])
    requires MntURL in u.dirs && InfoDirGone(u.dirs, name) && NoMountBelowWorkspace(base)
    ensures var r := Steps(u, {}, DeleteWorkSpaceOps(RootURL, MntURL, volume));
            r.mounts == base && r.pipe == u.pipe &&
            InfoDirGone(r.dirs, name) && MntURL !in r.dirs && WriteURL(RootURL) !in r.dirs
  {
    var teardown := DeleteWorkSpaceOps(RootURL, MntURL, volume);
    TeardownOrder(RootURL, MntURL, volume);
    TeardownPops(u, base, volume);
    TeardownRemoves(u, base, volume);
    assert forall i :: 0 <= i < |teardown| ==> teardown[i].Umount? || teardown[i].RemoveAll?;
    StepsKeepAbsent(u, {}, teardown, InfoDir(name));
    StepsKeepAbsent(u, {}, teardown, InfoRoot + name);
    StepsKeepPipe(u, {}, teardown);
  }

  /** With nothing refused, the init of the container receives exactly the
      command it was given, whether or not a terminal is attached. */
  lemma RunHandsOverCommand(s: HostState, roots: map<string, Path>, tty: bool, volume: string,
                            comArray: seq<string>, res: ResourceConfig, containerName: string,
                            draws: seq<Nibble>, pid: int, now: string)
    requires |comArray| >= 1
    requires forall i :: 0 <= i < |comArray| ==> ' ' !in comArray[i]
    requires RoomToRun(s, tty, containerName, volume, draws)
    ensures var r := RunSpec(s, {}, roots, tty, volume, comArray, res, containerName, draws, pid, now);
            r.0.pipe.Closed? && ReadUserCommand(Some(r.0.pipe.written)) == Some(comArray)
  {
    var launched := NewParentProcessSpec(s, {}, tty, containerName, volume);
    Launches(s, tty, containerName, volume);
    RecordRoom(s, tty, containerName, volume, draws);
    var argv := launched.1.value.argv;
    MiddleKeeps(launched.0, roots, argv, comArray, res, containerName, draws, pid, now);
    var rec := RecordSpec(Step(launched.0, {}, Start(argv)).0, {}, pid, comArray, containerName, draws, now);
    var t := HandOffSpec(ConfigureSpec(rec.0, {}, roots, res, pid), {}, comArray);
    if tty {
      CleanUpKeepsPipe(t, {}, rec.1, volume);
    }
    RunFromLaunched(launched, roots, tty, volume, comArray, res, containerName, draws, pid, now);
    CommandRoundTrip(comArray);
  }

  /** With a terminal, nothing refused and nothing mounted in the way of
      the clean-up, `Run` leaves the mount table as it found it and leaves neither the container's directory, nor the mount
      point, nor the writable layer. */
  lemma TtyRunCleansUp(s: HostState, roots: map<string, Path>, volume: string,
                       comArray: seq<string>, res: ResourceConfig, containerName: string,
                       draws: seq<Nibble>, pid: int, now: string)
    requires RoomToRun(s, true, containerName, volume, draws)
    requires CleanupClear(s.mounts, RecordName(containerName, IdOf(draws)), volume)
    ensures var r := RunSpec(s, {}, roots, true, volume, comArray, res, containerName, draws, pid, now);
            var name := RecordName(containerName, IdOf(draws));
            r.1 == Finished(name) && r.0.mounts == s.mounts &&
            InfoDirGone(r.0.dirs, name) && MntURL !in r.0.dirs && WriteURL(RootURL) !in r.0.dirs
  {
    var launched := NewParentProcessSpec(s, {}, true, containerName, volume);
    Launches(s, true, containerName, volume);
    RecordRoom(s, true, containerName, volume, draws);
    var argv := launched.1.value.argv;
    MiddleKeeps(launched.0, roots, argv, comArray, res, containerName, draws, pid, now);
    var rec := RecordSpec(Step(launched.0, {}, Start(argv)).0, {}, pid, comArray, containerName, draws, now);
    var t := HandOffSpec(ConfigureSpec(rec.0, {}, roots, res, pid), {}, comArray);
    CleansUp(t, s.mounts, rec.1, volume);
    RunFromLaunched(launched, roots, true, volume, comArray, res, containerName, draws, pid, now);
  }

  /** Detached and with nothing refused, `Run` leaves the container's
      directory, the mount point and the workspace's mounts in place for
      the later `stop`, `rm` and `ps`. */
  lemma DetachedRunStays(s: HostState, roots: map<string, Path>, volume: string,
                         comArray: seq<string>, res: ResourceConfig, containerName: string,
                         draws: seq<Nibble>, pid: int, now: string)
    requires RoomToRun(s, false, containerName, volume, draws)
    ensures var r := RunSpec(s, {}, roots, false, volume, comArray, res, containerName, draws, pid, now);
            var name := RecordName(containerName, IdOf(draws));
            r.1 == Finished(name) && InfoDir(name) in r.0.dirs && MntURL in r.0.dirs &&
            r.0.mounts == s.mounts + [UnionMount(RootURL, MntURL)] +
              (if ValidVolume(volume) then [VolumeMount(MntURL, VolumeURLExtract(volume))] else [])
  {
    var launched := NewParentProcessSpec(s, {}, false, containerName, volume);
    Launches(s, false, containerName, volume);
    RecordRoom(s, false, containerName, volume, draws);
    var argv := launched.1.value.argv;
    MiddleKeeps(launched.0, roots, argv, comArray, res, containerName, draws, pid, now);
    var rec := RecordSpec(Step(launched.0, {}, Start(argv)).0, {}, pid, comArray, containerName, draws, now);
    var t := HandOffSpec(ConfigureSpec(rec.0, {}, roots, res, pid), {}, comArray);
    RunFromLaunched(launched, roots, false, volume, comArray, res, containerName, draws, pid, now);
  }
}
