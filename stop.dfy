/** `mydocker stop` and `mydocker rm`: the two transitions of a record after
    `run`. Stopping signals the container's process and rewrites its record
    as stopped with a blank pid; removing is allowed only for a stopped
    record, and discards the record and the workspace. */
module Stop {
  import opened Results
  import opened Strings
  import opened Records
  import opened Host
  import opened ContainerProcess
  import opened Run
  import opened Exec

  /** `getContainerInfoByName(name)`: the record in the container's
      directory, or why it cannot be had. */
  function InfoByName(s: HostState, refused: set<Op>, containerName: string): Result<Info, Error>
  {
    ReadRecordIn(s, refused, RecordPath(containerName))
  }

  /** The two look-ups of the same file agree: the pid `exec` and `stop`
      find is the pid of the record `rm` finds. */
  lemma LookupsAgree(s: HostState, refused: set<Op>, containerName: string)
    ensures var info := InfoByName(s, refused, containerName);
            var pid := PidByName(s, refused, containerName);
            (pid.Ok? <==> info.Ok?) &&
            (pid.Ok? ==> pid.value == info.value.pid) &&
            (pid.Err? ==> pid.error == info.error)
  {
  }

  method GetContainerInfoByName(h: Host, containerName: string) returns (r: Result<Info, Error>)
    ensures r == InfoByName(h.State(), h.refused, containerName)
  {
    var configFileDir := InfoDir(containerName);
    var configFilePath := PathJoin(configFileDir, ConfigName);
    var content := h.ReadFile(configFilePath);
    if content.Err? {
      return Err(content.error);
    }
    var containerInfo := Unmarshal(content.value);
    if containerInfo.None? {
      return Err(Undecodable(configFilePath));
    }
    return Ok(containerInfo.value);
  }

  /** A record as `stop` rewrites it: stopped, with a blank pid, and with
      every other field as it was. */
  function StoppedRecord(info: Info): (r: Info)
    ensures r.status == Stopped && r.pid == BlankPid
    ensures r.id == info.id && r.name == info.name && r.command == info.command &&
            r.creationTime == info.creationTime
  {
    info.(status := Stopped, pid := BlankPid)
  }

  /** Where `stopContainer` gave up, or whether its final write went
      through; the function itself returns nothing and only logs. */
  datatype StopEnd =
    | NoRecord(error: Error)   // the pid could not be looked up
    | NotAPid(pid: string)     // the pid is no decimal integer
    | KillFailed(signalled: int)
    | RecordLost(error: Error) // the record could not be read after the signal
    | Rewritten(written: bool)

  /** `stopContainer(name)`. */
  function StopSpec(s: HostState, refused: set<Op>, containerName: string): (HostState, StopEnd)
  {
    match PidByName(s, refused, containerName)
    case Err(e) => (s, NoRecord(e))
    case Ok(pid) =>
      match Atoi(pid)
      case None => (s, NotAPid(pid))
      case Some(n) =>
        var killed := Step(s, refused, Kill(n));
        if !killed.1 then (killed.0, KillFailed(n))
        else
          match InfoByName(killed.0, refused, containerName)
          case Err(e) => (killed.0, RecordLost(e))
          case Ok(info) =>
            var written := Step(killed.0, refused, WriteFile(RecordPath(containerName), Marshal(StoppedRecord(info))));
            (written.0, Rewritten(written.1))
  }

  method StopContainer(h: Host, containerName: string) returns (end: StopEnd)
    modifies h
    ensures (h.State(), end) == StopSpec(old(h.State()), h.refused, containerName)
  {
    var pid, err := GetContainerPidByName(h, containerName);
    if err.Some? {
      return NoRecord(err.value);
    }
    var intPid := Atoi(pid);
    if intPid.None? {
      return NotAPid(pid);
    }
    var killed := h.Perform(Kill(intPid.value));
    if !killed {
      return KillFailed(intPid.value);
    }
    var containerInfo := GetContainerInfoByName(h, containerName);
    if containerInfo.Err? {
      return RecordLost(containerInfo.error);
    }
    var info := containerInfo.value.(status := Stopped);
    info := info.(pid := BlankPid);
    var saveDirURL := InfoDir(containerName);
    var saveFileName := PathJoin(saveDirURL, ConfigName);
    var written := h.Perform(WriteFile(saveFileName, Marshal(info)));
    return Rewritten(written);
  }

  /** Unless its final write goes through, `stop` changes no file, no
      directory, no mount and no variable; before the signal it changes
      nothing at all. */
  lemma StopFailureKeepsRecord(s: HostState, refused: set<Op>, containerName: string)
    ensures var r := StopSpec(s, refused, containerName);
            (r.1.NoRecord? || r.1.NotAPid? ==> r.0 == s) &&
            (r.1 != Rewritten(true) ==>
               r.0.files == s.files && r.0.dirs == s.dirs && r.0.mounts == s.mounts &&
               r.0.env == s.env && r.0.pipe == s.pipe)
  {
  }

  /** A stop that goes through signals the pid of the record and leaves in
      the record file the stopped form of the record that was there, and no
      other file changed. */
  lemma StopRewritesRecord(s: HostState, refused: set<Op>, containerName: string)
    ensures var r := StopSpec(s, refused, containerName);
            var info := InfoByName(s, refused, containerName);
            r.1 == Rewritten(true) ==>
              info.Ok? && Atoi(info.value.pid).Some? &&
              Kill(Atoi(info.value.pid).value) in r.0.calls &&
              r.0.files == s.files[RecordPath(containerName) := Marshal(StoppedRecord(info.value))] &&
              InfoByName(r.0, refused, containerName) == Ok(StoppedRecord(info.value))
  {
    var r := StopSpec(s, refused, containerName);
    var info := InfoByName(s, refused, containerName);
    LookupsAgree(s, refused, containerName);
    if r.1 == Rewritten(true) {
      var n := Atoi(info.value.pid).value;
      var killed := Step(s, refused, Kill(n));
      assert killed.1 && killed.0.files == s.files;
      assert InfoByName(killed.0, refused, containerName) == info;
      var stopped := StoppedRecord(info.value);
      var p := RecordPath(containerName);
      assert r.0 == Step(killed.0, refused, WriteFile(p, Marshal(stopped))).0;
      WrittenRecordReads(killed.0, refused, p, stopped);
    }
  }

  /** With nothing refused, a record with a numeric pid is always
      stopped on a coherent host, where the record file is no directory. */
  lemma StopGoesThrough(s: HostState, containerName: string)
    requires Coherent(s)
    requires InfoByName(s, {}, containerName).Ok?
    requires Atoi(InfoByName(s, {}, containerName).value.pid).Some?
    ensures StopSpec(s, {}, containerName).1 == Rewritten(true)
  {
    LookupsAgree(s, {}, containerName);
    var info := InfoByName(s, {}, containerName).value;
    var n := Atoi(info.pid).value;
    StepKill(s, {}, n);
    var killed := Step(s, {}, Kill(n)).0;
    assert killed.files == s.files;
    assert InfoByName(killed, {}, containerName) == Ok(info);
    StepWriteFile(killed, {}, RecordPath(containerName), Marshal(StoppedRecord(info)));
  }

  /** Stopping a stopped container does nothing: its blank pid is no
      integer, so nothing is signalled and nothing rewritten. */
  lemma StopStoppedDoesNothing(s: HostState, refused: set<Op>, containerName: string)
    requires InfoByName(s, refused, containerName).Ok?
    requires InfoByName(s, refused, containerName).value.pid == BlankPid
    ensures StopSpec(s, refused, containerName) == (s, NotAPid(BlankPid))
  {
    LookupsAgree(s, refused, containerName);
    assert ' ' in BlankPid;
  }

  /** A second `stop` after one that went through does nothing. */
  lemma StopTwice(s: HostState, refused: set<Op>, containerName: string)
    requires StopSpec(s, refused, containerName).1 == Rewritten(true)
    ensures var t := StopSpec(s, refused, containerName).0;
            StopSpec(t, refused, containerName) == (t, NotAPid(BlankPid))
  {
    StopRewritesRecord(s, refused, containerName);
    var t := StopSpec(s, refused, containerName).0;
    StopStoppedDoesNothing(t, refused, containerName);
  }

  /** Where `removeContainer` gave up; it returns nothing and only logs. */
  datatype RemoveEnd = NotLoaded(error: Error) | StillRunning(status: string) | Removed

  /** `removeContainer(name, volume)`. */
  function RemoveContainerSpec(s: HostState, refused: set<Op>, containerName: string, volume: string)
    : (HostState, RemoveEnd)
  {
    match InfoByName(s, refused, containerName)
    case Err(e) => (s, NotLoaded(e))
    case Ok(info) =>
      if info.status != Stopped then (s, StillRunning(info.status))
      else (DiscardSpec(s, refused, containerName, volume), Removed)
  }

  method RemoveContainer(h: Host, containerName: string, volume: string) returns (end: RemoveEnd)
    modifies h
    ensures (h.State(), end) == RemoveContainerSpec(old(h.State()), h.refused, containerName, volume)
  {
    var containerInfo := GetContainerInfoByName(h, containerName);
    if containerInfo.Err? {
      return NotLoaded(containerInfo.error);
    }
    if containerInfo.value.status != Stopped {
      return StillRunning(containerInfo.value.status);
    }
    DeleteContainerInfo(h, containerName);
    var mntURL := "/root/mnt/";
    var rootURL := "/root/";
    var st := h.Stat(mntURL);
    if !st.NotExist? {
      DeleteWorkSpace(h, rootURL, mntURL, volume);
    }
    return Removed;
  }

  /** `rm` goes ahead exactly when the record can be loaded and says
      stopped; otherwise it changes nothing at all. */
  lemma RemoveGuard(s: HostState, refused: set<Op>, containerName: string, volume: string)
    ensures var r := RemoveContainerSpec(s, refused, containerName, volume);
            var info := InfoByName(s, refused, containerName);
            (r.1 == Removed <==> info.Ok? && info.value.status == Stopped) &&
            (r.1.NotLoaded? <==> info.Err?) &&
            (r.1 != Removed ==> r.0 == s)
  {
  }

  /** Once `rm` went ahead and the directory, with nothing mounted below
      it, could be removed, the record is gone: a later look-up finds nothing. */
  lemma RemoveForgets(s: HostState, refused: set<Op>, containerName: string, volume: string)
    requires IsEntryName(containerName)
    requires RemoveAll(InfoDir(containerName)) !in refused && !MountedUnder(s.mounts, InfoDir(containerName))
    ensures var r := RemoveContainerSpec(s, refused, containerName, volume);
            r.1 == Removed ==>
              InfoDirGone(r.0.dirs, containerName) && InfoByName(r.0, refused, containerName).Err?
  {
    DiscardForgets(s, refused, containerName, volume);
  }

  lemma DiscardForgets(s: HostState, refused: set<Op>, containerName: string, volume: string)
    requires IsEntryName(containerName)
    requires RemoveAll(InfoDir(containerName)) !in refused && !MountedUnder(s.mounts, InfoDir(containerName))
    ensures var r := DiscardSpec(s, refused, containerName, volume);
            InfoDirGone(r.dirs, containerName) && RecordPath(containerName) !in r.files
  {
    DeleteRemovesRecord(s, refused, containerName);
    var s1 := Step(s, refused, RemoveAll(InfoDir(containerName))).0;
    TeardownKeepsAbsent(s1, refused, volume, InfoDir(containerName), RecordPath(containerName));
    TeardownKeepsAbsent(s1, refused, volume, InfoRoot + containerName, RecordPath(containerName));
  }

  /** The teardown makes no directory and writes no file. */
  lemma TeardownKeepsAbsent(t: HostState, refused: set<Op>, volume: string, d: Path, f: Path)
    requires d !in t.dirs && f !in t.files
    ensures var r := Steps(t, refused, DeleteWorkSpaceOps(RootURL, MntURL, volume));
            d !in r.dirs && f !in r.files
  {
    var teardown := DeleteWorkSpaceOps(RootURL, MntURL, volume);
    TeardownOnlyRemoves(volume);
    StepsKeepAbsent(t, refused, teardown, d);
    StepsKeepFileAbsent(t, refused, teardown, f);
  }

  lemma TeardownOnlyRemoves(volume: string)
    ensures var teardown := DeleteWorkSpaceOps(RootURL, MntURL, volume);
            forall i :: 0 <= i < |teardown| ==> teardown[i].Umount? || teardown[i].RemoveAll?
  {
    TeardownOrder(RootURL, MntURL, volume);
  }

  /** With nothing refused and nothing mounted in the way, removing a
      stopped container whose workspace is up pops the workspace's mounts and removes the container's
      directory, the mount point and the writable layer. */
  lemma RemoveTearsDown(s: HostState, base: seq<Mount>, containerName: string, volume: string)
    requires InfoByName(s, {}, containerName).Ok?
    requires InfoByName(s, {}, containerName).value.status == Stopped
    requires s.mounts == base + [UnionMount(RootURL, MntURL)] +
               (if ValidVolume(volume) then [VolumeMount(MntURL, VolumeURLExtract(volume))] else [])
    requires MntURL in s.dirs && CleanupClear(base, containerName, volume)
    ensures var r := RemoveContainerSpec(s, {}, containerName, volume);
            r.1 == Removed && r.0.mounts == base &&
            InfoDirGone(r.0.dirs, containerName) && MntURL !in r.0.dirs && WriteURL(RootURL) !in r.0.dirs
  {
    Discards(s, base, containerName, volume);
  }

  /** The record `run` writes says running, so `rm` of a container just run
      refuses and changes nothing. */
  lemma RemoveAfterRunRefuses(s: HostState, refused: set<Op>, pid: int, commandArray: seq<string>,
                              containerName: string, draws: seq<Nibble>, now: string, volume: string)
    requires ReadFile(RecordPath(RecordName(containerName, IdOf(draws)))) !in refused
    ensures var rec := RecordSpec(s, refused, pid, commandArray, containerName, draws, now);
            rec.2.None? ==>
              InfoByName(rec.0, refused, rec.1) == Ok(NewRecord(pid, commandArray, rec.1, IdOf(draws), now)) &&
              RemoveContainerSpec(rec.0, refused, rec.1, volume) == (rec.0, StillRunning(Running))
  {
    RecordWritesRecord(s, refused, pid, commandArray, containerName, draws, now);
  }

  /** A container that `stop` went through for can then be removed. */
  lemma RemoveAfterStop(s: HostState, refused: set<Op>, containerName: string, volume: string)
    requires StopSpec(s, refused, containerName).1 == Rewritten(true)
    ensures RemoveContainerSpec(StopSpec(s, refused, containerName).0, refused, containerName, volume).1 == Removed
  {
    StopRewritesRecord(s, refused, containerName);
  }

  /** `rm` is told of no volume, so for a container run with a volume inside
      the mount point it leaves both the union mount and the volume's mount
      in the table, and the mount point on the host: the volume's mount
      keeps the mount point busy. */
  lemma RemoveKeepsVolumeMounts(s: HostState, refused: set<Op>, base: seq<Mount>, containerName: string, volume: string)
    requires VolumeInside(volume)
    requires s.mounts == base + [UnionMount(RootURL, MntURL), VolumeMount(MntURL, VolumeURLExtract(volume))]
    ensures RemoveContainerSpec(s, refused, containerName, "").0.mounts == s.mounts
    ensures MntURL in s.dirs ==> MntURL in RemoveContainerSpec(s, refused, containerName, "").0.dirs
  {
    var s1 := Step(s, refused, RemoveAll(InfoDir(containerName))).0;
    StepRemoveAll(s, refused, InfoDir(containerName));
    InfoApart(containerName);
    if MntURL in s.dirs {
      RemoveAllKeeps(s, refused, InfoDir(containerName), MntURL);
    }
    TeardownWithoutVolumeKeepsMounts(s1, refused, base, volume);
  }
}
