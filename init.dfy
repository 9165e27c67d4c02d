/** The container's `init`: it reads the command its parent sent down the
    pipe, moves the container onto its new root with `pivot_root`, mounts
    `/proc` and `/dev`, and replaces itself with the command. What the pipe
    yields, the working directory and the `$PATH` search are answers of the
    kernel, passed in as parameters. */
module ContainerInit {
  import opened Results
  import opened Strings
  import opened Host

  /** `readUserCommand`, given what reading the pipe to its end gave (`None`
      for a read error): the message split on single spaces. */
  function ReadUserCommand(msg: Option<string>): (r: Option<seq<string>>)
    ensures r.None? <==> msg.None?
    ensures r.Some? ==> |r.value| >= 1 && Join(r.value, [' ']) == msg.value
    ensures r.Some? ==> forall i :: 0 <= i < |r.value| ==> ' ' !in r.value[i]
  {
    match msg
    case None => None
    case Some(m) => Some(Split(m, ' '))
  }

  /** A message never splits into no words, so the empty-array half of the
      guard of `RunContainerInitProcess` never fires: only a read error
      stops it there. */
  lemma ReadCommandNeverEmpty(msg: Option<string>)
    ensures ReadUserCommand(msg) == None || |ReadUserCommand(msg).value| > 0
  {
  }

  const NoCommand: string := "Run container get user command error, cmdArray is nil"

  // ------------------------------------------------------------- pivotRoot

  /** The text `pivotRoot` wraps the error of each of its calls in. */
  function Context(op: Op): string
  {
    match op
    case MakeRPrivate(_) => "mount --make-rprivate /"
    case BindMount(_) => "Mount rootfs to itself error:"
    case Mkdir(_) => "mkdir ./pivot_root"
    case PivotRoot(_, _) => "pivot_root"
    case Chdir(_) => "chdir /"
    case DetachMount(_) => "umount pivot_root dir"
    case Remove(_) => "remove pivot_root dir"
    case _ => ""
  }

  /** The calls `ops` in order, stopping at the first that fails and
      returning its error wrapped in its context. */
  function Attempt(s: HostState, refused: set<Op>, ops: seq<Op>): (r: (HostState, Option<Error>))
    ensures |s.calls| <= |r.0.calls| <= |s.calls| + |ops|
    decreases |ops|
  {
    if ops == [] then (s, None)
    else
      var first := Step(s, refused, ops[0]);
      if !first.1 then (first.0, Some(Wrapped(Context(ops[0]), Failed(ops[0]))))
      else Attempt(first.0, refused, ops[1..])
  }

  /** `Attempt` on a first call and the rest. */
  lemma AttemptCons(s: HostState, refused: set<Op>, a: Op, rest: seq<Op>)
    ensures Attempt(s, refused, [a] + rest) ==
              if Step(s, refused, a).1 then Attempt(Step(s, refused, a).0, refused, rest)
              else (Step(s, refused, a).0, Some(Wrapped(Context(a), Failed(a))))
  {
    assert ([a] + rest)[0] == a && ([a] + rest)[1..] == rest;
  }

  lemma AttemptGoesOn(s: HostState, refused: set<Op>, a: Op, rest: seq<Op>)
    requires Step(s, refused, a).1
    ensures Attempt(s, refused, [a] + rest) == Attempt(Step(s, refused, a).0, refused, rest)
  {
    AttemptCons(s, refused, a, rest);
  }

  lemma AttemptStops(s: HostState, refused: set<Op>, a: Op, rest: seq<Op>)
    requires !Step(s, refused, a).1
    ensures Attempt(s, refused, [a] + rest) == (Step(s, refused, a).0, Some(Wrapped(Context(a), Failed(a))))
  {
    AttemptCons(s, refused, a, rest);
  }

  /** `Attempt` makes a prefix of the calls, one after the other, and
      returns the error of the last one it made, or nothing when it made them
      all. */
  lemma {:induction false} AttemptIsPrefix(s: HostState, refused: set<Op>, ops: seq<Op>)
    ensures var r := Attempt(s, refused, ops);
            var n := |r.0.calls| - |s.calls|;
            r.0 == Steps(s, refused, ops[..n]) &&
            (r.1.None? ==> n == |ops|) &&
            (r.1.Some? ==> n > 0 && r.1.value == Wrapped(Context(ops[n - 1]), Failed(ops[n - 1])))
    decreases |ops|
  {
    if ops != [] {
      var first := Step(s, refused, ops[0]);
      if first.1 {
        var rest := ops[1..];
        AttemptIsPrefix(first.0, refused, rest);
        var after := Attempt(first.0, refused, rest);
        var m := |after.0.calls| - |first.0.calls|;
        PrefixAfterFirst(s, refused, ops, m);
        if m > 0 {
          assert ops[m] == rest[m - 1];
        }
      } else {
        PrefixAfterFirst(s, refused, ops, 0);
      }
    }
  }

  /** The first `m + 1` calls are the first call and then `m` more. */
  lemma PrefixAfterFirst(s: HostState, refused: set<Op>, ops: seq<Op>, m: nat)
    requires m < |ops|
    ensures Steps(s, refused, ops[..m + 1]) == Steps(Step(s, refused, ops[0]).0, refused, ops[1..][..m])
  {
    assert ops[..m + 1] == [ops[0]] + ops[1..][..m];
    StepsCons(s, refused, ops[0], ops[1..][..m]);
  }

  /** Every call but the last that `Attempt` makes succeeds, and the last
      one fails exactly when it returns an error: it stops at the first
      failure. */
  lemma {:induction false} AttemptStopsAtFirstFailure(s: HostState, refused: set<Op>, ops: seq<Op>, i: nat)
    requires i < |Attempt(s, refused, ops).0.calls| - |s.calls|
    ensures var r := Attempt(s, refused, ops);
            var n := |r.0.calls| - |s.calls|;
            Step(Steps(s, refused, ops[..i]), refused, ops[i]).1 <==> i < n - 1 || r.1.None?
    decreases |ops|
  {
    var s1, ok := Step(s, refused, ops[0]).0, Step(s, refused, ops[0]).1;
    var rest := ops[1..];
    if i == 0 {
      assert ops[..0] == [];
      if ok {
        AttemptIsPrefix(s1, refused, rest);
      }
    } else {
      assert ok;
      AttemptStopsAtFirstFailure(s1, refused, rest, i - 1);
      assert ops[..i] == [ops[0]] + rest[..i - 1];
      StepsCons(s, refused, ops[0], rest[..i - 1]);
      assert ops[i] == rest[i - 1];
    }
  }

  /** `Attempt` from the `i`-th call on, when that call succeeds. */
  lemma AttemptSkip(s: HostState, refused: set<Op>, ops: seq<Op>, i: nat)
    requires i < |ops| && Step(s, refused, ops[i]).1
    ensures Attempt(s, refused, ops[i..]) == Attempt(Step(s, refused, ops[i]).0, refused, ops[i + 1..])
  {
    assert ops[i..] == [ops[i]] + ops[i + 1..];
    AttemptCons(s, refused, ops[i], ops[i + 1..]);
  }

  /** The old root is put at `.pivot_root` of the new one. */
  function PivotDir(root: Path): Path
  {
    PathJoin(root, ".pivot_root")
  }

  /** Where the old root is once the root has moved. */
  const OldRoot: Path := "/.pivot_root"

  /** The seven calls of `pivotRoot(root)` (six when `.pivot_root` is
      already there, or when whether it is cannot be told). */
  function PivotOps(s: HostState, refused: set<Op>, root: Path): seq<Op>
  {
    [MakeRPrivate("/"), BindMount(root)] +
    (if StatIn(s, refused, PivotDir(root)).NotExist? then [Mkdir(PivotDir(root))] else []) +
    [PivotRoot(root, PivotDir(root)), Chdir("/"), DetachMount(OldRoot), Remove(OldRoot)]
  }

  /** The directory for the old root is created exactly when it is absent;
      the root is made private and bound onto itself first, and the old root
      is removed last. */
  lemma PivotDirOnlyIfAbsent(s: HostState, refused: set<Op>, root: Path)
    ensures var ops := PivotOps(s, refused, root);
            (Mkdir(PivotDir(root)) in ops <==> StatIn(s, refused, PivotDir(root)).NotExist?) &&
            ops[0] == MakeRPrivate("/") && ops[1] == BindMount(root) &&
            ops[|ops| - 4] == PivotRoot(root, PivotDir(root)) && ops[|ops| - 1] == Remove(OldRoot)
  {
    var ops := PivotOps(s, refused, root);
    var tail := [PivotRoot(root, PivotDir(root)), Chdir("/"), DetachMount(OldRoot), Remove(OldRoot)];
    if StatIn(s, refused, PivotDir(root)).NotExist? {
      assert ops == [MakeRPrivate("/"), BindMount(root), Mkdir(PivotDir(root))] + tail;
    } else {
      assert ops == [MakeRPrivate("/"), BindMount(root)] + tail;
      assert Mkdir(PivotDir(root)) !in tail;
    }
  }

  /** The calls of `PivotOps` by position: `k` is where `pivot_root` comes. */
  lemma PivotOpsAt(s: HostState, refused: set<Op>, root: Path, k: nat)
    requires k == if StatIn(s, refused, PivotDir(root)).NotExist? then 3 else 2
    ensures var ops := PivotOps(s, refused, root);
            |ops| == k + 4 &&
            ops[0] == MakeRPrivate("/") && ops[1] == BindMount(root) &&
            (k == 3 ==> ops[2] == Mkdir(PivotDir(root))) &&
            ops[k] == PivotRoot(root, PivotDir(root)) && ops[k + 1] == Chdir("/") &&
            ops[k + 2] == DetachMount(OldRoot) && ops[k + 3] == Remove(OldRoot)
  {
    var tail := [PivotRoot(root, PivotDir(root)), Chdir("/"), DetachMount(OldRoot), Remove(OldRoot)];
    if k == 3 {
      assert PivotOps(s, refused, root) == [MakeRPrivate("/"), BindMount(root), Mkdir(PivotDir(root))] + tail;
    } else {
      assert PivotOps(s, refused, root) == [MakeRPrivate("/"), BindMount(root)] + tail;
    }
  }

  function PivotRootSpec(s: HostState, refused: set<Op>, root: Path): HostState
  {
    Attempt(s, refused, PivotOps(s, refused, root)).0
  }

  // ------------------------------------------------------------ setupMount

  const ProcMount: Mount := Mount("proc", "noexec,nosuid,nodev", "/proc")
  const DevMount: Mount := Mount("tmpfs", "nosuid,strictatime,mode=755", "/dev")

  /** `setupMount()`, given the answer of `os.Getwd`: nothing without a
      working directory; otherwise the pivot, whose failure is only logged,
      and then `/proc` and `/dev` in any case. */
  function SetupMountSpec(s: HostState, refused: set<Op>, pwd: Option<Path>): (r: HostState)
    ensures pwd.None? ==> r == s
    ensures pwd.Some? ==>
              var p := Attempt(s, refused, PivotOps(s, refused, pwd.value)).0;
              r == Steps(p, refused, [MountFs(ProcMount), MountFs(DevMount)])
  {
    match pwd
    case None => s
    case Some(root) =>
      Steps(PivotRootSpec(s, refused, root), refused, [MountFs(ProcMount), MountFs(DevMount)])
  }

  /** Whatever prefix of the pivot ran, and whether or not it failed, the
      last two calls of `setupMount` mount `/proc` and then `/dev`. */
  lemma SetupMountsLast(s: HostState, refused: set<Op>, root: Path)
    ensures var ops := PivotOps(s, refused, root);
            var p := Attempt(s, refused, ops).0;
            SetupMountSpec(s, refused, Some(root)).calls ==
              s.calls + ops[..|p.calls| - |s.calls|] + [MountFs(ProcMount), MountFs(DevMount)]
  {
    AttemptIsPrefix(s, refused, PivotOps(s, refused, root));
  }

  /** When neither mount is refused and both mount points exist, `setupMount`
      pushes `/proc` and then `/dev` onto the mount table, whatever became
      of the pivot. */
  lemma SetupMountMounts(s: HostState, refused: set<Op>, root: Path)
    requires MountFs(ProcMount) !in refused && MountFs(DevMount) !in refused
    requires ProcMount.target in s.dirs && DevMount.target in s.dirs
    ensures SetupMountSpec(s, refused, Some(root)).mounts == s.mounts + [ProcMount, DevMount]
  {
    var ops := PivotOps(s, refused, root);
    PivotTouchesNoMount(s, refused, root);
    AttemptKeeps(s, refused, ops, ProcMount.target);
    AttemptKeeps(s, refused, ops, DevMount.target);
    var p := Attempt(s, refused, ops).0;
    Steps2(p, refused, MountFs(ProcMount), MountFs(DevMount));
    StepKeepsDir(p, refused, MountFs(ProcMount), DevMount.target);
  }

  /** The pivot's calls neither mount nor unmount nor remove recursively,
      and the only directory they remove is the old root's. */
  lemma PivotTouchesNoMount(s: HostState, refused: set<Op>, root: Path)
    ensures var ops := PivotOps(s, refused, root);
            forall i :: 0 <= i < |ops| ==>
              !ops[i].MountFs? && !ops[i].Umount? && !ops[i].RemoveAll? && (ops[i].Remove? ==> ops[i].path == OldRoot)
  {
    var k := if StatIn(s, refused, PivotDir(root)).NotExist? then 3 else 2;
    PivotOpsAt(s, refused, root, k);
  }

  /** Calls that neither mount, unmount, nor remove `d` keep the mount
      table and the directory `d`, wherever `Attempt` stops. */
  lemma {:induction false} AttemptKeeps(s: HostState, refused: set<Op>, ops: seq<Op>, d: Path)
    requires d in s.dirs && d != OldRoot
    requires forall i :: 0 <= i < |ops| ==>
               !ops[i].MountFs? && !ops[i].Umount? && !ops[i].RemoveAll? && (ops[i].Remove? ==> ops[i].path == OldRoot)
    ensures Attempt(s, refused, ops).0.mounts == s.mounts && d in Attempt(s, refused, ops).0.dirs
    decreases |ops|
  {
    if ops != [] {
      var first := Step(s, refused, ops[0]);
      assert first.0.mounts == s.mounts && d in first.0.dirs;
      assert forall i :: 0 <= i < |ops[1..]| ==> ops[1..][i] == ops[i + 1];
      AttemptKeeps(first.0, refused, ops[1..], d);
    }
  }

  /** With nothing refused, a root whose `.pivot_root` is absent pivots
      without error, provided nothing but the new directory lies below the
      old root's place once it is made (the host's tree is not moved by
      `pivot_root` here, so that emptiness is stated of it). */
  lemma PivotSucceeds(s: HostState, root: Path)
    requires PivotDir(root) !in s.dirs && PivotDir(root) !in s.files
    requires Emptied(s.(dirs := s.dirs + {PivotDir(root)}), OldRoot)
    ensures Attempt(s, {}, PivotOps(s, {}, root)).1 == None
  {
    PivotOpsAt(s, {}, root, 3);
    SevenCallsSucceed(s, PivotOps(s, {}, root));
  }

  /** The shape of `PivotOps` with `.pivot_root` absent: all seven calls
      succeed when nothing is refused. */
  lemma SevenCallsSucceed(s: HostState, ops: seq<Op>)
    requires |ops| == 7 && ops[0].MakeRPrivate? && ops[1].BindMount?
    requires ops[2].Mkdir? && ops[2].path !in s.dirs && ops[2].path !in s.files
    requires RootCall(ops[3]) && RootCall(ops[4]) && RootCall(ops[5]) && RootCall(ops[6])
    requires forall i :: 3 <= i < 7 && ops[i].Remove? ==> Emptied(s.(dirs := s.dirs + {ops[2].path}), ops[i].path)
    ensures Attempt(s, {}, ops).1 == None
  {
    assert ops[0..] == ops;
    var s1 := SkipPropagation(s, ops, 0);
    var s2 := SkipPropagation(s1, ops, 1);
    var s3 := SkipMkdir(s2, ops, 2);
    AttemptRootCallsFrom(s3, ops, 3);
  }

  /** Past a mount-propagation or bind call, which changes no directory. */
  lemma SkipPropagation(s: HostState, ops: seq<Op>, i: nat) returns (t: HostState)
    requires i < |ops| && (ops[i].MakeRPrivate? || ops[i].BindMount?)
    ensures t.dirs == s.dirs && t.files == s.files
    ensures Attempt(s, {}, ops[i..]) == Attempt(t, {}, ops[i + 1..])
  {
    t := Step(s, {}, ops[i]).0;
    AttemptSkip(s, {}, ops, i);
  }

  /** Past the creation of an absent directory. */
  lemma SkipMkdir(s: HostState, ops: seq<Op>, i: nat) returns (t: HostState)
    requires i < |ops| && ops[i].Mkdir? && ops[i].path !in s.dirs && ops[i].path !in s.files
    ensures t.dirs == s.dirs + {ops[i].path} && t.files == s.files
    ensures Attempt(s, {}, ops[i..]) == Attempt(t, {}, ops[i + 1..])
  {
    t := Step(s, {}, ops[i]).0;
    AttemptSkip(s, {}, ops, i);
  }

  /** The last four calls of `ops`, all root calls, succeed when nothing is
      refused. */
  lemma AttemptRootCallsFrom(t: HostState, ops: seq<Op>, k: nat)
    requires |ops| == k + 4
    requires RootCall(ops[k]) && RootCall(ops[k + 1]) && RootCall(ops[k + 2]) && RootCall(ops[k + 3])
    requires forall i :: k <= i < k + 4 && ops[i].Remove? ==> Emptied(t, ops[i].path)
    ensures Attempt(t, {}, ops[k..]).1 == None
  {
    var tail := ops[k..];
    assert tail == [ops[k], ops[k + 1], ops[k + 2], ops[k + 3]];
    AttemptRootCalls(t, {}, tail);
  }

  /** The calls that rearrange the root: the state stands in their way only
      when a directory to remove is not empty. */
  predicate RootCall(op: Op)
  {
    op.MakeRPrivate? || op.BindMount? || op.PivotRoot? || op.Chdir? || op.DetachMount? || op.Remove?
  }

  /** Root calls the kernel does not refuse all succeed when every directory
      they remove is empty. */
  lemma {:induction false} AttemptRootCalls(s: HostState, refused: set<Op>, ops: seq<Op>)
    requires forall i :: 0 <= i < |ops| ==> ops[i] !in refused && RootCall(ops[i])
    requires forall i :: 0 <= i < |ops| && ops[i].Remove? ==> Emptied(s, ops[i].path)
    ensures Attempt(s, refused, ops).1 == None
    decreases |ops|
  {
    if ops != [] {
      var t := Step(s, refused, ops[0]).0;
      assert t.dirs <= s.dirs && t.files.Keys <= s.files.Keys;
      forall i | 0 <= i < |ops[1..]| && ops[1..][i].Remove?
        ensures Emptied(t, ops[1..][i].path)
      {
        assert ops[1..][i] == ops[i + 1];
      }
      AttemptRootCalls(t, refused, ops[1..]);
    }
  }

  // ------------------------------------------------ RunContainerInitProcess

  /** How `RunContainerInitProcess` ends: the process became the command, or
      the function returned. */
  datatype InitEnd = Execed(file: Path, argv: seq<string>) | Returned(err: Option<Error>)

  /** `RunContainerInitProcess()`, given the pipe's message, the working
      directory and the `$PATH` search. */
  function InitSpec(s: HostState, refused: set<Op>, msg: Option<string>, pwd: Option<Path>,
                    lookPath: string -> Option<Path>): (r: (HostState, InitEnd))
    ensures msg.None? ==> r == (s, Returned(Some(Message(NoCommand))))
    ensures r.1.Execed? ==>
              msg.Some? && r.1.argv == Split(msg.value, ' ') && lookPath(r.1.argv[0]) == Some(r.1.file) &&
              r.0 == Step(SetupMountSpec(s, refused, pwd), refused, Exec(r.1.file, r.1.argv)).0
    ensures msg.Some? && lookPath(Split(msg.value, ' ')[0]).None? ==>
              r == (SetupMountSpec(s, refused, pwd), Returned(Some(NotInPath(Split(msg.value, ' ')[0]))))
    ensures r.1 == Returned(None) ==>
              msg.Some? && lookPath(Split(msg.value, ' ')[0]).Some? &&
              Exec(lookPath(Split(msg.value, ' ')[0]).value, Split(msg.value, ' ')) in r.0.calls
  {
    match ReadUserCommand(msg)
    case None => (s, Returned(Some(Message(NoCommand))))
    case Some(cmdArray) =>
      var s1 := SetupMountSpec(s, refused, pwd);
      match lookPath(cmdArray[0])
      case None => (s1, Returned(Some(NotInPath(cmdArray[0]))))
      case Some(file) =>
        var execed := Step(s1, refused, Exec(file, cmdArray));
        assert execed.0.calls[|execed.0.calls| - 1] == Exec(file, cmdArray);
        if execed.1 then (execed.0, Execed(file, cmdArray)) else (execed.0, Returned(None))
  }

  // ------------------------------------------------------------ the methods

  /** `pivotRoot(root)`. */
  method PivotRootSteps(h: Host, root: Path) returns (err: Option<Error>)
    modifies h
    ensures (h.State(), err) == Attempt(old(h.State()), h.refused, PivotOps(old(h.State()), h.refused, root))
  {
    ghost var s0 := h.State();
    ghost var ops := PivotOps(s0, h.refused, root);
    ghost var k := if StatIn(s0, h.refused, PivotDir(root)).NotExist? then 3 else 2;
    PivotOpsAt(s0, h.refused, root, k);
    assert ops[0..] == ops;
    err := Try(h, MakeRPrivate("/"), ops, 0);
    if err.Some? {
      return;
    }
    err := Try(h, BindMount(root), ops, 1);
    if err.Some? {
      return;
    }
    var pivotDir := PathJoin(root, ".pivot_root");
    var st := h.Stat(pivotDir);
    assert st == StatIn(s0, h.refused, pivotDir);
    if st.NotExist? {
      err := Try(h, Mkdir(pivotDir), ops, 2);
      if err.Some? {
        return;
      }
    }
    err := Try(h, PivotRoot(root, pivotDir), ops, k);
    if err.Some? {
      return;
    }
    err := Try(h, Chdir("/"), ops, k + 1);
    if err.Some? {
      return;
    }
    err := Try(h, DetachMount(OldRoot), ops, k + 2);
    if err.Some? {
      return;
    }
    err := Try(h, Remove(OldRoot), ops, k + 3);
  }

  /** One call of `pivotRoot` and its `if err != nil` return: the call is
      `ops[i]`, and `ops[i + 1..]` are still to come. */
  method Try(h: Host, op: Op, ghost ops: seq<Op>, ghost i: nat) returns (err: Option<Error>)
    requires i < |ops| && ops[i] == op
    modifies h
    ensures err == None || err == Some(Wrapped(Context(op), Failed(op)))
    ensures err.Some? ==> (h.State(), err) == Attempt(old(h.State()), h.refused, ops[i..])
    ensures err.None? ==> Attempt(old(h.State()), h.refused, ops[i..]) == Attempt(h.State(), h.refused, ops[i + 1..])
    ensures op.MakeRPrivate? || op.BindMount? ==> h.State() == old(h.State()).(calls := old(h.State()).calls + [op])
  {
    ghost var before := h.State();
    var ok := h.Perform(op);
    assert ops[i..] == [op] + ops[i + 1..];
    AttemptCons(before, h.refused, op, ops[i + 1..]);
    err := if ok then None else Some(Wrapped(Context(op), Failed(op)));
  }

  /** `setupMount()`. */
  method SetupMount(h: Host, pwd: Option<Path>)
    modifies h
    ensures h.State() == SetupMountSpec(old(h.State()), h.refused, pwd)
  {
    if pwd.None? {
      return;
    }
    ghost var s0 := h.State();
    var _ := PivotRootSteps(h, pwd.value);
    ghost var p := h.State();
    var _ := h.Perform(MountFs(ProcMount));
    var _ := h.Perform(MountFs(DevMount));
    Steps2(p, h.refused, MountFs(ProcMount), MountFs(DevMount));
  }

  /** `RunContainerInitProcess()`. */
  method RunContainerInitProcess(h: Host, msg: Option<string>, pwd: Option<Path>,
                                 lookPath: string -> Option<Path>) returns (end: InitEnd)
    modifies h
    ensures (h.State(), end) == InitSpec(old(h.State()), h.refused, msg, pwd, lookPath)
  {
    var cmdArray := ReadUserCommand(msg);
    if cmdArray.None? || |cmdArray.value| == 0 {
      return Returned(Some(Message(NoCommand)));
    }
    SetupMount(h, pwd);
    var file := lookPath(cmdArray.value[0]);
    if file.None? {
      return Returned(Some(NotInPath(cmdArray.value[0])));
    }
    var ok := h.Perform(Exec(file.value, cmdArray.value[0..]));
    assert cmdArray.value[0..] == cmdArray.value;
    if ok {
      return Execed(file.value, cmdArray.value);
    }
    return Returned(None);
  }
}
