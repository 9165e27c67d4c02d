/** The container workspace and the parent side of container creation: the
    union file system made of a shared read-only image layer
    (`<root>/busybox`, extracted once from `<root>/busybox.tar`), a writable
    layer (`<root>/writeLayer`), their aufs mount on the mount point, an
    optional `host:container` volume bound into it, the teardown of all of
    that, and the configuration of the process that re-executes the engine as
    the container's init. Every step's failure is only logged, so each
    operation is a fixed sequence of host calls, except that the image is
    extracted only when it appears to be missing. */
module ContainerProcess {
  import opened Results
  import opened Strings
  import opened Records
  import opened Host

  const RootURL: Path := "/root/"
  const MntURL: Path := "/root/mnt/"

  function BusyboxURL(rootURL: Path): Path { PathJoin(rootURL, "busybox") }
  function BusyboxTarURL(rootURL: Path): Path { PathJoin(rootURL, "busybox.tar") }
  function WriteURL(rootURL: Path): Path { PathJoin(rootURL, "writeLayer") }

  /** `PathExists(path)`: true when the path is there; false with no error
      when it is not; false with the error when the answer is unknown. */
  function PathExists(s: HostState, refused: set<Op>, p: Path): (r: (bool, Option<Error>))
    ensures r.0 <==> StatIn(s, refused, p).Exists?
    ensures r.1.Some? <==> Stat(p) in refused
    ensures !r.0 && r.1.None? <==> p !in s.dirs && p !in s.files && Stat(p) !in refused
  {
    match StatIn(s, refused, p)
    case Exists => (true, None)
    case NotExist => (false, None)
    case StatError(e) => (false, Some(e))
  }

  // ------------------------------------------------------------ the volume

  /** `volumeURLExtract(volume)`. */
  function VolumeURLExtract(volume: string): seq<string>
  {
    Split(volume, ':')
  }

  /** The test both `NewWorkSpace` and `DeleteWorkSpace` apply to the volume
      option. */
  predicate ValidVolume(volume: string)
  {
    var v := VolumeURLExtract(volume);
    volume != "" && |v| == 2 && v[0] != "" && v[1] != ""
  }

  /** Two non-empty names without a colon make a valid volume, and split back
      into the two names. */
  lemma VolumeOfPair(host: string, inner: string)
    requires host != "" && inner != "" && ':' !in host && ':' !in inner
    ensures ValidVolume(host + ":" + inner)
    ensures VolumeURLExtract(host + ":" + inner) == [host, inner]
  {
    assert Join([host, inner], [':']) == host + ":" + inner;
    SplitJoin([host, inner], ':');
  }

  /** Every valid volume is such a pair. */
  lemma ValidVolumeIsPair(volume: string)
    requires ValidVolume(volume)
    ensures var v := VolumeURLExtract(volume);
            volume == v[0] + ":" + v[1] && ':' !in v[0] && ':' !in v[1]
  {
    var v := VolumeURLExtract(volume);
    assert v[1..] == [v[1]];
  }

  /** `path.Join(mntURL, volumeURLs[1])`: where the volume appears inside. */
  function ContainerVolumeURL(mntURL: Path, volumeURLs: seq<string>): Path
    requires |volumeURLs| >= 2
  {
    PathJoin(mntURL, volumeURLs[1])
  }

  /** The volume's directory in the container lies inside the mount point.
      `path.Join` cleans `..` away, so an inner path that climbs out makes
      and mounts a directory elsewhere on the host. */
  predicate VolumeInside(volume: string)
  {
    ValidVolume(volume) && Under(ContainerVolumeURL(MntURL, VolumeURLExtract(volume)), MntURL)
  }

  /** An inner path made of plain names lies inside the mount point, spelt
      as it is written. */
  lemma PlainVolumeInside(host: string, names: seq<string>)
    requires host != "" && ':' !in host
    requires |names| >= 1 && forall i :: 0 <= i < |names| ==> IsName(names[i]) && ':' !in names[i]
    ensures VolumeInside(host + ":" + Join(names, "/"))
    ensures ContainerVolumeURL(MntURL, VolumeURLExtract(host + ":" + Join(names, "/"))) == MntURL + Join(names, "/")
  {
    var inner := Join(names, "/");
    InnerPlain(names);
    VolumeOfPair(host, inner);
    MntDirOf();
    JoinNames(MntNames, names);
    assert ContainerVolumeURL(MntURL, [host, inner]) == PathJoin(MntURL, inner);
  }

  const MntNames: seq<string> := ["root", "mnt"]

  lemma MntDirOf()
    ensures MntURL == DirOf(MntNames)
    ensures forall i :: 0 <= i < |MntNames| ==> IsName(MntNames[i])
  {
    assert MntNames[..1] == ["root"] && ["root"][..0] == [];
  }

  lemma InnerPlain(names: seq<string>)
    requires |names| >= 1 && forall i :: 0 <= i < |names| ==> IsName(names[i]) && ':' !in names[i]
    ensures Join(names, "/") != "" && ':' !in Join(names, "/")
  {
    JoinAvoids(names, "/", ':');
    if |names| > 1 { assert Join(names, "/") == names[0] + "/" + Join(names[1..], "/"); }
  }

  /** `-v /h:../../x` climbs out of the mount point: the directory made and
      mounted in the container is the host's `/x`. */
  lemma VolumeEscapes()
    ensures ValidVolume("/h:../../x")
    ensures ContainerVolumeURL(MntURL, VolumeURLExtract("/h:../../x")) == "/x"
    ensures !VolumeInside("/h:../../x")
  {
    EscapingPair();
    ClimbTarget();
    assert Slashed(MntURL) == MntURL;
  }

  lemma EscapingPair()
    ensures ValidVolume("/h:../../x") && VolumeURLExtract("/h:../../x") == ["/h", "../../x"]
  {
    VolumeOfPair("/h", "../../x");
    assert "/h" + ":" + "../../x" == "/h:../../x";
  }

  lemma ClimbTarget()
    ensures PathJoin(MntURL, "../../x") == "/x"
  {
    var climb := ["..", "..", "x"];
    var parts := [""] + MntNames + [""] + climb;
    ClimbJoined();
    JoinedElements(MntNames, climb);
    MntDirOf();
    SplitJoin(parts, '/');
    ClimbResolves();
    var joined := MntURL + "/" + "../../x";
    assert Split(joined, '/') == parts;
    assert joined[0] == '/';
    assert Clean(joined) == "/" + Join(["x"], "/");
    assert Join(["x"], "/") == "x";
  }

  lemma ClimbJoined()
    ensures Join(["..", "..", "x"], "/") == "../../x"
    ensures forall i :: 0 <= i < |[""] + MntNames + [""] + ["..", "..", "x"]| ==>
              '/' !in ([""] + MntNames + [""] + ["..", "..", "x"])[i]
  {
    assert ["..", "..", "x"][1..] == ["..", "x"] && ["..", "x"][1..] == ["x"];
  }

  lemma ClimbResolves()
    ensures Resolve([], [""] + MntNames + [""] + ["..", "..", "x"], true) == ["x"]
  {
    MntDirOf();
    ResolveAppend([], [""] + MntNames + [""], ["..", "..", "x"], true);
    ResolveDir(MntNames, []);
    assert [""] + MntNames + [""] + [] == [""] + MntNames + [""];
    var st := MntNames;
    assert Resolve(st, ["..", "..", "x"], true) == Resolve(["root"], ["..", "x"], true) by {
      assert ["..", "..", "x"][1..] == ["..", "x"];
      assert st[..1] == ["root"];
    }
    assert Resolve(["root"], ["..", "x"], true) == Resolve([], ["x"], true) by {
      assert ["..", "x"][1..] == ["x"];
      assert ["root"][..0] == [];
    }
    assert Resolve([], ["x"], true) == ["x"] by {
      assert ["x"][1..] == [];
      assert [] + ["x"] == ["x"];
    }
  }

  /** A volume directory that lies outside the mount point and the writable
      layer survives the teardown, whatever fails: only its mount goes. */
  lemma EscapedVolumeStays(s: HostState, refused: set<Op>, volume: string)
    requires ValidVolume(volume)
    requires var d := ContainerVolumeURL(MntURL, VolumeURLExtract(volume));
             d in s.dirs && !Under(d, MntURL) && !Under(d, WriteURL(RootURL))
    ensures ContainerVolumeURL(MntURL, VolumeURLExtract(volume)) in
              Steps(s, refused, DeleteWorkSpaceOps(RootURL, MntURL, volume)).dirs
  {
    var d := ContainerVolumeURL(MntURL, VolumeURLExtract(volume));
    var ops := DeleteWorkSpaceOps(RootURL, MntURL, volume);
    TeardownOrder(RootURL, MntURL, volume);
    assert ops == [Umount(d), Umount(MntURL), RemoveAll(MntURL), RemoveAll(WriteURL(RootURL))];
    forall i | 0 <= i < |ops| && ops[i].RemoveAll?
      ensures !Under(d, ops[i].path)
    {
      assert i == 2 || i == 3;
    }
    StepsKeepDir(s, refused, ops, d);
  }

  /** The host's `/x`, where `-v /h:../../x` lands, lies outside both
      layers, so that volume's directory outlives the teardown. */
  lemma EscapeOutsideLayers()
    ensures !Under("/x", MntURL) && !Under("/x", WriteURL(RootURL))
  {
    RootPaths();
    assert Slashed(MntURL) == MntURL;
    assert ("/x")[1] == 'x';
  }

  // ------------------------------------------------------------ the calls

  /** The calls of `CreateReadOnlyLayer`: nothing when the image is there;
      otherwise (also when the check itself failed) create the directory and
      extract the archive into it. */
  function ReadOnlyLayerOps(s: HostState, refused: set<Op>, rootURL: Path): seq<Op>
  {
    if PathExists(s, refused, BusyboxURL(rootURL)).0 then []
    else [Mkdir(BusyboxURL(rootURL)), Untar(BusyboxTarURL(rootURL), BusyboxURL(rootURL))]
  }

  function WriteLayerOps(rootURL: Path): seq<Op>
  {
    [Mkdir(WriteURL(rootURL))]
  }

  /** The aufs mount of the two layers; the option string is built by plain
      concatenation. */
  function UnionMount(rootURL: Path, mntURL: Path): Mount
  {
    Mount("aufs", "dirs=" + rootURL + "writeLayer:" + rootURL + "busybox", mntURL)
  }

  function MountPointOps(rootURL: Path, mntURL: Path): seq<Op>
  {
    [Mkdir(mntURL), MountFs(UnionMount(rootURL, mntURL))]
  }

  function VolumeMount(mntURL: Path, volumeURLs: seq<string>): Mount
    requires |volumeURLs| >= 2
  {
    Mount("aufs", "dirs=" + volumeURLs[0], ContainerVolumeURL(mntURL, volumeURLs))
  }

  function MountVolumeOps(mntURL: Path, volumeURLs: seq<string>): seq<Op>
    requires |volumeURLs| >= 2
  {
    [Mkdir(volumeURLs[0]), Mkdir(ContainerVolumeURL(mntURL, volumeURLs)), MountFs(VolumeMount(mntURL, volumeURLs))]
  }

  /** The calls of `NewWorkSpace`: image, writable layer, union mount, then
      the volume when the option is valid. */
  function NewWorkSpaceOps(s: HostState, refused: set<Op>, rootURL: Path, mntURL: Path, volume: string): seq<Op>
  {
    ReadOnlyLayerOps(s, refused, rootURL) + WriteLayerOps(rootURL) + MountPointOps(rootURL, mntURL) +
    VolumeOps(mntURL, volume)
  }

  /** The volume's part of `NewWorkSpace`. */
  function VolumeOps(mntURL: Path, volume: string): seq<Op>
  {
    if ValidVolume(volume) then MountVolumeOps(mntURL, VolumeURLExtract(volume)) else []
  }

  /** `umount` is followed by the removal whether or not it worked. */
  function DeleteMountPointOps(mntURL: Path): seq<Op>
  {
    [Umount(mntURL), RemoveAll(mntURL)]
  }

  function DeleteMountPointWithVolumeOps(mntURL: Path, volumeURLs: seq<string>): seq<Op>
    requires |volumeURLs| >= 2
  {
    [Umount(ContainerVolumeURL(mntURL, volumeURLs))] + DeleteMountPointOps(mntURL)
  }

  function DeleteWriteLayerOps(rootURL: Path): seq<Op>
  {
    [RemoveAll(WriteURL(rootURL))]
  }

  /** The calls of `DeleteWorkSpace`. */
  function DeleteWorkSpaceOps(rootURL: Path, mntURL: Path, volume: string): seq<Op>
  {
    (if ValidVolume(volume) then DeleteMountPointWithVolumeOps(mntURL, VolumeURLExtract(volume))
     else DeleteMountPointOps(mntURL)) +
    DeleteWriteLayerOps(rootURL)
  }

  // ---------------------------------------------------------- the methods

  /** `CreateReadOnlyLayer(rootURL)`. */
  method CreateReadOnlyLayer(h: Host, rootURL: Path)
    modifies h
    ensures h.State() == Steps(old(h.State()), h.refused, ReadOnlyLayerOps(old(h.State()), h.refused, rootURL))
  {
    ghost var s0 := h.State();
    var busyboxURL := PathJoin(rootURL, "busybox");
    var busyboxTarURL := PathJoin(rootURL, "busybox.tar");
    var exist, err := PathExists(h.State(), h.refused, busyboxURL).0, PathExists(h.State(), h.refused, busyboxURL).1;
    if !exist {
      var _ := h.Perform(Mkdir(busyboxURL));
      var _ := h.Perform(Untar(busyboxTarURL, busyboxURL));
      StepsSnoc(s0, h.refused, [], Mkdir(busyboxURL));
      StepsSnoc(s0, h.refused, [Mkdir(busyboxURL)], Untar(busyboxTarURL, busyboxURL));
    }
  }

  /** `CreateWriteLayer(rootURL)`. */
  method CreateWriteLayer(h: Host, rootURL: Path)
    modifies h
    ensures h.State() == Steps(old(h.State()), h.refused, WriteLayerOps(rootURL))
  {
    ghost var s0 := h.State();
    var writeURL := PathJoin(rootURL, "writeLayer");
    var _ := h.Perform(Mkdir(writeURL));
    StepsSnoc(s0, h.refused, [], Mkdir(writeURL));
  }

  /** `CreateMountPoint(rootURL, mntURL)`. */
  method CreateMountPoint(h: Host, rootURL: Path, mntURL: Path)
    modifies h
    ensures h.State() == Steps(old(h.State()), h.refused, MountPointOps(rootURL, mntURL))
  {
    ghost var s0 := h.State();
    var _ := h.Perform(Mkdir(mntURL));
    var dirs := "dirs=" + rootURL + "writeLayer:" + rootURL + "busybox";
    var _ := h.Perform(MountFs(Mount("aufs", dirs, mntURL)));
    StepsSnoc(s0, h.refused, [], Mkdir(mntURL));
    StepsSnoc(s0, h.refused, [Mkdir(mntURL)], MountFs(UnionMount(rootURL, mntURL)));
  }

  /** `MountVolume(mntURL, volumeURLs)`. */
  method MountVolume(h: Host, mntURL: Path, volumeURLs: seq<string>)
    requires |volumeURLs| >= 2
    modifies h
    ensures h.State() == Steps(old(h.State()), h.refused, MountVolumeOps(mntURL, volumeURLs))
  {
    ghost var s0 := h.State();
    var parentURL := volumeURLs[0];
    var _ := h.Perform(Mkdir(parentURL));
    var containerVolumeURL := PathJoin(mntURL, volumeURLs[1]);
    var _ := h.Perform(Mkdir(containerVolumeURL));
    var dirs := "dirs=" + parentURL;
    var _ := h.Perform(MountFs(Mount("aufs", dirs, containerVolumeURL)));
    ghost var a, b, c := Mkdir(parentURL), Mkdir(containerVolumeURL), MountFs(Mount("aufs", dirs, containerVolumeURL));
    assert MountVolumeOps(mntURL, volumeURLs) == [a, b, c];
    Steps3(s0, h.refused, a, b, c);
    Steps2(s0, h.refused, a, b);
  }

  /** `NewWorkSpace(rootURL, mntURL, volume)`. */
  method NewWorkSpace(h: Host, rootURL: Path, mntURL: Path, volume: string)
    modifies h
    ensures h.State() == Steps(old(h.State()), h.refused, NewWorkSpaceOps(old(h.State()), h.refused, rootURL, mntURL, volume))
  {
    ghost var s0 := h.State();
    ghost var a := ReadOnlyLayerOps(s0, h.refused, rootURL);
    CreateReadOnlyLayer(h, rootURL);
    CreateWriteLayer(h, rootURL);
    StepsAppend(s0, h.refused, a, WriteLayerOps(rootURL));
    CreateMountPoint(h, rootURL, mntURL);
    StepsAppend(s0, h.refused, a + WriteLayerOps(rootURL), MountPointOps(rootURL, mntURL));
    ghost var done := a + WriteLayerOps(rootURL) + MountPointOps(rootURL, mntURL);
    if volume != "" {
      var volumeURLs := VolumeURLExtract(volume);
      var length := |volumeURLs|;
      if length == 2 && volumeURLs[0] != "" && volumeURLs[1] != "" {
        MountVolume(h, mntURL, volumeURLs);
        StepsAppend(s0, h.refused, done, MountVolumeOps(mntURL, volumeURLs));
        return;
      }
    }
    assert done + [] == done;
  }

  /** `DeleteMountPoint(mntURL)`. */
  method DeleteMountPoint(h: Host, mntURL: Path)
    modifies h
    ensures h.State() == Steps(old(h.State()), h.refused, DeleteMountPointOps(mntURL))
  {
    ghost var s0 := h.State();
    var _ := h.Perform(Umount(mntURL));
    var _ := h.Perform(RemoveAll(mntURL));
    StepsSnoc(s0, h.refused, [], Umount(mntURL));
    StepsSnoc(s0, h.refused, [Umount(mntURL)], RemoveAll(mntURL));
  }

  /** `DeleteMountPointWithVolume(rootURL, mntURL, volumeURLs)`. */
  method DeleteMountPointWithVolume(h: Host, rootURL: Path, mntURL: Path, volumeURLs: seq<string>)
    requires |volumeURLs| >= 2
    modifies h
    ensures h.State() == Steps(old(h.State()), h.refused, DeleteMountPointWithVolumeOps(mntURL, volumeURLs))
  {
    ghost var s0 := h.State();
    var containerVolumeURL := PathJoin(mntURL, volumeURLs[1]);
    var _ := h.Perform(Umount(containerVolumeURL));
    StepsSnoc(s0, h.refused, [], Umount(containerVolumeURL));
    DeleteMountPoint(h, mntURL);
    StepsAppend(s0, h.refused, [Umount(containerVolumeURL)], DeleteMountPointOps(mntURL));
  }

  /** `DeleteWriteLayer(rootURL)`. */
  method DeleteWriteLayer(h: Host, rootURL: Path)
    modifies h
    ensures h.State() == Steps(old(h.State()), h.refused, DeleteWriteLayerOps(rootURL))
  {
    ghost var s0 := h.State();
    var writeURL := PathJoin(rootURL, "writeLayer");
    var _ := h.Perform(RemoveAll(writeURL));
    StepsSnoc(s0, h.refused, [], RemoveAll(writeURL));
  }

  /** `DeleteWorkSpace(rootURL, mntURL, volume)`. */
  method DeleteWorkSpace(h: Host, rootURL: Path, mntURL: Path, volume: string)
    modifies h
    ensures h.State() == Steps(old(h.State()), h.refused, DeleteWorkSpaceOps(rootURL, mntURL, volume))
  {
    ghost var s0 := h.State();
    ghost var first: seq<Op>;
    if volume != "" {
      var volumeURLs := VolumeURLExtract(volume);
      var length := |volumeURLs|;
      if length == 2 && volumeURLs[0] != "" && volumeURLs[1] != "" {
        DeleteMountPointWithVolume(h, rootURL, mntURL, volumeURLs);
        first := DeleteMountPointWithVolumeOps(mntURL, volumeURLs);
      } else {
        DeleteMountPoint(h, mntURL);
        first := DeleteMountPointOps(mntURL);
      }
    } else {
      DeleteMountPoint(h, mntURL);
      first := DeleteMountPointOps(mntURL);
    }
    DeleteWriteLayer(h, rootURL);
    StepsAppend(s0, h.refused, first, DeleteWriteLayerOps(rootURL));
  }

  // ------------------------------------------------------- the properties

  /** Creating the image layer a second time does nothing at all, provided
      the first attempt could create the directory and the second can see
      it. */
  lemma ReadOnlyLayerIdempotent(s: HostState, refused: set<Op>, rootURL: Path)
    requires Mkdir(BusyboxURL(rootURL)) !in refused && Stat(BusyboxURL(rootURL)) !in refused
    ensures var once := Steps(s, refused, ReadOnlyLayerOps(s, refused, rootURL));
            BusyboxURL(rootURL) in once.dirs || BusyboxURL(rootURL) in once.files
    ensures var once := Steps(s, refused, ReadOnlyLayerOps(s, refused, rootURL));
            ReadOnlyLayerOps(once, refused, rootURL) == []
  {
    var bb := BusyboxURL(rootURL);
    if !PathExists(s, refused, bb).0 {
      var mk, ut := Mkdir(bb), Untar(BusyboxTarURL(rootURL), bb);
      Steps2(s, refused, mk, ut);
      var s1 := Step(s, refused, mk).0;
      assert bb in s1.dirs;
      assert Step(s1, refused, ut).0.dirs == s1.dirs;
    }
  }

  /** The volume's part of the teardown. */
  function VolumeUnmountOps(mntURL: Path, volume: string): (r: seq<Op>)
    ensures forall i :: 0 <= i < |r| ==> r[i].Umount?
  {
    if ValidVolume(volume) then [Umount(ContainerVolumeURL(mntURL, VolumeURLExtract(volume)))] else []
  }

  /** Teardown unmounts the volume before the union mount, removes the mount
      point whether or not the unmounting worked, and removes the writable
      layer last. */
  lemma TeardownOrder(rootURL: Path, mntURL: Path, volume: string)
    ensures DeleteWorkSpaceOps(rootURL, mntURL, volume) ==
              VolumeUnmountOps(mntURL, volume) + [Umount(mntURL), RemoveAll(mntURL), RemoveAll(WriteURL(rootURL))]
  {
  }

  /** The layer paths under the fixed root: the root followed by the layer's
      name. */
  lemma RootPaths()
    ensures BusyboxURL(RootURL) == RootURL + "busybox"
    ensures WriteURL(RootURL) == RootURL + "writeLayer"
  {
    assert RootURL == DirOf(["root"]) by { assert ["root"][..0] == []; }
    assert Join(["busybox"], "/") == "busybox" && Join(["writeLayer"], "/") == "writeLayer";
    JoinNames(["root"], ["busybox"]);
    JoinNames(["root"], ["writeLayer"]);
  }

  /** The image layer lies neither in the mount point nor in the writable
      layer. */
  lemma ImageApart()
    ensures !Under(BusyboxURL(RootURL), MntURL) && !Under(BusyboxURL(RootURL), WriteURL(RootURL))
  {
    RootPaths();
    var image, layer, mnt := BusyboxURL(RootURL), WriteURL(RootURL), MntURL;
    assert image[6] == 'b' && layer[6] == 'w' && mnt[6] == 'm';
    assert Slashed(mnt) == mnt;
    assert Slashed(layer) == layer + "/";
  }

  /** The mount point lies outside the writable layer. */
  lemma MountPointApart()
    ensures !Under(MntURL, WriteURL(RootURL))
  {
    RootPaths();
    var layer := WriteURL(RootURL);
    assert layer[6] == 'w' && MntURL[6] == 'm';
    assert Slashed(layer) == layer + "/";
  }

  /** No teardown, whatever fails, removes the shared image layer. */
  lemma TeardownKeepsImage(s: HostState, refused: set<Op>, volume: string)
    requires BusyboxURL(RootURL) in s.dirs
    ensures BusyboxURL(RootURL) in Steps(s, refused, DeleteWorkSpaceOps(RootURL, MntURL, volume)).dirs
  {
    TeardownOrder(RootURL, MntURL, volume);
    UnmountsKeepImage(s, refused, VolumeUnmountOps(MntURL, volume));
  }

  /** Unmounting anything, then unmounting and removing the mount point and
      the writable layer, keeps the image layer. */
  lemma UnmountsKeepImage(s: HostState, refused: set<Op>, pre: seq<Op>)
    requires BusyboxURL(RootURL) in s.dirs
    requires forall i :: 0 <= i < |pre| ==> pre[i].Umount?
    ensures BusyboxURL(RootURL) in Steps(s, refused, pre + [Umount(MntURL), RemoveAll(MntURL), RemoveAll(WriteURL(RootURL))]).dirs
  {
    StepsAppend(s, refused, pre, [Umount(MntURL), RemoveAll(MntURL), RemoveAll(WriteURL(RootURL))]);
    StepsKeepDir(s, refused, pre, BusyboxURL(RootURL));
    MountPointGoneKeepsImage(Steps(s, refused, pre), refused);
  }

  lemma MountPointGoneKeepsImage(t: HostState, refused: set<Op>)
    requires BusyboxURL(RootURL) in t.dirs
    ensures BusyboxURL(RootURL) in Steps(t, refused, [Umount(MntURL), RemoveAll(MntURL), RemoveAll(WriteURL(RootURL))]).dirs
  {
    var image := BusyboxURL(RootURL);
    var a, b, c := Umount(MntURL), RemoveAll(MntURL), RemoveAll(WriteURL(RootURL));
    Steps3(t, refused, a, b, c);
    Steps2(t, refused, a, b);
    ImageApart();
    StepKeepsDir(t, refused, a, image);
    var t1 := Step(t, refused, a).0;
    RemoveAllKeeps(t1, refused, MntURL, image);
    RemoveAllKeeps(Step(t1, refused, b).0, refused, WriteURL(RootURL), image);
  }

  /** With nothing refused and nothing mounted below the mount point or the
      writable layer, building the workspace and tearing it down again
      restores the mount table, leaves neither the mount point, nor the
      writable layer, nor the volume's mount point inside, and keeps the
      image layer (unless a plain file stands where it should be). */
  lemma WorkspaceRoundTrip(s: HostState, volume: string)
    requires BusyboxURL(RootURL) !in s.files && WorkspaceClear(s, volume)
    requires NoMountBelowWorkspace(s.mounts)
    ensures var built := Steps(s, {}, NewWorkSpaceOps(s, {}, RootURL, MntURL, volume));
            var gone := Steps(built, {}, DeleteWorkSpaceOps(RootURL, MntURL, volume));
            gone.mounts == s.mounts &&
            MntURL !in gone.dirs && WriteURL(RootURL) !in gone.dirs &&
            BusyboxURL(RootURL) in gone.dirs &&
            (VolumeInside(volume) ==> ContainerVolumeURL(MntURL, VolumeURLExtract(volume)) !in gone.dirs)
  {
    var built := Steps(s, {}, NewWorkSpaceOps(s, {}, RootURL, MntURL, volume));
    WorkspaceRoundTripMounts(s, volume);
    BuiltHasImage(s, volume);
    TeardownKeepsImage(built, {}, volume);
    BuiltMounts(s, volume);
    TeardownRemoves(built, s.mounts, volume);
  }

  /** With nothing refused, the image layer exists once it has been asked
      for. */
  lemma ImageLayerMakesImage(s: HostState, rootURL: Path)
    requires BusyboxURL(rootURL) !in s.files
    ensures BusyboxURL(rootURL) in Steps(s, {}, ReadOnlyLayerOps(s, {}, rootURL)).dirs
  {
    ReadOnlyLayerIdempotent(s, {}, rootURL);
    if !PathExists(s, {}, BusyboxURL(rootURL)).0 {
      Steps2(s, {}, Mkdir(BusyboxURL(rootURL)), Untar(BusyboxTarURL(rootURL), BusyboxURL(rootURL)));
    }
  }

  /** With nothing refused, the workspace exposes the image directory. */
  lemma BuiltHasImage(s: HostState, volume: string)
    requires BusyboxURL(RootURL) !in s.files
    ensures BusyboxURL(RootURL) in Steps(s, {}, NewWorkSpaceOps(s, {}, RootURL, MntURL, volume)).dirs
  {
    var a := ReadOnlyLayerOps(s, {}, RootURL);
    var w, m, v := WriteLayerOps(RootURL), MountPointOps(RootURL, MntURL), VolumeOps(MntURL, volume);
    StepsAppend(s, {}, a + w + m, v);
    StepsAppend(s, {}, a + w, m);
    StepsAppend(s, {}, a, w);
    ImageLayerMakesImage(s, RootURL);
    LayersKeepDirs(Steps(s, {}, a), RootURL, MntURL, volume, BusyboxURL(RootURL));
  }

  /** Past the image layer, building the workspace removes no directory. */
  lemma LayersKeepDirs(s: HostState, rootURL: Path, mntURL: Path, volume: string, d: Path)
    requires d in s.dirs
    ensures var s2 := Steps(Steps(s, {}, WriteLayerOps(rootURL)), {}, MountPointOps(rootURL, mntURL));
            d in Steps(s2, {}, VolumeOps(mntURL, volume)).dirs
  {
    var wl, mk, mt := Mkdir(WriteURL(rootURL)), Mkdir(mntURL), MountFs(UnionMount(rootURL, mntURL));
    Steps1(s, {}, wl);
    StepKeepsDir(s, {}, wl, d);
    var s1 := Step(s, {}, wl).0;
    Steps2(s1, {}, mk, mt);
    StepKeepsDir(s1, {}, mk, d);
    StepKeepsDir(Step(s1, {}, mk).0, {}, mt, d);
    var s2 := Steps(s1, {}, [mk, mt]);
    if ValidVolume(volume) {
      var vu := VolumeURLExtract(volume);
      var hv, cv, vm := Mkdir(vu[0]), Mkdir(ContainerVolumeURL(mntURL, vu)), MountFs(VolumeMount(mntURL, vu));
      Steps3(s2, {}, hv, cv, vm);
      Steps2(s2, {}, hv, cv);
      StepKeepsDir(s2, {}, hv, d);
      var s3 := Step(s2, {}, hv).0;
      StepKeepsDir(s3, {}, cv, d);
      StepKeepsDir(Step(s3, {}, cv).0, {}, vm, d);
    }
  }

  /** Nothing is mounted at or below the mount point or the writable layer:
      on top of such a table the workspace's own mounts are the only ones
      that keep either busy. */
  predicate NoMountBelowWorkspace(mounts: seq<Mount>)
  {
    !MountedUnder(mounts, MntURL) && !MountedUnder(mounts, WriteURL(RootURL))
  }

  /** Once the workspace's mounts on top of the table are popped, the
      removals at the end of the teardown leave nothing of the mount point,
      the writable layer or what lies inside the mount point. */
  lemma TeardownRemoves(t: HostState, base: seq<Mount>, volume: string)
    requires t.mounts == base + [UnionMount(RootURL, MntURL)] +
               (if ValidVolume(volume) then [VolumeMount(MntURL, VolumeURLExtract(volume))] else [])
    requires NoMountBelowWorkspace(base)
    ensures var gone := Steps(t, {}, DeleteWorkSpaceOps(RootURL, MntURL, volume));
            MntURL !in gone.dirs && WriteURL(RootURL) !in gone.dirs &&
            (VolumeInside(volume) ==> ContainerVolumeURL(MntURL, VolumeURLExtract(volume)) !in gone.dirs)
  {
    var pre := VolumeUnmountOps(MntURL, volume);
    var um, rm, rw := Umount(MntURL), RemoveAll(MntURL), RemoveAll(WriteURL(RootURL));
    TeardownOrder(RootURL, MntURL, volume);
    StepsAppend(t, {}, pre, [um, rm, rw]);
    var mid := Steps(t, {}, pre);
    VolumePops(t, base + [UnionMount(RootURL, MntURL)], MntURL, volume);
    Steps3(mid, {}, um, rm, rw);
    Steps2(mid, {}, um, rm);
    var s1 := Step(mid, {}, um).0;
    UnmountTop(base, UnionMount(RootURL, MntURL));
    StepUmount(mid, {}, MntURL);
    assert s1.mounts == base;
    var s2 := Step(s1, {}, rm).0;
    StepKeepsMounts(s1, {}, rm);
    RemoveAllClears(s1, {}, MntURL, MntURL);
    StepKeepsAbsent(s2, {}, rw, MntURL);
    RemoveAllClears(s2, {}, WriteURL(RootURL), WriteURL(RootURL));
    if VolumeInside(volume) {
      var v := VolumeURLExtract(volume);
      var cv := ContainerVolumeURL(MntURL, v);
      RemoveAllClears(s1, {}, MntURL, cv);
      StepKeepsAbsent(s2, {}, rw, cv);
    }
  }

  /** Unmounting the target of the topmost mount pops that mount. */
  lemma UnmountTop(mounts: seq<Mount>, m: Mount)
    ensures LastMountAt(mounts + [m], m.target) == |mounts|
    ensures Unmounted(mounts + [m], m.target) == mounts
  {
    assert (mounts + [m])[..|mounts|] == mounts;
  }

  /** The volume's mount point is never spelt as the mount point itself: a
      cleaned path has no trailing slash. */
  lemma VolumeTargetApart(volume: string)
    requires ValidVolume(volume)
    ensures ContainerVolumeURL(MntURL, VolumeURLExtract(volume)) != MntURL
  {
    var p := MntURL + "/" + VolumeURLExtract(volume)[1];
    assert p[0] == '/';
    CleanNoTrailingSlash(p);
  }

  /** While the volume is mounted inside it, the mount point is busy: a
      teardown told of no volume fails to unmount it, keeps every mount,
      and fails to remove the mount point. */
  lemma TeardownWithoutVolumeKeepsMounts(t: HostState, refused: set<Op>, base: seq<Mount>, volume: string)
    requires VolumeInside(volume)
    requires t.mounts == base + [UnionMount(RootURL, MntURL), VolumeMount(MntURL, VolumeURLExtract(volume))]
    ensures Busy(t.mounts, MntURL)
    ensures Steps(t, refused, DeleteWorkSpaceOps(RootURL, MntURL, "")).mounts == t.mounts
    ensures MntURL in t.dirs ==> MntURL in Steps(t, refused, DeleteWorkSpaceOps(RootURL, MntURL, "")).dirs
  {
    var v := VolumeURLExtract(volume);
    VolumeTargetApart(volume);
    assert t.mounts[..|t.mounts| - 1] == base + [UnionMount(RootURL, MntURL)];
    assert (base + [UnionMount(RootURL, MntURL)])[..|base|] == base;
    assert LastMountAt(t.mounts, MntURL) == |base|;
    assert t.mounts[|base| + 1].target == ContainerVolumeURL(MntURL, v);
    var um, rm, rw := Umount(MntURL), RemoveAll(MntURL), RemoveAll(WriteURL(RootURL));
    assert DeleteWorkSpaceOps(RootURL, MntURL, "") == [um, rm, rw];
    Steps3(t, refused, um, rm, rw);
    Steps2(t, refused, um, rm);
    StepUmount(t, refused, MntURL);
    var t1 := Step(t, refused, um).0;
    assert t1.mounts == t.mounts && t1.dirs == t.dirs;
    assert Under(t.mounts[|base|].target, MntURL);
    StepRemoveAll(t1, refused, MntURL);
    var t2 := Step(t1, refused, rm).0;
    assert t2.mounts == t.mounts && t2.dirs == t.dirs;
    MountPointApart();
    if MntURL in t.dirs {
      RemoveAllKeeps(t2, refused, WriteURL(RootURL), MntURL);
    }
  }

  /** With nothing refused, the writable layer, the mount point and the union
      mount push exactly the union mount. */
  lemma MountPointPushes(s: HostState, rootURL: Path, mntURL: Path)
    requires mntURL !in s.files
    ensures Steps(Steps(s, {}, WriteLayerOps(rootURL)), {}, MountPointOps(rootURL, mntURL)).mounts ==
              s.mounts + [UnionMount(rootURL, mntURL)]
  {
    var wl, mk, mt := Mkdir(WriteURL(rootURL)), Mkdir(mntURL), MountFs(UnionMount(rootURL, mntURL));
    Steps1(s, {}, wl);
    var s1 := Steps(s, {}, [wl]);
    Steps2(s1, {}, mk, mt);
    assert mntURL in Step(s1, {}, mk).0.dirs;
  }

  /** With nothing refused, a valid volume pushes exactly its mount. */
  lemma VolumePushes(s: HostState, mntURL: Path, volume: string)
    requires ValidVolume(volume) ==> ContainerVolumeURL(mntURL, VolumeURLExtract(volume)) !in s.files
    ensures Steps(s, {}, VolumeOps(mntURL, volume)).mounts ==
              s.mounts + (if ValidVolume(volume) then [VolumeMount(mntURL, VolumeURLExtract(volume))] else [])
  {
    if ValidVolume(volume) {
      var v := VolumeURLExtract(volume);
      var hv, cv, vm := Mkdir(v[0]), Mkdir(ContainerVolumeURL(mntURL, v)), MountFs(VolumeMount(mntURL, v));
      assert VolumeOps(mntURL, volume) == [hv, cv, vm];
      Steps3(s, {}, hv, cv, vm);
      Steps2(s, {}, hv, cv);
      StepMkdir(s, {}, v[0]);
      var s1 := Step(s, {}, hv).0;
      StepMkdir(s1, {}, ContainerVolumeURL(mntURL, v));
      var s2 := Step(s1, {}, cv).0;
      assert s2.mounts == s.mounts && ContainerVolumeURL(mntURL, v) in s2.dirs;
      assert Step(s2, {}, vm).0.mounts == s2.mounts + [VolumeMount(mntURL, v)];
    } else {
      assert s.mounts + [] == s.mounts;
    }
  }

  /** Extracting the image touches no mount. */
  lemma ImageLayerKeepsMounts(s: HostState, refused: set<Op>, rootURL: Path)
    ensures Steps(s, refused, ReadOnlyLayerOps(s, refused, rootURL)).mounts == s.mounts
  {
    if !PathExists(s, refused, BusyboxURL(rootURL)).0 {
      var mk, ut := Mkdir(BusyboxURL(rootURL)), Untar(BusyboxTarURL(rootURL), BusyboxURL(rootURL));
      Steps2(s, refused, mk, ut);
      StepKeepsMounts(s, refused, mk);
      StepKeepsMounts(Step(s, refused, mk).0, refused, ut);
    }
  }

  /** With nothing refused, building the workspace pushes the union mount
      and then, for a valid volume, the volume mount. */
  lemma BuiltMounts(s: HostState, volume: string)
    requires WorkspaceClear(s, volume)
    ensures var built := Steps(s, {}, NewWorkSpaceOps(s, {}, RootURL, MntURL, volume));
            built.mounts == s.mounts + [UnionMount(RootURL, MntURL)] +
              (if ValidVolume(volume) then [VolumeMount(MntURL, VolumeURLExtract(volume))] else [])
  {
    var a := ReadOnlyLayerOps(s, {}, RootURL);
    var w, m, v := WriteLayerOps(RootURL), MountPointOps(RootURL, MntURL), VolumeOps(MntURL, volume);
    StepsAppend(s, {}, a + w + m, v);
    StepsAppend(s, {}, a + w, m);
    StepsAppend(s, {}, a, w);
    ImageLayerKeepsMounts(s, {}, RootURL);
    WorkspaceStaysClear(s, volume, a + w);
    WorkspaceStaysClear(s, volume, a + w + m);
    MountPointPushes(Steps(s, {}, a), RootURL, MntURL);
    VolumePushes(Steps(s, {}, a + w + m), MntURL, volume);
  }

  /** Unmounting the volume pops exactly its mount. */
  lemma VolumePops(s: HostState, base: seq<Mount>, mntURL: Path, volume: string)
    requires s.mounts == base + (if ValidVolume(volume) then [VolumeMount(mntURL, VolumeURLExtract(volume))] else [])
    ensures Steps(s, {}, VolumeUnmountOps(mntURL, volume)).mounts == base
  {
    if ValidVolume(volume) {
      var vm := VolumeMount(mntURL, VolumeURLExtract(volume));
      Steps1(s, {}, Umount(vm.target));
      UnmountTop(base, vm);
    } else {
      assert base + [] == base;
    }
  }

  /** Unmounting and removing the mount point and the writable layer pops
      exactly the union mount. */
  lemma MountPointPops(s: HostState, base: seq<Mount>, rootURL: Path, mntURL: Path)
    requires s.mounts == base + [UnionMount(rootURL, mntURL)]
    ensures Steps(s, {}, [Umount(mntURL), RemoveAll(mntURL), RemoveAll(WriteURL(rootURL))]).mounts == base
  {
    var a, b, c := Umount(mntURL), RemoveAll(mntURL), RemoveAll(WriteURL(rootURL));
    Steps3(s, {}, a, b, c);
    Steps2(s, {}, a, b);
    UnmountTop(base, UnionMount(rootURL, mntURL));
    StepUmount(s, {}, mntURL);
    var s1 := Step(s, {}, a).0;
    StepKeepsMounts(s1, {}, b);
    StepKeepsMounts(Step(s1, {}, b).0, {}, c);
  }

  /** Tearing down a workspace whose two mounts are on top of the mount
      table pops exactly those two. */
  lemma TeardownPops(t: HostState, base: seq<Mount>, volume: string)
    requires t.mounts == base + [UnionMount(RootURL, MntURL)] +
               (if ValidVolume(volume) then [VolumeMount(MntURL, VolumeURLExtract(volume))] else [])
    ensures Steps(t, {}, DeleteWorkSpaceOps(RootURL, MntURL, volume)).mounts == base
  {
    TeardownOrder(RootURL, MntURL, volume);
    var pre := VolumeUnmountOps(MntURL, volume);
    var rest := [Umount(MntURL), RemoveAll(MntURL), RemoveAll(WriteURL(RootURL))];
    StepsAppend(t, {}, pre, rest);
    VolumePops(t, base + [UnionMount(RootURL, MntURL)], MntURL, volume);
    MountPointPops(Steps(t, {}, pre), base, RootURL, MntURL);
  }

  /** The mount table after building and tearing down is the one before. */
  lemma WorkspaceRoundTripMounts(s: HostState, volume: string)
    requires WorkspaceClear(s, volume)
    ensures var built := Steps(s, {}, NewWorkSpaceOps(s, {}, RootURL, MntURL, volume));
            Steps(built, {}, DeleteWorkSpaceOps(RootURL, MntURL, volume)).mounts == s.mounts
  {
    BuiltMounts(s, volume);
    TeardownPops(Steps(s, {}, NewWorkSpaceOps(s, {}, RootURL, MntURL, volume)), s.mounts, volume);
  }

  /** With nothing refused, the built workspace has its mount point. */
  lemma BuiltHasMountPoint(s: HostState, volume: string)
    requires MntURL !in s.files
    ensures MntURL in Steps(s, {}, NewWorkSpaceOps(s, {}, RootURL, MntURL, volume)).dirs
  {
    var a := ReadOnlyLayerOps(s, {}, RootURL);
    var w, m, v := WriteLayerOps(RootURL), MountPointOps(RootURL, MntURL), VolumeOps(MntURL, volume);
    StepsAppend(s, {}, a + w + m, v);
    StepsAppend(s, {}, a + w, m);
    NoFileThroughWorkspace(s, volume, a + w, MntURL);
    MountPointMade(Steps(s, {}, a + w), RootURL, MntURL);
    VolumeKeepsDirs(Steps(s, {}, a + w + m), MntURL, volume, MntURL);
  }

  /** With nothing refused, the mount point exists once it was asked for. */
  lemma MountPointMade(s: HostState, rootURL: Path, mntURL: Path)
    requires mntURL !in s.files
    ensures mntURL in Steps(s, {}, MountPointOps(rootURL, mntURL)).dirs
  {
    var mk, mt := Mkdir(mntURL), MountFs(UnionMount(rootURL, mntURL));
    Steps2(s, {}, mk, mt);
    var s1 := Step(s, {}, mk).0;
    assert mntURL in s1.dirs;
    StepKeepsDir(s1, {}, mt, mntURL);
  }

  /** No file stands where the workspace makes its mount point, or the
      volume's mount point inside it. */
  predicate WorkspaceClear(s: HostState, volume: string)
  {
    MntURL !in s.files &&
    (ValidVolume(volume) ==> ContainerVolumeURL(MntURL, VolumeURLExtract(volume)) !in s.files)
  }

  /** The workspace's calls write no file. */
  lemma MakesNoFile(s: HostState, refused: set<Op>, rootURL: Path, mntURL: Path, volume: string)
    ensures var ops := NewWorkSpaceOps(s, refused, rootURL, mntURL, volume);
            forall i :: 0 <= i < |ops| ==> !ops[i].WriteFile? && !ops[i].CreateFile?
  {
    WorkspaceBuilds(s, refused, rootURL, mntURL, volume);
  }

  /** A file absent before is absent after any prefix of the workspace's
      calls. */
  lemma NoFileThroughWorkspace(s: HostState, volume: string, pre: seq<Op>, f: Path)
    requires f !in s.files
    requires pre <= NewWorkSpaceOps(s, {}, RootURL, MntURL, volume)
    ensures f !in Steps(s, {}, pre).files
  {
    MakesNoFile(s, {}, RootURL, MntURL, volume);
    var ops := NewWorkSpaceOps(s, {}, RootURL, MntURL, volume);
    assert forall i :: 0 <= i < |pre| ==> pre[i] == ops[i];
    StepsKeepFileAbsent(s, {}, pre, f);
  }

  /** A prefix of the workspace's calls keeps the workspace clear. */
  lemma WorkspaceStaysClear(s: HostState, volume: string, pre: seq<Op>)
    requires WorkspaceClear(s, volume)
    requires pre <= NewWorkSpaceOps(s, {}, RootURL, MntURL, volume)
    ensures WorkspaceClear(Steps(s, {}, pre), volume)
  {
    NoFileThroughWorkspace(s, volume, pre, MntURL);
    if ValidVolume(volume) {
      NoFileThroughWorkspace(s, volume, pre, ContainerVolumeURL(MntURL, VolumeURLExtract(volume)));
    }
  }

  /** The volume's calls remove no directory. */
  lemma VolumeKeepsDirs(s: HostState, mntURL: Path, volume: string, d: Path)
    requires d in s.dirs
    ensures d in Steps(s, {}, VolumeOps(mntURL, volume)).dirs
  {
    var v := VolumeOps(mntURL, volume);
    assert forall i :: 0 <= i < |v| ==> v[i].Mkdir? || v[i].MountFs?;
    StepsKeepDir(s, {}, v, d);
  }

  // ------------------------------------------------- the parent process

  /** The namespaces the container's init is cloned into. */
  datatype Namespace = NewUts | NewPid | NewNs | NewNet | NewIpc

  const CloneFlags: set<Namespace> := {NewUts, NewPid, NewNs, NewNet, NewIpc}

  /** Where the container's output goes: the engine's own terminal, or the
      log file in the container's directory (whose creation may have failed,
      leaving a nil file behind). */
  datatype Stdio = Terminal | LogFile(path: Path, created: bool)

  /** The pipe end handed to the child as its fourth descriptor. */
  datatype ExtraFile = PipeReadEnd

  /** `exec.Cmd` as `NewParentProcess` fills it. */
  datatype Cmd = Cmd(argv: seq<string>, cloneFlags: set<Namespace>, stdio: Stdio,
                     extraFiles: seq<ExtraFile>, dir: Path)

  function LogFilePath(containerName: string): Path
  {
    PathJoin(InfoDir(containerName), ContainerLogFile)
  }

  /** Where the child's output goes: the terminal, or a log file in the
      container's directory, which is made first; nothing when that
      directory cannot be made. */
  function StdioSpec(s: HostState, refused: set<Op>, tty: bool, containerName: string)
    : (r: (HostState, Option<Stdio>))
    ensures r.1.None? <==> !tty && (MkdirAll(InfoDir(containerName)) in refused || !PathClear(s, InfoDir(containerName)))
    ensures r.1.Some? ==> (r.1.value.Terminal? <==> tty)
    ensures r.1.Some? && !tty ==> r.1.value.path == LogFilePath(containerName)
    ensures r.0.pipe == s.pipe && r.0.mounts == s.mounts
  {
    if tty then (s, Some(Terminal))
    else
      var made := Step(s, refused, MkdirAll(InfoDir(containerName)));
      if !made.1 then (made.0, None)
      else
        var created := Step(made.0, refused, CreateFile(LogFilePath(containerName)));
        (created.0, Some(LogFile(LogFilePath(containerName), created.1)))
  }

  /** The host once the workspace is built: the hand-off pipe is as it was. */
  function WithWorkspace(s: HostState, refused: set<Op>, volume: string): (r: HostState)
    ensures r.pipe == s.pipe
  {
    WorkspaceKeepsPipe(s, refused, volume);
    Steps(s, refused, NewWorkSpaceOps(s, refused, RootURL, MntURL, volume))
  }

  /** `NewParentProcess(tty, containerName, volume)`: no command when the pipe
      cannot be made, or, without a terminal, when the container's directory
      cannot be made; otherwise the re-execution of the engine as `init`, in
      new namespaces, on the new workspace. */
  function NewParentProcessSpec(s: HostState, refused: set<Op>, tty: bool, containerName: string, volume: string)
    : (r: (HostState, Option<Cmd>))
    ensures r.1.None? <==> NewPipe in refused ||
                           (!tty && (MkdirAll(InfoDir(containerName)) in refused || !PathClear(s, InfoDir(containerName))))
    ensures r.1.Some? ==> r.1.value.argv == ["/proc/self/exe", "init"] && r.1.value.cloneFlags == CloneFlags
    ensures r.1.Some? ==> r.1.value.extraFiles == [PipeReadEnd] && r.1.value.dir == MntURL
    ensures r.1.Some? ==> (r.1.value.stdio.Terminal? <==> tty)
    ensures r.1.Some? && !tty ==> r.1.value.stdio.path == LogFilePath(containerName)
    ensures r.1.Some? ==> r.0.pipe == Open("")
  {
    var piped := Step(s, refused, NewPipe);
    assert piped.1 == (NewPipe !in refused);
    assert piped.1 ==> piped.0.pipe == Open("");
    if !piped.1 then (piped.0, None)
    else
      var stdio := StdioSpec(piped.0, refused, tty, containerName);
      match stdio.1
      case None => (stdio.0, None)
      case Some(out) =>
        (WithWorkspace(stdio.0, refused, volume),
         Some(Cmd(["/proc/self/exe", "init"], CloneFlags, out, [PipeReadEnd], MntURL)))
  }

  /** Calls that only make directories, extract archives or mount. */
  predicate BuildsOnly(ops: seq<Op>)
  {
    forall i :: 0 <= i < |ops| ==> ops[i].Mkdir? || ops[i].Untar? || ops[i].MountFs?
  }

  lemma BuildsOnlyAppend(a: seq<Op>, b: seq<Op>)
    requires BuildsOnly(a) && BuildsOnly(b)
    ensures BuildsOnly(a + b)
  {
    forall i | 0 <= i < |a + b| ensures (a + b)[i].Mkdir? || (a + b)[i].Untar? || (a + b)[i].MountFs? {
      if i >= |a| { assert (a + b)[i] == b[i - |a|]; }
    }
  }

  lemma ReadOnlyLayerBuilds(s: HostState, refused: set<Op>, rootURL: Path)
    ensures BuildsOnly(ReadOnlyLayerOps(s, refused, rootURL))
  {
  }

  lemma VolumeBuilds(mntURL: Path, volume: string)
    ensures BuildsOnly(VolumeOps(mntURL, volume))
  {
  }

  /** The workspace is built by such calls alone. */
  lemma WorkspaceBuilds(s: HostState, refused: set<Op>, rootURL: Path, mntURL: Path, volume: string)
    ensures BuildsOnly(NewWorkSpaceOps(s, refused, rootURL, mntURL, volume))
  {
    var a := ReadOnlyLayerOps(s, refused, rootURL);
    var w, m, v := WriteLayerOps(rootURL), MountPointOps(rootURL, mntURL), VolumeOps(mntURL, volume);
    ReadOnlyLayerBuilds(s, refused, rootURL);
    VolumeBuilds(mntURL, volume);
    assert BuildsOnly(w) && BuildsOnly(m);
    BuildsOnlyAppend(a, w);
    BuildsOnlyAppend(a + w, m);
    BuildsOnlyAppend(a + w + m, v);
  }

  /** The directories the workspace may make: the image, the writable layer,
      the mount point and, with a valid volume, the host's directory and the
      volume's mount point. */
  function WorkspaceDirs(volume: string): set<Path>
  {
    {BusyboxURL(RootURL), WriteURL(RootURL), MntURL} +
    (if ValidVolume(volume)
     then var v := VolumeURLExtract(volume); {v[0], ContainerVolumeURL(MntURL, v)}
     else {})
  }

  /** Building the workspace makes no directory but those. */
  lemma WorkspaceDirsWithin(s: HostState, refused: set<Op>, volume: string)
    ensures Steps(s, refused, NewWorkSpaceOps(s, refused, RootURL, MntURL, volume)).dirs <= s.dirs + WorkspaceDirs(volume)
  {
    var ops := NewWorkSpaceOps(s, refused, RootURL, MntURL, volume);
    WorkspaceBuilds(s, refused, RootURL, MntURL, volume);
    var a := ReadOnlyLayerOps(s, refused, RootURL);
    var w, m, v := WriteLayerOps(RootURL), MountPointOps(RootURL, MntURL), VolumeOps(MntURL, volume);
    assert ops == a + w + m + v;
    forall i | 0 <= i < |ops| && ops[i].Mkdir? ensures ops[i].path in WorkspaceDirs(volume) {
      if i < |a| {
        assert ops[i] == a[i];
      } else if i < |a| + |w| {
        assert ops[i] == w[i - |a|];
      } else if i < |a| + |w| + |m| {
        assert ops[i] == m[i - |a| - |w|];
      } else {
        assert ops[i] == v[i - |a| - |w| - |m|];
      }
    }
    StepsDirsWithin(s, refused, ops, WorkspaceDirs(volume));
  }

  /** With nothing refused, `NewParentProcess` gives a command, and its host
      is the workspace built on the host after the pipe and the output are
      set up, which has the pipe open and empty and the mounts of before. */
  lemma ParentUnrefused(s: HostState, tty: bool, containerName: string, volume: string)
    requires !tty ==> PathClear(s, InfoDir(containerName))
    ensures var s2 := StdioSpec(Step(s, {}, NewPipe).0, {}, tty, containerName).0;
            var r := NewParentProcessSpec(s, {}, tty, containerName, volume);
            r.1.Some? && r.0 == WithWorkspace(s2, {}, volume) && s2.pipe == Open("") && s2.mounts == s.mounts
  {
    var s1 := Step(s, {}, NewPipe).0;
    assert s1.mounts == s.mounts && s1.pipe == Open("");
    var stdio := StdioSpec(s1, {}, tty, containerName);
    assert stdio.1.Some?;
  }

  /** Building the workspace leaves the hand-off pipe alone. */
  lemma WorkspaceKeepsPipe(s: HostState, refused: set<Op>, volume: string)
    ensures Steps(s, refused, NewWorkSpaceOps(s, refused, RootURL, MntURL, volume)).pipe == s.pipe
  {
    WorkspaceBuilds(s, refused, RootURL, MntURL, volume);
    StepsKeepPipe(s, refused, NewWorkSpaceOps(s, refused, RootURL, MntURL, volume));
  }

  /** `NewParentProcess`. */
  method NewParentProcess(h: Host, tty: bool, containerName: string, volume: string) returns (cmd: Option<Cmd>)
    modifies h
    ensures (h.State(), cmd) == NewParentProcessSpec(old(h.State()), h.refused, tty, containerName, volume)
  {
    var piped := h.Perform(NewPipe);
    if !piped {
      return None;
    }
    var c := Cmd(["/proc/self/exe", "init"], CloneFlags, Terminal, [], "");
    if !tty {
      var dirURL := InfoDir(containerName);
      var dirMade := h.Perform(MkdirAll(dirURL));
      if !dirMade {
        return None;
      }
      var stdLogFilePath := PathJoin(dirURL, ContainerLogFile);
      var created := h.Perform(CreateFile(stdLogFilePath));
      c := c.(stdio := LogFile(stdLogFilePath, created));
    }
    c := c.(extraFiles := [PipeReadEnd]);
    NewWorkSpace(h, RootURL, MntURL, volume);
    c := c.(dir := MntURL);
    return Some(c);
  }
}
