/** The container metadata record (`container.Info`), where the registry
    keeps it, and its JSON encoding, abstracted as a lossless encoding. */
module Records {
  import opened Results
  import opened Strings

  /** `container.Info`: six independent string fields. */
  datatype Info = Info(
    id: string,
    pid: string,
    name: string,
    command: string,
    creationTime: string,
    status: string)

  const Running: string := "Running"
  const Stopped: string := "Stopped"
  const Exited: string := "Exited"

  /** The pid a stopped record carries. */
  const BlankPid: string := " "

  /** `DefaultInfoLocation` up to its `%s`. */
  const InfoRoot: Path := "/var/run/mydocker/"
  const ConfigName: string := "config.json"
  const ContainerLogFile: string := "container.log"

  /** `fmt.Sprintf(DefaultInfoLocation, name)`. */
  function InfoDir(name: string): Path
  {
    InfoRoot + name + "/"
  }

  /** The container's directory is gone in both of its spellings: with the
      trailing slash and without it, as `os.MkdirAll` leaves it. */
  predicate InfoDirGone(dirs: set<Path>, name: string)
  {
    InfoDir(name) !in dirs && InfoRoot + name !in dirs
  }

  /** `path.Join(InfoDir(name), ConfigName)`, the record file. */
  function RecordPath(name: string): Path
  {
    PathJoin(InfoDir(name), ConfigName)
  }

  /** A name as a directory listing yields it: non-empty, without a slash,
      and neither `.` nor `..`. */
  predicate IsEntryName(name: string)
  {
    IsName(name)
  }

  /** The directories above every container's. */
  const InfoRootNames: seq<string> := ["var", "run", "mydocker"]

  /** A listed name's directory is spelt as `DirOf` spells it. */
  lemma InfoDirOf(name: string)
    requires IsEntryName(name)
    ensures InfoDir(name) == DirOf(InfoRootNames + [name])
    ensures forall i :: 0 <= i < |InfoRootNames + [name]| ==> IsName((InfoRootNames + [name])[i])
  {
    var ds := InfoRootNames + [name];
    assert ds[..3] == InfoRootNames;
    InfoRootOf();
  }

  /** The registry root is spelt as `DirOf` spells its names. */
  lemma InfoRootOf()
    ensures DirOf(InfoRootNames) == InfoRoot
    ensures forall i :: 0 <= i < |InfoRootNames| ==> IsName(InfoRootNames[i])
  {
    assert InfoRootNames[..2] == ["var", "run"] && ["var", "run"][..1] == ["var"] && ["var"][..0] == [];
  }

  /** For every listed name, the concatenation `InfoDir(name) + ConfigName`
      and the joined `RecordPath(name)` are the same file, and it lies in the
      container's directory. */
  lemma RecordPathSpellings(name: string)
    requires IsEntryName(name)
    ensures RecordPath(name) == InfoDir(name) + ConfigName
    ensures Under(RecordPath(name), InfoDir(name))
  {
    InfoDirOf(name);
    JoinNames(InfoRootNames + [name], [ConfigName]);
    assert Join([ConfigName], "/") == ConfigName;
  }

  /** The contents of a file: plain text, or the JSON encoding of a record.
      Only what `Marshal` produced decodes. */
  datatype Blob = Text(text: string) | Json(info: Info)

  /** `json.Marshal` of an `Info`. */
  function Marshal(info: Info): (b: Blob)
    ensures Unmarshal(b) == Some(info)
  {
    Json(info)
  }

  /** `json.Unmarshal` into an `Info`. */
  function Unmarshal(b: Blob): Option<Info>
  {
    if b.Json? then Some(b.info) else None
  }
}
