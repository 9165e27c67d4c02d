/** `mydocker ps`: list the registry directory, load the record of every
    entry that has one, skip the others, and print one tab-separated line
    per container under a header line. The names `ioutil.ReadDir` answers
    with, in its order, are a parameter. */
module List {
  import opened Results
  import opened Strings
  import opened Records
  import opened Host
  import Run

  /** `fmt.Sprintf(DefaultInfoLocation, "")` less its last character: the
      doubled slash goes and the registry root keeps its one trailing
      slash. */
  const ListRoot: Path := InfoDir("")[..|InfoDir("")| - 1]

  lemma ListRootIsInfoRoot()
    ensures ListRoot == InfoRoot == "/var/run/mydocker/"
  {
  }

  /** The record file of a listed entry, spelt by concatenation. */
  function EntryRecordPath(containerName: string): Path
  {
    InfoDir(containerName) + ConfigName
  }

  /** `getContainerInfo(file)`: the record of the entry, or why there is
      none. */
  function EntryInfo(s: HostState, refused: set<Op>, containerName: string): Result<Info, Error>
  {
    ReadRecordIn(s, refused, EntryRecordPath(containerName))
  }

  /** For every name a listing can yield, `ps` reads the same file as `stop`,
      `rm` and `exec`. */
  lemma EntryPathsAgree(s: HostState, refused: set<Op>, containerName: string)
    requires IsEntryName(containerName)
    ensures EntryInfo(s, refused, containerName) == ReadRecordIn(s, refused, RecordPath(containerName))
  {
    RecordPathSpellings(containerName);
  }

  method GetContainerInfo(h: Host, containerName: string) returns (r: Result<Info, Error>)
    ensures r == EntryInfo(h.State(), h.refused, containerName)
  {
    var configFileDir := InfoDir(containerName);
    var configFilePath := configFileDir + ConfigName;
    var content := h.ReadFile(configFilePath);
    if content.Err? {
      return Err(content.error);
    }
    var containerInfo := Unmarshal(content.value);
    if containerInfo.None? {
      return Err(Undecodable(configFilePath));
    }
    return Ok(containerInfo.value);
  }

  /** The records of the entries that load, in the order of the entries. */
  function Loaded(s: HostState, refused: set<Op>, names: seq<string>): seq<Info>
    decreases |names|
  {
    if names == [] then []
    else
      var rest := Loaded(s, refused, names[..|names| - 1]);
      match EntryInfo(s, refused, names[|names| - 1])
      case Ok(info) => rest + [info]
      case Err(_) => rest
  }

  /** A record is listed exactly when some entry loads it. */
  lemma {:induction false} LoadedMembers(s: HostState, refused: set<Op>, names: seq<string>)
    ensures forall x :: x in Loaded(s, refused, names) <==>
              exists i :: 0 <= i < |names| && EntryInfo(s, refused, names[i]) == Ok(x)
    decreases |names|
  {
    if names != [] {
      var init := names[..|names| - 1];
      LoadedMembers(s, refused, init);
      forall x ensures x in Loaded(s, refused, names) <==>
                         exists i :: 0 <= i < |names| && EntryInfo(s, refused, names[i]) == Ok(x)
      {
        if x in Loaded(s, refused, init) {
          var i :| 0 <= i < |init| && EntryInfo(s, refused, init[i]) == Ok(x);
          assert names[i] == init[i];
        }
        if exists i :: 0 <= i < |names| && EntryInfo(s, refused, names[i]) == Ok(x) {
          var i :| 0 <= i < |names| && EntryInfo(s, refused, names[i]) == Ok(x);
          if i < |init| {
            assert init[i] == names[i];
          }
        }
      }
    }
  }

  /** The listing keeps the order of the entries: listing `a` then `b` is
      listing `a + b`. */
  lemma {:induction false} LoadedAppend(s: HostState, refused: set<Op>, a: seq<string>, b: seq<string>)
    ensures Loaded(s, refused, a + b) == Loaded(s, refused, a) + Loaded(s, refused, b)
    decreases |b|
  {
    if b == [] {
      assert a + b == a;
    } else {
      var b' := b[..|b| - 1];
      assert (a + b)[..|a + b| - 1] == a + b';
      assert (a + b)[|a + b| - 1] == b[|b| - 1];
      LoadedAppend(s, refused, a, b');
    }
  }

  /** Every entry gives at most one record, and one each exactly when every
      entry loads; the records then follow the entries one for one. */
  lemma {:induction false} LoadedCount(s: HostState, refused: set<Op>, names: seq<string>)
    ensures |Loaded(s, refused, names)| <= |names|
    ensures |Loaded(s, refused, names)| == |names| <==>
              forall i :: 0 <= i < |names| ==> EntryInfo(s, refused, names[i]).Ok?
    ensures (forall i :: 0 <= i < |names| ==> EntryInfo(s, refused, names[i]).Ok?) ==>
              forall i :: 0 <= i < |names| ==> Loaded(s, refused, names)[i] == EntryInfo(s, refused, names[i]).value
    decreases |names|
  {
    if names != [] {
      var init := names[..|names| - 1];
      LoadedCount(s, refused, init);
      assert forall i :: 0 <= i < |init| ==> init[i] == names[i];
      if !EntryInfo(s, refused, names[|names| - 1]).Ok? {
        assert |Loaded(s, refused, names)| < |names|;
      }
    }
  }

  // ---------------------------------------------------------- the table

  const HeaderCells: seq<string> := ["ID", "NAME", "PID", "STATUS", "COMMAND", "CREATED"]

  /** The header line without its newline. */
  function HeaderText(): string
  {
    Join(HeaderCells, "\t")
  }

  /** The cells of a record's line, in the order of the header. */
  function RowCells(info: Info): (r: seq<string>)
    ensures |r| == |HeaderCells|
  {
    [info.id, info.name, info.pid, info.status, info.command, info.creationTime]
  }

  /** `"%s\t%s\t%s\t%s\t%s\t%s\t"` of the six fields: every cell ends in a
      tab. */
  function RowText(info: Info): string
  {
    Join(RowCells(info) + [""], "\t")
  }

  /** The lines of the records, in their order. */
  function Lines(infos: seq<Info>): (r: seq<string>)
    ensures |r| == |infos|
    ensures forall i :: 0 <= i < |infos| ==> r[i] == RowText(infos[i])
    decreases |infos|
  {
    if infos == [] then []
    else Lines(infos[..|infos| - 1]) + [RowText(infos[|infos| - 1])]
  }

  /** What is written to the table writer: the header line, then one line
      per record. */
  function TableText(infos: seq<Info>): string
    decreases |infos|
  {
    if infos == [] then HeaderText() + "\n"
    else TableText(infos[..|infos| - 1]) + RowText(infos[|infos| - 1]) + "\n"
  }

  /** No field of the record holds `c`. */
  predicate FieldsAvoid(info: Info, c: char)
  {
    forall i :: 0 <= i < |RowCells(info)| ==> c !in RowCells(info)[i]
  }

  /** Cut at the newlines, the table is the header line, then one line per
      record in the order of the records, then nothing: provided no field
      holds a newline. */
  lemma TableLines(infos: seq<Info>)
    requires forall i :: 0 <= i < |infos| ==> FieldsAvoid(infos[i], '\n')
    ensures Split(TableText(infos), '\n') == [HeaderText()] + Lines(infos) + [""]
  {
    var lines := Lines(infos);
    assert forall i :: 0 <= i < |lines| ==> '\n' !in lines[i] by {
      LinesAvoid(infos, '\n');
    }
    HeaderAvoids();
    FramedSplit(HeaderText(), lines);
    TableJoin(infos);
  }

  /** Lines free of newlines, framed by a head line and a final newline,
      are cut apart again at the newlines. */
  lemma FramedSplit(head: string, lines: seq<string>)
    requires '\n' !in head && forall i :: 0 <= i < |lines| ==> '\n' !in lines[i]
    ensures Split(Join([head] + lines + [""], "\n"), '\n') == [head] + lines + [""]
  {
    FramedAvoid(head, lines, '\n');
    SplitJoin([head] + lines + [""], '\n');
  }

  lemma HeaderAvoids()
    ensures '\n' !in HeaderText()
  {
    var cells := HeaderCells;
    assert cells[0] == "ID" && cells[1] == "NAME" && cells[2] == "PID";
    assert cells[3] == "STATUS" && cells[4] == "COMMAND" && cells[5] == "CREATED";
    forall i | 0 <= i < |cells| ensures '\n' !in cells[i] {
      var w := cells[i];
      assert forall j :: 0 <= j < |w| ==> 'A' <= w[j] <= 'Z';
    }
    JoinAvoids(cells, "\t", '\n');
  }

  lemma LinesAvoid(infos: seq<Info>, c: char)
    requires c != '\t' && forall i :: 0 <= i < |infos| ==> FieldsAvoid(infos[i], c)
    ensures forall i :: 0 <= i < |infos| ==> c !in Lines(infos)[i]
  {
    forall i | 0 <= i < |infos| ensures c !in Lines(infos)[i] {
      RowAvoids(infos[i], c);
    }
  }

  lemma FramedAvoid(head: string, lines: seq<string>, c: char)
    requires c !in head && forall i :: 0 <= i < |lines| ==> c !in lines[i]
    ensures var parts := [head] + lines + [""];
            forall i :: 0 <= i < |parts| ==> c !in parts[i]
  {
    var parts := [head] + lines + [""];
    forall i | 0 <= i < |parts| ensures c !in parts[i] {
      if 0 < i < |parts| - 1 {
        assert parts[i] == lines[i - 1];
      }
    }
  }

  lemma RowAvoids(info: Info, c: char)
    requires FieldsAvoid(info, c) && c != '\t'
    ensures c !in RowText(info)
  {
    var cells := RowCells(info) + [""];
    assert forall i :: 0 <= i < |RowCells(info)| ==> cells[i] == RowCells(info)[i];
    JoinAvoids(cells, "\t", c);
  }

  /** The table is its lines joined by newlines, with a newline after the
      last. */
  lemma {:induction false} TableJoin(infos: seq<Info>)
    ensures TableText(infos) == Join([HeaderText()] + Lines(infos) + [""], "\n")
    decreases |infos|
  {
    if infos == [] {
      JoinSnoc([HeaderText()], "", "\n");
      assert [HeaderText()] + Lines(infos) + [""] == [HeaderText()] + [""];
    } else {
      var init := infos[..|infos| - 1];
      var row := RowText(infos[|infos| - 1]);
      TableJoin(init);
      var prev := [HeaderText()] + Lines(init);
      LinesSnoc(prev, row, "\n");
      assert [HeaderText()] + Lines(infos) + [""] == prev + [row] + [""];
    }
  }

  /** One more line before the final newline. */
  lemma LinesSnoc(prev: seq<string>, row: string, nl: string)
    requires |prev| >= 1
    ensures Join(prev + [row] + [""], nl) == Join(prev + [""], nl) + row + nl
  {
    JoinSnoc(prev + [row], "", nl);
    JoinSnoc(prev, row, nl);
    JoinSnoc(prev, "", nl);
  }

  /** Cut at the tabs, a record's line is its six fields in the order of
      the header, then the empty rest after the last tab: provided no
      field holds a tab. */
  lemma RowColumns(info: Info)
    requires FieldsAvoid(info, '\t')
    ensures Split(RowText(info), '\t') == RowCells(info) + [""]
  {
    var cells := RowCells(info) + [""];
    assert forall i :: 0 <= i < |RowCells(info)| ==> cells[i] == RowCells(info)[i];
    SplitJoin(cells, '\t');
  }

  // ----------------------------------------------------------- ListContainers

  /** `ListContainers()`, given the names the listing yields: nothing when the
      registry root cannot be listed, and otherwise the table of the records
      that load. */
  function ListSpec(s: HostState, refused: set<Op>, names: seq<string>): Option<string>
  {
    if ReadDirIn(s, refused, ListRoot).Some? then None
    else Some(TableText(Loaded(s, refused, names)))
  }

  method ListContainers(h: Host, names: seq<string>) returns (out: Option<string>)
    ensures out == ListSpec(h.State(), h.refused, names)
  {
    var dirURL := InfoDir("");
    dirURL := dirURL[..|dirURL| - 1];
    var err := h.ReadDir(dirURL);
    if err.Some? {
      return None;
    }
    var containerInfos: seq<Info> := [];
    for i := 0 to |names|
      invariant containerInfos == Loaded(h.State(), h.refused, names[..i])
    {
      assert names[..i + 1][..i] == names[..i];
      var curContainerInfo := GetContainerInfo(h, names[i]);
      if curContainerInfo.Err? {
        continue;
      }
      containerInfos := containerInfos + [curContainerInfo.value];
    }
    assert names[..|names|] == names;
    var w := HeaderText() + "\n";
    for j := 0 to |containerInfos|
      invariant w == TableText(containerInfos[..j])
    {
      assert containerInfos[..j + 1][..j] == containerInfos[..j];
      w := w + RowText(containerInfos[j]) + "\n";
    }
    assert containerInfos[..|containerInfos|] == containerInfos;
    return Some(w);
  }

  /** A container that `run` has recorded is listed with its record, under
      any listing that names it. */
  lemma ListShowsRecorded(s: HostState, refused: set<Op>, names: seq<string>, info: Info, containerName: string)
    requires IsEntryName(containerName) && containerName in names
    requires ReadRecordIn(s, refused, RecordPath(containerName)) == Ok(info)
    ensures info in Loaded(s, refused, names)
  {
    EntryPathsAgree(s, refused, containerName);
    LoadedMembers(s, refused, names);
    var i :| 0 <= i < |names| && names[i] == containerName;
    assert EntryInfo(s, refused, names[i]) == Ok(info);
  }

  /** What `run` records, `ps` lists: once the recording has succeeded, the
      registry root can be listed, and a listing that names the new
      container loads the record just written. */
  lemma RecordedIsListed(s: HostState, refused: set<Op>, pid: int, commandArray: seq<string>,
                         containerName: string, draws: seq<Run.Nibble>, now: string, names: seq<string>)
    requires ReadDir(ListRoot) !in refused
    requires ReadFile(RecordPath(Run.RecordName(containerName, Run.IdOf(draws)))) !in refused
    ensures var r := Run.RecordSpec(s, refused, pid, commandArray, containerName, draws, now);
            r.2.None? ==>
              ListSpec(r.0, refused, names) == Some(TableText(Loaded(r.0, refused, names))) &&
              (IsEntryName(r.1) && r.1 in names ==>
                 Run.NewRecord(pid, commandArray, r.1, Run.IdOf(draws), now) in Loaded(r.0, refused, names))
  {
    var r := Run.RecordSpec(s, refused, pid, commandArray, containerName, draws, now);
    Run.RecordWritesRecord(s, refused, pid, commandArray, containerName, draws, now);
    ListRootIsInfoRoot();
    if r.2.None? && IsEntryName(r.1) && r.1 in names {
      ListShowsRecorded(r.0, refused, names, Run.NewRecord(pid, commandArray, r.1, Run.IdOf(draws), now), r.1);
    }
  }
}
