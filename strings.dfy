/** The parts of Go's `strings`, `strconv` and `path` packages that the core
    relies on: `strings.Split` on a one-character separator, `strings.Join`,
    `strconv.Itoa`, `strconv.Atoi` and `path.Join`. */
module Strings {
  import opened Results

  type Path = string

  /** Position of the first `c` in `s`, or `|s|` when `s` holds none. */
  function IndexOf(s: string, c: char): (k: nat)
    ensures k <= |s|
    ensures k < |s| ==> s[k] == c
    ensures forall i :: 0 <= i < k ==> s[i] != c
  {
    if |s| == 0 then 0 else if s[0] == c then 0 else 1 + IndexOf(s[1..], c)
  }

  /** `strings.Join(parts, sep)`. */
  function Join(parts: seq<string>, sep: string): string
  {
    if |parts| == 0 then ""
    else if |parts| == 1 then parts[0]
    else parts[0] + sep + Join(parts[1..], sep)
  }

  /** `strings.Split(s, string(sep))`: the pieces between the separators;
      never empty, even for the empty string. */
  function Split(s: string, sep: char): (parts: seq<string>)
    ensures |parts| >= 1
    ensures forall i :: 0 <= i < |parts| ==> sep !in parts[i]
    ensures Join(parts, [sep]) == s
    decreases |s|
  {
    var k := IndexOf(s, sep);
    if k == |s| then
      assert forall j :: 0 <= j < |s| ==> s[j] != sep;
      [s]
    else
      var rest := Split(s[k + 1..], sep);
      var parts := [s[..k]] + rest;
      assert parts[1..] == rest;
      assert s == s[..k] + [sep] + s[k + 1..];
      parts
  }

  lemma {:induction false} IndexOfAfterAbsent(a: string, b: string, c: char)
    requires c !in a
    ensures IndexOf(a + b, c) == |a| + IndexOf(b, c)
  {
    if |a| > 0 {
      assert (a + b)[1..] == a[1..] + b;
      IndexOfAfterAbsent(a[1..], b, c);
    } else {
      assert a + b == b;
    }
  }

  /** A separator-free head comes off as the first piece. */
  lemma SplitCons(a: string, b: string, sep: char)
    requires sep !in a
    ensures Split(a + [sep] + b, sep) == [a] + Split(b, sep)
  {
    var s := a + [sep] + b;
    assert s == a + ([sep] + b);
    IndexOfAfterAbsent(a, [sep] + b, sep);
    assert IndexOf([sep] + b, sep) == 0;
    assert s[|a| + 1..] == b;
    assert s[..|a|] == a;
  }

  /** Splitting a joined list gives the list back, provided no element
      contains the separator. */
  lemma {:induction false} SplitJoin(parts: seq<string>, sep: char)
    requires |parts| >= 1
    requires forall i :: 0 <= i < |parts| ==> sep !in parts[i]
    ensures Split(Join(parts, [sep]), sep) == parts
  {
    if |parts| == 1 {
      IndexOfAfterAbsent(parts[0], "", sep);
      assert parts[0] + "" == parts[0];
    } else {
      var tail := Join(parts[1..], [sep]);
      assert Join(parts, [sep]) == parts[0] + [sep] + tail;
      SplitCons(parts[0], tail, sep);
      SplitJoin(parts[1..], sep);
      assert parts == [parts[0]] + parts[1..];
    }
  }

  /** Joining one more part appends the separator and the part. */
  lemma {:induction false} JoinSnoc(parts: seq<string>, x: string, sep: string)
    requires |parts| >= 1
    ensures Join(parts + [x], sep) == Join(parts, sep) + sep + x
    decreases |parts|
  {
    if |parts| > 1 {
      assert (parts + [x])[1..] == parts[1..] + [x];
      JoinSnoc(parts[1..], x, sep);
    }
  }

  /** A character in neither the parts nor the separator is not in their
      join. */
  lemma {:induction false} JoinAvoids(parts: seq<string>, sep: string, c: char)
    requires c !in sep
    requires forall i :: 0 <= i < |parts| ==> c !in parts[i]
    ensures c !in Join(parts, sep)
    decreases |parts|
  {
    if |parts| > 1 {
      JoinAvoids(parts[1..], sep, c);
    }
  }

  // ---------------------------------------------------------------- numbers

  const MinInt: int := -0x8000_0000_0000_0000
  const MaxInt: int := 0x7fff_ffff_ffff_ffff

  predicate IsDigit(c: char) { '0' <= c <= '9' }

  function DigitChar(d: nat): (c: char)
    requires d < 10
    ensures IsDigit(c) && c as int - '0' as int == d
  {
    ('0' as int + d) as char
  }

  /** Decimal digits of `n`, most significant first, without leading zeros. */
  function NatToString(n: nat): (s: string)
    ensures |s| >= 1
    ensures forall i :: 0 <= i < |s| ==> IsDigit(s[i])
  {
    if n < 10 then [DigitChar(n)] else NatToString(n / 10) + [DigitChar(n % 10)]
  }

  /** `strconv.Itoa`. */
  function Itoa(n: int): (s: string)
    ensures |s| >= 1
    ensures (s[0] == '-') == (n < 0)
    ensures forall i :: 0 <= i < |s| ==> IsDigit(s[i]) || (i == 0 && n < 0)
  {
    if n < 0 then "-" + NatToString(-n) else NatToString(n)
  }

  /** The value of a string of decimal digits. */
  function DigitsValue(s: string): nat
    requires forall i :: 0 <= i < |s| ==> IsDigit(s[i])
  {
    if |s| == 0 then 0
    else
      assert IsDigit(s[|s| - 1]);
      DigitsValue(s[..|s| - 1]) * 10 + (s[|s| - 1] as int - '0' as int)
  }

  /** `strconv.Atoi` on a 64-bit platform: an optional sign, then at least one
      decimal digit and nothing else, with the value in the `int` range. */
  function Atoi(s: string): (r: Option<int>)
    ensures r.Some? ==> MinInt <= r.value <= MaxInt
    ensures r.Some? ==> |s| >= 1 && ' ' !in s
  {
    var signed := |s| > 0 && (s[0] == '-' || s[0] == '+');
    var digits := if signed then s[1..] else s;
    if |digits| == 0 || exists i :: 0 <= i < |digits| && !IsDigit(digits[i]) then None
    else
      var magnitude: int := DigitsValue(digits);
      var v := if |s| > 0 && s[0] == '-' then -magnitude else magnitude;
      if MinInt <= v <= MaxInt then
        assert forall i :: 0 <= i < |s| ==> s[i] != ' ' by {
          forall i | 0 <= i < |s| ensures s[i] != ' ' {
            if signed && i > 0 { assert s[i] == digits[i - 1]; }
            else if !signed { assert s[i] == digits[i]; }
          }
        }
        Some(v)
      else None
  }

  lemma {:induction false} DigitsOfNat(n: nat)
    ensures DigitsValue(NatToString(n)) == n
  {
    var s := NatToString(n);
    if n >= 10 {
      assert s[..|s| - 1] == NatToString(n / 10);
      DigitsOfNat(n / 10);
    } else {
      assert s[..|s| - 1] == "";
    }
  }

  /** `Atoi` reads back every `int` that `Itoa` writes. */
  lemma AtoiItoa(n: int)
    requires MinInt <= n <= MaxInt
    ensures Atoi(Itoa(n)) == Some(n)
  {
    var s := Itoa(n);
    if n < 0 {
      DigitsOfNat(-n);
      assert s[1..] == NatToString(-n);
    } else {
      DigitsOfNat(n);
      assert IsDigit(s[0]);
    }
  }

  // ------------------------------------------------------------------ paths

  /** One element of a path that names an entry: not empty, not `.` or
      `..`, and without a slash. */
  predicate IsName(e: string)
  {
    e != "" && e != "." && e != ".." && '/' !in e
  }

  /** The lexical rules of `path.Clean` applied to the elements `elems` of a
      path, after the elements `stack` kept so far: empty elements and `.`
      vanish, `..` removes the element before it, and a `..` with nothing
      before it is dropped in a rooted path and kept in a relative one. */
  function Resolve(stack: seq<string>, elems: seq<string>, rooted: bool): seq<string>
    decreases |elems|
  {
    if |elems| == 0 then stack
    else
      var e := elems[0];
      var next :=
        if e == "" || e == "." then stack
        else if e == ".." then
          (if |stack| > 0 && stack[|stack| - 1] != ".." then stack[..|stack| - 1]
           else if rooted then stack
           else stack + [".."])
        else stack + [e];
      Resolve(next, elems[1..], rooted)
  }

  /** `path.Clean(p)`: the shortest lexically equivalent path; `.` for a
      relative path that comes to nothing, `/` for a rooted one. */
  function Clean(p: Path): (r: Path)
    ensures p != "" && p[0] == '/' ==> r != "" && r[0] == '/'
  {
    if p == "" then "."
    else
      var rooted := p[0] == '/';
      var elems := Resolve([], Split(p, '/'), rooted);
      if rooted then "/" + Join(elems, "/")
      else if elems == [] then "." else Join(elems, "/")
  }

  /** `path.Join(a, b)`: the non-empty ones of `a` and `b` joined by a slash,
      then cleaned; `""` when both are empty. */
  function PathJoin(a: Path, b: Path): Path
  {
    if a == "" && b == "" then ""
    else if a == "" then Clean(b)
    else if b == "" then Clean(a)
    else Clean(a + "/" + b)
  }

  /** The directory `/d1/d2/.../dn/`, spelt with a trailing slash. */
  function DirOf(ds: seq<string>): (r: Path)
    ensures r != "" && r[0] == '/' && r[|r| - 1] == '/'
  {
    if |ds| == 0 then "/" else DirOf(ds[..|ds| - 1]) + ds[|ds| - 1] + "/"
  }

  /** `dir` spelt with exactly one trailing slash, as a prefix of what lies
      below it. */
  function Slashed(dir: Path): Path
  {
    if |dir| > 0 && dir[|dir| - 1] == '/' then dir else dir + "/"
  }

  /** `p` is `dir` itself, in either spelling of a trailing slash, or lies
      below it: what removing `dir` recursively deletes. */
  predicate Under(p: Path, dir: Path)
  {
    p == dir || p + "/" == dir || Slashed(dir) <= p
  }

  /** `p` and the directories on the way to it, as `os.MkdirAll` leaves
      them: every prefix that ends just before or just after a slash, so each
      is there with and without its trailing slash, and `p` itself. */
  function Ancestry(p: Path): set<Path>
  {
    set i | 0 < i <= |p| && (i == |p| || p[i] == '/' || p[i - 1] == '/') :: p[..i]
  }

  /** A non-empty path is one of its own ancestry. */
  lemma AncestrySelf(p: Path)
    requires p != ""
    ensures p in Ancestry(p)
  {
    assert p[..|p|] == p;
  }

  /** A prefix of `p` that ends in a slash is on the way to `p`. */
  lemma AncestorAt(p: Path, i: nat)
    requires 0 < i <= |p| && p[i - 1] == '/'
    ensures p[..i] in Ancestry(p)
  {
  }

  /** Joining two non-empty lists puts one separator between their joins. */
  lemma {:induction false} JoinAppend(a: seq<string>, b: seq<string>, sep: string)
    requires |a| >= 1 && |b| >= 1
    ensures Join(a + b, sep) == Join(a, sep) + sep + Join(b, sep)
    decreases |a|
  {
    if |a| == 1 {
      assert (a + b)[1..] == b;
    } else {
      assert (a + b)[1..] == a[1..] + b;
      JoinAppend(a[1..], b, sep);
    }
  }

  /** Putting `x` in place of an empty last part appends `x`. */
  lemma JoinLast(parts: seq<string>, x: string, sep: string)
    ensures Join(parts + [""], sep) + x == Join(parts + [x], sep)
  {
    if |parts| == 0 {
      assert parts + [""] == [""] && parts + [x] == [x];
    } else {
      JoinSnoc(parts, "", sep);
      JoinSnoc(parts, x, sep);
    }
  }

  /** A directory spelt by `DirOf` is its names between empty parts, joined
      by slashes. */
  lemma {:induction false} DirOfJoined(ds: seq<string>)
    ensures DirOf(ds) == Join([""] + ds + [""], "/")
    decreases |ds|
  {
    if |ds| > 0 {
      var init, d := ds[..|ds| - 1], ds[|ds| - 1];
      assert ds == init + [d];
      DirOfJoined(init);
      JoinLast([""] + init, d, "/");
      assert [""] + init + [d] == [""] + ds;
      JoinSnoc([""] + ds, "", "/");
      assert [""] + ds + [""] == ([""] + ds) + [""];
    }
  }

  /** Names appended to the stack stay, in order. */
  lemma {:induction false} ResolveNames(stack: seq<string>, names: seq<string>, rooted: bool)
    requires forall i :: 0 <= i < |names| ==> IsName(names[i])
    ensures Resolve(stack, names, rooted) == stack + names
    decreases |names|
  {
    if |names| > 0 {
      ResolveNames(stack + [names[0]], names[1..], rooted);
      assert stack + [names[0]] + names[1..] == stack + names;
    }
  }

  /** `Resolve` reads the elements from left to right. */
  lemma {:induction false} ResolveAppend(stack: seq<string>, x: seq<string>, y: seq<string>, rooted: bool)
    ensures Resolve(stack, x + y, rooted) == Resolve(Resolve(stack, x, rooted), y, rooted)
    decreases |x|
  {
    if |x| == 0 {
      assert x + y == y;
    } else {
      assert (x + y)[0] == x[0] && (x + y)[1..] == x[1..] + y;
      var e := x[0];
      var next :=
        if e == "" || e == "." then stack
        else if e == ".." then
          (if |stack| > 0 && stack[|stack| - 1] != ".." then stack[..|stack| - 1]
           else if rooted then stack
           else stack + [".."])
        else stack + [e];
      ResolveAppend(next, x[1..], y, rooted);
    }
  }

  /** What `path.Join` cleans: the directory's names, an empty element for
      the doubled slash, then the relative path's names. */
  lemma JoinedElements(ds: seq<string>, names: seq<string>)
    requires |names| >= 1
    ensures DirOf(ds) + "/" + Join(names, "/") == Join([""] + ds + [""] + names, "/")
  {
    DirOfJoined(ds);
    JoinAppend([""] + ds + [""], names, "/");
  }

  /** Cleaning drops the empty elements and keeps the names. */
  lemma ResolveDir(ds: seq<string>, names: seq<string>)
    requires forall i :: 0 <= i < |ds| ==> IsName(ds[i])
    requires forall i :: 0 <= i < |names| ==> IsName(names[i])
    ensures Resolve([], [""] + ds + [""] + names, true) == ds + names
  {
    ResolveAppend([], [""] + ds + [""], names, true);
    assert [""] + ds + [""] == [""] + (ds + [""]);
    ResolveAppend([], [""], ds + [""], true);
    assert Resolve([], [""], true) == [];
    ResolveAppend([], ds, [""], true);
    ResolveNames([], ds, true);
    assert [] + ds == ds;
    assert Resolve(ds, [""], true) == ds;
    ResolveNames(ds, names, true);
  }

  /** The cleaned elements, rooted, spell the directory followed by the
      relative path. */
  lemma CleanedSpelling(ds: seq<string>, names: seq<string>)
    requires |names| >= 1
    ensures "/" + Join(ds + names, "/") == DirOf(ds) + Join(names, "/")
  {
    DirThen(ds, Join(names, "/"));
    RootedJoin(ds, names);
  }
  /** Text after a directory follows its last slash. */
  lemma DirThen(ds: seq<string>, rel: string)
    ensures DirOf(ds) + rel == Join([""] + ds, "/") + "/" + rel
  {
    var head := [""] + ds;
    DirOfJoined(ds);
    assert [""] + ds + [""] == head + [""];
    JoinLast(head, rel, "/");
    JoinSnoc(head, rel, "/");
  }
  /** The rooted join of two lists of elements, spelt from its halves. */
  lemma RootedJoin(ds: seq<string>, names: seq<string>)
    requires |names| >= 1
    ensures Join([""] + ds, "/") + "/" + Join(names, "/") == "/" + Join(ds + names, "/")
  {
    if ds == [] {
      assert [""] + ds == [""] && ds + names == names;
    } else {
      JoinAfterEmpty(ds);
      JoinAppend(ds, names, "/");
    }
  }

  /** An empty first part leaves just the separator in front. */
  lemma JoinAfterEmpty(rest: seq<string>)
    requires |rest| >= 1
    ensures Join([""] + rest, "/") == "/" + Join(rest, "/")
  {
    var all := [""] + rest;
    assert all[0] == "" && all[1..] == rest && |all| >= 2;
  }

  /** Joining a relative path made of names onto a directory made of names
      only inserts it: `path.Join` then has nothing to clean. */
  lemma JoinNames(ds: seq<string>, names: seq<string>)
    requires forall i :: 0 <= i < |ds| ==> IsName(ds[i])
    requires |names| >= 1 && forall i :: 0 <= i < |names| ==> IsName(names[i])
    ensures PathJoin(DirOf(ds), Join(names, "/")) == DirOf(ds) + Join(names, "/")
    ensures Under(PathJoin(DirOf(ds), Join(names, "/")), DirOf(ds))
  {
    var rel := Join(names, "/");
    var dir := DirOf(ds);
    var parts := [""] + ds + [""] + names;
    JoinedElements(ds, names);
    SplitJoin(parts, '/');
    ResolveDir(ds, names);
    CleanedSpelling(ds, names);
    assert rel != "" by {
      if |names| > 1 { assert rel == names[0] + "/" + Join(names[1..], "/"); }
    }
    assert (dir + "/" + rel)[0] == '/';
    assert Clean(dir + "/" + rel) == "/" + Join(ds + names, "/");
    assert Slashed(dir) == dir;
  }

  /** Joining a name onto a directory spelt with a doubled trailing slash
      drops the extra slash. */
  lemma JoinAfterDoubledSlash(ds: seq<string>, name: string)
    requires forall i :: 0 <= i < |ds| ==> IsName(ds[i])
    requires IsName(name)
    ensures PathJoin(DirOf(ds) + "/", name) == DirOf(ds) + name
  {
    var p := DirOf(ds) + "/" + "/" + name;
    assert PathJoin(DirOf(ds) + "/", name) == Clean(p);
    DoubledSplit(ds, name);
    DoubledResolves(ds, name);
    assert p[0] == '/';
    assert Clean(p) == "/" + Join(ds + [name], "/");
    CleanedSpelling(ds, [name]);
    assert Join([name], "/") == name;
  }

  /** Split at its slashes, such a path gives those elements back. */
  lemma DoubledSplit(ds: seq<string>, name: string)
    requires forall i :: 0 <= i < |ds| ==> IsName(ds[i])
    requires IsName(name)
    ensures Split(DirOf(ds) + "/" + "/" + name, '/') == [""] + ds + ["", "", name]
  {
    DoubledSlashFree(ds, name);
    SplitJoin([""] + ds + ["", "", name], '/');
    DoubledParts(ds, name);
  }

  lemma DoubledSlashFree(ds: seq<string>, name: string)
    requires forall i :: 0 <= i < |ds| ==> IsName(ds[i])
    requires IsName(name)
    ensures var parts := [""] + ds + ["", "", name];
            forall k :: 0 <= k < |parts| ==> '/' !in parts[k]
  {
    var parts := [""] + ds + ["", "", name];
    forall k | 0 <= k < |parts| ensures '/' !in parts[k] {
      if 1 <= k <= |ds| { assert parts[k] == ds[k - 1]; }
    }
  }

  /** The elements of a directory spelt with a doubled trailing slash,
      followed by a name. */
  lemma DoubledParts(ds: seq<string>, name: string)
    ensures Join([""] + ds + ["", "", name], "/") == DirOf(ds) + "/" + "/" + name
  {
    var head := [""] + ds + [""];
    DirOfJoined(ds);
    JoinAppend(head, ["", name], "/");
    assert head + ["", name] == [""] + ds + ["", "", name];
    assert Join(["", name], "/") == "/" + name;
  }

  /** Cleaning those elements keeps the directory's names and the name. */
  lemma DoubledResolves(ds: seq<string>, name: string)
    requires forall i :: 0 <= i < |ds| ==> IsName(ds[i])
    requires IsName(name)
    ensures Resolve([], [""] + ds + ["", "", name], true) == ds + [name]
  {
    var head := [""] + ds + [""];
    assert [""] + ds + ["", "", name] == head + ["", name];
    ResolveAppend([], head, ["", name], true);
    ResolveBareDir(ds);
    ResolveEmptyThenName(ds, name);
  }

  /** A directory's elements alone clean to its names. */
  lemma ResolveBareDir(ds: seq<string>)
    requires forall i :: 0 <= i < |ds| ==> IsName(ds[i])
    ensures Resolve([], [""] + ds + [""], true) == ds
  {
    ResolveDir(ds, []);
    assert [""] + ds + [""] + [] == [""] + ds + [""];
    assert ds + [] == ds;
  }

  /** An empty element, then a name: the name is kept. */
  lemma ResolveEmptyThenName(ds: seq<string>, name: string)
    requires IsName(name)
    ensures Resolve(ds, ["", name], true) == ds + [name]
  {
    ResolveSkipsEmpty(ds, [name], true);
    assert [""] + [name] == ["", name];
    ResolveNames(ds, [name], true);
  }

  /** An empty element vanishes. */
  lemma ResolveSkipsEmpty(stack: seq<string>, rest: seq<string>, rooted: bool)
    ensures Resolve(stack, [""] + rest, rooted) == Resolve(stack, rest, rooted)
  {
    assert ([""] + rest)[0] == "" && ([""] + rest)[1..] == rest;
  }

  /** In a rooted path, what `Resolve` keeps of slash-free elements are
      names. */
  lemma {:induction false} ResolveKeepsNames(stack: seq<string>, elems: seq<string>)
    requires forall i :: 0 <= i < |stack| ==> IsName(stack[i])
    requires forall i :: 0 <= i < |elems| ==> '/' !in elems[i]
    ensures forall i :: 0 <= i < |Resolve(stack, elems, true)| ==> IsName(Resolve(stack, elems, true)[i])
    decreases |elems|
  {
    if |elems| > 0 {
      var e := elems[0];
      var next :=
        if e == "" || e == "." then stack
        else if e == ".." then
          (if |stack| > 0 && stack[|stack| - 1] != ".." then stack[..|stack| - 1] else stack)
        else stack + [e];
      assert forall i :: 0 <= i < |next| ==> IsName(next[i]);
      assert forall i :: 0 <= i < |elems[1..]| ==> '/' !in elems[1..][i] by {
        forall i | 0 <= i < |elems[1..]| ensures '/' !in elems[1..][i] { assert elems[1..][i] == elems[i + 1]; }
      }
      ResolveKeepsNames(next, elems[1..]);
      assert Resolve(stack, elems, true) == Resolve(next, elems[1..], true);
    }
  }

  /** Names joined by slashes end in a name's last character. */
  lemma {:induction false} JoinedNamesEnd(parts: seq<string>)
    requires |parts| >= 1 && forall i :: 0 <= i < |parts| ==> IsName(parts[i])
    ensures var j := Join(parts, "/"); j != "" && j[|j| - 1] != '/'
    decreases |parts|
  {
    if |parts| > 1 {
      var init := parts[..|parts| - 1];
      assert parts == init + [parts[|parts| - 1]];
      JoinSnoc(init, parts[|parts| - 1], "/");
      var x := parts[|parts| - 1];
      assert x[|x| - 1] in x;
    } else {
      assert parts[0][|parts[0]| - 1] in parts[0];
    }
  }

  /** A cleaned rooted path is `/` or has no trailing slash. */
  lemma CleanNoTrailingSlash(p: Path)
    requires p != "" && p[0] == '/'
    ensures var r := Clean(p); r == "/" || r[|r| - 1] != '/'
  {
    var elems := Resolve([], Split(p, '/'), true);
    ResolveKeepsNames([], Split(p, '/'));
    assert forall i :: 0 <= i < |elems| ==> IsName(elems[i]);
    assert Clean(p) == "/" + Join(elems, "/");
    if elems != [] {
      JoinedNamesEnd(elems);
    }
  }
}
