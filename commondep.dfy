/** The common-dependency resolver of `commondep.py`: which of the shared
    modules in the common directory a function's sources need, directly or
    through other shared modules.  Only `import` statements at the top level
    of a module count. */
module CommonDeps {
  import opened Outcomes
  import opened Files
  import opened Sorting
  import Text

  /** A top-level statement of a module, as far as imports go: `import a.b, c`,
      `from m import x` (a relative `from . import x` has no module), a
      compound statement (a `def`, `class`, `if`, `try`...) whose body holds
      more statements, or anything else. */
  datatype Stmt =
    | Import(names: seq<string>)
    | ImportFrom(source: Option<string>)
    | Compound(body: seq<Stmt>)
    | Other

  /** An entry of a directory listing. */
  datatype Entry = Entry(name: string, isDir: bool)

  /** What the resolver learns from the disk: the listing of a directory, which
      paths are directories, the `*.py` files anywhere below a directory in the order
      the operating system gives them, and the top-level statements of every
      readable, parsable source file. */
  datatype CodeTree = CodeTree(
    listings: map<Path, seq<Entry>>,
    dirs: set<Path>,
    sources: map<Path, seq<Path>>,
    modules: map<Path, seq<Stmt>>)

  predicate NoDup(s: seq<string>)
  {
    forall i, j :: 0 <= i < j < |s| ==> s[i] != s[j]
  }

  // ---------------------------------------------------------------------------
  // `find_commons`

  /** A name `*.py` matches. */
  predicate IsPy(name: string)
  {
    |name| >= 3 && name[|name| - 3..] == ".py"
  }

  /** `Path(name).stem` of a name `*.py` matches: a name that is only the
      suffix has no suffix of its own. */
  function Stem(name: string): string
    requires IsPy(name)
  {
    if name == ".py" then name else name[..|name| - 3]
  }

  predicate Private(name: string)
  {
    |name| > 0 && name[0] == '_'
  }

  /** The names of the subdirectories, in listing order. */
  function DirNames(listing: seq<Entry>): seq<string>
    decreases |listing|
  {
    if |listing| == 0 then []
    else
      var last := listing[|listing| - 1];
      DirNames(listing[..|listing| - 1]) + (if last.isDir then [last.name] else [])
  }

  /** The stems of the `*.py` entries, in listing order. */
  function PyStems(listing: seq<Entry>): seq<string>
    decreases |listing|
  {
    if |listing| == 0 then []
    else
      var last := listing[|listing| - 1];
      PyStems(listing[..|listing| - 1]) + (if IsPy(last.name) then [Stem(last.name)] else [])
  }

  /** The names that do not start with `_`, in order. */
  function Public(names: seq<string>): (r: seq<string>)
    ensures forall x :: x in r <==> x in names && !Private(x)
  {
    if |names| == 0 then []
    else (if Private(names[0]) then [] else [names[0]]) + Public(names[1..])
  }

  /** The shared module names of a listing, as `find_commons` gives them. */
  function Commons(listing: seq<Entry>): seq<string>
  {
    SortBy(Public(DirNames(listing) + PyStems(listing)), Identity)
  }

  /** An entry of the listing offers the name: a directory by its name, a
      `*.py` entry by its stem. */
  predicate Offered(listing: seq<Entry>, x: string)
  {
    exists i :: 0 <= i < |listing| && ((listing[i].isDir && listing[i].name == x) || (IsPy(listing[i].name) && Stem(listing[i].name) == x))
  }

  lemma {:induction false} DirNamesMember(listing: seq<Entry>, x: string)
    ensures x in DirNames(listing) <==> exists i :: 0 <= i < |listing| && listing[i].isDir && listing[i].name == x
    decreases |listing|
  {
    if |listing| > 0 {
      var init := listing[..|listing| - 1];
      DirNamesMember(init, x);
      assert forall i :: 0 <= i < |init| ==> init[i] == listing[i];
    }
  }

  lemma {:induction false} PyStemsMember(listing: seq<Entry>, x: string)
    ensures x in PyStems(listing) <==> exists i :: 0 <= i < |listing| && IsPy(listing[i].name) && Stem(listing[i].name) == x
    decreases |listing|
  {
    if |listing| > 0 {
      var init := listing[..|listing| - 1];
      PyStemsMember(init, x);
      assert forall i :: 0 <= i < |init| ==> init[i] == listing[i];
    }
  }

  /** `find_commons` gives, in order, exactly the names of the subdirectories
      and the stems of the `*.py` entries that do not start with `_`. */
  lemma CommonsMember(listing: seq<Entry>, x: string)
    ensures SortedBy(Commons(listing), Identity)
    ensures x in Commons(listing) <==> !Private(x) && Offered(listing, x)
  {
    var names := Public(DirNames(listing) + PyStems(listing));
    SortBySorted(names, Identity);
    assert x in Commons(listing) <==> x in multiset(Commons(listing));
    assert x in names <==> x in multiset(names);
    DirNamesMember(listing, x);
    PyStemsMember(listing, x);
  }

  /** `find_commons(common_base)`. */
  method FindCommons(tree: CodeTree, base: Path) returns (r: Result<seq<string>>)
    ensures base !in tree.listings ==> r == Crash
    ensures base in tree.listings ==> r == Ok(Commons(tree.listings[base]))
  {
    if base !in tree.listings {
      return Crash;
    }
    var listing := tree.listings[base];
    var commons: seq<string> := [];
    for i := 0 to |listing|
      invariant commons == DirNames(listing[..i])
    {
      assert listing[..i + 1][..i] == listing[..i];
      if listing[i].isDir {
        commons := commons + [listing[i].name];
      }
    }
    assert listing[..|listing|] == listing;
    for i := 0 to |listing|
      invariant commons == DirNames(listing) + PyStems(listing[..i])
    {
      assert listing[..i + 1][..i] == listing[..i];
      if IsPy(listing[i].name) {
        assert (DirNames(listing) + PyStems(listing[..i])) + [Stem(listing[i].name)] == DirNames(listing) + (PyStems(listing[..i]) + [Stem(listing[i].name)]);
        commons := commons + [Stem(listing[i].name)];
      } else {
        assert PyStems(listing[..i]) + [] == PyStems(listing[..i]);
      }
    }
    assert listing[..|listing|] == listing;
    return Ok(SortBy(Public(commons), Identity));
  }

  // ---------------------------------------------------------------------------
  // `is_common_package`

  /** The shared module a dotted import name names: its second segment, when
      the first is `common` and the second is a shared module. */
  function IsCommonPackage(name: string, commons: seq<string>): (r: Option<string>)
    ensures r.Some? ==> r.value in commons && '.' !in r.value
  {
    var split := Text.Split(name, '.');
    if |split| < 2 then None
    else if split[0] != "common" then None
    else if split[1] !in commons then None
    else Some(split[1])
  }

  /** On a name made of dot-free segments the rule reads off the segments. */
  lemma CommonPackageOfSegments(parts: seq<string>, commons: seq<string>)
    requires |parts| > 0 && forall i :: 0 <= i < |parts| ==> '.' !in parts[i]
    ensures IsCommonPackage(Text.Join(parts, '.'), commons)
      == if |parts| >= 2 && parts[0] == "common" && parts[1] in commons then Some(parts[1]) else None
  {
    Text.SplitJoin(parts, '.');
  }

  // ---------------------------------------------------------------------------
  // The imports of one file

  /** What a walrus test on `is_common_package` lets through: a package whose
      name is not empty. */
  function Package(name: string, commons: seq<string>): Option<string>
  {
    var p := IsCommonPackage(name, commons);
    if p.Some? && p.value != "" then p else None
  }

  /** `file_imports.add(p)` on the set kept as its elements in the order found. */
  function AddName(found: seq<string>, p: Option<string>): seq<string>
  {
    if p.Some? && p.value !in found then found + [p.value] else found
  }

  function NamesImports(names: seq<string>, commons: seq<string>, found: seq<string>): seq<string>
    decreases |names|
  {
    if |names| == 0 then found else NamesImports(names[1..], commons, AddName(found, Package(names[0], commons)))
  }

  /** One statement's contribution; the body of a compound statement is not
      looked at. */
  function StmtImports(s: Stmt, commons: seq<string>, found: seq<string>): seq<string>
  {
    match s
    case Import(names) => NamesImports(SortBy(names, Identity), commons, found)
    case ImportFrom(m) => if m.Some? && m.value != "" then AddName(found, Package(m.value, commons)) else found
    case _ => found
  }

  function FileImports(stmts: seq<Stmt>, commons: seq<string>, found: seq<string>): seq<string>
    decreases |stmts|
  {
    if |stmts| == 0 then found else FileImports(stmts[1..], commons, StmtImports(stmts[0], commons, found))
  }

  /** The shared modules one statement names, as a set. */
  function ImportsOf(s: Stmt, commons: seq<string>): set<string>
  {
    match s
    case Import(names) => set n | n in names && Package(n, commons).Some? :: Package(n, commons).value
    case ImportFrom(m) =>
      if m.Some? && m.value != "" && Package(m.value, commons).Some? then {Package(m.value, commons).value} else {}
    case _ => {}
  }

  lemma {:induction false} NamesImportsMember(names: seq<string>, commons: seq<string>, found: seq<string>, x: string)
    requires NoDup(found)
    ensures NoDup(NamesImports(names, commons, found))
    ensures x in NamesImports(names, commons, found) <==>
      x in found || exists n :: n in names && Package(n, commons) == Some(x)
    decreases |names|
  {
    if |names| > 0 {
      var next := AddName(found, Package(names[0], commons));
      AddNameMember(found, Package(names[0], commons), x);
      NamesImportsMember(names[1..], commons, next, x);
      NamesSplit(names, commons, x);
    }
  }

  lemma AddNameMember(found: seq<string>, p: Option<string>, x: string)
    requires NoDup(found)
    ensures NoDup(AddName(found, p))
    ensures x in AddName(found, p) <==> x in found || p == Some(x)
  {
  }

  lemma NamesSplit(names: seq<string>, commons: seq<string>, x: string)
    requires |names| > 0
    ensures (exists n :: n in names && Package(n, commons) == Some(x)) <==>
      Package(names[0], commons) == Some(x) || exists n :: n in names[1..] && Package(n, commons) == Some(x)
  {
    assert names == [names[0]] + names[1..];
  }

  lemma StmtImportsMember(s: Stmt, commons: seq<string>, found: seq<string>, x: string)
    requires NoDup(found)
    ensures NoDup(StmtImports(s, commons, found))
    ensures x in StmtImports(s, commons, found) <==> x in found || x in ImportsOf(s, commons)
  {
    if s.Import? {
      var sorted := SortBy(s.names, Identity);
      NamesImportsMember(sorted, commons, found, x);
      forall n ensures n in sorted <==> n in s.names {
        assert n in sorted <==> n in multiset(sorted);
        assert n in s.names <==> n in multiset(s.names);
      }
    }
  }

  /** A file's imports are the shared modules its top-level statements name,
      each once. */
  lemma {:induction false} FileImportsMember(stmts: seq<Stmt>, commons: seq<string>, found: seq<string>, x: string)
    requires NoDup(found)
    ensures NoDup(FileImports(stmts, commons, found))
    ensures x in FileImports(stmts, commons, found) <==>
      x in found || exists i :: 0 <= i < |stmts| && x in ImportsOf(stmts[i], commons)
    decreases |stmts|
  {
    if |stmts| > 0 {
      var next := StmtImports(stmts[0], commons, found);
      StmtImportsMember(stmts[0], commons, found, x);
      FileImportsMember(stmts[1..], commons, next, x);
      assert forall i :: 0 < i < |stmts| ==> stmts[1..][i - 1] == stmts[i];
      if exists i :: 0 <= i < |stmts[1..]| && x in ImportsOf(stmts[1..][i], commons) {
        var i :| 0 <= i < |stmts[1..]| && x in ImportsOf(stmts[1..][i], commons);
        assert stmts[1..][i] == stmts[i + 1];
      }
    }
  }

  /** Two modules whose top-level statements agree except inside compound
      statements give the same imports: nested imports are not looked at. */
  lemma {:induction false} NestedIgnored(a: seq<Stmt>, b: seq<Stmt>, commons: seq<string>, found: seq<string>)
    requires |a| == |b|
    requires forall i :: 0 <= i < |a| ==> a[i] == b[i] || (a[i].Compound? && b[i].Compound?)
    ensures FileImports(a, commons, found) == FileImports(b, commons, found)
    decreases |a|
  {
    if |a| > 0 {
      assert StmtImports(a[0], commons, found) == StmtImports(b[0], commons, found);
      assert forall i :: 0 <= i < |a[1..]| ==> a[1..][i] == a[i + 1] && b[1..][i] == b[i + 1];
      NestedIgnored(a[1..], b[1..], commons, StmtImports(a[0], commons, found));
    }
  }

  /** The inner loop over the names of one `import` statement. */
  method CollectNames(names: seq<string>, commons: seq<string>, start: seq<string>) returns (found: seq<string>)
    ensures found == NamesImports(names, commons, start)
  {
    found := start;
    var j := 0;
    while j < |names|
      invariant 0 <= j <= |names|
      invariant NamesImports(names[j..], commons, found) == NamesImports(names, commons, start)
    {
      assert names[j..][1..] == names[j + 1..];
      var package := Package(names[j], commons);
      if package.Some? && package.value !in found {
        found := found + [package.value];
      }
      j := j + 1;
    }
    assert names[j..] == [];
  }

  /** The loops over a file's top-level statements. */
  method CollectImports(stmts: seq<Stmt>, commons: seq<string>) returns (found: seq<string>)
    ensures found == FileImports(stmts, commons, [])
  {
    found := [];
    var i := 0;
    while i < |stmts|
      invariant 0 <= i <= |stmts|
      invariant FileImports(stmts[i..], commons, found) == FileImports(stmts, commons, [])
    {
      assert stmts[i..][1..] == stmts[i + 1..];
      var stmt := stmts[i];
      if stmt.Import? {
        found := CollectNames(SortBy(stmt.names, Identity), commons, found);
      } else if stmt.ImportFrom? {
        if stmt.source.Some? && stmt.source.value != "" {
          var package := Package(stmt.source.value, commons);
          if package.Some? && package.value !in found {
            found := found + [package.value];
          }
        }
      }
      i := i + 1;
    }
    assert stmts[i..] == [];
  }

  // ---------------------------------------------------------------------------
  // The closure

  /** The shared module names as a set. */
  function CommonSet(commons: seq<string>): set<string>
  {
    set x | x in commons
  }

  /** `set(file_imports) - common_imports`, in the order found. */
  function Fresh(found: seq<string>, seen: set<string>): (r: seq<string>)
    ensures forall x :: x in r <==> x in found && x !in seen
    ensures NoDup(found) ==> NoDup(r)
  {
    if |found| == 0 then []
    else
      var rest := Fresh(found[1..], seen);
      assert NoDup(found) ==> NoDup(found[1..]) && found[0] !in found[1..] by {
        if NoDup(found) {
          forall i | 0 <= i < |found[1..]| ensures found[1..][i] != found[0] {
            assert found[1..][i] == found[i + 1];
          }
        }
      }
      if found[0] in seen then rest else [found[0]] + rest
  }

  function AsSet(s: seq<string>): set<string>
  {
    set x | x in s
  }

  /** Adding new shared names leaves fewer to find. */
  lemma Shrinks(c: set<string>, seen: set<string>, added: seq<string>)
    requires |added| > 0 && forall x :: x in added ==> x in c && x !in seen
    ensures |c - (seen + AsSet(added))| < |c - seen|
  {
    var a := c - seen;
    var d := AsSet(added);
    assert added[0] in d;
    assert c - (seen + d) == a - d;
    assert a == (a - d) + d;
    assert (a - d) !! d;
  }

  /** A larger set leaves no more to find. */
  lemma Monotone(c: set<string>, seen: set<string>, more: set<string>)
    requires seen <= more
    ensures |c - more| <= |c - seen|
  {
    var a := c - seen;
    var b := c - more;
    assert a == b + (a - b);
    assert b !! (a - b);
  }

  /** The path of a shared module that is a single file. */
  function ModuleFile(base: Path, name: string): Path
  {
    Files.Join(base, name + ".py")
  }

  /** `str(path)`, the key the target's files are sorted by. */
  function PathText(p: Path): string
  {
    (if p.absolute then "/" else "") + Text.Join(p.parts, '/')
  }

  function Sources(tree: CodeTree, dir: Path): seq<Path>
  {
    if dir in tree.sources then tree.sources[dir] else []
  }

  /** `find_common_deps_in_file`: the file's new shared imports are added to
      the set, then each, in order, is scanned as a directory or a file. */
  function ScanFile(tree: CodeTree, base: Path, commons: seq<string>, file: Path, seen: set<string>): (r: Result<set<string>>)
    ensures r.Ok? ==> seen <= r.value && r.value <= seen + CommonSet(commons)
    decreases |CommonSet(commons) - seen|, 0, 0
  {
    if file !in tree.modules then Crash
    else
      var found := FileImports(tree.modules[file], commons, []);
      var added := Fresh(found, seen);
      if |added| == 0 then Ok(seen)
      else
        FileImportsShared(tree.modules[file], commons);
        Shrinks(CommonSet(commons), seen, added);
        ScanNew(tree, base, commons, SortBy(added, Identity), seen + AsSet(added))
  }

  /** The loop over the new imports of `find_common_deps_in_file`. */
  function ScanNew(tree: CodeTree, base: Path, commons: seq<string>, names: seq<string>, seen: set<string>): (r: Result<set<string>>)
    ensures r.Ok? ==> seen <= r.value && r.value <= seen + CommonSet(commons)
    decreases |CommonSet(commons) - seen|, 3, |names|
  {
    if |names| == 0 then Ok(seen)
    else
      var after :- ScanModule(tree, base, commons, names[0], seen);
      Monotone(CommonSet(commons), seen, after);
      ScanNew(tree, base, commons, names[1..], after)
  }

  /** One new import: a shared package is a directory scanned like a target,
      any other a single `.py` file. */
  function ScanModule(tree: CodeTree, base: Path, commons: seq<string>, name: string, seen: set<string>): (r: Result<set<string>>)
    ensures r.Ok? ==> seen <= r.value && r.value <= seen + CommonSet(commons)
    decreases |CommonSet(commons) - seen|, 3, 0
  {
    var dep := Files.Join(base, name);
    if dep in tree.dirs then ScanDir(tree, base, commons, dep, seen)
    else ScanFile(tree, base, commons, ModuleFile(base, name), seen)
  }

  /** `find_common_deps`: every source file below the target, by path. */
  function ScanDir(tree: CodeTree, base: Path, commons: seq<string>, target: Path, seen: set<string>): (r: Result<set<string>>)
    ensures r.Ok? ==> seen <= r.value && r.value <= seen + CommonSet(commons)
    decreases |CommonSet(commons) - seen|, 2, 0
  {
    ScanFiles(tree, base, commons, SortBy(Sources(tree, target), PathText), seen)
  }

  function ScanFiles(tree: CodeTree, base: Path, commons: seq<string>, files: seq<Path>, seen: set<string>): (r: Result<set<string>>)
    ensures r.Ok? ==> seen <= r.value && r.value <= seen + CommonSet(commons)
    decreases |CommonSet(commons) - seen|, 1, |files|
  {
    if |files| == 0 then Ok(seen)
    else
      var after :- ScanFile(tree, base, commons, files[0], seen);
      Monotone(CommonSet(commons), seen, after);
      ScanFiles(tree, base, commons, files[1..], after)
  }

  /** A file's imports are all shared modules. */
  lemma FileImportsShared(stmts: seq<Stmt>, commons: seq<string>)
    ensures NoDup(FileImports(stmts, commons, []))
    ensures AsSet(FileImports(stmts, commons, [])) <= CommonSet(commons)
  {
    forall x | x in FileImports(stmts, commons, []) ensures x in commons {
      FileImportsMember(stmts, commons, [], x);
      var i :| 0 <= i < |stmts| && x in ImportsOf(stmts[i], commons);
    }
    FileImportsMember(stmts, commons, [], "");
  }

  // ---------------------------------------------------------------------------
  // The loops, threading `common_imports`

  /** `find_common_deps_in_file(target_file, common_base, commons, common_imports)`. */
  method FindCommonDepsInFile(tree: CodeTree, base: Path, commons: seq<string>, file: Path, seen: set<string>)
    returns (r: Result<set<string>>)
    ensures r == ScanFile(tree, base, commons, file, seen)
    decreases |CommonSet(commons) - seen|, 0, 0
  {
    if file !in tree.modules {
      return Crash;
    }
    var found := CollectImports(tree.modules[file], commons);
    var added := Fresh(found, seen);
    if |added| == 0 {
      return Ok(seen);
    }
    FileImportsShared(tree.modules[file], commons);
    Shrinks(CommonSet(commons), seen, added);
    var order := SortBy(added, Identity);
    r := FindNewDeps(tree, base, commons, order, seen + AsSet(added));
  }

  /** The loop of `find_common_deps_in_file` over its new imports, in order. */
  method FindNewDeps(tree: CodeTree, base: Path, commons: seq<string>, names: seq<string>, seen: set<string>)
    returns (r: Result<set<string>>)
    ensures r == ScanNew(tree, base, commons, names, seen)
    decreases |CommonSet(commons) - seen|, 3, |names|
  {
    var current := seen;
    var i := 0;
    while i < |names|
      invariant 0 <= i <= |names|
      invariant seen <= current
      invariant ScanNew(tree, base, commons, names[i..], current) == ScanNew(tree, base, commons, names, seen)
    {
      assert names[i..][1..] == names[i + 1..];
      Monotone(CommonSet(commons), seen, current);
      var next := FindModuleDeps(tree, base, commons, names[i], current);
      if next.Crash? {
        return Crash;
      }
      current := next.value;
      i := i + 1;
    }
    assert names[i..] == [];
    return Ok(current);
  }

  /** The body of that loop for one import. */
  method FindModuleDeps(tree: CodeTree, base: Path, commons: seq<string>, name: string, seen: set<string>)
    returns (r: Result<set<string>>)
    ensures r == ScanModule(tree, base, commons, name, seen)
    decreases |CommonSet(commons) - seen|, 3, 0
  {
    var dep := Files.Join(base, name);
    if dep in tree.dirs {
      r := FindCommonDeps(tree, base, commons, dep, seen);
    } else {
      r := FindCommonDepsInFile(tree, base, commons, ModuleFile(base, name), seen);
    }
  }

  /** `find_common_deps(target, common_base, commons, common_imports)`. */
  method FindCommonDeps(tree: CodeTree, base: Path, commons: seq<string>, target: Path, seen: set<string>)
    returns (r: Result<set<string>>)
    ensures r == ScanDir(tree, base, commons, target, seen)
    decreases |CommonSet(commons) - seen|, 2, 0
  {
    var files := SortBy(Sources(tree, target), PathText);
    var current := seen;
    var i := 0;
    while i < |files|
      invariant 0 <= i <= |files|
      invariant seen <= current
      invariant ScanFiles(tree, base, commons, files[i..], current) == ScanFiles(tree, base, commons, files, seen)
    {
      assert files[i..][1..] == files[i + 1..];
      Monotone(CommonSet(commons), seen, current);
      var next := FindCommonDepsInFile(tree, base, commons, files[i], current);
      if next.Crash? {
        return Crash;
      }
      current := next.value;
      i := i + 1;
    }
    assert files[i..] == [];
    return Ok(current);
  }

  /** The shared modules the sources below `target` need. */
  function CommonDepSet(tree: CodeTree, base: Path, target: Path): Result<set<string>>
  {
    if base !in tree.listings then Crash
    else ScanDir(tree, base, Commons(tree.listings[base]), target, {})
  }

  /** `commondep(common_base, target_dir)`: the closure, sorted. */
  method CommonDep(tree: CodeTree, base: Path, target: Path) returns (r: Result<seq<string>>)
    ensures r.Ok? <==> CommonDepSet(tree, base, target).Ok?
    ensures r.Ok? ==> StrictlySorted(r.value)
    ensures r.Ok? ==> forall x :: x in r.value <==> x in CommonDepSet(tree, base, target).value
  {
    var commons := FindCommons(tree, base);
    if commons.Crash? {
      return Crash;
    }
    var deps := FindCommonDeps(tree, base, commons.value, target, {});
    if deps.Crash? {
      return Crash;
    }
    var sorted := SortedList(deps.value);
    return Ok(sorted);
  }

  // ---------------------------------------------------------------------------
  // The closure is closed

  /** Every shared module a scanned file imports ends up in the set. */
  lemma ScanFileCovers(tree: CodeTree, base: Path, commons: seq<string>, file: Path, seen: set<string>)
    requires ScanFile(tree, base, commons, file, seen).Ok?
    ensures file in tree.modules
    ensures AsSet(FileImports(tree.modules[file], commons, [])) <= ScanFile(tree, base, commons, file, seen).value
  {
    var found := FileImports(tree.modules[file], commons, []);
    var added := Fresh(found, seen);
    forall x | x in found ensures x in ScanFile(tree, base, commons, file, seen).value {
      if x !in seen {
        assert x in added;
      }
    }
  }

  /** Every source file below the target is scanned. */
  lemma {:induction false} ScanFilesCovers(tree: CodeTree, base: Path, commons: seq<string>, files: seq<Path>, seen: set<string>, j: nat)
    requires ScanFiles(tree, base, commons, files, seen).Ok? && j < |files|
    ensures files[j] in tree.modules
    ensures AsSet(FileImports(tree.modules[files[j]], commons, [])) <= ScanFiles(tree, base, commons, files, seen).value
    decreases |files|
  {
    var after := ScanFile(tree, base, commons, files[0], seen).value;
    if j == 0 {
      ScanFileCovers(tree, base, commons, files[0], seen);
    } else {
      assert files[1..][j - 1] == files[j];
      ScanFilesCovers(tree, base, commons, files[1..], after, j - 1);
    }
  }

  /** What scanning a shared module covers: its own file, or every source
      file below its directory. */
  predicate ModuleScanned(tree: CodeTree, base: Path, commons: seq<string>, name: string, result: set<string>)
  {
    var dep := Files.Join(base, name);
    if dep in tree.dirs then
      forall f :: f in Sources(tree, dep) ==>
        f in tree.modules && AsSet(FileImports(tree.modules[f], commons, [])) <= result
    else
      ModuleFile(base, name) in tree.modules
      && AsSet(FileImports(tree.modules[ModuleFile(base, name)], commons, [])) <= result
  }

  lemma ScanDirCovers(tree: CodeTree, base: Path, commons: seq<string>, dir: Path, seen: set<string>)
    requires ScanDir(tree, base, commons, dir, seen).Ok?
    ensures forall f :: f in Sources(tree, dir) ==>
      f in tree.modules && AsSet(FileImports(tree.modules[f], commons, [])) <= ScanDir(tree, base, commons, dir, seen).value
  {
    var files := SortBy(Sources(tree, dir), PathText);
    forall f | f in Sources(tree, dir)
      ensures f in tree.modules && AsSet(FileImports(tree.modules[f], commons, [])) <= ScanDir(tree, base, commons, dir, seen).value
    {
      assert f in multiset(Sources(tree, dir));
      assert f in multiset(files);
      var j :| 0 <= j < |files| && files[j] == f;
      ScanFilesCovers(tree, base, commons, files, seen, j);
    }
  }

  lemma {:induction false} ScanNewCovers(tree: CodeTree, base: Path, commons: seq<string>, names: seq<string>, seen: set<string>, j: nat)
    requires ScanNew(tree, base, commons, names, seen).Ok? && j < |names|
    ensures ModuleScanned(tree, base, commons, names[j], ScanNew(tree, base, commons, names, seen).value)
    decreases |names|
  {
    var dep := Files.Join(base, names[0]);
    var after := ScanModule(tree, base, commons, names[0], seen).value;
    var result := ScanNew(tree, base, commons, names, seen).value;
    assert result == ScanNew(tree, base, commons, names[1..], after).value;
    if j == 0 {
      if dep in tree.dirs {
        ScanDirCovers(tree, base, commons, dep, seen);
      } else {
        ScanFileCovers(tree, base, commons, ModuleFile(base, names[0]), seen);
      }
    } else {
      assert names[1..][j - 1] == names[j];
      ScanNewCovers(tree, base, commons, names[1..], after, j - 1);
    }
  }

  /** The closure is transitive: a shared module a file brings in for the
      first time is scanned in turn, so what it imports is in the set too. */
  lemma Transitive(tree: CodeTree, base: Path, commons: seq<string>, file: Path, seen: set<string>, x: string)
    requires ScanFile(tree, base, commons, file, seen).Ok?
    requires file in tree.modules && x in FileImports(tree.modules[file], commons, []) && x !in seen
    ensures ModuleScanned(tree, base, commons, x, ScanFile(tree, base, commons, file, seen).value)
  {
    var found := FileImports(tree.modules[file], commons, []);
    var added := Fresh(found, seen);
    assert x in added;
    var order := SortBy(added, Identity);
    assert x in multiset(added);
    assert x in multiset(order);
    var j :| 0 <= j < |order| && order[j] == x;
    ScanNewCovers(tree, base, commons, order, seen + AsSet(added), j);
  }

  // ---------------------------------------------------------------------------
  // Each module is scanned once

  /** The shared modules `find_common_deps_in_file` scans, in the order their
      scans start; a module is scanned when the loop over new imports reaches it. */
  function TraceFile(tree: CodeTree, base: Path, commons: seq<string>, file: Path, seen: set<string>): seq<string>
    decreases |CommonSet(commons) - seen|, 0, 0
  {
    if file !in tree.modules then []
    else
      var found := FileImports(tree.modules[file], commons, []);
      var added := Fresh(found, seen);
      if |added| == 0 then []
      else
        FileImportsShared(tree.modules[file], commons);
        Shrinks(CommonSet(commons), seen, added);
        TraceNew(tree, base, commons, SortBy(added, Identity), seen + AsSet(added))
  }

  function TraceNew(tree: CodeTree, base: Path, commons: seq<string>, names: seq<string>, seen: set<string>): seq<string>
    decreases |CommonSet(commons) - seen|, 3, |names|
  {
    if |names| == 0 then []
    else
      match ScanModule(tree, base, commons, names[0], seen)
      case Crash => []
      case Ok(after) =>
        Monotone(CommonSet(commons), seen, after);
        [names[0]] + TraceModule(tree, base, commons, names[0], seen) + TraceNew(tree, base, commons, names[1..], after)
  }

  function TraceModule(tree: CodeTree, base: Path, commons: seq<string>, name: string, seen: set<string>): seq<string>
    decreases |CommonSet(commons) - seen|, 3, 0
  {
    var dep := Files.Join(base, name);
    if dep in tree.dirs then TraceDir(tree, base, commons, dep, seen)
    else TraceFile(tree, base, commons, ModuleFile(base, name), seen)
  }

  function TraceDir(tree: CodeTree, base: Path, commons: seq<string>, target: Path, seen: set<string>): seq<string>
    decreases |CommonSet(commons) - seen|, 2, 0
  {
    TraceFiles(tree, base, commons, SortBy(Sources(tree, target), PathText), seen)
  }

  function TraceFiles(tree: CodeTree, base: Path, commons: seq<string>, files: seq<Path>, seen: set<string>): seq<string>
    decreases |CommonSet(commons) - seen|, 1, |files|
  {
    if |files| == 0 then []
    else
      match ScanFile(tree, base, commons, files[0], seen)
      case Crash => []
      case Ok(after) =>
        Monotone(CommonSet(commons), seen, after);
        TraceFile(tree, base, commons, files[0], seen) + TraceFiles(tree, base, commons, files[1..], after)
  }

  /** Two duplicate-free lists with no name in common concatenate to one. */
  lemma NoDupConcat(a: seq<string>, b: seq<string>)
    requires NoDup(a) && NoDup(b) && AsSet(a) !! AsSet(b)
    ensures NoDup(a + b) && AsSet(a + b) == AsSet(a) + AsSet(b)
  {
    forall i, j | 0 <= i < j < |a + b| ensures (a + b)[i] != (a + b)[j] {
      if j < |a| {
      } else if i >= |a| {
        assert (a + b)[i] == b[i - |a|] && (a + b)[j] == b[j - |a|];
      } else {
        assert (a + b)[i] == a[i] && a[i] in AsSet(a);
        assert (a + b)[j] == b[j - |a|] && b[j - |a|] in AsSet(b);
      }
    }
  }

  /** Sorting the new imports keeps them duplicate-free and keeps their names. */
  lemma SortedFresh(added: seq<string>)
    requires NoDup(added)
    ensures NoDup(SortBy(added, Identity)) && AsSet(SortBy(added, Identity)) == AsSet(added)
  {
    var order := SortBy(added, Identity);
    forall x ensures x in order <==> x in added {
      assert x in order <==> x in multiset(order);
      assert x in added <==> x in multiset(added);
    }
    forall i, j | 0 <= i < j < |order| ensures order[i] != order[j] {
      if order[i] == order[j] {
        DoubleCount(order, i, j);
        assert order[i] in multiset(added);
        var p :| 0 <= p < |added| && added[p] == order[i];
        SingleCount(added, p);
        assert false;
      }
    }
  }

  /** No module is scanned twice, and the modules a file's scan starts are
      exactly the ones it adds to `common_imports`. */
  lemma {:induction false} FileScannedOnce(tree: CodeTree, base: Path, commons: seq<string>, file: Path, seen: set<string>)
    requires ScanFile(tree, base, commons, file, seen).Ok?
    ensures NoDup(TraceFile(tree, base, commons, file, seen))
    ensures AsSet(TraceFile(tree, base, commons, file, seen)) == ScanFile(tree, base, commons, file, seen).value - seen
    decreases |CommonSet(commons) - seen|, 0, 0
  {
    var found := FileImports(tree.modules[file], commons, []);
    var added := Fresh(found, seen);
    if |added| > 0 {
      FileImportsShared(tree.modules[file], commons);
      Shrinks(CommonSet(commons), seen, added);
      SortedFresh(added);
      var order := SortBy(added, Identity);
      var seen' := seen + AsSet(added);
      assert TraceFile(tree, base, commons, file, seen) == TraceNew(tree, base, commons, order, seen');
      assert ScanFile(tree, base, commons, file, seen) == ScanNew(tree, base, commons, order, seen');
      NewScannedOnce(tree, base, commons, order, seen');
      FreshMoves(seen, AsSet(added), ScanNew(tree, base, commons, order, seen').value);
    } else {
      assert TraceFile(tree, base, commons, file, seen) == [];
      assert AsSet([]) == {};
    }
  }

  /** Names added to the set before a scan, together with what the scan adds,
      are all the scan adds to the set it started from. */
  lemma FreshMoves(seen: set<string>, added: set<string>, result: set<string>)
    requires seen !! added && seen + added <= result
    ensures added + (result - (seen + added)) == result - seen
  {
  }

  /** Over the loop of new imports, already in the set, the trace holds each
      of them once and every module their scans add, once. */
  lemma {:induction false} NewScannedOnce(tree: CodeTree, base: Path, commons: seq<string>, names: seq<string>, seen: set<string>)
    requires ScanNew(tree, base, commons, names, seen).Ok?
    requires NoDup(names) && AsSet(names) <= seen
    ensures NoDup(TraceNew(tree, base, commons, names, seen))
    ensures AsSet(TraceNew(tree, base, commons, names, seen)) == AsSet(names) + (ScanNew(tree, base, commons, names, seen).value - seen)
    decreases |CommonSet(commons) - seen|, 3, |names|
  {
    if |names| > 0 {
      var after := ScanModule(tree, base, commons, names[0], seen).value;
      Monotone(CommonSet(commons), seen, after);
      var rest := names[1..];
      DistinctRest(names);
      ModuleScannedOnce(tree, base, commons, names[0], seen);
      NewScannedOnce(tree, base, commons, rest, after);
      var inner := TraceModule(tree, base, commons, names[0], seen);
      var later := TraceNew(tree, base, commons, rest, after);
      var result := ScanNew(tree, base, commons, rest, after).value;
      assert TraceNew(tree, base, commons, names, seen) == [names[0]] + inner + later;
      assert ScanNew(tree, base, commons, names, seen) == ScanNew(tree, base, commons, rest, after);
      assert AsSet([names[0]]) == {names[0]};
      TraceSets(names[0], AsSet(rest), seen, after, result, AsSet(inner), AsSet(later));
      NoDupConcat([names[0]], inner);
      NoDupConcat([names[0]] + inner, later);
    }
  }

  /** The set algebra of one step of that loop: the name scanned, what its
      scan adds and what the later scans add do not overlap. */
  lemma TraceSets(first: string, rest: set<string>, seen: set<string>, after: set<string>, result: set<string>,
                  inner: set<string>, later: set<string>)
    requires first in seen && first !in rest && rest <= seen && seen <= after <= result
    requires inner == after - seen && later == rest + (result - after)
    ensures {first} !! inner && ({first} + inner) !! later
    ensures {first} + inner + later == ({first} + rest) + (result - seen)
  {
  }

  /** The first name is not among the later ones. */
  lemma DistinctRest(names: seq<string>)
    requires NoDup(names) && |names| > 0
    ensures NoDup(names[1..]) && names[0] !in AsSet(names[1..])
    ensures AsSet(names) == {names[0]} + AsSet(names[1..])
  {
    assert names == [names[0]] + names[1..];
    forall i, j | 0 <= i < j < |names[1..]| ensures names[1..][i] != names[1..][j] {
      assert names[1..][i] == names[i + 1] && names[1..][j] == names[j + 1];
    }
    forall i | 0 <= i < |names[1..]| ensures names[1..][i] != names[0] {
      assert names[1..][i] == names[i + 1];
    }
  }

  lemma {:induction false} ModuleScannedOnce(tree: CodeTree, base: Path, commons: seq<string>, name: string, seen: set<string>)
    requires ScanModule(tree, base, commons, name, seen).Ok?
    ensures NoDup(TraceModule(tree, base, commons, name, seen))
    ensures AsSet(TraceModule(tree, base, commons, name, seen)) == ScanModule(tree, base, commons, name, seen).value - seen
    decreases |CommonSet(commons) - seen|, 3, 0
  {
    var dep := Files.Join(base, name);
    if dep in tree.dirs {
      DirScannedOnce(tree, base, commons, dep, seen);
    } else {
      FileScannedOnce(tree, base, commons, ModuleFile(base, name), seen);
    }
  }

  lemma {:induction false} DirScannedOnce(tree: CodeTree, base: Path, commons: seq<string>, target: Path, seen: set<string>)
    requires ScanDir(tree, base, commons, target, seen).Ok?
    ensures NoDup(TraceDir(tree, base, commons, target, seen))
    ensures AsSet(TraceDir(tree, base, commons, target, seen)) == ScanDir(tree, base, commons, target, seen).value - seen
    decreases |CommonSet(commons) - seen|, 2, 0
  {
    FilesScannedOnce(tree, base, commons, SortBy(Sources(tree, target), PathText), seen);
  }

  lemma {:induction false} FilesScannedOnce(tree: CodeTree, base: Path, commons: seq<string>, files: seq<Path>, seen: set<string>)
    requires ScanFiles(tree, base, commons, files, seen).Ok?
    ensures NoDup(TraceFiles(tree, base, commons, files, seen))
    ensures AsSet(TraceFiles(tree, base, commons, files, seen)) == ScanFiles(tree, base, commons, files, seen).value - seen
    decreases |CommonSet(commons) - seen|, 1, |files|
  {
    if |files| > 0 {
      var after := ScanFile(tree, base, commons, files[0], seen).value;
      Monotone(CommonSet(commons), seen, after);
      FileScannedOnce(tree, base, commons, files[0], seen);
      FilesScannedOnce(tree, base, commons, files[1..], after);
      var first := TraceFile(tree, base, commons, files[0], seen);
      var later := TraceFiles(tree, base, commons, files[1..], after);
      assert TraceFiles(tree, base, commons, files, seen) == first + later;
      assert ScanFiles(tree, base, commons, files, seen) == ScanFiles(tree, base, commons, files[1..], after);
      NoDupConcat(first, later);
    } else {
      assert AsSet([]) == {};
    }
  }

  /** `commondep` scans every module of the closure exactly once. */
  lemma ClosureScannedOnce(tree: CodeTree, base: Path, target: Path)
    requires CommonDepSet(tree, base, target).Ok?
    ensures var trace := TraceDir(tree, base, Commons(tree.listings[base]), target, {});
      NoDup(trace) && AsSet(trace) == CommonDepSet(tree, base, target).value
  {
    DirScannedOnce(tree, base, Commons(tree.listings[base]), target, {});
  }

  // ---------------------------------------------------------------------------
  // Worked examples

  /** A dot-free import name is never a shared module. */
  lemma PlainImport(name: string, commons: seq<string>)
    requires '.' !in name
    ensures Package(name, commons) == None
  {
    assert Text.Split(name, '.') == [name];
  }

  /** `common.<x>` names the shared module `x`. */
  lemma SharedImport(x: string, commons: seq<string>)
    requires x in commons && x != "" && '.' !in x
    ensures Package("common." + x, commons) == Some(x)
  {
    CommonPackageOfSegments(["common", x], commons);
    assert Text.Join(["common", x], '.') == "common." + x;
  }

  lemma CommonUtilsImport(commons: seq<string>)
    requires "utils" in commons
    ensures Package("common.utils", commons) == Some("utils")
  {
    SharedImport("utils", commons);
    assert "common.utils" == "common." + "utils";
  }

  lemma CommonAossImport(commons: seq<string>)
    requires "aoss" in commons
    ensures Package("common.aoss", commons) == Some("aoss")
  {
    SharedImport("aoss", commons);
    assert "common.aoss" == "common." + "aoss";
  }

  lemma CommonDynamoImport(commons: seq<string>)
    requires "dynamo_access" in commons
    ensures Package("common.dynamo_access", commons) == Some("dynamo_access")
  {
    SharedImport("dynamo_access", commons);
    assert "common.dynamo_access" == "common." + "dynamo_access";
  }

  lemma RuntimeImport(commons: seq<string>)
    ensures Package("prismarine.runtime.dynamo_access", commons) == None
  {
    CommonPackageOfSegments(["prismarine", "runtime", "dynamo_access"], commons);
    JoinThree("prismarine", "runtime", "dynamo_access");
    assert "prismarine" + "." + "runtime" + "." + "dynamo_access" == "prismarine.runtime.dynamo_access";
  }

  lemma JoinThree(a: string, b: string, c: string)
    ensures Text.Join([a, b, c], '.') == a + "." + b + "." + c
  {
    assert [a, b, c][1..] == [b, c];
    assert [b, c][1..] == [c];
    assert Text.Join([b, c], '.') == b + "." + c;
    assert a + ['.'] + (b + "." + c) == a + "." + b + "." + c;
  }

  /** A single segment extends a path. */
  lemma JoinSegment(base: Path, name: string)
    requires name != "" && name != "." && '/' !in name
    ensures Files.Join(base, name) == Path(base.absolute, base.parts + [name])
  {
    assert name[0] in name;
    assert Text.Split(name, '/') == [name];
    assert [name][1..] == [];
    assert Clean([name]) == [name] + Clean([]);
    assert [name] + [] == [name];
    assert Segments(name) == [name];
  }

  /** One `*.py` entry offers its stem as the only shared module. */
  lemma SingleModuleListing(name: string)
    requires IsPy(name)
    ensures Commons([Entry(name, false)]) == if Private(Stem(name)) then [] else [Stem(name)]
  {
    var listing := [Entry(name, false)];
    var stem := Stem(name);
    assert listing[..|listing| - 1] == [];
    assert DirNames(listing) == [];
    assert PyStems(listing) == [stem];
    assert DirNames(listing) + PyStems(listing) == [stem];
    assert [stem][1..] == [];
    assert Public([stem]) == if Private(stem) then [] else [stem];
    assert SortBy([stem], Identity) == [stem];
  }

  /** A common directory holding only `utils.py` offers `utils`. */
  lemma UtilsListing()
    ensures Commons([Entry("utils.py", false)]) == ["utils"]
    ensures '/' !in "utils" && "utils" != "." && "utils" != "" && {} + {"utils"} == {"utils"}
  {
    assert "utils.py"[5..] == ".py";
    assert "utils.py"[..5] == "utils";
    SingleModuleListing("utils.py");
  }

  /** A common directory holding only `aoss.py` offers `aoss`. */
  lemma AossListing()
    ensures Commons([Entry("aoss.py", false)]) == ["aoss"]
    ensures '/' !in "aoss" && "aoss" != "." && "aoss" != "" && {} + {"aoss"} == {"aoss"}
  {
    assert "aoss.py"[4..] == ".py";
    assert "aoss.py"[..4] == "aoss";
    SingleModuleListing("aoss.py");
  }

  /** The scan of a target holding one source file is the scan of that file. */
  lemma SingleSourceScan(tree: CodeTree, base: Path, commons: seq<string>, target: Path, file: Path, seen: set<string>)
    requires Sources(tree, target) == [file]
    requires ScanFile(tree, base, commons, file, seen).Ok?
    ensures ScanDir(tree, base, commons, target, seen) == ScanFile(tree, base, commons, file, seen)
  {
    assert SortBy([file], PathText) == [file];
    var after := ScanFile(tree, base, commons, file, seen).value;
    assert ScanFiles(tree, base, commons, [file][1..], after) == Ok(after);
  }

  lemma ImportOne(name: string, commons: seq<string>, found: seq<string>)
    ensures StmtImports(Import([name]), commons, found) == AddName(found, Package(name, commons))
  {
    assert SortBy([name], Identity) == [name];
    assert [name][1..] == [];
    var next := AddName(found, Package(name, commons));
    assert NamesImports([name], commons, found) == NamesImports([], commons, next);
  }

  lemma Unroll2(a: Stmt, b: Stmt, commons: seq<string>, found: seq<string>)
    ensures FileImports([a, b], commons, found) == StmtImports(b, commons, StmtImports(a, commons, found))
  {
    assert [a, b][1..] == [b];
    assert [b][1..] == [];
    var x := StmtImports(a, commons, found);
    assert FileImports([a, b], commons, found) == FileImports([b], commons, x);
    assert FileImports([b], commons, x) == FileImports([], commons, StmtImports(b, commons, x));
  }

  lemma Unroll3(a: Stmt, b: Stmt, c: Stmt, commons: seq<string>, found: seq<string>)
    ensures FileImports([a, b, c], commons, found)
      == StmtImports(c, commons, StmtImports(b, commons, StmtImports(a, commons, found)))
  {
    assert [a, b, c][1..] == [b, c];
    Unroll2(b, c, commons, StmtImports(a, commons, found));
  }

  lemma FileImportsStep(stmts: seq<Stmt>, commons: seq<string>, found: seq<string>)
    requires |stmts| > 0
    ensures FileImports(stmts, commons, found) == FileImports(stmts[1..], commons, StmtImports(stmts[0], commons, found))
  {
  }

  /** The file scan of a module that imports no shared module. */
  lemma LeafScan(tree: CodeTree, base: Path, commons: seq<string>, file: Path, seen: set<string>)
    requires file in tree.modules && FileImports(tree.modules[file], commons, []) == []
    ensures ScanFile(tree, base, commons, file, seen) == Ok(seen)
  {
    assert Fresh([], seen) == [];
  }

  /** A file that imports one shared module, seen for the first time, which is
      a single file with no further shared imports. */
  lemma OneStepScan(tree: CodeTree, base: Path, commons: seq<string>, file: Path, x: string, seen: set<string>)
    requires file in tree.modules && FileImports(tree.modules[file], commons, []) == [x] && x !in seen
    requires x != "" && x != "." && '/' !in x
    requires Files.Join(base, x) !in tree.dirs
    requires ScanFile(tree, base, commons, ModuleFile(base, x), seen + {x}).Ok?
    ensures ScanFile(tree, base, commons, file, seen) == ScanFile(tree, base, commons, ModuleFile(base, x), seen + {x})
  {
    assert [x][1..] == [];
    assert Fresh([x], seen) == [x];
    assert SortBy([x], Identity) == [x];
    assert AsSet([x]) == {x};
    var after := ScanFile(tree, base, commons, ModuleFile(base, x), seen + {x});
    assert ScanModule(tree, base, commons, x, seen + {x}) == after;
    assert ScanNew(tree, base, commons, [x], seen + {x}) == after by {
      assert ScanNew(tree, base, commons, [], after.value) == after;
    }
  }

  /** The top-level statements of the example modules: each class and
      function definition is a compound statement, each other statement that
      does not import is `Other`, and none of their bodies imports. */
  const MyAppHandler: seq<Stmt> := [Import(["json"]), Import(["common.utils"]), Compound([])]
  const AossHandler: seq<Stmt> := [ImportFrom(Some("common.aoss")), Compound([]), Compound([])]
  const AossModule: seq<Stmt> :=
    [Import(["os"]), Import(["boto3"]), ImportFrom(Some("opensearchpy")), Other, Compound([])]
  const DynamoAccessModule: seq<Stmt> :=
    [Import(["boto3"]), ImportFrom(Some("prismarine.runtime.dynamo_access")), ImportFrom(Some("common.utils")),
     Compound([]), Other, Compound([])]
  /** Hypothetical modules: no example file imports `common.dynamo_access`,
      and the `utils.py` it imports is not among the example files. */
  const ItemsHandler: seq<Stmt> := [ImportFrom(Some("common.dynamo_access"))]
  const UtilsModule: seq<Stmt> := [Import(["os"])]

  /** The statements of `a + b` are scanned as `a`, then `b`. */
  lemma {:induction false} FileImportsAppend(a: seq<Stmt>, b: seq<Stmt>, commons: seq<string>, found: seq<string>)
    ensures FileImports(a + b, commons, found) == FileImports(b, commons, FileImports(a, commons, found))
    decreases |a|
  {
    if |a| == 0 {
      assert a + b == b;
    } else {
      assert (a + b)[1..] == a[1..] + b;
      FileImportsAppend(a[1..], b, commons, StmtImports(a[0], commons, found));
    }
  }

  /** Compound and other non-import statements add nothing. */
  lemma {:induction false} SilentStmts(stmts: seq<Stmt>, commons: seq<string>, found: seq<string>)
    requires forall i :: 0 <= i < |stmts| ==> stmts[i].Compound? || stmts[i].Other?
    ensures FileImports(stmts, commons, found) == found
    decreases |stmts|
  {
    if |stmts| > 0 {
      SilentStmts(stmts[1..], commons, found);
    }
  }

  lemma MyAppImports(commons: seq<string>)
    requires "utils" in commons
    ensures FileImports(MyAppHandler, commons, []) == ["utils"]
  {
    assert StmtImports(MyAppHandler[0], commons, []) == [] by {
      PlainImport("json", commons);
      ImportOne("json", commons, []);
    }
    assert StmtImports(MyAppHandler[1], commons, []) == ["utils"] by {
      CommonUtilsImport(commons);
      ImportOne("common.utils", commons, []);
    }
    Unroll3(MyAppHandler[0], MyAppHandler[1], MyAppHandler[2], commons, []);
  }

  lemma AossHandlerImports(commons: seq<string>)
    requires "aoss" in commons
    ensures FileImports(AossHandler, commons, []) == ["aoss"]
  {
    CommonAossImport(commons);
    Unroll3(AossHandler[0], AossHandler[1], AossHandler[2], commons, []);
  }

  lemma OpenSearchImport(commons: seq<string>)
    ensures StmtImports(ImportFrom(Some("opensearchpy")), commons, []) == []
  {
    PlainImport("opensearchpy", commons);
  }

  lemma AossModuleImports(commons: seq<string>)
    ensures FileImports(AossModule, commons, []) == []
  {
    var os, boto, search := Import(["os"]), Import(["boto3"]), ImportFrom(Some("opensearchpy"));
    var rest := [Other, Compound([])];
    assert StmtImports(os, commons, []) == [] by {
      PlainImport("os", commons);
      ImportOne("os", commons, []);
    }
    BotoImport(commons);
    OpenSearchImport(commons);
    Unroll3(os, boto, search, commons, []);
    assert AossModule == [os, boto, search] + rest;
    FileImportsAppend([os, boto, search], rest, commons, []);
    SilentStmts(rest, commons, []);
  }

  lemma ItemsImports(commons: seq<string>)
    requires "dynamo_access" in commons
    ensures FileImports(ItemsHandler, commons, []) == ["dynamo_access"]
  {
    CommonDynamoImport(commons);
    assert ItemsHandler[1..] == [];
  }

  lemma DynamoAccessImports(commons: seq<string>)
    requires "utils" in commons
    ensures FileImports(DynamoAccessModule, commons, []) == ["utils"]
  {
    var boto, runtime, utils :=
      Import(["boto3"]), ImportFrom(Some("prismarine.runtime.dynamo_access")), ImportFrom(Some("common.utils"));
    var rest := [Compound([]), Other, Compound([])];
    BotoImport(commons);
    RuntimeFromImport(commons);
    UtilsFromImport(commons);
    Unroll3(boto, runtime, utils, commons, []);
    assert DynamoAccessModule == [boto, runtime, utils] + rest;
    FileImportsAppend([boto, runtime, utils], rest, commons, []);
    SilentStmts(rest, commons, ["utils"]);
  }

  lemma BotoImport(commons: seq<string>)
    ensures StmtImports(Import(["boto3"]), commons, []) == []
  {
    PlainImport("boto3", commons);
    ImportOne("boto3", commons, []);
  }

  lemma RuntimeFromImport(commons: seq<string>)
    ensures StmtImports(ImportFrom(Some("prismarine.runtime.dynamo_access")), commons, []) == []
  {
    RuntimeImport(commons);
  }

  lemma UtilsFromImport(commons: seq<string>)
    requires "utils" in commons
    ensures StmtImports(ImportFrom(Some("common.utils")), commons, []) == ["utils"]
  {
    CommonUtilsImport(commons);
  }

  lemma UtilsImports(commons: seq<string>)
    ensures FileImports(UtilsModule, commons, []) == []
  {
    PlainImport("os", commons);
    ImportOne("os", commons, []);
    assert UtilsModule[1..] == [];
  }

  /** `example/myapp`: the function's handler imports `json` and
      `common.utils`; with a common directory holding only `utils.py`, and
      `utils.py` importing no shared module, the function needs `utils`. */
  lemma MyAppNeedsUtils(tree: CodeTree, base: Path, target: Path, index: Path)
    requires tree.listings == map[base := [Entry("utils.py", false)]]
    requires tree.sources == map[target := [index]]
    requires Files.Join(base, "utils") !in tree.dirs
    requires index in tree.modules && tree.modules[index] == MyAppHandler
    requires ModuleFile(base, "utils") in tree.modules && tree.modules[ModuleFile(base, "utils")] == []
    ensures CommonDepSet(tree, base, target) == Ok({"utils"})
  {
    var commons := ["utils"];
    UtilsListing();
    MyAppImports(commons);
    LeafScan(tree, base, commons, ModuleFile(base, "utils"), {"utils"});
    OneStepScan(tree, base, commons, index, "utils", {});
    assert Sources(tree, target) == [index];
    SingleSourceScan(tree, base, commons, target, index, {});
  }

  /** `example/aoss`: the indexing function imports from `common.aoss`, whose
      own imports (`os`, `boto3`, `opensearchpy`) are not shared modules, so the
      function needs `aoss` alone. */
  lemma AossNeedsAoss(tree: CodeTree, base: Path, target: Path, index: Path)
    requires tree.listings == map[base := [Entry("aoss.py", false)]]
    requires tree.sources == map[target := [index]]
    requires Files.Join(base, "aoss") !in tree.dirs
    requires index in tree.modules && tree.modules[index] == AossHandler
    requires ModuleFile(base, "aoss") in tree.modules && tree.modules[ModuleFile(base, "aoss")] == AossModule
    ensures CommonDepSet(tree, base, target) == Ok({"aoss"})
  {
    var commons := ["aoss"];
    AossListing();
    AossHandlerImports(commons);
    AossModuleImports(commons);
    LeafScan(tree, base, commons, ModuleFile(base, "aoss"), {"aoss"});
    OneStepScan(tree, base, commons, index, "aoss", {});
    assert Sources(tree, target) == [index];
    SingleSourceScan(tree, base, commons, target, index, {});
  }

  /** The string and set facts `DynamoAccessNeedsUtils` uses, proved apart
      from it so that its own proof stays small. */
  lemma DynamoAccessNames()
    ensures '/' !in "utils" && "utils" != "." && "utils" != ""
    ensures '/' !in "dynamo_access" && "dynamo_access" != "." && "dynamo_access" != ""
    ensures {} + {"dynamo_access"} == {"dynamo_access"}
    ensures {"dynamo_access"} + {"utils"} == {"dynamo_access", "utils"}
  {
  }

  /** `example/prismarine`: `dynamo_access.py` imports from `common.utils`, so
      a handler importing `common.dynamo_access` needs both modules whenever the
      common directory offers both. */
  lemma DynamoAccessNeedsUtils(tree: CodeTree, base: Path, commons: seq<string>, handler: Path)
    requires "dynamo_access" in commons && "utils" in commons
    requires Files.Join(base, "dynamo_access") !in tree.dirs && Files.Join(base, "utils") !in tree.dirs
    requires handler in tree.modules && tree.modules[handler] == ItemsHandler
    requires ModuleFile(base, "dynamo_access") in tree.modules
    requires tree.modules[ModuleFile(base, "dynamo_access")] == DynamoAccessModule
    requires ModuleFile(base, "utils") in tree.modules && tree.modules[ModuleFile(base, "utils")] == UtilsModule
    ensures ScanFile(tree, base, commons, handler, {}) == Ok({"dynamo_access", "utils"})
  {
    ItemsImports(commons);
    DynamoAccessImports(commons);
    UtilsImports(commons);
    DynamoAccessNames();
    LeafScan(tree, base, commons, ModuleFile(base, "utils"), {"dynamo_access", "utils"});
    OneStepScan(tree, base, commons, ModuleFile(base, "dynamo_access"), "utils", {"dynamo_access"});
    OneStepScan(tree, base, commons, handler, "dynamo_access", {});
  }
}
