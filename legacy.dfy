/** The older copy of the fragment merge and of the final sorting in
    `generate.py`, and the clean-up `write_result` gives every generated
    text.  Where the loader appends an error and carries on, this copy raises
    `UserWarning` with the same message and stops; whatever it merged before
    the raise stays in the graph, which it changes in place. */
module Legacy {
  import opened Outcomes
  import opened Values
  import opened Files
  import opened Diagnostics
  import opened Sorting
  import Text
  import Importer

  // ---------------------------------------------------------------------------
  // write_result

  /** The characters `str.isspace` accepts. */
  predicate IsSpace(c: char)
  {
    ('\t' <= c <= '\r') || ('\U{1C}' <= c <= ' ') || c == '\U{85}' || c == '\U{A0}'
    || c == '\U{1680}' || ('\U{2000}' <= c <= '\U{200A}') || c == '\U{2028}' || c == '\U{2029}'
    || c == '\U{202F}' || c == '\U{205F}' || c == '\U{3000}'
  }

  /** The characters `str.splitlines` ends a line at; `\r\n` counts as one. */
  predicate IsBreak(c: char)
  {
    c == '\n' || c == '\r' || c == '\U{B}' || c == '\U{C}' || ('\U{1C}' <= c <= '\U{1E}')
    || c == '\U{85}' || c == '\U{2028}' || c == '\U{2029}'
  }

  predicate NoBreak(s: string)
  {
    forall i :: 0 <= i < |s| ==> !IsBreak(s[i])
  }

  predicate AllSpace(s: string)
  {
    forall i :: 0 <= i < |s| ==> IsSpace(s[i])
  }

  /** The text cut at every line boundary: one more piece than boundaries. */
  function Pieces(s: string): (r: seq<string>)
    ensures |r| > 0
    ensures forall i :: 0 <= i < |r| ==> NoBreak(r[i])
    decreases |s|
  {
    if |s| == 0 then [""]
    else if IsBreak(s[0]) then
      [""] + Pieces(if s[0] == '\r' && |s| > 1 && s[1] == '\n' then s[2..] else s[1..])
    else
      var rest := Pieces(s[1..]);
      assert NoBreak([s[0]] + rest[0]) by {
        assert NoBreak(rest[0]);
      }
      [[s[0]] + rest[0]] + rest[1..]
  }

  /** `text.splitlines()`: a boundary at the very end closes the last line
      instead of opening an empty one. */
  function SplitLines(s: string): (r: seq<string>)
    ensures forall i :: 0 <= i < |r| ==> NoBreak(r[i])
  {
    var p := Pieces(s);
    if p[|p| - 1] == "" then p[..|p| - 1] else p
  }

  /** `s.lstrip()`. */
  function LStripped(s: string): (r: string)
    ensures |r| > 0 ==> !IsSpace(r[0])
    ensures |r| == 0 <==> AllSpace(s)
    decreases |s|
  {
    if |s| > 0 && IsSpace(s[0]) then
      var r := LStripped(s[1..]);
      assert AllSpace(s) <==> AllSpace(s[1..]) by {
        assert forall i :: 0 < i < |s| ==> s[i] == s[1..][i - 1];
      }
      r
    else s
  }

  /** `s.rstrip()`: a prefix of `s`, ending in a character that is not a space. */
  function RStripped(s: string): (r: string)
    ensures |r| <= |s| && r == s[..|r|]
    ensures |r| > 0 ==> !IsSpace(r[|r| - 1])
    ensures |r| == 0 <==> AllSpace(s)
    decreases |s|
  {
    if |s| > 0 && IsSpace(s[|s| - 1]) then
      var r := RStripped(s[..|s| - 1]);
      assert AllSpace(s) <==> AllSpace(s[..|s| - 1]) by {
        assert forall i :: 0 <= i < |s| - 1 ==> s[i] == s[..|s| - 1][i];
      }
      r
    else s
  }

  /** `s.strip()`. */
  function Stripped(s: string): string
  {
    LStripped(RStripped(s))
  }

  /** `line and line.strip()`: the condition a line must meet to be written. */
  predicate Kept(line: string)
  {
    |line| > 0 && |Stripped(line)| > 0
  }

  /** A line is written exactly when it holds a character that is not white space. */
  lemma KeptInked(line: string)
    ensures Kept(line) <==> !AllSpace(line)
  {
    var r := RStripped(line);
    if |r| > 0 {
      assert !IsSpace(r[|r| - 1]);
      assert !AllSpace(r);
    }
  }

  /** The lines the generator keeps, in their order. */
  function KeptLines(lines: seq<string>): (r: seq<string>)
    ensures forall x :: x in r <==> x in lines && Kept(x)
    ensures |r| <= |lines|
  {
    if |lines| == 0 then []
    else if Kept(lines[0]) then [lines[0]] + KeptLines(lines[1..])
    else KeptLines(lines[1..])
  }

  /** The text `write_result` writes: the kept lines joined by `\n`. */
  function Sanitized(text: string): string
  {
    Text.Join(KeptLines(SplitLines(text)), '\n')
  }

  lemma {:induction false} PiecesPlain(a: string)
    requires NoBreak(a)
    ensures Pieces(a) == [a]
    decreases |a|
  {
    if |a| > 0 {
      PiecesPlain(a[1..]);
      assert [a[0]] + a[1..] == a;
    }
  }

  /** Cutting a break-free head followed by `\n`. */
  lemma {:induction false} PiecesCons(a: string, b: string)
    requires NoBreak(a)
    ensures Pieces(a + ['\n'] + b) == [a] + Pieces(b)
    decreases |a|
  {
    var s := a + ['\n'] + b;
    if |a| == 0 {
      assert s == ['\n'] + b;
      assert s[1..] == b;
    } else {
      assert s[0] == a[0];
      assert s[1..] == a[1..] + ['\n'] + b;
      PiecesCons(a[1..], b);
      assert [a[0]] + a[1..] == a;
    }
  }

  /** Joining break-free lines by `\n` and cutting again gives back the lines. */
  lemma {:induction false} PiecesJoin(lines: seq<string>)
    requires |lines| > 0
    requires forall i :: 0 <= i < |lines| ==> NoBreak(lines[i])
    ensures Pieces(Text.Join(lines, '\n')) == lines
    decreases |lines|
  {
    if |lines| == 1 {
      PiecesPlain(lines[0]);
    } else {
      PiecesJoin(lines[1..]);
      PiecesCons(lines[0], Text.Join(lines[1..], '\n'));
      assert [lines[0]] + lines[1..] == lines;
    }
  }

  /** The written text, read back line by line, is exactly the kept lines of
      the original, in their order: no empty and no blank line survives. */
  lemma LinesOfSanitized(text: string)
    ensures SplitLines(Sanitized(text)) == KeptLines(SplitLines(text))
    ensures forall i :: 0 <= i < |SplitLines(Sanitized(text))| ==> !AllSpace(SplitLines(Sanitized(text))[i])
  {
    var lines := SplitLines(text);
    var kept := KeptLines(lines);
    forall i | 0 <= i < |kept| ensures NoBreak(kept[i]) && Kept(kept[i]) && !AllSpace(kept[i]) {
      assert kept[i] in lines;
      KeptInked(kept[i]);
    }
    if |kept| > 0 {
      PiecesJoin(kept);
    }
  }

  lemma {:induction false} KeptLinesTwice(lines: seq<string>)
    ensures KeptLines(KeptLines(lines)) == KeptLines(lines)
    decreases |lines|
  {
    if |lines| > 0 {
      KeptLinesTwice(lines[1..]);
      if Kept(lines[0]) {
        assert ([lines[0]] + KeptLines(lines[1..]))[1..] == KeptLines(lines[1..]);
      }
    }
  }

  /** Cleaning an already cleaned text changes nothing. */
  lemma SanitizedIdempotent(text: string)
    ensures Sanitized(Sanitized(text)) == Sanitized(text)
  {
    LinesOfSanitized(text);
    KeptLinesTwice(SplitLines(text));
  }

  lemma {:induction false} JoinLast(lines: seq<string>)
    requires |lines| > 0 && |lines[|lines| - 1]| > 0
    ensures |Text.Join(lines, '\n')| > 0
    ensures Text.Join(lines, '\n')[|Text.Join(lines, '\n')| - 1] == lines[|lines| - 1][|lines[|lines| - 1]| - 1]
    decreases |lines|
  {
    if |lines| > 1 {
      JoinLast(lines[1..]);
    }
  }

  /** The written text is empty exactly when no line is kept, and otherwise
      it does not end in a line break. */
  lemma SanitizedEnds(text: string)
    ensures Sanitized(text) == "" <==> forall i :: 0 <= i < |SplitLines(text)| ==> !Kept(SplitLines(text)[i])
    ensures var r := Sanitized(text); |r| > 0 ==> !IsBreak(r[|r| - 1])
  {
    var lines := SplitLines(text);
    var kept := KeptLines(lines);
    if |kept| > 0 {
      var last := kept[|kept| - 1];
      assert last in lines && Kept(last);
      JoinLast(kept);
      assert kept[0] in lines;
      var j :| 0 <= j < |lines| && lines[j] == kept[0];
      assert Kept(lines[j]);
    } else {
      forall i | 0 <= i < |lines| ensures !Kept(lines[i]) {
        assert lines[i] in lines;
      }
    }
  }

  // ---------------------------------------------------------------------------
  // How a legacy step ends

  /** A step finishes with its value, raises `UserWarning` with one of the
      loader's messages (`graph` is the resource graph as the raise left it),
      or fails with any other exception. */
  datatype Step<T> = Done(value: T) | Warned(graph: Entries, warning: Error) | Failed

  // ---------------------------------------------------------------------------
  // preprocess_lambda

  /** The integration a legacy path entry holds: it names the function and no
      longer carries its path; unlike the loader, it does not name the kind
      of integration. */
  function Hoisted(integration: Value, name: Value): (r: Result<Value>)
    ensures r.Ok? <==> integration.Dict? && Str("path") in Keys(integration.entries)
    ensures r.Ok? ==> r.value.Dict? && integration.Dict?
    ensures r.Ok? ==> Lookup(r.value.entries, Str("function")) == Some(name)
    ensures r.Ok? ==> Str("path") !in Keys(r.value.entries)
    ensures r.Ok? ==> forall k :: k != Str("function") && k != Str("path") ==>
      Lookup(r.value.entries, k) == Lookup(integration.entries, k)
  {
    var withFunction :- SetItem(integration, Str("function"), name);
    assert integration.Dict? ==> (Str("path") in Keys(withFunction.entries) <==> Str("path") in Keys(integration.entries)) by {
      if integration.Dict? {
        assert Lookup(withFunction.entries, Str("path")) == Lookup(integration.entries, Str("path"));
      }
    }
    DelItem(withFunction, Str("path"))
  }

  /** The second half of the legacy `preprocess_lambda`: the integration goes
      to `paths` under its own path; a missing or taken path raises. */
  function LegacyIntegration(g: Entries, name: Value, integration: Value, entry: Path): Step<Entries>
  {
    match Get(integration, "path", Null)
    case Crash => Failed
    case Ok(path) =>
      if !Truthy(path) then Warned(g, NoPathName(entry))
      else
        var g1 := Importer.EnsureSection(g, "paths");
        match Member(path, Importer.Section(g1, "paths"))
        case Crash => Failed
        case Ok(taken) =>
          if taken then Warned(g1, DuplicatePath(entry, path))
          else
            match Hoisted(integration, name)
            case Crash => Failed
            case Ok(stored) =>
              match SetItem(Importer.Section(g1, "paths"), path, stored)
              case Crash => Failed
              case Ok(paths) => Done(Put(g1, Str("paths"), paths))
  }

  /** The legacy `preprocess_lambda`: register the fragment's function, then its path. */
  function LegacyLambda(g: Entries, root: Path, lambdaDef: Value, entry: Path, entryDir: Path): Step<Entries>
  {
    var g1 := Importer.EnsureSection(g, "functions");
    match Get(lambdaDef, "name", Null)
    case Crash => Failed
    case Ok(name) =>
      if !Truthy(name) then Warned(g1, NoLambdaName(entry))
      else
        match Member(name, Importer.Section(g1, "functions"))
        case Crash => Failed
        case Ok(taken) =>
          if taken then Warned(g1, DuplicateLambda(entry, name))
          else LegacyRegister(g1, root, lambdaDef, name, entry, entryDir)
  }

  /** The rest of the legacy `preprocess_lambda` once the name is new:
      register the function, then store its integration. */
  function LegacyRegister(g1: Entries, root: Path, lambdaDef: Value, name: Value, entry: Path, entryDir: Path): Step<Entries>
  {
    match Registered(g1, root, lambdaDef, name, entryDir)
    case Crash => Failed
    case Ok(g2) =>
      match Get(lambdaDef, "integration", Dict([]))
      case Crash => Failed
      case Ok(integration) =>
        if !Truthy(integration) then Done(g2)
        else LegacyIntegration(g2, name, integration, entry)
  }

  /** `resources_data['functions'][lambda_name] = lambda_resources`, with the
      resources given their `uri` first. */
  function Registered(g: Entries, root: Path, lambdaDef: Value, name: Value, entryDir: Path): (r: Result<Entries>)
    ensures r.Ok? ==> lambdaDef.Dict? && Importer.WithUri(SectionOr(lambdaDef.entries, "resources", Dict([])), root, entryDir).Ok?
    ensures r.Ok? ==>
      var functions := Lookup(r.value, Str("functions"));
      functions.Some? && functions.value.Dict?
      && Lookup(functions.value.entries, name) == Some(Importer.WithUri(SectionOr(lambdaDef.entries, "resources", Dict([])), root, entryDir).value)
    ensures r.Ok? ==> forall k :: k != Str("functions") ==> Lookup(r.value, k) == Lookup(g, k)
  {
    var resources :- Get(lambdaDef, "resources", Dict([]));
    var resources' :- Importer.WithUri(resources, root, entryDir);
    var functions :- SetItem(Importer.Section(g, "functions"), name, resources');
    Ok(Put(g, Str("functions"), functions))
  }

  /** A lambda without a name raises, with only the `functions` section ensured. */
  lemma LambdaWithoutName(g: Entries, root: Path, lambdaDef: Value, entry: Path, entryDir: Path)
    requires lambdaDef.Dict? && !Truthy(SectionOr(lambdaDef.entries, "name", Null))
    ensures LegacyLambda(g, root, lambdaDef, entry, entryDir)
      == Warned(Importer.EnsureSection(g, "functions"), NoLambdaName(entry))
  {
  }

  /** A name already registered raises and leaves the graph as it was. */
  lemma LambdaDuplicate(g: Entries, root: Path, lambdaDef: Value, entry: Path, entryDir: Path)
    requires lambdaDef.Dict? && Str("name") in Keys(lambdaDef.entries)
    requires Truthy(Lookup(lambdaDef.entries, Str("name")).value) && Hashable(Lookup(lambdaDef.entries, Str("name")).value)
    requires Lookup(g, Str("functions")).Some? && Lookup(g, Str("functions")).value.Dict?
    requires Lookup(lambdaDef.entries, Str("name")).value in Keys(Lookup(g, Str("functions")).value.entries)
    ensures LegacyLambda(g, root, lambdaDef, entry, entryDir)
      == Warned(g, DuplicateLambda(entry, Lookup(lambdaDef.entries, Str("name")).value))
  {
    GetPresent(lambdaDef, "name");
    SectionPresent(g, "functions");
    MemberOfDict(Lookup(lambdaDef.entries, Str("name")).value, Lookup(g, Str("functions")).value);
  }

  /** Storing the integration, or raising over its path, leaves every
      section but `paths` as it was. */
  lemma IntegrationKeepsOthers(g: Entries, name: Value, integration: Value, entry: Path, k: Value)
    requires k != Str("paths")
    ensures var r := LegacyIntegration(g, name, integration, entry);
      (r.Done? ==> Lookup(r.value, k) == Lookup(g, k)) && (r.Warned? ==> Lookup(r.graph, k) == Lookup(g, k))
  {
  }

  /** Once the name is new, the function is registered under it with the
      fragment's resources, and stays registered whether the integration
      then succeeds or raises. */
  lemma LambdaRegistered(g: Entries, root: Path, lambdaDef: Value, entry: Path, entryDir: Path)
    requires lambdaDef.Dict? && Str("name") in Keys(lambdaDef.entries)
    requires Truthy(Lookup(lambdaDef.entries, Str("name")).value) && Hashable(Lookup(lambdaDef.entries, Str("name")).value)
    requires Lookup(g, Str("functions")).Some? && Lookup(g, Str("functions")).value.Dict?
    requires Lookup(lambdaDef.entries, Str("name")).value !in Keys(Lookup(g, Str("functions")).value.entries)
    ensures var r := LegacyLambda(g, root, lambdaDef, entry, entryDir);
      var resources := Importer.WithUri(SectionOr(lambdaDef.entries, "resources", Dict([])), root, entryDir);
      var after := if r.Done? then r.value else if r.Warned? then r.graph else g;
      !r.Failed? ==>
        resources.Ok? && Lookup(after, Str("functions")).Some? && Lookup(after, Str("functions")).value.Dict?
        && Lookup(Lookup(after, Str("functions")).value.entries, Lookup(lambdaDef.entries, Str("name")).value)
          == Some(resources.value)
  {
    var name := Lookup(lambdaDef.entries, Str("name")).value;
    GetPresent(lambdaDef, "name");
    SectionPresent(g, "functions");
    MemberOfDict(name, Lookup(g, Str("functions")).value);
    var registered := Registered(g, root, lambdaDef, name, entryDir);
    if registered.Ok? {
      var integration := Get(lambdaDef, "integration", Dict([])).value;
      IntegrationKeepsOthers(registered.value, name, integration, entry, Str("functions"));
    }
  }

  /** A section the graph has is left as it is by `EnsureSection`. */
  lemma SectionPresent(g: Entries, name: string)
    requires Lookup(g, Str(name)).Some?
    ensures Importer.EnsureSection(g, name) == g
    ensures Importer.Section(g, name) == Lookup(g, Str(name)).value
  {
  }

  lemma MemberOfDict(x: Value, c: Value)
    requires c.Dict? && Hashable(x)
    ensures Member(x, c) == Ok(x in Keys(c.entries))
  {
  }

  lemma GetPresent(v: Value, k: string)
    requires v.Dict? && Str(k) in Keys(v.entries)
    ensures Get(v, k, Null) == Ok(Lookup(v.entries, Str(k)).value)
  {
  }

  /** A path entry stored by the legacy copy names its function and carries
      no path, but only carries an `integration` key when the fragment wrote
      one; the loader always stores `integration: lambda`. */
  lemma HoistedWithoutKind(integration: Value, name: Value)
    requires integration.Dict? && Str("path") in Keys(integration.entries)
    requires Str("integration") !in Keys(integration.entries)
    ensures Hoisted(integration, name).Ok? && Importer.HoistedIntegration(integration, name).Ok?
    ensures Str("integration") !in Keys(Hoisted(integration, name).value.entries)
    ensures Lookup(Importer.HoistedIntegration(integration, name).value.entries, Str("integration")) == Some(Str("lambda"))
    ensures forall k :: k != Str("integration") ==>
      Lookup(Hoisted(integration, name).value.entries, k) == Lookup(Importer.HoistedIntegration(integration, name).value.entries, k)
  {
    var h := Hoisted(integration, name).value;
    var l := Importer.HoistedIntegration(integration, name).value;
    assert Lookup(h.entries, Str("integration")) == Lookup(integration.entries, Str("integration"));
    forall k | k != Str("integration") ensures Lookup(h.entries, k) == Lookup(l.entries, k) {
      if k == Str("path") {
        assert Lookup(h.entries, k) == None == Lookup(l.entries, k);
      }
    }
  }

  /** A stored integration sits in `paths` under its path, naming the function. */
  lemma IntegrationStored(g: Entries, name: Value, integration: Value, entry: Path)
    requires LegacyIntegration(g, name, integration, entry).Done?
    ensures integration.Dict? && Str("path") in Keys(integration.entries)
    ensures var after := LegacyIntegration(g, name, integration, entry).value;
      var path := Lookup(integration.entries, Str("path")).value;
      Lookup(after, Str("paths")).Some? && Lookup(after, Str("paths")).value.Dict?
      && Lookup(Lookup(after, Str("paths")).value.entries, path) == Some(Hoisted(integration, name).value)
      && (forall k :: k != Str("paths") ==> Lookup(after, k) == Lookup(g, k))
  {
    var path := Get(integration, "path", Null).value;
    assert Truthy(path);
    assert Str("path") in Keys(integration.entries);
  }

  /** A taken path raises after the function is registered, and before the
      integration is stored. */
  lemma IntegrationDuplicatePath(g: Entries, name: Value, integration: Value, entry: Path)
    requires integration.Dict? && Str("path") in Keys(integration.entries)
    requires Truthy(Lookup(integration.entries, Str("path")).value) && Hashable(Lookup(integration.entries, Str("path")).value)
    requires Lookup(g, Str("paths")).Some? && Lookup(g, Str("paths")).value.Dict?
    requires Lookup(integration.entries, Str("path")).value in Keys(Lookup(g, Str("paths")).value.entries)
    ensures LegacyIntegration(g, name, integration, entry)
      == Warned(g, DuplicatePath(entry, Lookup(integration.entries, Str("path")).value))
  {
    GetPresent(integration, "path");
    SectionPresent(g, "paths");
    MemberOfDict(Lookup(integration.entries, Str("path")).value, Lookup(g, Str("paths")).value);
  }

  // ---------------------------------------------------------------------------
  // preprocess_tables

  /** How the table loop ends: every table merged; at a name already taken,
      with the tables merged so far; or with some other exception. */
  datatype TableMerge = Merged(tables: Value) | Clash(tables: Value, name: Value) | Broken

  /** The loop of the legacy `preprocess_tables`: the first name already taken
      raises, with the tables before it merged into the graph. */
  function MergeTables(tables: Value, items: Entries): TableMerge
    decreases |items|
  {
    if |items| == 0 then Merged(tables)
    else
      match Member(items[0].0, tables)
      case Crash => Broken
      case Ok(taken) =>
        if taken then Clash(tables, items[0].0)
        else
          match SetItem(tables, items[0].0, items[0].1)
          case Crash => Broken
          case Ok(tables') => MergeTables(tables', items[1..])
  }

  /** The result `PreprocessTables` is proved to return. */
  function LegacyTables(g: Entries, tableDef: Value, entry: Path): Step<Entries>
  {
    var g1 := Importer.EnsureSection(g, "tables");
    match Items(tableDef)
    case Crash => Failed
    case Ok(items) =>
      match MergeTables(Importer.Section(g1, "tables"), items)
      case Merged(tables) => Done(Put(g1, Str("tables"), tables))
      case Clash(tables, name) => Warned(Put(g1, Str("tables"), tables), DuplicateTable(entry, name))
      case Broken => Failed
  }

  lemma KeysConcat(a: Entries, b: Entries)
    ensures Keys(a + b) == Keys(a) + Keys(b)
  {
    forall i | 0 <= i < |a + b| ensures Keys(a + b)[i] == (Keys(a) + Keys(b))[i] {
      if i < |a| {
        assert (a + b)[i] == a[i];
      } else {
        assert (a + b)[i] == b[i - |a|];
      }
    }
  }

  lemma ConsSplit<T>(a: seq<T>, b: seq<T>)
    requires |a| > 0
    ensures (a + b)[0] == a[0] && (a + b)[1..] == a[1..] + b
  {
  }

  /** A new table name is appended, and the loop goes on with the rest. */
  lemma MergeTablesStep(tables: Entries, items: Entries)
    requires |items| > 0 && Hashable(items[0].0) && items[0].0 !in Keys(tables)
    ensures MergeTables(Dict(tables), items) == MergeTables(Dict(tables + [items[0]]), items[1..])
  {
    PutNew(tables, items[0].0, items[0].1);
    assert Member(items[0].0, Dict(tables)) == Ok(false);
  }

  lemma AddedTail(tables: Entries, added: Entries)
    requires UniqueKeys(added) && |added| > 0
    requires forall k :: k in Keys(added) ==> Hashable(k) && k !in Keys(tables)
    ensures Hashable(added[0].0) && added[0].0 !in Keys(tables)
    ensures UniqueKeys(added[1..])
    ensures forall k :: k in Keys(added[1..]) ==> Hashable(k) && k !in Keys(tables + [added[0]])
  {
    var x := added[0];
    assert Keys(added)[0] == x.0;
    UniqueHead(added);
    assert Keys(tables + [x]) == Keys(tables) + [x.0] by {
      KeysConcat(tables, [x]);
    }
    TailKeysFresh(Keys(tables), x.0, Keys(added[1..]), Keys(added));
  }

  /** Keys after the first of a run of fresh keys are fresh after it too. */
  lemma TailKeysFresh(before: seq<Value>, first: Value, later: seq<Value>, all: seq<Value>)
    requires all == [first] + later && first !in later
    requires forall k :: k in all ==> Hashable(k) && k !in before
    ensures forall k :: k in later ==> Hashable(k) && k !in before + [first]
  {
    assert forall k :: k in later ==> k in all;
  }

  /** Tables whose names are all new are appended in order, and the loop goes
      on with what follows them. */
  lemma {:induction false} MergeTablesPrefix(tables: Entries, added: Entries, rest: Entries)
    requires UniqueKeys(added)
    requires forall k :: k in Keys(added) ==> Hashable(k) && k !in Keys(tables)
    ensures MergeTables(Dict(tables), added + rest) == MergeTables(Dict(tables + added), rest)
    decreases |added|
  {
    if |added| == 0 {
      assert added + rest == rest && tables + added == tables;
    } else {
      var x := added[0];
      AddedTail(tables, added);
      ConsSplit(added, rest);
      MergeTablesStep(tables, added + rest);
      MergeTablesPrefix(tables + [x], added[1..], rest);
      AppendHead(tables, added);
    }
  }

  /** When no table of the fragment is taken, all of them are appended, in order. */
  lemma MergeTablesDone(tables: Entries, items: Entries)
    requires UniqueKeys(items)
    requires forall k :: k in Keys(items) ==> Hashable(k) && k !in Keys(tables)
    ensures MergeTables(Dict(tables), items) == Merged(Dict(tables + items))
  {
    MergeTablesPrefix(tables, items, []);
    assert items + [] == items;
  }

  /** At the first table whose name is taken the merge raises, with every
      table before it already in the graph's `tables` section. */
  lemma MergeTablesStops(tables: Entries, before: Entries, x: (Value, Value), after: Entries)
    requires UniqueKeys(before)
    requires forall k :: k in Keys(before) ==> Hashable(k) && k !in Keys(tables)
    requires Hashable(x.0) && x.0 in Keys(tables)
    ensures MergeTables(Dict(tables), before + [x] + after) == Clash(Dict(tables + before), x.0)
  {
    assert before + [x] + after == before + ([x] + after);
    MergeTablesPrefix(tables, before, [x] + after);
    KeysConcat(tables, before);
    MergeTablesTaken(tables + before, x, after);
  }

  /** A taken first name stops the merge there. */
  lemma MergeTablesTaken(tables: Entries, x: (Value, Value), after: Entries)
    requires Hashable(x.0) && x.0 in Keys(tables)
    ensures MergeTables(Dict(tables), [x] + after) == Clash(Dict(tables), x.0)
  {
    assert ([x] + after)[0] == x;
    assert Member(x.0, Dict(tables)) == Ok(true);
  }

  /** `preprocess_tables(resources_data, table_def, entry_path)`. */
  method PreprocessTables(g: Entries, tableDef: Value, entry: Path) returns (r: Step<Entries>)
    ensures r == LegacyTables(g, tableDef, entry)
  {
    var g1 := Importer.EnsureSection(g, "tables");
    if !tableDef.Dict? {
      return Failed;
    }
    var items := tableDef.entries;
    var tables := Importer.Section(g1, "tables");
    var i := 0;
    while i < |items|
      invariant 0 <= i <= |items|
      invariant MergeTables(tables, items[i..]) == MergeTables(Importer.Section(g1, "tables"), items)
    {
      assert items[i..][1..] == items[i + 1..];
      var taken := Member(items[i].0, tables);
      if taken.Crash? {
        return Failed;
      }
      if taken.value {
        return Warned(Put(g1, Str("tables"), tables), DuplicateTable(entry, items[i].0));
      }
      var updated := SetItem(tables, items[i].0, items[i].1);
      if updated.Crash? {
        return Failed;
      }
      tables := updated.value;
      i := i + 1;
    }
    return Done(Put(g1, Str("tables"), tables));
  }

  // ---------------------------------------------------------------------------
  // preprocess_file and preprocess_imports

  /** The `lambda` and `tables` sections of a fragment, merged in that order. */
  function LegacySections(g: Entries, root: Path, doc: Entries, entry: Path): Step<Entries>
  {
    var lambdaDef := SectionOr(doc, "lambda", Null);
    var merged := if Truthy(lambdaDef) then LegacyLambda(g, root, lambdaDef, entry, Parent(entry)) else Done(g);
    match merged
    case Done(g1) =>
      var tablesDef := SectionOr(doc, "tables", Null);
      if Truthy(tablesDef) then LegacyTables(g1, tablesDef, entry) else Done(g1)
    case _ => merged
  }

  /** The legacy `preprocess_file`: an unreadable fragment or one that is not
      a mapping fails outright, and one with an unknown section raises before
      anything is merged.  `budget` is the interpreter's remaining recursion
      depth, which a fragment importing itself exhausts. */
  function LegacyFile(fs: FileSystem, root: Path, g: Entries, entry: Path, budget: nat): Step<Entries>
    decreases budget, 0, 1
  {
    if budget == 0 then Failed
    else
      match Read(fs, entry)
      case None => Failed
      case Some(doc) =>
        if !doc.Dict? then Failed
        else if !Importer.KnownSections(doc.entries) then Warned(g, UnexpectedSections(entry))
        else LegacyAfterSections(fs, root, LegacySections(g, root, doc.entries, entry), doc.entries, entry, budget)
  }

  /** The rest of the legacy `preprocess_file` once the sections are merged:
      the fragment's own imports, relative to its directory. */
  function LegacyAfterSections(fs: FileSystem, root: Path, merged: Step<Entries>, doc: Entries, entry: Path, budget: nat): Step<Entries>
    requires budget > 0
    decreases budget, 0, 0
  {
    match merged
    case Done(g) =>
      var imports := SectionOr(doc, "import", Null);
      if !Truthy(imports) then merged
      else
        (match Iter(imports)
         case Crash => Failed
         case Ok(names) => LegacyImportList(fs, root, g, Parent(entry), names, budget - 1))
    case _ => merged
  }

  /** The loop over a fragment's `import` list; the first fragment that
      raises or fails ends it. */
  function LegacyImportList(fs: FileSystem, root: Path, g: Entries, dir: Path, names: seq<Value>, budget: nat): Step<Entries>
    decreases budget, 1, |names|
  {
    if |names| == 0 then Done(g)
    else if !names[0].Str? then Failed
    else
      var r := LegacyFile(fs, root, g, Join(dir, names[0].s), budget);
      match r
      case Done(g1) => LegacyImportList(fs, root, g1, dir, names[1..], budget)
      case _ => r
  }

  /** The fragment files found in one import directory, in the order found. */
  function LegacyEntries(fs: FileSystem, root: Path, g: Entries, entries: seq<Path>, budget: nat): Step<Entries>
    decreases |entries|
  {
    if |entries| == 0 then Done(g)
    else
      var r := LegacyFile(fs, root, g, entries[0], budget);
      match r
      case Done(g1) => LegacyEntries(fs, root, g1, entries[1..], budget)
      case _ => r
  }

  /** The loop over the graph's `import` directories: a missing directory
      raises, with the directories before it already imported. */
  function LegacyImportDirs(fs: FileSystem, root: Path, g: Entries, dirs: seq<Value>, budget: nat): Step<Entries>
    decreases |dirs|
  {
    if |dirs| == 0 then Done(g)
    else if !dirs[0].Str? then Failed
    else
      var dir := Join(root, dirs[0].s);
      if !Exists(fs, dir) then Warned(g, ImportDirNotFound(dir))
      else
        var r := LegacyEntries(fs, root, g, Glob(fs, dir), budget);
        match r
        case Done(g1) => LegacyImportDirs(fs, root, g1, dirs[1..], budget)
        case _ => r
  }

  /** The result `PreprocessImports` is proved to return. */
  function LegacyImports(fs: FileSystem, root: Path, g: Entries, budget: nat): Step<Entries>
  {
    match Iter(SectionOr(g, "import", List([])))
    case Crash => Failed
    case Ok(dirs) => LegacyImportDirs(fs, root, g, dirs, budget)
  }

  /** A fragment with a section other than `lambda`, `import` and `tables`
      raises and merges nothing, whatever else it holds. */
  lemma UnexpectedSectionsMergeNothing(fs: FileSystem, root: Path, g: Entries, entry: Path, budget: nat)
    requires budget > 0 && Read(fs, entry).Some? && Read(fs, entry).value.Dict?
    requires !Importer.KnownSections(Read(fs, entry).value.entries)
    ensures LegacyFile(fs, root, g, entry, budget) == Warned(g, UnexpectedSections(entry))
  {
  }

  /** Unlike the loader, which records the file and goes on, the legacy copy
      fails on a fragment it cannot read. */
  lemma UnreadableFragmentFails(fs: FileSystem, root: Path, g: Entries, entry: Path, budget: nat)
    requires Read(fs, entry).None?
    ensures LegacyFile(fs, root, g, entry, budget) == Failed
    ensures budget > 0 ==> Importer.ProcessFile(fs, root, State(g, []), entry, budget) == Ok(State(g, [FragmentUnreadable(entry)]))
  {
    assert [] + [FragmentUnreadable(entry)] == [FragmentUnreadable(entry)];
  }

  /** A missing import directory raises; the loader records it and goes on
      to the next directory. */
  lemma MissingImportDirRaises(fs: FileSystem, root: Path, g: Entries, dirs: seq<Value>, budget: nat)
    requires |dirs| > 0 && dirs[0].Str? && !Exists(fs, Join(root, dirs[0].s))
    ensures LegacyImportDirs(fs, root, g, dirs, budget) == Warned(g, ImportDirNotFound(Join(root, dirs[0].s)))
    ensures Importer.ProcessImportDirs(fs, root, State(g, []), dirs, budget)
      == Importer.ProcessImportDirs(fs, root, State(g, [ImportDirNotFound(Join(root, dirs[0].s))]), dirs[1..], budget)
  {
    assert [] + [ImportDirNotFound(Join(root, dirs[0].s))] == [ImportDirNotFound(Join(root, dirs[0].s))];
  }

  /** The `lambda` and `tables` part of the legacy `preprocess_file`. */
  method PreprocessSections(g: Entries, root: Path, doc: Entries, entry: Path) returns (r: Step<Entries>)
    ensures r == LegacySections(g, root, doc, entry)
  {
    var current := g;
    var lambdaDef := SectionOr(doc, "lambda", Null);
    if Truthy(lambdaDef) {
      var merged := LegacyLambda(current, root, lambdaDef, entry, Parent(entry));
      if !merged.Done? {
        return merged;
      }
      current := merged.value;
    }
    var tablesDef := SectionOr(doc, "tables", Null);
    if Truthy(tablesDef) {
      r := PreprocessTables(current, tablesDef, entry);
    } else {
      r := Done(current);
    }
  }

  /** `preprocess_file(resources_data, resources_dir, entry_path)`. */
  method PreprocessFile(fs: FileSystem, root: Path, g: Entries, entry: Path, budget: nat) returns (r: Step<Entries>)
    ensures r == LegacyFile(fs, root, g, entry, budget)
    decreases budget, 0, 1
  {
    if budget == 0 {
      return Failed;
    }
    var read := Read(fs, entry);
    if read.None? || !read.value.Dict? {
      return Failed;
    }
    var doc := read.value;
    if !Importer.KnownSections(doc.entries) {
      return Warned(g, UnexpectedSections(entry));
    }
    var merged := PreprocessSections(g, root, doc.entries, entry);
    r := PreprocessFileImports(fs, root, merged, doc.entries, entry, budget);
  }

  /** The rest of `preprocess_file` once the sections are merged: the
      fragment's own imports, when it lists any. */
  method PreprocessFileImports(fs: FileSystem, root: Path, merged: Step<Entries>, doc: Entries, entry: Path, budget: nat) returns (r: Step<Entries>)
    requires budget > 0
    ensures r == LegacyAfterSections(fs, root, merged, doc, entry, budget)
    decreases budget, 0, 0
  {
    if !merged.Done? {
      return merged;
    }
    var imports := SectionOr(doc, "import", Null);
    if !Truthy(imports) {
      return merged;
    }
    var listed := Iter(imports);
    if listed.Crash? {
      return Failed;
    }
    r := PreprocessImportList(fs, root, merged.value, Parent(entry), listed.value, budget - 1);
  }

  /** The loop of the legacy `preprocess_file` over the fragment's own imports. */
  method PreprocessImportList(fs: FileSystem, root: Path, g: Entries, dir: Path, names: seq<Value>, budget: nat) returns (r: Step<Entries>)
    ensures r == LegacyImportList(fs, root, g, dir, names, budget)
    decreases budget, 1
  {
    var current := g;
    var i := 0;
    while i < |names|
      invariant 0 <= i <= |names|
      invariant LegacyImportList(fs, root, current, dir, names[i..], budget) == LegacyImportList(fs, root, g, dir, names, budget)
    {
      assert names[i..][1..] == names[i + 1..];
      if !names[i].Str? {
        return Failed;
      }
      var next := PreprocessFile(fs, root, current, Join(dir, names[i].s), budget);
      if !next.Done? {
        return next;
      }
      current := next.value;
      i := i + 1;
    }
    return Done(current);
  }

  /** The inner loop of the legacy `preprocess_imports`, over the fragment
      files found in one directory. */
  method PreprocessEntries(fs: FileSystem, root: Path, g: Entries, entries: seq<Path>, budget: nat) returns (r: Step<Entries>)
    ensures r == LegacyEntries(fs, root, g, entries, budget)
  {
    var current := g;
    var j := 0;
    while j < |entries|
      invariant 0 <= j <= |entries|
      invariant LegacyEntries(fs, root, current, entries[j..], budget) == LegacyEntries(fs, root, g, entries, budget)
    {
      assert entries[j..][1..] == entries[j + 1..];
      var next := PreprocessFile(fs, root, current, entries[j], budget);
      if !next.Done? {
        return next;
      }
      current := next.value;
      j := j + 1;
    }
    return Done(current);
  }

  /** `preprocess_imports(resources_data, resources_dir)`. */
  method PreprocessImports(fs: FileSystem, root: Path, g: Entries, budget: nat) returns (r: Step<Entries>)
    ensures r == LegacyImports(fs, root, g, budget)
  {
    var listed := Iter(SectionOr(g, "import", List([])));
    if listed.Crash? {
      return Failed;
    }
    var dirs := listed.value;
    var current := g;
    var i := 0;
    while i < |dirs|
      invariant 0 <= i <= |dirs|
      invariant LegacyImportDirs(fs, root, current, dirs[i..], budget) == LegacyImportDirs(fs, root, g, dirs, budget)
    {
      assert dirs[i..][1..] == dirs[i + 1..];
      if !dirs[i].Str? {
        return Failed;
      }
      var dir := Join(root, dirs[i].s);
      if !Exists(fs, dir) {
        return Warned(current, ImportDirNotFound(dir));
      }
      var next := PreprocessEntries(fs, root, current, Glob(fs, dir), budget);
      if !next.Done? {
        return next;
      }
      current := next.value;
      i := i + 1;
    }
    return Done(current);
  }

  // ---------------------------------------------------------------------------
  // preprocess_resources

  /** The sections the legacy copy puts in order, each as a mapping. */
  const SortedSections: seq<string> := ["tables", "paths", "functions", "buckets", "authorizers"]

  predicate Distinct(names: seq<string>)
  {
    forall i, j :: 0 <= i < j < |names| ==> names[i] != names[j]
  }

  /** The named sections sorted in turn, each where it stands; a section that
      is not a mapping fails, a list included. */
  function SortSections(g: Entries, sections: seq<string>): Step<Entries>
    decreases |sections|
  {
    if |sections| == 0 then Done(g)
    else
      match Lookup(g, Str(sections[0]))
      case None => SortSections(g, sections[1..])
      case Some(v) =>
        match SortDict(v)
        case Crash => Failed
        case Ok(sorted) => SortSections(Put(g, Str(sections[0]), sorted), sections[1..])
  }

  /** The legacy `preprocess_resources`: the imports when the graph lists any,
      then the sections sorted.  The final `sort_dict` of the whole graph only
      rebinds a local name, so the caller's graph keeps its order; it still
      raises when the top-level keys cannot be compared. */
  function LegacyResources(fs: FileSystem, root: Path, g: Entries, budget: nat): Step<Entries>
  {
    var imported := if Str("import") in Keys(g) then LegacyImports(fs, root, g, budget) else Done(g);
    match imported
    case Done(g1) => SortStep(g1)
    case _ => imported
  }

  /** The sorting half of the legacy `preprocess_resources`. */
  function SortStep(g: Entries): Step<Entries>
  {
    var sorted := SortSections(g, SortedSections);
    match sorted
    case Done(g2) => if OrderableKeys(g2) then sorted else Failed
    case _ => sorted
  }

  /** The loop of the legacy `preprocess_resources` over its five sections. */
  method SortNamedSections(g: Entries, sections: seq<string>) returns (r: Step<Entries>)
    ensures r == SortSections(g, sections)
  {
    var current := g;
    var i := 0;
    while i < |sections|
      invariant 0 <= i <= |sections|
      invariant SortSections(current, sections[i..]) == SortSections(g, sections)
    {
      assert sections[i..][1..] == sections[i + 1..];
      var present := Lookup(current, Str(sections[i]));
      if present.Some? {
        var sorted := SortDict(present.value);
        if sorted.Crash? {
          return Failed;
        }
        current := Put(current, Str(sections[i]), sorted.value);
      }
      i := i + 1;
    }
    return Done(current);
  }

  /** `preprocess_resources(resources_data, resources_dir, path)`. */
  method PreprocessResources(fs: FileSystem, root: Path, g: Entries, budget: nat) returns (r: Step<Entries>)
    ensures r == LegacyResources(fs, root, g, budget)
  {
    var current := g;
    if Str("import") in Keys(g) {
      var imported := PreprocessImports(fs, root, g, budget);
      if !imported.Done? {
        return imported;
      }
      current := imported.value;
    }
    r := SortNamedSections(current, SortedSections);
    if r.Done? && !OrderableKeys(r.value) {
      r := Failed;
    }
  }

  /** The section names as graph keys. */
  function Labels(sections: seq<string>): (r: seq<Value>)
    ensures |r| == |sections|
    ensures forall i :: 0 <= i < |sections| ==> r[i] == Str(sections[i])
  {
    if |sections| == 0 then [] else [Str(sections[0])] + Labels(sections[1..])
  }

  /** Sorting the sections never raises `UserWarning`; it finishes exactly
      when every listed section the graph has is a mapping whose keys can be
      compared. */
  lemma {:induction false} SortSectionsDone(g: Entries, sections: seq<string>)
    requires Distinct(sections)
    ensures !SortSections(g, sections).Warned?
    ensures SortSections(g, sections).Done? <==>
      forall i :: 0 <= i < |sections| && Lookup(g, Str(sections[i])).Some? ==> SortDict(Lookup(g, Str(sections[i])).value).Ok?
    decreases |sections|
  {
    if |sections| > 0 {
      var k := Str(sections[0]);
      DistinctTail(sections);
      match Lookup(g, k) {
        case None =>
          SortSectionsDone(g, sections[1..]);
          SortableTail(g, g, sections);
        case Some(v) =>
          if SortDict(v).Ok? {
            var g' := Put(g, k, SortDict(v).value);
            SortSectionsDone(g', sections[1..]);
            SortableTail(g, g', sections);
          }
      }
    }
  }

  lemma DistinctTail(sections: seq<string>)
    requires Distinct(sections) && |sections| > 0
    ensures Distinct(sections[1..])
    ensures forall i :: 0 < i < |sections| ==> sections[1..][i - 1] == sections[i] && sections[i] != sections[0]
  {
  }

  /** Past the first listed section, a graph that agrees on the others lets
      sort what the original lets sort. */
  lemma SortableTail(g: Entries, g': Entries, sections: seq<string>)
    requires Distinct(sections) && |sections| > 0
    requires forall j :: 0 < j < |sections| ==> sections[j] != sections[0]
    requires forall n :: n != sections[0] ==> Lookup(g', Str(n)) == Lookup(g, Str(n))
    ensures (forall i :: 0 <= i < |sections[1..]| && Lookup(g', Str(sections[1..][i])).Some? ==> SortDict(Lookup(g', Str(sections[1..][i])).value).Ok?)
      <==> (forall i :: 0 < i < |sections| && Lookup(g, Str(sections[i])).Some? ==> SortDict(Lookup(g, Str(sections[i])).value).Ok?)
  {
    assert forall i :: 0 <= i < |sections[1..]| ==> sections[1..][i] == sections[i + 1];
  }

  /** Once sorting finishes, each listed section the graph had holds its own
      entries sorted by key, no section has moved or gone, and every other
      section is as it was. */
  lemma SortSectionsSorted(g: Entries, sections: seq<string>)
    requires Distinct(sections) && SortSections(g, sections).Done?
    ensures Keys(SortSections(g, sections).value) == Keys(g)
    ensures forall k :: k !in Labels(sections) ==> Lookup(SortSections(g, sections).value, k) == Lookup(g, k)
    ensures forall i :: 0 <= i < |sections| && Lookup(g, Str(sections[i])).Some? ==>
      var before := Lookup(g, Str(sections[i])).value;
      var after := Lookup(SortSections(g, sections).value, Str(sections[i]));
      before.Dict? && after.Some? && after.value.Dict?
      && SortedBy(after.value.entries, KeyText) && multiset(after.value.entries) == multiset(before.entries)
  {
    SortSectionsFrame(g, sections);
    forall i | 0 <= i < |sections| && Lookup(g, Str(sections[i])).Some?
      ensures var before := Lookup(g, Str(sections[i])).value;
        var after := Lookup(SortSections(g, sections).value, Str(sections[i]));
        before.Dict? && after.Some? && after.value.Dict?
        && SortedBy(after.value.entries, KeyText) && multiset(after.value.entries) == multiset(before.entries)
    {
      SortSectionsSortedAt(g, sections, i);
    }
  }

  /** Sorting keeps the graph's keys in place and leaves unlisted sections alone. */
  lemma {:induction false} SortSectionsFrame(g: Entries, sections: seq<string>)
    requires SortSections(g, sections).Done?
    ensures Keys(SortSections(g, sections).value) == Keys(g)
    ensures forall k :: k !in Labels(sections) ==> Lookup(SortSections(g, sections).value, k) == Lookup(g, k)
    decreases |sections|
  {
    if |sections| > 0 {
      var k := Str(sections[0]);
      assert Labels(sections) == [k] + Labels(sections[1..]);
      match Lookup(g, k) {
        case None =>
          SortSectionsFrame(g, sections[1..]);
        case Some(v) =>
          SortSectionsFrame(Put(g, k, SortDict(v).value), sections[1..]);
      }
    }
  }

  /** `after` is `before`'s own entries sorted by key. */
  predicate SortedSection(before: Value, after: Option<Value>)
  {
    before.Dict? && after.Some? && after.value.Dict?
    && SortedBy(after.value.entries, KeyText) && multiset(after.value.entries) == multiset(before.entries)
  }

  /** The `i`-th listed section, when the graph had it, ends sorted by key
      with its own entries. */
  lemma {:induction false} SortSectionsSortedAt(g: Entries, sections: seq<string>, i: nat)
    requires Distinct(sections) && SortSections(g, sections).Done?
    requires i < |sections| && Lookup(g, Str(sections[i])).Some?
    ensures SortedSection(Lookup(g, Str(sections[i])).value, Lookup(SortSections(g, sections).value, Str(sections[i])))
    decreases |sections|
  {
    if i == 0 {
      SortSectionsHead(g, sections, Lookup(g, Str(sections[0])).value);
    } else {
      var name := sections[i];
      var g1 := SortFirst(g, sections);
      var rest := sections[1..];
      DistinctLater(sections, i);
      SortSectionsRest(g, sections);
      SortFirstOther(g, sections, name);
      SortSectionsSortedAt(g1, rest, i - 1);
      SortedSectionSame(Lookup(g1, Str(rest[i - 1])).value, Lookup(SortSections(g1, rest).value, Str(rest[i - 1])),
                        Lookup(g, Str(name)).value, Lookup(SortSections(g, sections).value, Str(name)));
    }
  }

  lemma DistinctLater(sections: seq<string>, i: nat)
    requires Distinct(sections) && 0 < i < |sections|
    ensures Distinct(sections[1..])
    ensures sections[1..][i - 1] == sections[i] && sections[i] != sections[0]
  {
  }

  lemma SortedSectionSame(before: Value, after: Option<Value>, before': Value, after': Option<Value>)
    requires SortedSection(before, after) && before == before' && after == after'
    ensures SortedSection(before', after')
  {
  }

  /** `SortFirst` leaves the other sections as they were. */
  lemma SortFirstOther(g: Entries, sections: seq<string>, name: string)
    requires |sections| > 0 && name != sections[0]
    ensures Lookup(SortFirst(g, sections), Str(name)) == Lookup(g, Str(name))
  {
  }

  /** The graph once the first listed section is sorted. */
  function SortFirst(g: Entries, sections: seq<string>): Entries
    requires |sections| > 0
  {
    match Lookup(g, Str(sections[0]))
    case None => g
    case Some(v) =>
      match SortDict(v)
      case Crash => g
      case Ok(sorted) => Put(g, Str(sections[0]), sorted)
  }

  /** Sorting goes on from `SortFirst`, which changes the first section only. */
  lemma SortSectionsRest(g: Entries, sections: seq<string>)
    requires |sections| > 0 && SortSections(g, sections).Done?
    ensures SortSections(SortFirst(g, sections), sections[1..]) == SortSections(g, sections)
    ensures forall k :: k != Str(sections[0]) ==> Lookup(SortFirst(g, sections), k) == Lookup(g, k)
  {
  }

  /** The first listed section is sorted first, and the rest leave it alone. */
  lemma SortSectionsHead(g: Entries, sections: seq<string>, v: Value)
    requires Distinct(sections) && |sections| > 0 && Lookup(g, Str(sections[0])) == Some(v)
    requires SortSections(g, sections).Done?
    ensures SortedSection(v, Lookup(SortSections(g, sections).value, Str(sections[0])))
  {
    var sorted := SortDict(v).value;
    var g' := Put(g, Str(sections[0]), sorted);
    assert SortSections(g, sections) == SortSections(g', sections[1..]);
    SortBySorted(v.entries, KeyText);
    LabelsHeadFresh(sections);
    SortSectionsFrame(g', sections[1..]);
  }

  /** The first of distinct section names is not among the rest. */
  lemma LabelsHeadFresh(sections: seq<string>)
    requires Distinct(sections) && |sections| > 0
    ensures Str(sections[0]) !in Labels(sections[1..])
  {
    forall i | 0 <= i < |sections[1..]| ensures Labels(sections[1..])[i] != Str(sections[0]) {
      assert sections[1..][i] == sections[i + 1];
    }
  }

  lemma SortedSectionsDistinct()
    ensures Distinct(SortedSections)
  {
  }

  /** Whether the graph's keys can be compared depends on its keys alone. */
  lemma OrderableSameKeys(a: Entries, b: Entries)
    requires Keys(a) == Keys(b)
    ensures OrderableKeys(a) <==> OrderableKeys(b)
  {
    assert |a| == |b|;
    assert forall i :: 0 <= i < |a| ==> a[i].0 == Keys(a)[i] == Keys(b)[i] == b[i].0;
  }

  /** The sorting half of the legacy preprocessor never raises `UserWarning`.
      It finishes exactly when each of the five sections the graph has is a
      mapping of comparable keys and the graph's own keys can be compared;
      then each of those sections holds its own entries sorted by key, the
      graph keeps the order of its sections, and every other section is as
      it was.  A list section, which the loader sorts, makes it fail. */
  lemma SortStepSorted(g: Entries)
    ensures !SortStep(g).Warned?
    ensures SortStep(g).Done? <==>
      (forall i :: 0 <= i < |SortedSections| && Lookup(g, Str(SortedSections[i])).Some? ==>
        SortDict(Lookup(g, Str(SortedSections[i])).value).Ok?)
      && OrderableKeys(g)
    ensures var r := SortStep(g);
      r.Done? ==>
        Keys(r.value) == Keys(g)
        && (forall k :: k !in Labels(SortedSections) ==> Lookup(r.value, k) == Lookup(g, k))
        && forall i :: 0 <= i < |SortedSections| && Lookup(g, Str(SortedSections[i])).Some? ==>
          var after := Lookup(r.value, Str(SortedSections[i]));
          after.Some? && after.value.Dict? && SortedBy(after.value.entries, KeyText)
          && multiset(after.value.entries) == multiset(Lookup(g, Str(SortedSections[i])).value.entries)
  {
    SortedSectionsDistinct();
    SortSectionsDone(g, SortedSections);
    if SortSections(g, SortedSections).Done? {
      SortSectionsSorted(g, SortedSections);
      OrderableSameKeys(SortSections(g, SortedSections).value, g);
    }
  }

  // ---------------------------------------------------------------------------
  // Merging only adds, even when it raises

  /** The graph a step finishes or raises with differs from `g` only by new
      functions, paths and tables. */
  ghost predicate OnlyAdds(g: Entries, r: Step<Entries>)
  {
    (r.Done? ==> Importer.Extends(g, r.value)) && (r.Warned? ==> Importer.Extends(g, r.graph))
  }

  lemma ExtendsTrans(a: Entries, b: Entries, c: Entries)
    requires Importer.Extends(a, b) && Importer.Extends(b, c)
    ensures Importer.Extends(a, c)
  {
    Importer.GrowsTrans(State(a, []), State(b, []), State(c, []));
  }

  lemma OnlyAddsTrans(a: Entries, b: Entries, r: Step<Entries>)
    requires Importer.Extends(a, b) && OnlyAdds(b, r)
    ensures OnlyAdds(a, r)
  {
    if r.Done? {
      ExtendsTrans(a, b, r.value);
    } else if r.Warned? {
      ExtendsTrans(a, b, r.graph);
    }
  }

  lemma EnsureSectionExtends(g: Entries, section: string)
    requires Importer.Merged(Str(section))
    ensures Importer.Extends(g, Importer.EnsureSection(g, section))
  {
    Importer.EnsureSectionGrows(State(g, []), section, []);
  }

  /** Storing `v` under a key a merged section does not have yet. */
  lemma StoreNewExtends(g: Entries, section: string, key: Value, v: Value)
    requires Importer.Merged(Str(section)) && Str(section) in Keys(g)
    requires SetItem(Importer.Section(g, section), key, v).Ok?
    requires Member(key, Importer.Section(g, section)) == Ok(false)
    ensures Importer.Extends(g, Put(g, Str(section), SetItem(Importer.Section(g, section), key, v).value))
  {
    var sec := Importer.Section(g, section);
    SectionPresent(g, section);
    MemberOfDict(key, sec);
    Importer.AddEntryGrows(State(g, []), section, sec.entries, key, v);
  }

  lemma IntegrationOnlyAdds(g: Entries, name: Value, integration: Value, entry: Path)
    ensures OnlyAdds(g, LegacyIntegration(g, name, integration, entry))
  {
    var r := LegacyIntegration(g, name, integration, entry);
    Importer.GrowsRefl(State(g, []));
    var path := Get(integration, "path", Null);
    if path.Ok? && Truthy(path.value) {
      var g1 := Importer.EnsureSection(g, "paths");
      EnsureSectionExtends(g, "paths");
      if r.Done? {
        var stored := Hoisted(integration, name).value;
        StoreNewExtends(g1, "paths", path.value, stored);
        ExtendsTrans(g, g1, r.value);
      }
    }
  }

  /** Registering a name the section does not hold replaces nothing. */
  lemma RegisteredExtends(g: Entries, root: Path, lambdaDef: Value, name: Value, entryDir: Path)
    requires Importer.Merged(Str("functions")) && Str("functions") in Keys(g)
    requires Member(name, Importer.Section(g, "functions")) == Ok(false)
    requires Registered(g, root, lambdaDef, name, entryDir).Ok?
    ensures Importer.Extends(g, Registered(g, root, lambdaDef, name, entryDir).value)
  {
    var resources := Importer.WithUri(Get(lambdaDef, "resources", Dict([])).value, root, entryDir).value;
    StoreNewExtends(g, "functions", name, resources);
  }

  /** Registering a lambda never replaces a function or path and touches no
      other section, whether it finishes or raises part-way. */
  lemma LambdaOnlyAdds(g: Entries, root: Path, lambdaDef: Value, entry: Path, entryDir: Path)
    ensures OnlyAdds(g, LegacyLambda(g, root, lambdaDef, entry, entryDir))
  {
    var r := LegacyLambda(g, root, lambdaDef, entry, entryDir);
    var g1 := Importer.EnsureSection(g, "functions");
    EnsureSectionExtends(g, "functions");
    var name := Get(lambdaDef, "name", Null);
    if name.Ok? && Truthy(name.value) && Member(name.value, Importer.Section(g1, "functions")) == Ok(false) {
      assert r == LegacyRegister(g1, root, lambdaDef, name.value, entry, entryDir);
      RegisterOnlyAdds(g1, root, lambdaDef, name.value, entry, entryDir);
    } else {
      assert r.Failed? || (r.Warned? && r.graph == g1);
      Importer.GrowsRefl(State(g1, []));
    }
    OnlyAddsTrans(g, g1, r);
  }

  lemma RegisterOnlyAdds(g1: Entries, root: Path, lambdaDef: Value, name: Value, entry: Path, entryDir: Path)
    requires Importer.Merged(Str("functions")) && Str("functions") in Keys(g1)
    requires Member(name, Importer.Section(g1, "functions")) == Ok(false)
    ensures OnlyAdds(g1, LegacyRegister(g1, root, lambdaDef, name, entry, entryDir))
  {
    var r := LegacyRegister(g1, root, lambdaDef, name, entry, entryDir);
    var registered := Registered(g1, root, lambdaDef, name, entryDir);
    if registered.Ok? {
      var g2 := registered.value;
      RegisteredExtends(g1, root, lambdaDef, name, entryDir);
      var integration := Get(lambdaDef, "integration", Dict([]));
      if integration.Ok? && Truthy(integration.value) {
        assert r == LegacyIntegration(g2, name, integration.value, entry);
        IntegrationOnlyAdds(g2, name, integration.value, entry);
        OnlyAddsTrans(g1, g2, r);
      }
    }
  }

  /** The table loop keeps every table it started with; in a section that is
      not a mapping it stores nothing. */
  lemma {:induction false} MergeTablesKeeps(tables: Value, items: Entries)
    ensures var r := MergeTables(tables, items);
      !r.Broken? ==> (tables.Dict? ==> Importer.KeepsEntries(Some(tables), Some(r.tables))) && (!tables.Dict? ==> r.tables == tables)
    decreases |items|
  {
    Importer.KeepsEntriesRefl(Some(tables));
    if |items| > 0 {
      var k := items[0].0;
      if Member(k, tables) == Ok(false) && SetItem(tables, k, items[0].1).Ok? {
        var tables' := SetItem(tables, k, items[0].1).value;
        var r := MergeTables(tables', items[1..]);
        MergeTablesKeeps(tables', items[1..]);
        forall k' | k' in Keys(tables.entries) ensures Lookup(tables'.entries, k') == Lookup(tables.entries, k') {
          assert k' != k;
        }
        if !r.Broken? {
          Importer.KeepsEntriesTrans(Some(tables), Some(tables'), Some(r.tables));
        }
      }
    }
  }

  lemma TablesOnlyAdds(g: Entries, tableDef: Value, entry: Path)
    ensures OnlyAdds(g, LegacyTables(g, tableDef, entry))
  {
    var g1 := Importer.EnsureSection(g, "tables");
    EnsureSectionExtends(g, "tables");
    var tables := Importer.Section(g1, "tables");
    assert Lookup(g1, Str("tables")) == Some(tables);
    if tableDef.Dict? {
      var r := MergeTables(tables, tableDef.entries);
      MergeTablesKeeps(tables, tableDef.entries);
      if !r.Broken? {
        if tables.Dict? {
          Importer.PutSectionGrows(State(g1, []), "tables", r.tables, []);
        } else {
          PutSame(g1, Str("tables"), tables);
        }
        ExtendsTrans(g, g1, Put(g1, Str("tables"), r.tables));
      }
    }
  }

  lemma SectionsOnlyAdds(g: Entries, root: Path, doc: Entries, entry: Path)
    ensures OnlyAdds(g, LegacySections(g, root, doc, entry))
  {
    var lambdaDef := SectionOr(doc, "lambda", Null);
    Importer.GrowsRefl(State(g, []));
    if Truthy(lambdaDef) {
      LambdaOnlyAdds(g, root, lambdaDef, entry, Parent(entry));
    }
    var merged := if Truthy(lambdaDef) then LegacyLambda(g, root, lambdaDef, entry, Parent(entry)) else Done(g);
    if merged.Done? {
      var tablesDef := SectionOr(doc, "tables", Null);
      if Truthy(tablesDef) {
        TablesOnlyAdds(merged.value, tablesDef, entry);
        OnlyAddsTrans(g, merged.value, LegacyTables(merged.value, tablesDef, entry));
      }
    }
  }

  /** Importing a fragment, and all it imports in turn, never replaces a
      function, path or table and leaves every other section alone; when it
      raises, the graph it leaves behind satisfies the same. */
  lemma {:induction false} FileOnlyAdds(fs: FileSystem, root: Path, g: Entries, entry: Path, budget: nat)
    ensures OnlyAdds(g, LegacyFile(fs, root, g, entry, budget))
    decreases budget, 0, 1
  {
    Importer.GrowsRefl(State(g, []));
    if budget > 0 && Read(fs, entry).Some? && Read(fs, entry).value.Dict? && Importer.KnownSections(Read(fs, entry).value.entries) {
      var doc := Read(fs, entry).value.entries;
      SectionsOnlyAdds(g, root, doc, entry);
      AfterSectionsOnlyAdds(fs, root, g, LegacySections(g, root, doc, entry), doc, entry, budget);
    }
  }

  lemma {:induction false} AfterSectionsOnlyAdds(fs: FileSystem, root: Path, g: Entries, merged: Step<Entries>, doc: Entries, entry: Path, budget: nat)
    requires budget > 0 && OnlyAdds(g, merged)
    ensures OnlyAdds(g, LegacyAfterSections(fs, root, merged, doc, entry, budget))
    decreases budget, 0, 0
  {
    var r := LegacyAfterSections(fs, root, merged, doc, entry, budget);
    var imports := SectionOr(doc, "import", Null);
    if merged.Done? && Truthy(imports) && Iter(imports).Ok? {
      var names := Iter(imports).value;
      assert r == LegacyImportList(fs, root, merged.value, Parent(entry), names, budget - 1);
      ImportListOnlyAdds(fs, root, merged.value, Parent(entry), names, budget - 1);
      OnlyAddsTrans(g, merged.value, r);
    } else {
      assert r == Failed || r == merged;
    }
  }

  lemma {:induction false} ImportListOnlyAdds(fs: FileSystem, root: Path, g: Entries, dir: Path, names: seq<Value>, budget: nat)
    ensures OnlyAdds(g, LegacyImportList(fs, root, g, dir, names, budget))
    decreases budget, 1, |names|
  {
    Importer.GrowsRefl(State(g, []));
    if |names| > 0 && names[0].Str? {
      var r := LegacyFile(fs, root, g, Join(dir, names[0].s), budget);
      FileOnlyAdds(fs, root, g, Join(dir, names[0].s), budget);
      if r.Done? {
        ImportListOnlyAdds(fs, root, r.value, dir, names[1..], budget);
        OnlyAddsTrans(g, r.value, LegacyImportList(fs, root, r.value, dir, names[1..], budget));
      }
    }
  }

  lemma {:induction false} EntriesOnlyAdds(fs: FileSystem, root: Path, g: Entries, entries: seq<Path>, budget: nat)
    ensures OnlyAdds(g, LegacyEntries(fs, root, g, entries, budget))
    decreases |entries|
  {
    Importer.GrowsRefl(State(g, []));
    if |entries| > 0 {
      var r := LegacyFile(fs, root, g, entries[0], budget);
      FileOnlyAdds(fs, root, g, entries[0], budget);
      if r.Done? {
        EntriesOnlyAdds(fs, root, r.value, entries[1..], budget);
        OnlyAddsTrans(g, r.value, LegacyEntries(fs, root, r.value, entries[1..], budget));
      }
    }
  }

  /** Every import directory together only adds, and so does the part
      imported before a raise. */
  lemma {:induction false} ImportDirsOnlyAdds(fs: FileSystem, root: Path, g: Entries, dirs: seq<Value>, budget: nat)
    ensures OnlyAdds(g, LegacyImportDirs(fs, root, g, dirs, budget))
    decreases |dirs|
  {
    Importer.GrowsRefl(State(g, []));
    if |dirs| > 0 && dirs[0].Str? && Exists(fs, Join(root, dirs[0].s)) {
      var dir := Join(root, dirs[0].s);
      var r := LegacyEntries(fs, root, g, Glob(fs, dir), budget);
      EntriesOnlyAdds(fs, root, g, Glob(fs, dir), budget);
      if r.Done? {
        ImportDirsOnlyAdds(fs, root, r.value, dirs[1..], budget);
        OnlyAddsTrans(g, r.value, LegacyImportDirs(fs, root, r.value, dirs[1..], budget));
      }
    }
  }
}
