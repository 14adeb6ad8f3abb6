/** Merging fragment files into the resource graph.

    Every `easysam.yaml` found below an import directory is a fragment that may
    declare one lambda (`lambda`), tables (`tables`) and further fragment files
    to read (`import`).  Fragments only ever add: a function, path or table
    name that is already taken is reported once and the existing entry is kept.
    Unreadable fragments, unexpected sections and missing names are reported
    and the merge goes on. */
module Importer {
  import opened Outcomes
  import opened Values
  import opened Files
  import opened Diagnostics

  /** The name of a fragment file. */
  const ImportFile := "easysam.yaml"

  /** The sections a fragment may have. */
  const FragmentSections: seq<Value> := [Str("lambda"), Str("import"), Str("tables")]

  /** `if name not in resources_data: resources_data[name] = {}`. */
  function EnsureSection(g: Entries, name: string): (r: Entries)
    ensures Str(name) in Keys(r)
    ensures Str(name) in Keys(g) ==> r == g
    ensures Str(name) !in Keys(g) ==> Lookup(r, Str(name)) == Some(Dict([]))
    ensures forall k :: k != Str(name) ==> Lookup(r, k) == Lookup(g, k)
  {
    if Str(name) in Keys(g) then g else Put(g, Str(name), Dict([]))
  }

  /** The section `name` of a graph that has it. */
  function Section(g: Entries, name: string): Value
  {
    SectionOr(g, name, Null)
  }

  // ---------------------------------------------------------------------------
  // One lambda

  /** The lambda's resources with `uri` set to the fragment directory relative
      to the resources directory, unless it has one. */
  function WithUri(resources: Value, root: Path, entryDir: Path): (r: Result<Value>)
    ensures r.Ok? && Has(resources, "uri") == Ok(true) ==> r.value == resources
    ensures r.Ok? && Has(resources, "uri") == Ok(false) ==>
      RelativeTo(entryDir, root).Some? && resources.Dict? && r.value.Dict?
      && (forall k :: k != Str("uri") ==> Lookup(r.value.entries, k) == Lookup(resources.entries, k))
      && Lookup(r.value.entries, Str("uri")) == Some(Str(AsPosix(RelativeTo(entryDir, root).value)))
    ensures resources.Dict? && Str("uri") !in Keys(resources.entries) && RelativeTo(entryDir, root).Some? ==> r.Ok?
  {
    var present :- Has(resources, "uri");
    if present then Ok(resources)
    else
      match RelativeTo(entryDir, root)
      case None => Crash
      case Some(rel) => SetItem(resources, Str("uri"), Str(AsPosix(rel)))
  }

  /** The path entry a lambda's integration becomes: it names the function and
      the lambda integration, and no longer carries its path. */
  function HoistedIntegration(integration: Value, name: Value): (r: Result<Value>)
    ensures r.Ok? <==> integration.Dict? && Str("path") in Keys(integration.entries)
    ensures r.Ok? ==> r.value.Dict? && integration.Dict?
    ensures r.Ok? ==> Lookup(r.value.entries, Str("function")) == Some(name)
    ensures r.Ok? ==> Lookup(r.value.entries, Str("integration")) == Some(Str("lambda"))
    ensures r.Ok? ==> Str("path") !in Keys(r.value.entries)
    ensures r.Ok? ==> forall k :: k != Str("function") && k != Str("integration") && k != Str("path") ==>
      Lookup(r.value.entries, k) == Lookup(integration.entries, k)
  {
    if integration.Dict? && Str("path") in Keys(integration.entries) then
      var withFunction := Put(integration.entries, Str("function"), name);
      var withIntegration := Put(withFunction, Str("integration"), Str("lambda"));
      assert Str("path") in Keys(withIntegration);
      Ok(Dict(Remove(withIntegration, Str("path"))))
    else Crash
  }

  /** The second half of `preprocess_lambda`: the integration goes to `paths`
      under its own path, unless the path is missing or taken. */
  function AddIntegration(st: State, name: Value, integration: Value, entry: Path): (r: Result<State>)
  {
    var path :- Get(integration, "path", Null);
    if !Truthy(path) then Ok(State(st.graph, st.errors + [NoPathName(entry)]))
    else
      var g := EnsureSection(st.graph, "paths");
      var paths := Section(g, "paths");
      var taken :- Member(path, paths);
      if taken then Ok(State(g, st.errors + [DuplicatePath(entry, path)]))
      else
        var entryValue :- HoistedIntegration(integration, name);
        StoreEntry(State(g, st.errors), "paths", path, entryValue)
  }

  /** `resources_data[section][key] = v`. */
  function StoreEntry(st: State, section: string, key: Value, v: Value): Result<State>
  {
    var updated :- SetItem(Section(st.graph, section), key, v);
    Ok(State(Put(st.graph, Str(section), updated), st.errors))
  }

  /** `preprocess_lambda`: register the fragment's function, then its path. */
  function PreprocessLambda(st: State, root: Path, lambdaDef: Value, entry: Path, entryDir: Path): Result<State>
  {
    var g := EnsureSection(st.graph, "functions");
    var name :- Get(lambdaDef, "name", Null);
    if !Truthy(name) then Ok(State(g, st.errors + [NoLambdaName(entry)]))
    else
      var functions := Section(g, "functions");
      var taken :- Member(name, functions);
      if taken then Ok(State(g, st.errors + [DuplicateLambda(entry, name)]))
      else
        var resources :- Get(lambdaDef, "resources", Dict([]));
        var resources' :- WithUri(resources, root, entryDir);
        var registered :- StoreEntry(State(g, st.errors), "functions", name, resources');
        var integration :- Get(lambdaDef, "integration", Dict([]));
        if !Truthy(integration) then Ok(registered)
        else AddIntegration(registered, name, integration, entry)
  }

  // ---------------------------------------------------------------------------
  // What merging keeps

  /** The sections fragments merge into. */
  predicate Merged(k: Value)
  {
    k == Str("functions") || k == Str("paths") || k == Str("tables")
  }

  /** Every entry a mapping section had, it still has, with the same value. */
  ghost predicate KeepsEntries(before: Option<Value>, after: Option<Value>)
  {
    before.Some? && before.value.Dict? ==>
      after.Some? && after.value.Dict?
      && forall k :: k in Keys(before.value.entries) ==> Lookup(after.value.entries, k) == Lookup(before.value.entries, k)
  }

  /** The entries of a graph outside the merged sections, in order. */
  function Others(g: Entries): Entries
  {
    if |g| == 0 then []
    else if Merged(g[0].0) then Others(g[1..])
    else [g[0]] + Others(g[1..])
  }

  lemma {:induction false} OthersPut(g: Entries, k: Value, v: Value)
    requires Merged(k)
    ensures Others(Put(g, k, v)) == Others(g)
  {
    if |g| > 0 && g[0].0 != k {
      OthersPut(g[1..], k, v);
      assert ([g[0]] + Put(g[1..], k, v))[1..] == Put(g[1..], k, v);
    } else if |g| > 0 {
      assert ([(k, v)] + g[1..])[1..] == g[1..];
    }
  }

  /** Outside the merged sections, a graph answers as its other entries do. */
  lemma {:induction false} LookupOthers(g: Entries, k: Value)
    requires !Merged(k)
    ensures Lookup(Others(g), k) == Lookup(g, k)
  {
    if |g| > 0 {
      LookupOthers(g[1..], k);
      if !Merged(g[0].0) {
        assert ([g[0]] + Others(g[1..]))[1..] == Others(g[1..]);
      }
    }
  }

  /** `g2` differs from `g` only by new entries in the merged sections. */
  ghost predicate Extends(g: Entries, g2: Entries)
  {
    Others(g2) == Others(g)
    && KeepsEntries(Lookup(g, Str("functions")), Lookup(g2, Str("functions")))
    && KeepsEntries(Lookup(g, Str("paths")), Lookup(g2, Str("paths")))
    && KeepsEntries(Lookup(g, Str("tables")), Lookup(g2, Str("tables")))
  }

  /** A step that only adds, and only appends errors. */
  ghost predicate Grows(st: State, st2: State)
  {
    Extends(st.graph, st2.graph) && st.errors <= st2.errors
  }

  lemma KeepsEntriesTrans(a: Option<Value>, b: Option<Value>, c: Option<Value>)
    requires KeepsEntries(a, b) && KeepsEntries(b, c)
    ensures KeepsEntries(a, c)
  {
    if a.Some? && a.value.Dict? {
      forall k | k in Keys(a.value.entries)
        ensures Lookup(c.value.entries, k) == Lookup(a.value.entries, k)
      {
        assert Lookup(b.value.entries, k) == Lookup(a.value.entries, k);
        assert k in Keys(b.value.entries);
      }
    }
  }

  lemma GrowsTrans(a: State, b: State, c: State)
    requires Grows(a, b) && Grows(b, c)
    ensures Grows(a, c)
  {
    KeepsEntriesTrans(Lookup(a.graph, Str("functions")), Lookup(b.graph, Str("functions")), Lookup(c.graph, Str("functions")));
    KeepsEntriesTrans(Lookup(a.graph, Str("paths")), Lookup(b.graph, Str("paths")), Lookup(c.graph, Str("paths")));
    KeepsEntriesTrans(Lookup(a.graph, Str("tables")), Lookup(b.graph, Str("tables")), Lookup(c.graph, Str("tables")));
  }

  lemma GrowsRefl(st: State)
    ensures Grows(st, st)
  {
  }

  /** A section other than `functions`, `paths` and `tables` is left as it was. */
  lemma ExtendsKeepsOthers(g: Entries, g2: Entries, k: Value)
    requires Extends(g, g2) && !Merged(k)
    ensures Lookup(g2, k) == Lookup(g, k)
  {
    LookupOthers(g, k);
    LookupOthers(g2, k);
  }

  lemma KeepsEntriesRefl(x: Option<Value>)
    ensures KeepsEntries(x, x)
  {
  }

  /** Replacing a merged section by one that keeps its entries only adds. */
  lemma PutSectionGrows(st: State, section: string, v: Value, e: seq<Error>)
    requires Merged(Str(section)) && st.errors <= e
    requires KeepsEntries(Lookup(st.graph, Str(section)), Some(v))
    ensures Grows(st, State(Put(st.graph, Str(section), v), e))
  {
    var g := st.graph;
    OthersPut(g, Str(section), v);
    SectionKept(g, section, v, "functions");
    SectionKept(g, section, v, "paths");
    SectionKept(g, section, v, "tables");
  }

  lemma SectionKept(g: Entries, section: string, v: Value, s: string)
    requires KeepsEntries(Lookup(g, Str(section)), Some(v))
    ensures KeepsEntries(Lookup(g, Str(s)), Lookup(Put(g, Str(section), v), Str(s)))
  {
    if s == section {
      assert Lookup(Put(g, Str(section), v), Str(s)) == Some(v);
    } else {
      assert Str(s) != Str(section);
      assert Lookup(Put(g, Str(section), v), Str(s)) == Lookup(g, Str(s));
      KeepsEntriesRefl(Lookup(g, Str(s)));
    }
  }

  /** Giving a merged section an entry under a key it does not have yet. */
  lemma AddEntryGrows(st: State, section: string, es: Entries, k: Value, v: Value)
    requires Merged(Str(section))
    requires Lookup(st.graph, Str(section)) == Some(Dict(es))
    requires k !in Keys(es)
    ensures Grows(st, State(Put(st.graph, Str(section), Dict(Put(es, k, v))), st.errors))
  {
    var es2 := Put(es, k, v);
    forall k' | k' in Keys(es) ensures Lookup(es2, k') == Lookup(es, k') {
      assert k' != k;
    }
    PutSectionGrows(st, section, Dict(es2), st.errors);
  }

  lemma EnsureSectionGrows(st: State, section: string, e: seq<Error>)
    requires Merged(Str(section)) && st.errors <= e
    ensures Grows(st, State(EnsureSection(st.graph, section), e))
  {
    if Str(section) !in Keys(st.graph) {
      PutSectionGrows(st, section, Dict([]), e);
    } else {
      KeepsEntriesRefl(Lookup(st.graph, Str("functions")));
      KeepsEntriesRefl(Lookup(st.graph, Str("paths")));
      KeepsEntriesRefl(Lookup(st.graph, Str("tables")));
    }
  }

  /** Registering a lambda never replaces an existing function or path and
      touches no other section. */
  lemma {:induction false} PreprocessLambdaGrows(st: State, root: Path, lambdaDef: Value, entry: Path, entryDir: Path)
    ensures PreprocessLambda(st, root, lambdaDef, entry, entryDir).Ok? ==>
      Grows(st, PreprocessLambda(st, root, lambdaDef, entry, entryDir).value)
  {
    var r := PreprocessLambda(st, root, lambdaDef, entry, entryDir);
    if r.Ok? {
      var g := EnsureSection(st.graph, "functions");
      var name := Get(lambdaDef, "name", Null).value;
      var functions := Section(g, "functions");
      assert Lookup(g, Str("functions")) == Some(functions);
      if !Truthy(name) {
        assert r.value == State(g, st.errors + [NoLambdaName(entry)]);
        EnsureSectionGrows(st, "functions", st.errors + [NoLambdaName(entry)]);
      } else if Member(name, functions).value {
        assert r.value == State(g, st.errors + [DuplicateLambda(entry, name)]);
        EnsureSectionGrows(st, "functions", st.errors + [DuplicateLambda(entry, name)]);
      } else {
        var resources' := WithUri(Get(lambdaDef, "resources", Dict([])).value, root, entryDir).value;
        var registered := StoreEntry(State(g, st.errors), "functions", name, resources').value;
        EnsureSectionGrows(st, "functions", st.errors);
        StoreEntryGrows(State(g, st.errors), "functions", name, resources');
        GrowsTrans(st, State(g, st.errors), registered);
        var integration := Get(lambdaDef, "integration", Dict([])).value;
        if Truthy(integration) {
          assert r == AddIntegration(registered, name, integration, entry);
          AddIntegrationGrows(registered, name, integration, entry);
          GrowsTrans(st, registered, r.value);
        } else {
          assert r.value == registered;
        }
      }
    }
  }

  lemma {:induction false} AddIntegrationGrows(st: State, name: Value, integration: Value, entry: Path)
    ensures AddIntegration(st, name, integration, entry).Ok? ==> Grows(st, AddIntegration(st, name, integration, entry).value)
  {
    var r := AddIntegration(st, name, integration, entry);
    if r.Ok? {
      var path := Get(integration, "path", Null).value;
      if !Truthy(path) {
        assert r.value == State(st.graph, st.errors + [NoPathName(entry)]);
        GrowsRefl(st);
      } else if Member(path, Section(EnsureSection(st.graph, "paths"), "paths")).value {
        assert r.value == State(EnsureSection(st.graph, "paths"), st.errors + [DuplicatePath(entry, path)]);
        EnsureSectionGrows(st, "paths", st.errors + [DuplicatePath(entry, path)]);
      } else {
        AddedPathGrows(st, name, integration, entry);
      }
    }
  }

  lemma AddedPathGrows(st: State, name: Value, integration: Value, entry: Path)
    requires AddIntegration(st, name, integration, entry).Ok?
    requires Truthy(Get(integration, "path", Null).value)
    requires !Member(Get(integration, "path", Null).value, Section(EnsureSection(st.graph, "paths"), "paths")).value
    ensures Grows(st, AddIntegration(st, name, integration, entry).value)
  {
    var path := Get(integration, "path", Null).value;
    var g := EnsureSection(st.graph, "paths");
    var entryValue := HoistedIntegration(integration, name).value;
    var mid := State(g, st.errors);
    var after := AddIntegration(st, name, integration, entry).value;
    AddedPathStored(st, name, integration, entry);
    assert Grows(st, mid) by {
      EnsureSectionGrows(st, "paths", st.errors);
    }
    assert Grows(mid, after) by {
      StoreEntryGrows(mid, "paths", path, entryValue);
    }
    GrowsTrans(st, mid, after);
  }

  lemma AddedPathStored(st: State, name: Value, integration: Value, entry: Path)
    requires Get(integration, "path", Null).Ok? && Truthy(Get(integration, "path", Null).value)
    requires Member(Get(integration, "path", Null).value, Section(EnsureSection(st.graph, "paths"), "paths")) == Ok(false)
    requires HoistedIntegration(integration, name).Ok?
    ensures StoreEntry(State(EnsureSection(st.graph, "paths"), st.errors), "paths", Get(integration, "path", Null).value,
                       HoistedIntegration(integration, name).value)
      == AddIntegration(st, name, integration, entry)
  {
  }

  /** Storing under a key the section does not have only adds. */
  lemma StoreEntryGrows(st: State, section: string, key: Value, v: Value)
    requires Merged(Str(section)) && Str(section) in Keys(st.graph)
    requires Member(key, Section(st.graph, section)) == Ok(false)
    requires StoreEntry(st, section, key, v).Ok?
    ensures Grows(st, StoreEntry(st, section, key, v).value)
  {
    var es := Section(st.graph, section).entries;
    assert Lookup(st.graph, Str(section)) == Some(Dict(es));
    AddEntryGrows(st, section, es, key, v);
  }

  /** A lambda without a name adds one error and no function. */
  lemma LambdaWithoutName(st: State, root: Path, lambdaDef: Value, entry: Path, entryDir: Path)
    requires lambdaDef.Dict? && !Truthy(Get(lambdaDef, "name", Null).value)
    ensures PreprocessLambda(st, root, lambdaDef, entry, entryDir)
      == Ok(State(EnsureSection(st.graph, "functions"), st.errors + [NoLambdaName(entry)]))
  {
  }

  /** A lambda whose name is taken adds one error and leaves the graph as it was. */
  lemma LambdaDuplicate(st: State, root: Path, lambdaDef: Value, entry: Path, entryDir: Path)
    requires lambdaDef.Dict? && Lookup(lambdaDef.entries, Str("name")).Some?
    requires Lookup(st.graph, Str("functions")).Some? && Lookup(st.graph, Str("functions")).value.Dict?
    requires Lookup(lambdaDef.entries, Str("name")).value in Keys(Lookup(st.graph, Str("functions")).value.entries)
    requires Truthy(Lookup(lambdaDef.entries, Str("name")).value) && Hashable(Lookup(lambdaDef.entries, Str("name")).value)
    ensures PreprocessLambda(st, root, lambdaDef, entry, entryDir)
      == Ok(State(st.graph, st.errors + [DuplicateLambda(entry, Lookup(lambdaDef.entries, Str("name")).value)]))
  {
    var name := Lookup(lambdaDef.entries, Str("name")).value;
    assert Get(lambdaDef, "name", Null) == Ok(name);
    assert EnsureSection(st.graph, "functions") == st.graph;
    assert Section(st.graph, "functions") == Lookup(st.graph, Str("functions")).value;
    assert Member(name, Section(st.graph, "functions")) == Ok(true);
  }

  /** A lambda with a new name is registered under it with its resources,
      completed by `WithUri`; whatever then happens to its integration, the
      function stays registered. */
  lemma LambdaRegistered(st: State, root: Path, lambdaDef: Value, entry: Path, entryDir: Path)
    requires lambdaDef.Dict? && Lookup(lambdaDef.entries, Str("name")).Some?
    requires Truthy(Lookup(lambdaDef.entries, Str("name")).value) && Hashable(Lookup(lambdaDef.entries, Str("name")).value)
    requires Lookup(st.graph, Str("functions")).Some? && Lookup(st.graph, Str("functions")).value.Dict?
    requires Lookup(lambdaDef.entries, Str("name")).value !in Keys(Lookup(st.graph, Str("functions")).value.entries)
    ensures PreprocessLambda(st, root, lambdaDef, entry, entryDir).Ok? ==>
      var after := PreprocessLambda(st, root, lambdaDef, entry, entryDir).value;
      var resources := WithUri(Get(lambdaDef, "resources", Dict([])).value, root, entryDir);
      resources.Ok? && Lookup(after.graph, Str("functions")).Some? && Lookup(after.graph, Str("functions")).value.Dict?
      && Lookup(Lookup(after.graph, Str("functions")).value.entries, Lookup(lambdaDef.entries, Str("name")).value)
         == Some(resources.value)
  {
    var r := PreprocessLambda(st, root, lambdaDef, entry, entryDir);
    if r.Ok? {
      var name := Lookup(lambdaDef.entries, Str("name")).value;
      assert Get(lambdaDef, "name", Null) == Ok(name);
      FreeInSection(st.graph, "functions", name);
      var resources := Get(lambdaDef, "resources", Dict([])).value;
      var resources' := WithUri(resources, root, entryDir).value;
      StoreEntryStores(State(EnsureSection(st.graph, "functions"), st.errors), "functions", name, resources');
      var registered := StoreEntry(State(EnsureSection(st.graph, "functions"), st.errors), "functions", name, resources').value;
      var integration := Get(lambdaDef, "integration", Dict([])).value;
      if Truthy(integration) {
        assert r == AddIntegration(registered, name, integration, entry);
        AddIntegrationGrows(registered, name, integration, entry);
        KeptEntry(registered.graph, r.value.graph, "functions", name);
      } else {
        assert r == Ok(registered);
      }
    }
  }

  /** What one merged section held, a graph that extends it still holds. */
  lemma KeptEntry(g: Entries, g2: Entries, section: string, key: Value)
    requires Extends(g, g2) && Merged(Str(section))
    requires Lookup(g, Str(section)).Some? && Lookup(g, Str(section)).value.Dict?
    requires key in Keys(Lookup(g, Str(section)).value.entries)
    ensures Lookup(g2, Str(section)).Some? && Lookup(g2, Str(section)).value.Dict?
    ensures Lookup(Lookup(g2, Str(section)).value.entries, key) == Lookup(Lookup(g, Str(section)).value.entries, key)
  {
  }

  /** A non-empty integration with a new path is stored under that path in
      `paths`, naming the function and the lambda integration, without its
      `path`. */
  lemma IntegrationHoisted(st: State, name: Value, integration: Value, entry: Path)
    requires integration.Dict? && Lookup(integration.entries, Str("path")).Some?
    requires Truthy(Lookup(integration.entries, Str("path")).value) && Hashable(Lookup(integration.entries, Str("path")).value)
    requires Lookup(st.graph, Str("paths")).Some? ==> Lookup(st.graph, Str("paths")).value.Dict?
    requires Lookup(st.graph, Str("paths")).Some? ==>
      Lookup(integration.entries, Str("path")).value !in Keys(Lookup(st.graph, Str("paths")).value.entries)
    ensures AddIntegration(st, name, integration, entry).Ok?
    ensures
      var path := Lookup(integration.entries, Str("path")).value;
      var after := AddIntegration(st, name, integration, entry).value;
      after.errors == st.errors
      && Lookup(after.graph, Str("paths")).Some? && Lookup(after.graph, Str("paths")).value.Dict?
      && Lookup(Lookup(after.graph, Str("paths")).value.entries, path) == Some(HoistedIntegration(integration, name).value)
  {
    var path := Lookup(integration.entries, Str("path")).value;
    assert Get(integration, "path", Null) == Ok(path);
    FreeInSection(st.graph, "paths", path);
    StoreEntryStores(State(EnsureSection(st.graph, "paths"), st.errors), "paths", path, HoistedIntegration(integration, name).value);
    AddedPathStored(st, name, integration, entry);
  }

  /** A key not yet in a section is free in it once the section exists. */
  lemma FreeInSection(g: Entries, section: string, key: Value)
    requires Hashable(key)
    requires Lookup(g, Str(section)).Some? ==> Lookup(g, Str(section)).value.Dict?
    requires Lookup(g, Str(section)).Some? ==> key !in Keys(Lookup(g, Str(section)).value.entries)
    ensures Lookup(EnsureSection(g, section), Str(section)).Some?
    ensures Lookup(EnsureSection(g, section), Str(section)).value.Dict?
    ensures Member(key, Section(EnsureSection(g, section), section)) == Ok(false)
  {
    var es := Section(EnsureSection(g, section), section);
    assert es == Lookup(EnsureSection(g, section), Str(section)).value;
  }

  /** Storing into a mapping section sets the key there and reports nothing. */
  lemma StoreEntryStores(st: State, section: string, key: Value, v: Value)
    requires Lookup(st.graph, Str(section)).Some? && Lookup(st.graph, Str(section)).value.Dict? && Hashable(key)
    ensures StoreEntry(st, section, key, v).Ok?
    ensures
      var after := StoreEntry(st, section, key, v).value;
      after.errors == st.errors
      && Lookup(after.graph, Str(section)).Some? && Lookup(after.graph, Str(section)).value.Dict?
      && Lookup(Lookup(after.graph, Str(section)).value.entries, key) == Some(v)
  {
    var es := Lookup(st.graph, Str(section)).value.entries;
    assert Section(st.graph, section) == Dict(es);
    assert SetItem(Dict(es), key, v) == Ok(Dict(Put(es, key, v)));
  }

  /** A missing path adds one error; the function registered just before stays. */
  lemma IntegrationWithoutPath(st: State, name: Value, integration: Value, entry: Path)
    requires integration.Dict? && !Truthy(Get(integration, "path", Null).value)
    ensures AddIntegration(st, name, integration, entry) == Ok(State(st.graph, st.errors + [NoPathName(entry)]))
  {
  }

  /** A taken path adds one error and leaves the graph, with the function
      registered just before, as it was. */
  lemma IntegrationDuplicatePath(st: State, name: Value, integration: Value, entry: Path)
    requires integration.Dict? && Lookup(integration.entries, Str("path")).Some?
    requires Truthy(Lookup(integration.entries, Str("path")).value) && Hashable(Lookup(integration.entries, Str("path")).value)
    requires Lookup(st.graph, Str("paths")).Some? && Lookup(st.graph, Str("paths")).value.Dict?
    requires Lookup(integration.entries, Str("path")).value in Keys(Lookup(st.graph, Str("paths")).value.entries)
    ensures AddIntegration(st, name, integration, entry)
      == Ok(State(st.graph, st.errors + [DuplicatePath(entry, Lookup(integration.entries, Str("path")).value)]))
  {
    var path := Lookup(integration.entries, Str("path")).value;
    assert Get(integration, "path", Null) == Ok(path);
    assert EnsureSection(st.graph, "paths") == st.graph;
    assert Section(st.graph, "paths") == Lookup(st.graph, Str("paths")).value;
    assert Member(path, Section(st.graph, "paths")) == Ok(true);
  }

  // ---------------------------------------------------------------------------
  // Tables

  /** The loop of `preprocess_tables` over the fragment's tables. */
  function MergeTables(tables: Value, items: Entries, entry: Path, errors: seq<Error>): Result<(Value, seq<Error>)>
    decreases |items|
  {
    if |items| == 0 then Ok((tables, errors))
    else
      var taken :- Member(items[0].0, tables);
      if taken then MergeTables(tables, items[1..], entry, errors + [DuplicateTable(entry, items[0].0)])
      else
        var tables' :- SetItem(tables, items[0].0, items[0].1);
        MergeTables(tables', items[1..], entry, errors)
  }

  /** A table keeps the value it had; a new name gets the value of its first
      occurrence in the fragment. */
  lemma {:induction false} MergeTablesFirstWins(tables: Entries, items: Entries, entry: Path, errors: seq<Error>, k: Value)
    requires MergeTables(Dict(tables), items, entry, errors).Ok?
    ensures MergeTables(Dict(tables), items, entry, errors).value.0.Dict?
    ensures Lookup(MergeTables(Dict(tables), items, entry, errors).value.0.entries, k)
      == if k in Keys(tables) then Lookup(tables, k) else Lookup(items, k)
    decreases |items|
  {
    if |items| > 0 {
      var key := items[0].0;
      assert Lookup(items, k) == if key == k then Some(items[0].1) else Lookup(items[1..], k);
      if key in Keys(tables) {
        MergeTablesFirstWins(tables, items[1..], entry, errors + [DuplicateTable(entry, key)], k);
      } else {
        var tables' := Put(tables, key, items[0].1);
        MergeTablesFirstWins(tables', items[1..], entry, errors, k);
      }
    }
  }

  /** Every table of the fragment either becomes a new table or adds exactly
      one error, and nothing else adds errors. */
  lemma {:induction false} MergeTablesCount(tables: Entries, items: Entries, entry: Path, errors: seq<Error>)
    requires MergeTables(Dict(tables), items, entry, errors).Ok?
    ensures MergeTables(Dict(tables), items, entry, errors).value.0.Dict?
    ensures var (t, e) := MergeTables(Dict(tables), items, entry, errors).value;
      errors <= e && |e| - |errors| + |t.entries| - |tables| == |items|
    ensures var (t, e) := MergeTables(Dict(tables), items, entry, errors).value;
      forall i :: |errors| <= i < |e| ==> e[i].DuplicateTable? && e[i].entry == entry
    decreases |items|
  {
    if |items| > 0 {
      var key := items[0].0;
      if key in Keys(tables) {
        MergeTablesCount(tables, items[1..], entry, errors + [DuplicateTable(entry, key)]);
      } else {
        MergeTablesCount(Put(tables, key, items[0].1), items[1..], entry, errors);
      }
    }
  }

  /** `preprocess_tables(resources_data, table_def, entry_path, errors)`. */
  method PreprocessTables(st: State, tableDef: Value, entry: Path) returns (r: Result<State>)
    ensures r == TablesStep(st, tableDef, entry)
  {
    var g := EnsureSection(st.graph, "tables");
    if !tableDef.Dict? {
      return Crash;
    }
    var items := tableDef.entries;
    var tables := Section(g, "tables");
    var errors := st.errors;
    var i := 0;
    while i < |items|
      invariant 0 <= i <= |items|
      invariant MergeTables(tables, items[i..], entry, errors) == MergeTables(Section(g, "tables"), items, entry, st.errors)
    {
      assert items[i..][1..] == items[i + 1..];
      var (name, data) := items[i];
      var taken := Member(name, tables);
      if taken.Crash? {
        return Crash;
      }
      if taken.value {
        errors := errors + [DuplicateTable(entry, name)];
      } else {
        var updated := SetItem(tables, name, data);
        if updated.Crash? {
          return Crash;
        }
        tables := updated.value;
      }
      i := i + 1;
    }
    return Ok(State(Put(g, Str("tables"), tables), errors));
  }

  /** Merging tables only adds. */
  lemma PreprocessTablesGrows(st: State, items: Entries, entry: Path)
    requires MergeTables(Section(EnsureSection(st.graph, "tables"), "tables"), items, entry, st.errors).Ok?
    ensures var g := EnsureSection(st.graph, "tables");
      var merged := MergeTables(Section(g, "tables"), items, entry, st.errors).value;
      Grows(st, State(Put(g, Str("tables"), merged.0), merged.1))
  {
    var g := EnsureSection(st.graph, "tables");
    var section := Section(g, "tables");
    assert Lookup(g, Str("tables")) == Some(section);
    var merged := MergeTables(section, items, entry, st.errors).value;
    EnsureSectionGrows(st, "tables", st.errors);
    MergeTablesErrorsGrow(section, items, entry, st.errors);
    MergeTablesKeeps(section, items, entry, st.errors);
    PutSectionGrows(State(g, st.errors), "tables", merged.0, merged.1);
    GrowsTrans(st, State(g, st.errors), State(Put(g, Str("tables"), merged.0), merged.1));
  }

  lemma MergeTablesKeeps(section: Value, items: Entries, entry: Path, errors: seq<Error>)
    requires MergeTables(section, items, entry, errors).Ok?
    ensures KeepsEntries(Some(section), Some(MergeTables(section, items, entry, errors).value.0))
  {
    if section.Dict? {
      var tables := MergeTables(section, items, entry, errors).value.0;
      MergeTablesFirstWins(section.entries, items, entry, errors, Str(""));
      forall k | k in Keys(section.entries) ensures Lookup(tables.entries, k) == Lookup(section.entries, k) {
        MergeTablesFirstWins(section.entries, items, entry, errors, k);
      }
    }
  }

  lemma {:induction false} MergeTablesErrorsGrow(tables: Value, items: Entries, entry: Path, errors: seq<Error>)
    requires MergeTables(tables, items, entry, errors).Ok?
    ensures errors <= MergeTables(tables, items, entry, errors).value.1
    decreases |items|
  {
    if |items| > 0 {
      var key := items[0].0;
      if Member(key, tables).value {
        MergeTablesErrorsGrow(tables, items[1..], entry, errors + [DuplicateTable(entry, key)]);
      } else {
        MergeTablesErrorsGrow(SetItem(tables, key, items[0].1).value, items[1..], entry, errors);
      }
    }
  }

  /** A section that is not a mapping cannot take a table, so it stays as it is. */
  lemma {:induction false} MergeTablesKeepsNonDict(tables: Value, items: Entries, entry: Path, errors: seq<Error>)
    requires !tables.Dict? && MergeTables(tables, items, entry, errors).Ok?
    ensures MergeTables(tables, items, entry, errors).value.0 == tables
    decreases |items|
  {
    if |items| > 0 {
      MergeTablesKeepsNonDict(tables, items[1..], entry, errors + [DuplicateTable(entry, items[0].0)]);
    }
  }

  // ---------------------------------------------------------------------------
  // Fragment files and import directories

  /** The keys of a fragment are all known sections. */
  predicate KnownSections(doc: Entries)
  {
    forall i :: 0 <= i < |doc| ==> doc[i].0 in FragmentSections
  }

  /** The `lambda` and `tables` sections of a fragment, merged in that order. */
  function MergeSections(st: State, root: Path, doc: Entries, entry: Path): Result<State>
  {
    var lambdaDef := SectionOr(doc, "lambda", Null);
    var st1 :- if Truthy(lambdaDef) then PreprocessLambda(st, root, lambdaDef, entry, Parent(entry)) else Ok(st);
    var tablesDef := SectionOr(doc, "tables", Null);
    if Truthy(tablesDef) then TablesStep(st1, tablesDef, entry) else Ok(st1)
  }

  /** `preprocess_file`: `budget` is the interpreter's remaining recursion
      depth, which a fragment importing itself exhausts. */
  function ProcessFile(fs: FileSystem, root: Path, st: State, entry: Path, budget: nat): Result<State>
    decreases budget, 0, 1
  {
    if budget == 0 then Crash
    else
      match Read(fs, entry)
      case None => Ok(State(st.graph, st.errors + [FragmentUnreadable(entry)]))
      case Some(doc) =>
        if !doc.Dict? then Crash
        else if !KnownSections(doc.entries) then Ok(State(st.graph, st.errors + [UnexpectedSections(entry)]))
        else AfterSections(fs, root, MergeSections(st, root, doc.entries, entry), doc.entries, entry, budget)
  }

  /** The rest of `preprocess_file` once the sections are merged: the
      fragment's own imports. */
  function AfterSections(fs: FileSystem, root: Path, merged: Result<State>, doc: Entries, entry: Path, budget: nat): Result<State>
    requires budget > 0
    decreases budget, 0, 0
  {
    var st :- merged;
    var imports := SectionOr(doc, "import", Null);
    if !Truthy(imports) then Ok(st)
    else
      var names :- Iter(imports);
      ProcessImportList(fs, root, st, Parent(entry), names, budget - 1)
  }

  /** The result `PreprocessTables` is proved to return. */
  function TablesStep(st: State, tableDef: Value, entry: Path): Result<State>
  {
    match Items(tableDef)
    case Crash => Crash
    case Ok(items) =>
      var g := EnsureSection(st.graph, "tables");
      match MergeTables(Section(g, "tables"), items, entry, st.errors)
      case Crash => Crash
      case Ok((tables, errors)) => Ok(State(Put(g, Str("tables"), tables), errors))
  }

  /** The loop over a fragment's `import` list, each name relative to the
      fragment's directory. */
  function ProcessImportList(fs: FileSystem, root: Path, st: State, dir: Path, names: seq<Value>, budget: nat): Result<State>
    decreases budget, 1, |names|
  {
    if |names| == 0 then Ok(st)
    else if !names[0].Str? then Crash
    else
      var st1 :- ProcessFile(fs, root, st, Join(dir, names[0].s), budget);
      ProcessImportList(fs, root, st1, dir, names[1..], budget)
  }

  /** The `lambda` and `tables` part of `preprocess_file`. */
  method PreprocessSections(st: State, root: Path, doc: Entries, entry: Path) returns (r: Result<State>)
    ensures r == MergeSections(st, root, doc, entry)
  {
    var current := st;
    var lambdaDef := SectionOr(doc, "lambda", Null);
    if Truthy(lambdaDef) {
      var merged := PreprocessLambda(current, root, lambdaDef, entry, Parent(entry));
      if merged.Crash? {
        return Crash;
      }
      current := merged.value;
    }
    var tablesDef := SectionOr(doc, "tables", Null);
    if Truthy(tablesDef) {
      r := PreprocessTables(current, tablesDef, entry);
    } else {
      r := Ok(current);
    }
  }

  /** `preprocess_file(resources_data, resources_dir, entry_path, errors)`. */
  method PreprocessFile(fs: FileSystem, root: Path, st: State, entry: Path, budget: nat) returns (r: Result<State>)
    ensures r == ProcessFile(fs, root, st, entry, budget)
    decreases budget, 0, 1
  {
    if budget == 0 {
      return Crash;
    }
    var read := Read(fs, entry);
    if read.None? {
      return Ok(State(st.graph, st.errors + [FragmentUnreadable(entry)]));
    }
    var doc := read.value;
    if !doc.Dict? {
      return Crash;
    }
    if !KnownSections(doc.entries) {
      return Ok(State(st.graph, st.errors + [UnexpectedSections(entry)]));
    }
    var merged := PreprocessSections(st, root, doc.entries, entry);
    r := PreprocessFileImports(fs, root, merged, doc.entries, entry, budget);
  }

  /** The rest of `preprocess_file` once the sections are merged: the
      fragment's own imports, when it lists any. */
  method PreprocessFileImports(fs: FileSystem, root: Path, merged: Result<State>, doc: Entries, entry: Path, budget: nat) returns (r: Result<State>)
    requires budget > 0
    ensures r == AfterSections(fs, root, merged, doc, entry, budget)
    decreases budget, 0, 0
  {
    if merged.Crash? {
      return Crash;
    }
    var imports := SectionOr(doc, "import", Null);
    if !Truthy(imports) {
      return merged;
    }
    var listed := Iter(imports);
    if listed.Crash? {
      return Crash;
    }
    r := PreprocessImportList(fs, root, merged.value, Parent(entry), listed.value, budget - 1);
  }

  /** The loop of `preprocess_file` over the fragment's own imports. */
  method PreprocessImportList(fs: FileSystem, root: Path, st: State, dir: Path, names: seq<Value>, budget: nat) returns (r: Result<State>)
    ensures r == ProcessImportList(fs, root, st, dir, names, budget)
    decreases budget, 1
  {
    var current := st;
    var i := 0;
    while i < |names|
      invariant 0 <= i <= |names|
      invariant ProcessImportList(fs, root, current, dir, names[i..], budget) == ProcessImportList(fs, root, st, dir, names, budget)
    {
      assert names[i..][1..] == names[i + 1..];
      if !names[i].Str? {
        return Crash;
      }
      var next := PreprocessFile(fs, root, current, Join(dir, names[i].s), budget);
      if next.Crash? {
        return Crash;
      }
      current := next.value;
      i := i + 1;
    }
    return Ok(current);
  }

  /** The loop over the graph's `import` directories. */
  function ProcessImportDirs(fs: FileSystem, root: Path, st: State, dirs: seq<Value>, budget: nat): Result<State>
    decreases |dirs|
  {
    if |dirs| == 0 then Ok(st)
    else if !dirs[0].Str? then Crash
    else
      var dir := Join(root, dirs[0].s);
      if !Exists(fs, dir) then ProcessImportDirs(fs, root, State(st.graph, st.errors + [ImportDirNotFound(dir)]), dirs[1..], budget)
      else
        var st1 :- ProcessEntries(fs, root, st, Glob(fs, dir), budget);
        ProcessImportDirs(fs, root, st1, dirs[1..], budget)
  }

  /** The fragment files found in one import directory, in the order found. */
  function ProcessEntries(fs: FileSystem, root: Path, st: State, entries: seq<Path>, budget: nat): Result<State>
    decreases |entries|
  {
    if |entries| == 0 then Ok(st)
    else
      var st1 :- ProcessFile(fs, root, st, entries[0], budget);
      ProcessEntries(fs, root, st1, entries[1..], budget)
  }

  /** The inner loop of `preprocess_imports`, over the fragment files found
      in one directory. */
  method PreprocessEntries(fs: FileSystem, root: Path, st: State, entries: seq<Path>, budget: nat) returns (r: Result<State>)
    ensures r == ProcessEntries(fs, root, st, entries, budget)
  {
    var current := st;
    var j := 0;
    while j < |entries|
      invariant 0 <= j <= |entries|
      invariant ProcessEntries(fs, root, current, entries[j..], budget) == ProcessEntries(fs, root, st, entries, budget)
    {
      assert entries[j..][1..] == entries[j + 1..];
      var next := PreprocessFile(fs, root, current, entries[j], budget);
      if next.Crash? {
        return Crash;
      }
      current := next.value;
      j := j + 1;
    }
    assert entries[j..] == [];
    return Ok(current);
  }

  /** Every directory the `import` section lists, in order. */
  function ImportsStep(fs: FileSystem, root: Path, st: State, budget: nat): Result<State>
  {
    var dirs :- Iter(SectionOr(st.graph, "import", List([])));
    ProcessImportDirs(fs, root, st, dirs, budget)
  }

  /** `preprocess_imports(resources_data, resources_dir, errors)`. */
  method PreprocessImports(fs: FileSystem, root: Path, st: State, budget: nat) returns (r: Result<State>)
    ensures r == ImportsStep(fs, root, st, budget)
  {
    var listed := Iter(SectionOr(st.graph, "import", List([])));
    if listed.Crash? {
      return Crash;
    }
    var dirs := listed.value;
    var current := st;
    var i := 0;
    while i < |dirs|
      invariant 0 <= i <= |dirs|
      invariant ProcessImportDirs(fs, root, current, dirs[i..], budget) == ProcessImportDirs(fs, root, st, dirs, budget)
    {
      assert dirs[i..][1..] == dirs[i + 1..];
      if !dirs[i].Str? {
        return Crash;
      }
      var dir := Join(root, dirs[i].s);
      if !Exists(fs, dir) {
        current := State(current.graph, current.errors + [ImportDirNotFound(dir)]);
      } else {
        var next := PreprocessEntries(fs, root, current, Glob(fs, dir), budget);
        if next.Crash? {
          return Crash;
        }
        current := next.value;
      }
      i := i + 1;
    }
    return Ok(current);
  }

  // ---------------------------------------------------------------------------
  // Merging whole fragments only adds

  lemma {:induction false} TablesStepGrows(st: State, tableDef: Value, entry: Path)
    ensures TablesStep(st, tableDef, entry).Ok? ==> Grows(st, TablesStep(st, tableDef, entry).value)
  {
    if TablesStep(st, tableDef, entry).Ok? {
      PreprocessTablesGrows(st, tableDef.entries, entry);
    }
  }

  lemma MergeSectionsGrows(st: State, root: Path, doc: Entries, entry: Path)
    ensures MergeSections(st, root, doc, entry).Ok? ==> Grows(st, MergeSections(st, root, doc, entry).value)
  {
    var r := MergeSections(st, root, doc, entry);
    if r.Ok? {
      var lambdaDef := SectionOr(doc, "lambda", Null);
      var st1 := if Truthy(lambdaDef) then PreprocessLambda(st, root, lambdaDef, entry, Parent(entry)).value else st;
      PreprocessLambdaGrows(st, root, lambdaDef, entry, Parent(entry));
      GrowsRefl(st);
      assert Grows(st, st1);
      var tablesDef := SectionOr(doc, "tables", Null);
      TablesStepGrows(st1, tablesDef, entry);
      GrowsRefl(st1);
      assert Grows(st1, r.value);
      GrowsTrans(st, st1, r.value);
    }
  }

  lemma {:induction false} ProcessFileGrows(fs: FileSystem, root: Path, st: State, entry: Path, budget: nat)
    ensures ProcessFile(fs, root, st, entry, budget).Ok? ==> Grows(st, ProcessFile(fs, root, st, entry, budget).value)
    decreases budget, 0, 1
  {
    if budget > 0 && Read(fs, entry).Some? && Read(fs, entry).value.Dict? && KnownSections(Read(fs, entry).value.entries) {
      var doc := Read(fs, entry).value.entries;
      MergeSectionsGrows(st, root, doc, entry);
      AfterSectionsGrows(fs, root, st, MergeSections(st, root, doc, entry), doc, entry, budget);
    } else {
      ProcessFileReported(fs, root, st, entry, budget);
    }
  }

  lemma {:induction false} AfterSectionsGrows(fs: FileSystem, root: Path, st: State, merged: Result<State>, doc: Entries, entry: Path, budget: nat)
    requires budget > 0
    requires merged.Ok? ==> Grows(st, merged.value)
    ensures AfterSections(fs, root, merged, doc, entry, budget).Ok? ==> Grows(st, AfterSections(fs, root, merged, doc, entry, budget).value)
    decreases budget, 0, 0
  {
    var r := AfterSections(fs, root, merged, doc, entry, budget);
    var imports := SectionOr(doc, "import", Null);
    if merged.Ok? && Truthy(imports) && Iter(imports).Ok? {
      var names := Iter(imports).value;
      assert r == ProcessImportList(fs, root, merged.value, Parent(entry), names, budget - 1);
      ProcessImportListGrowsFrom(fs, root, st, merged.value, Parent(entry), names, budget - 1);
    } else {
      assert r == Crash || r == merged;
    }
  }

  /** A fragment `preprocess_file` does not merge leaves the graph as it was. */
  lemma ProcessFileReported(fs: FileSystem, root: Path, st: State, entry: Path, budget: nat)
    requires !(budget > 0 && Read(fs, entry).Some? && Read(fs, entry).value.Dict? && KnownSections(Read(fs, entry).value.entries))
    ensures ProcessFile(fs, root, st, entry, budget).Ok? ==> Grows(st, ProcessFile(fs, root, st, entry, budget).value)
  {
    var r := ProcessFile(fs, root, st, entry, budget);
    if r.Ok? {
      assert r.value.graph == st.graph && st.errors <= r.value.errors;
      GrowsRefl(st);
    }
  }

  /** Processing an import list from a state that extends `base` ends in one
      that extends it too. */
  lemma {:induction false} ProcessImportListGrowsFrom(fs: FileSystem, root: Path, base: State, st: State, dir: Path, names: seq<Value>, budget: nat)
    requires Grows(base, st)
    ensures ProcessImportList(fs, root, st, dir, names, budget).Ok? ==> Grows(base, ProcessImportList(fs, root, st, dir, names, budget).value)
    decreases budget, 1, |names|
  {
    if |names| > 0 && names[0].Str? {
      var first := ProcessFile(fs, root, st, Join(dir, names[0].s), budget);
      if first.Ok? {
        ProcessFileGrows(fs, root, st, Join(dir, names[0].s), budget);
        GrowsTrans(base, st, first.value);
        ProcessImportListGrowsFrom(fs, root, base, first.value, dir, names[1..], budget);
      }
    }
  }

  lemma {:induction false} ProcessEntriesGrows(fs: FileSystem, root: Path, st: State, entries: seq<Path>, budget: nat)
    ensures ProcessEntries(fs, root, st, entries, budget).Ok? ==> Grows(st, ProcessEntries(fs, root, st, entries, budget).value)
    decreases |entries|
  {
    var r := ProcessEntries(fs, root, st, entries, budget);
    if r.Ok? {
      GrowsRefl(st);
      if |entries| > 0 {
        var st1 := ProcessFile(fs, root, st, entries[0], budget).value;
        ProcessFileGrows(fs, root, st, entries[0], budget);
        ProcessEntriesGrows(fs, root, st1, entries[1..], budget);
        GrowsTrans(st, st1, r.value);
      }
    }
  }

  /** Importing never replaces an existing function, path or table, never
      touches another section, and only appends errors. */
  lemma {:induction false} ProcessImportDirsGrows(fs: FileSystem, root: Path, st: State, dirs: seq<Value>, budget: nat)
    ensures ProcessImportDirs(fs, root, st, dirs, budget).Ok? ==> Grows(st, ProcessImportDirs(fs, root, st, dirs, budget).value)
    decreases |dirs|
  {
    var r := ProcessImportDirs(fs, root, st, dirs, budget);
    if r.Ok? {
      GrowsRefl(st);
      if |dirs| > 0 {
        var dir := Join(root, dirs[0].s);
        var st1 := if !Exists(fs, dir) then State(st.graph, st.errors + [ImportDirNotFound(dir)])
                   else ProcessEntries(fs, root, st, Glob(fs, dir), budget).value;
        ProcessEntriesGrows(fs, root, st, Glob(fs, dir), budget);
        ProcessImportDirsGrows(fs, root, st1, dirs[1..], budget);
        GrowsTrans(st, st1, r.value);
      }
    }
  }

  /** A fragment with a section other than `lambda`, `import` and `tables` adds
      one error and merges nothing. */
  lemma UnexpectedSectionsMergeNothing(fs: FileSystem, root: Path, st: State, entry: Path, budget: nat)
    requires budget > 0 && Read(fs, entry).Some? && Read(fs, entry).value.Dict?
    requires exists i :: 0 <= i < |Read(fs, entry).value.entries| && Read(fs, entry).value.entries[i].0 !in FragmentSections
    ensures ProcessFile(fs, root, st, entry, budget) == Ok(State(st.graph, st.errors + [UnexpectedSections(entry)]))
  {
  }

  /** A fragment that cannot be read or parsed adds one error and merges nothing. */
  lemma UnreadableFragment(fs: FileSystem, root: Path, st: State, entry: Path, budget: nat)
    requires budget > 0 && Read(fs, entry).None?
    ensures ProcessFile(fs, root, st, entry, budget) == Ok(State(st.graph, st.errors + [FragmentUnreadable(entry)]))
  {
  }

  /** A fragment whose document is not a mapping, such as the `Null` of an
      empty file, fails at `entry_data.keys()`, outside the `try`. */
  lemma NonMappingFragment(fs: FileSystem, root: Path, st: State, entry: Path, budget: nat)
    requires budget > 0 && Read(fs, entry).Some? && !Read(fs, entry).value.Dict?
    ensures ProcessFile(fs, root, st, entry, budget) == Crash
  {
  }

  /** A missing import directory adds one error and the next one is processed. */
  lemma MissingImportDir(fs: FileSystem, root: Path, st: State, dirs: seq<Value>, budget: nat)
    requires |dirs| > 0 && dirs[0].Str? && !Exists(fs, Join(root, dirs[0].s))
    ensures ProcessImportDirs(fs, root, st, dirs, budget)
      == ProcessImportDirs(fs, root, State(st.graph, st.errors + [ImportDirNotFound(Join(root, dirs[0].s))]), dirs[1..], budget)
  {
  }
}
