/** `preprocess_resources` and `resources`: the loader's pipeline from the
    parsed `resources.yaml` to the normalised, checked resource graph. */
module Loader {
  import opened Outcomes
  import opened Values
  import opened Files
  import opened Diagnostics
  import opened Sorting
  import opened Conditionals
  import opened Overrides
  import opened Importer
  import opened Defaults
  import opened Validator

  /** The sections whose entries are put in order.  `streams` and `queues`
      are not among them. */
  const SupportedSections: seq<string> :=
    ["tables", "paths", "functions", "buckets", "authorizers", "prismarine", "import", "lambda", "search"]

  /** The file the loader starts from, in the resources directory. */
  const ResourcesFile: string := "resources.yaml"

  predicate Distinct(names: seq<string>)
  {
    forall i, j :: 0 <= i < j < |names| ==> names[i] != names[j]
  }

  lemma SupportedDistinct()
    ensures Distinct(SupportedSections)
  {
  }

  // ---------------------------------------------------------------------------
  // Sorting the supported sections

  /** One supported section put in order: a mapping by its keys, a list by its
      items; any other value is left alone. */
  function SortSection(v: Value): (r: Result<Value>)
    ensures v.Dict? ==> (r.Ok? <==> OrderableKeys(v.entries))
    ensures v.Dict? && r.Ok? ==>
      r.value.Dict? && SortedBy(r.value.entries, KeyText) && multiset(r.value.entries) == multiset(v.entries)
    ensures v.List? ==> (r.Ok? <==> OrderableItems(v.items))
    ensures v.List? && r.Ok? ==>
      r.value.List? && SortedBy(r.value.items, ItemText) && multiset(r.value.items) == multiset(v.items)
    ensures !v.Dict? && !v.List? ==> r == Ok(v)
  {
    match v
    case Dict(es) =>
      SortBySorted(es, KeyText);
      SortDict(v)
    case List(items) =>
      SortBySorted(items, ItemText);
      var sorted :- SortList(items);
      Ok(List(sorted))
    case _ => Ok(v)
  }

  /** Sorting a mapping keeps what each of its keys maps to. */
  lemma SortSectionLookup(v: Value, k: Value)
    requires v.Dict? && UniqueKeys(v.entries) && SortSection(v).Ok?
    ensures Lookup(SortSection(v).value.entries, k) == Lookup(v.entries, k)
  {
    SortByLookup(v.entries, k);
  }

  /** The named sections sorted in turn, each where it stands in the graph. */
  function SortSections(g: Entries, sections: seq<string>): Result<Entries>
    decreases |sections|
  {
    if |sections| == 0 then Ok(g)
    else
      var next :- match Lookup(g, Str(sections[0]))
                  case None => Ok(g)
                  case Some(v) => (var sorted :- SortSection(v); Ok(Put(g, Str(sections[0]), sorted)));
      SortSections(next, sections[1..])
  }

  /** Sorting the sections adds no section, removes none and moves none. */
  lemma {:induction false} SortSectionsKeys(g: Entries, sections: seq<string>)
    requires SortSections(g, sections).Ok?
    ensures Keys(SortSections(g, sections).value) == Keys(g)
    decreases |sections|
  {
    if |sections| > 0 {
      var k := Str(sections[0]);
      match Lookup(g, k) {
        case None =>
          SortSectionsKeys(g, sections[1..]);
        case Some(v) =>
          var next := Put(g, k, SortSection(v).value);
          assert Keys(next) == Keys(g);
          SortSectionsKeys(next, sections[1..]);
      }
    }
  }

  /** A section that is not named is left as it was. */
  lemma {:induction false} SortSectionsOther(g: Entries, sections: seq<string>, k: Value)
    requires SortSections(g, sections).Ok?
    requires forall i :: 0 <= i < |sections| ==> k != Str(sections[i])
    ensures Lookup(SortSections(g, sections).value, k) == Lookup(g, k)
    decreases |sections|
  {
    if |sections| > 0 {
      var s := Str(sections[0]);
      var next := match Lookup(g, s) case None => g case Some(v) => Put(g, s, SortSection(v).value);
      assert SortSections(g, sections) == SortSections(next, sections[1..]);
      assert Lookup(next, k) == Lookup(g, k);
      assert forall i :: 0 <= i < |sections[1..]| ==> sections[1..][i] == sections[i + 1];
      SortSectionsOther(next, sections[1..], k);
    }
  }

  /** A named section is there afterwards exactly when it was before, and then
      holds its sorted self. */
  lemma {:induction false} SortSectionsSorted(g: Entries, sections: seq<string>, i: nat)
    requires SortSections(g, sections).Ok? && Distinct(sections) && i < |sections|
    ensures var k := Str(sections[i]);
      && (Lookup(SortSections(g, sections).value, k).Some? <==> Lookup(g, k).Some?)
      && (Lookup(g, k).Some? ==> SortSection(Lookup(g, k).value) == Ok(Lookup(SortSections(g, sections).value, k).value))
    decreases |sections|
  {
    var s := Str(sections[0]);
    var next := match Lookup(g, s) case None => g case Some(v) => Put(g, s, SortSection(v).value);
    var rest := sections[1..];
    assert SortSections(g, sections) == SortSections(next, rest);
    assert forall j :: 0 <= j < |rest| ==> rest[j] == sections[j + 1];
    if i == 0 {
      SortSectionsOther(next, rest, s);
    } else {
      assert rest[i - 1] == sections[i];
      assert Lookup(next, Str(sections[i])) == Lookup(g, Str(sections[i]));
      SortSectionsSorted(next, rest, i - 1);
    }
  }

  /** The sorting raises exactly when a named section holds a mapping whose
      keys, or a list whose items, cannot be compared. */
  lemma {:induction false} SortSectionsOk(g: Entries, sections: seq<string>)
    requires Distinct(sections)
    ensures SortSections(g, sections).Ok? <==>
      forall i :: 0 <= i < |sections| && Lookup(g, Str(sections[i])).Some? ==> SortSection(Lookup(g, Str(sections[i])).value).Ok?
    decreases |sections|
  {
    if |sections| > 0 {
      var s := Str(sections[0]);
      var rest := sections[1..];
      assert forall j :: 0 <= j < |rest| ==> rest[j] == sections[j + 1];
      assert Distinct(rest);
      match Lookup(g, s) {
        case None =>
          SortSectionsOk(g, rest);
          assert forall j :: 0 < j < |sections| ==> sections[j] == rest[j - 1];
        case Some(v) =>
          if SortSection(v).Ok? {
            var next := Put(g, s, SortSection(v).value);
            SortSectionsOk(next, rest);
            assert forall j :: 0 <= j < |rest| ==> Lookup(next, Str(rest[j])) == Lookup(g, Str(rest[j]));
            assert forall j :: 0 < j < |sections| ==> sections[j] == rest[j - 1];
          }
      }
    }
  }

  // ---------------------------------------------------------------------------
  // `preprocess_resources`

  /** The imports, when the graph has an `import` section. */
  function ImportIfListed(fs: FileSystem, root: Path, st: State, budget: nat): Result<State>
  {
    if Str("import") in Keys(st.graph) then ImportsStep(fs, root, st, budget) else Ok(st)
  }

  /** The supported sections sorted.  The whole graph is sorted last, but that
      result is thrown away: only its failure on keys that cannot be compared
      is felt. */
  function SortStep(st: State): Result<State>
  {
    var sorted :- SortSections(st.graph, SupportedSections);
    var discarded :- SortDict(Dict(sorted));
    Ok(State(sorted, st.errors))
  }

  /** Imports, then the defaults, then the sorting. */
  function ResourcesStep(fs: FileSystem, root: Path, st: State, budget: nat): Result<State>
  {
    var imported :- ImportIfListed(fs, root, st, budget);
    var defaulted :- DefaultsStep(imported);
    SortStep(defaulted)
  }

  /** `preprocess_resources(resources_data, resources_dir, pypath, errors)`. */
  method PreprocessResources(fs: FileSystem, root: Path, st: State, budget: nat) returns (r: Result<State>)
    ensures r == ResourcesStep(fs, root, st, budget)
  {
    var current := st;
    if Str("import") in Keys(st.graph) {
      var imported := PreprocessImports(fs, root, st, budget);
      if imported.Crash? {
        return Crash;
      }
      current := imported.value;
    }
    var defaulted := PreprocessDefaults(current);
    if defaulted.Crash? {
      return Crash;
    }
    r := SortSupported(defaulted.value);
  }

  /** The loop over the supported sections and the discarded sort after it. */
  method SortSupported(st: State) returns (r: Result<State>)
    ensures r == SortStep(st)
  {
    var sorted := SortNamed(st.graph, SupportedSections);
    if sorted.Crash? {
      return Crash;
    }
    var whole := SortDict(Dict(sorted.value));
    if whole.Crash? {
      return Crash;
    }
    return Ok(State(sorted.value, st.errors));
  }

  /** `for section in sections: ...`, each section sorted where it stands. */
  method SortNamed(graph: Entries, sections: seq<string>) returns (r: Result<Entries>)
    ensures r == SortSections(graph, sections)
  {
    var g := graph;
    var i := 0;
    while i < |sections|
      invariant 0 <= i <= |sections|
      invariant SortSections(g, sections[i..]) == SortSections(graph, sections)
    {
      assert sections[i..][1..] == sections[i + 1..];
      var section := Str(sections[i]);
      match Lookup(g, section) {
        case None =>
        case Some(v) =>
          var sorted := SortSection(v);
          if sorted.Crash? {
            return Crash;
          }
          g := Put(g, section, sorted.value);
      }
      i := i + 1;
    }
    assert sections[i..] == [];
    return Ok(g);
  }

  /** A key naming one of the supported sections. */
  predicate Supported(k: Value)
  {
    k.Str? && k.s in SupportedSections
  }

  /** Sorting keeps the sections where they stand and the errors as they are:
      the sort of the whole graph is discarded. */
  lemma SortStepKeepsOrder(st: State)
    requires SortStep(st).Ok?
    ensures Keys(SortStep(st).value.graph) == Keys(st.graph)
    ensures SortStep(st).value.errors == st.errors
  {
    SortSectionsKeys(st.graph, SupportedSections);
  }

  /** Every supported section that holds a mapping or a list is put in order,
      keeping its entries; every other section is left as it was. */
  lemma SortStepSorted(st: State, k: Value)
    requires SortStep(st).Ok?
    ensures Sorts(st.graph, SortStep(st).value.graph, Supported(k), k)
  {
    var sorted := SortSections(st.graph, SupportedSections).value;
    assert SortStep(st).value.graph == sorted;
    SupportedDistinct();
    SortSectionsAt(st.graph, SupportedSections, k);
  }

  /** How the lookup of `k` relates before and after, for a key that is sorted
      or one that is not. */
  predicate Sorts(g: Entries, g2: Entries, named: bool, k: Value)
  {
    var before := Lookup(g, k);
    var after := Lookup(g2, k);
    && (!named ==> after == before)
    && (named ==> (after.Some? <==> before.Some?))
    && (named && before.Some? && before.value.Dict? ==>
          after.Some? && after.value.Dict? && SortedBy(after.value.entries, KeyText)
          && multiset(after.value.entries) == multiset(before.value.entries))
    && (named && before.Some? && before.value.List? ==>
          after.Some? && after.value.List? && SortedBy(after.value.items, ItemText)
          && multiset(after.value.items) == multiset(before.value.items))
    && (named && before.Some? && !before.value.Dict? && !before.value.List? ==> after == before)
  }

  /** Where a key stands after the named sections are sorted. */
  lemma SortSectionsAt(g: Entries, sections: seq<string>, k: Value)
    requires SortSections(g, sections).Ok? && Distinct(sections)
    ensures Sorts(g, SortSections(g, sections).value, k.Str? && k.s in sections, k)
  {
    if k.Str? && k.s in sections {
      var i :| 0 <= i < |sections| && sections[i] == k.s;
      SortSectionsSorted(g, sections, i);
    } else {
      SortSectionsOther(g, sections, k);
    }
  }

  /** `streams` is not put in order, however its entries stand. */
  lemma StreamsNotSorted(st: State)
    requires SortStep(st).Ok?
    ensures Lookup(SortStep(st).value.graph, Str("streams")) == Lookup(st.graph, Str("streams"))
  {
    SortStepSorted(st, Str("streams"));
  }

  /** The discarded sort of the whole graph still raises when the graph's
      own keys cannot be compared. */
  lemma SortStepTopLevel(st: State)
    requires SortSections(st.graph, SupportedSections).Ok?
    ensures SortStep(st).Ok? <==> OrderableKeys(st.graph)
  {
    var sorted := SortSections(st.graph, SupportedSections).value;
    SortSectionsKeys(st.graph, SupportedSections);
    KeysOrderable(sorted, st.graph);
  }

  /** Orderability depends on the keys alone. */
  lemma KeysOrderable(a: Entries, b: Entries)
    requires Keys(a) == Keys(b)
    ensures OrderableKeys(a) <==> OrderableKeys(b)
  {
    assert |a| == |Keys(a)| && |b| == |Keys(b)|;
    assert forall i :: 0 <= i < |a| ==> a[i].0 == Keys(a)[i] == Keys(b)[i] == b[i].0;
  }

  /** `preprocess_resources` only appends to the errors it is given. */
  lemma ResourcesStepKeepsErrors(fs: FileSystem, root: Path, st: State, budget: nat)
    requires ResourcesStep(fs, root, st, budget).Ok?
    ensures st.errors <= ResourcesStep(fs, root, st, budget).value.errors
  {
    var imported := ImportIfListed(fs, root, st, budget).value;
    if Str("import") in Keys(st.graph) {
      ProcessImportDirsGrows(fs, root, st, Iter(SectionOr(st.graph, "import", List([]))).value, budget);
    }
    var defaulted := DefaultsStep(imported).value;
    DefaultsKeepErrors(imported);
    SortStepKeepsOrder(defaulted);
  }

  // ---------------------------------------------------------------------------
  // `resources`

  /** How a load ends: with the graph and the errors gathered, with the fatal
      error of an unresolvable condition, or with an uncaught exception. */
  datatype Outcome = Loaded(graph: Entries, errors: seq<Error>) | FatalError(errors: seq<Error>) | Crashed

  /** Read `resources.yaml`, resolve its conditions, apply the overrides,
      preprocess and validate.  A file that cannot be read or is not a
      mapping adds one error and yields the empty graph. */
  function Resources(fs: FileSystem, root: Path, ctx: Entries, errors: seq<Error>, budget: nat): Outcome
  {
    var file := Join(root, ResourcesFile);
    match Read(fs, file)
    case None => Loaded([], errors + [ResourcesUnreadable(file)])
    case Some(doc) =>
      if !doc.Dict? then Loaded([], errors + [ResourcesUnreadable(file)])
      else
        match ResolveConditionals(doc.entries, ctx, errors)
        case Fatal(e) => FatalError(e)
        case Resolved(resolved) =>
          match Overridden(resolved, ctx)
          case Crash => Crashed
          case Ok(overridden) =>
            match ResourcesStep(fs, root, State(overridden, errors), budget)
            case Crash => Crashed
            case Ok(st) =>
              match ValidationErrors(fs, root, st.graph, st.errors)
              case Crash => Crashed
              case Ok(e) => Loaded(st.graph, e)
  }

  /** `resources(resources_dir, pypath, deploy_ctx, errors)`. */
  method LoadResources(fs: FileSystem, root: Path, ctx: Entries, errors: seq<Error>, budget: nat) returns (r: Outcome)
    ensures r == Resources(fs, root, ctx, errors, budget)
  {
    var file := Join(root, ResourcesFile);
    var raw := Read(fs, file);
    if raw.None? || !raw.value.Dict? {
      return Loaded([], errors + [ResourcesUnreadable(file)]);
    }
    var resolved := ResolveConditionals(raw.value.entries, ctx, errors);
    if resolved.Fatal? {
      return FatalError(resolved.errors);
    }
    var overridden := ApplyOverrides(resolved.value, ctx);
    if overridden.Crash? {
      return Crashed;
    }
    var st := PreprocessResources(fs, root, State(overridden.value, errors), budget);
    if st.Crash? {
      return Crashed;
    }
    var checked := Validate(fs, root, st.value.graph, st.value.errors);
    if checked.Crash? {
      return Crashed;
    }
    return Loaded(st.value.graph, checked.value);
  }

  /** A `resources.yaml` whose document is not a mapping, such as the `Null`
      of an empty file, gives one error and an empty graph. */
  lemma NonMappingResources(fs: FileSystem, root: Path, ctx: Entries, errors: seq<Error>, budget: nat)
    requires Read(fs, Join(root, ResourcesFile)).Some? && !Read(fs, Join(root, ResourcesFile)).value.Dict?
    ensures Resources(fs, root, ctx, errors, budget) == Loaded([], errors + [ResourcesUnreadable(Join(root, ResourcesFile))])
  {
  }

  /** The load is fatal exactly when resolving a condition is. */
  lemma FatalOnlyFromConditions(fs: FileSystem, root: Path, ctx: Entries, errors: seq<Error>, budget: nat)
    ensures var doc := Read(fs, Join(root, ResourcesFile));
      Resources(fs, root, ctx, errors, budget).FatalError? <==>
        doc.Some? && doc.value.Dict? && HasFatal(doc.value, ctx)
  {
    var doc := Read(fs, Join(root, ResourcesFile));
    if doc.Some? && doc.value.Dict? {
      ResolveItemsFatal(doc.value.entries, [], ctx, errors);
    }
  }

  /** A completed load keeps every error it was given, in front. */
  lemma LoadKeepsErrors(fs: FileSystem, root: Path, ctx: Entries, errors: seq<Error>, budget: nat)
    requires Resources(fs, root, ctx, errors, budget).Loaded?
    ensures errors <= Resources(fs, root, ctx, errors, budget).errors
  {
    var doc := Read(fs, Join(root, ResourcesFile));
    if doc.Some? && doc.value.Dict? {
      var resolved := ResolveConditionals(doc.value.entries, ctx, errors).value;
      var overridden := Overridden(resolved, ctx).value;
      var st := ResourcesStep(fs, root, State(overridden, errors), budget).value;
      ResourcesStepKeepsErrors(fs, root, State(overridden, errors), budget);
      ValidationGrows(fs, root, st.graph, st.errors);
    }
  }

  /** A completed load's supported sections are each in order. */
  lemma LoadedSorted(fs: FileSystem, root: Path, ctx: Entries, errors: seq<Error>, budget: nat, k: Value)
    requires Resources(fs, root, ctx, errors, budget).Loaded?
    requires Supported(k)
    ensures var section := Lookup(Resources(fs, root, ctx, errors, budget).graph, k);
      && (section.Some? && section.value.Dict? ==> SortedBy(section.value.entries, KeyText))
      && (section.Some? && section.value.List? ==> SortedBy(section.value.items, ItemText))
  {
    var doc := Read(fs, Join(root, ResourcesFile));
    if doc.Some? && doc.value.Dict? {
      var resolved := ResolveConditionals(doc.value.entries, ctx, errors).value;
      var overridden := Overridden(resolved, ctx).value;
      var imported := ImportIfListed(fs, root, State(overridden, errors), budget).value;
      SortStepSorted(DefaultsStep(imported).value, k);
    }
  }
}
