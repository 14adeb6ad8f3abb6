# easysam resource-graph compiler, modelled in Dafny

easysam turns a `resources.yaml` file and the `easysam.yaml` fragment files it
imports into one resource graph, and from that graph it generates an AWS SAM
template. This project models the part of easysam that builds and checks the
graph, and proves properties of that model:

- **The loader** (`src/easysam/load.py`). It has five stages:
  1. It resolves `!Conditional` keys against the deployment context. This is the only fatal path: it raises `FatalError` with the error list.
  2. It applies the context's dotted-path `overrides`.
  3. It merges the imported fragments into `functions`, `paths` and `tables`. The first entry under a name wins, and every duplicate is recorded as an error.
  4. It fills in defaults and expands shorthand forms, such as the `bucketname` shorthand of a stream.
  5. It sorts the supported sections.
- **The semantic validator** (`src/easysam/validate_schema.py`). It runs the hand-written checks on buckets, streams, function references, paths, request and response templates, imports and authorizers. Every check only appends to the error list.
- **The common-dependency closure resolver** (`src/easysam/commondep.py`). It finds the shared modules under `common/` that a function's sources import, directly or through other shared modules, and returns them sorted.
- **The legacy preprocessor** (`src/easysam/generate.py`). It is the older copy of the fragment merge that raises `UserWarning` at the first problem. The file also holds the blank-line filter of `write_result`.

The graph is a dynamically typed `Value`: null, bool, int, string, list, dict or
conditional key. A dict is an ordered sequence of key/value pairs with Python's
dict semantics. Assigning to an existing key keeps its position; assigning to a
new key appends it. `Result` has two cases: `Ok`, and `Crash`, which stands for
any exception the source does not catch. The loader's running state is the
graph together with the error list, `State(graph, errors)`.

The two halves of the model are built differently:
- The source's loops are Dafny methods with `while` loops. Each is proved equal to a specification function, and the properties are stated as lemmas about those functions.
- The straight-line rules are Dafny functions whose `ensures` clauses state what the source promises.

Neither the file system nor the deployment context is called directly; both are passed in as parameters:
- `FileSystem` holds:
  - the paths that exist;
  - the already-parsed YAML document at each path;
  - the order in which the operating system lists the fragment files of a directory.
- The deployment context is an `Entries` value.
- A `budget` parameter stands for Python's recursion limit. The model gives `Crash` when the budget runs out, for instance on a fragment that imports itself. In the legacy preprocessor the source surely fails there, since nothing catches the `RecursionError`; in the loader the source's outcome depends on where Python raises it (see "## Left out").

Modules, in dependency order:

- `Outcomes`: `Option` and `Result`.
- `Text`: the string operations `split`, `join`, `replace` and `lstrip`.
- `Files`: paths and the abstract file system.
- `Values`: the graph datatype and the dict operations.
- `Diagnostics`: the error messages, as a datatype.
- `Sorting`: `sorted` on dict items and lists.
- `Conditionals`: `check_condition` and `resolve_conditionals`.
- `Overrides`: `apply_overrides`.
- `Importer`: imports and merging.
- `Defaults`: `process_default_*` and `preprocess_defaults`.
- `Loader`: `preprocess_resources` and `resources`.
- `Validator`: the semantic checks.
- `CommonDeps`: `commondep.py`. The functions `TraceFile` ... `TraceFiles` list the modules each scan enters, in order; they exist to state that no module is scanned twice.
- `Legacy`: the `generate.py` preprocessor and `write_result`.

## Model

| member | source | states |
|---|---|---|
| Text.Split | src/easysam/commondep.py:30 | `str.split(sep)` gives at least one piece, no piece holds the separator, and a string without the separator is one piece |
| Text.JoinSplit | src/easysam/commondep.py:30 | joining the pieces of a split with the separator gives back the original string |
| Text.SplitJoin | src/easysam/commondep.py:30 | splitting a join of separator-free pieces gives back exactly those pieces |
| Text.SplitCons | src/easysam/commondep.py:30 | a separator-free head followed by the separator splits off as the first piece |
| Text.Replace | src/easysam/load.py:484 | `replace` of one character keeps the length and swaps exactly the occurrences of that character |
| Text.LStrip | src/easysam/load.py:442 | `lstrip('~')` is a suffix of the input, removes only `~` characters, and leaves no leading `~` |
| Files.Segments | src/easysam/load.py:249 | the segments a path string adds to a `Path` are non-empty, are not `.`, and hold no `/` |
| Files.Clean | src/easysam/load.py:249 | dropping empty and `.` segments leaves only proper segments |
| Files.Join | src/easysam/load.py:249 | `Path(base, s)`: an absolute `s` replaces the base, and a relative one extends it by its segments |
| Files.Parent | src/easysam/load.py:223 | `parent` drops exactly the last segment, and the root is its own parent |
| Files.RelativeTo | src/easysam/load.py:170 | `relative_to` succeeds exactly when the base is a prefix of the path, and it returns the remaining segments |
| Files.AsPosix | src/easysam/load.py:170 | `as_posix` of no segments is `.`, and otherwise splitting it at `/` gives back the segments |
| Sorting.Insert | src/easysam/load.py:363-364 | one insertion step of the sort adds exactly the inserted element |
| Sorting.SortBy | src/easysam/load.py:363-364 | `sorted(..., key=...)` returns a permutation of its input |
| Sorting.InsertSorted | src/easysam/load.py:363-364 | inserting into a sorted sequence keeps it sorted |
| Sorting.SortBySorted | src/easysam/load.py:363-364 | the result of `sorted` is in non-decreasing key order |
| Sorting.SortDict | src/easysam/load.py:363-364 | `sort_dict` succeeds exactly on a dict whose keys can be compared, and it returns a dict with the same items |
| Sorting.SortList | src/easysam/load.py:379 | `sorted(list)` succeeds exactly on a list whose elements can be compared, and it returns a permutation |
| Sorting.LookupInsert | src/easysam/load.py:363-364 | inserting an item with a new key changes the lookup of that key only |
| Sorting.SortByLookup | src/easysam/load.py:363-364 | sorting a dict's items keeps what every key maps to |
| Sorting.SortedDistinct | src/easysam/commondep.py:13 | a sorted list without repeats is strictly increasing |
| Sorting.SortedList | src/easysam/commondep.py:13 | `sorted(list(s))` of a set is strictly increasing and holds exactly the elements of the set |
| Sorting.DoubleCount | src/easysam/commondep.py:13 | an element that appears twice has multiplicity at least two |
| Sorting.SingleCount | src/easysam/commondep.py:13 | in a list without repeats, every element has multiplicity one |
| Values.ConstructConditional | src/easysam/load.py:405-419 | a `!Conditional` mapping needs a string `key`; `environment` and `region` are taken from the mapping when present and default to `any` otherwise |
| Values.Keys | src/easysam/load.py:229 | the keys of a dict, one per item, in item order |
| Values.Lookup | src/easysam/load.py:154 | `d.get(k)` finds a value exactly when `k` is a key |
| Values.Put | src/easysam/load.py:173 | after `d[k] = v`, `k` maps to `v`, every other key is unchanged, and a new key is appended at the end |
| Values.Remove | src/easysam/load.py:192 | after `del d[k]`, `k` is gone and every other key is unchanged |
| Values.LookupUnique | src/easysam/load.py:173 | in a dict without repeated keys, the key of each item maps to that item's value |
| Values.PutUnique | src/easysam/load.py:173 | assignment keeps the keys of a dict free of repeats |
| Values.PutSame | src/easysam/load.py:173 | assigning a key the value it already has changes nothing |
| Values.PutNew | src/easysam/load.py:173 | assigning a new key appends exactly one item |
| Values.SetPathThenGet | src/easysam/load.py:474-477 | after a benedict keypath assignment, the same keypath reads back the assigned value |
| Values.SetPathOther | src/easysam/load.py:474-477 | a keypath assignment leaves every diverging keypath reading what it read before |
| Conditionals.ContextValue | src/easysam/load.py:431-433 | a context value is used when the key is present and not null, and is missing otherwise |
| Conditionals.CheckCondition | src/easysam/load.py:422-451 | `any` passes without consulting the context. Otherwise a missing context value is fatal, with exactly one error appended. Otherwise the result is whether the value, stripped of its leading `~`, equals the context value, negated when the value starts with `~` |
| Conditionals.CheckNegation | src/easysam/load.py:441-451 | a leading `~` turns the outcome around and leaves fatality unchanged |
| Conditionals.CheckRepeatedTilde | src/easysam/load.py:442 | every leading `~` is stripped, and several together negate only once |
| Conditionals.CheckOnlyTildes | src/easysam/load.py:441-451 | a value of `~` alone is false when the context value is the empty string |
| Conditionals.CheckIgnoresErrors | src/easysam/load.py:422-451 | whether a condition passes does not depend on the errors gathered before |
| Conditionals.ResolveValue | src/easysam/load.py:454-478 | non-dict values, lists included, are copied unchanged, and dicts resolve to dicts; a fatal resolution appends exactly one error, for `environment` or `target_region`, after the errors given |
| Conditionals.ResolveItems | src/easysam/load.py:459-476 | the loop over a mapping appends exactly one error when it turns fatal |
| Conditionals.ResolveValueFatal | src/easysam/load.py:454-478 | resolution is fatal exactly when some conditional key below the value has a missing context field, with both checks evaluated eagerly |
| Conditionals.ResolveItemsFatal | src/easysam/load.py:459-476 | the same rule for the items of one mapping, in order |
| Conditionals.MissingRegionFatal | src/easysam/load.py:467-471 | a missing `target_region` is fatal even when the environment check has already failed |
| Conditionals.ResolvePlainValue | src/easysam/load.py:454-478 | a graph without conditional keys resolves to itself |
| Conditionals.ResolvePlainItems | src/easysam/load.py:459-476 | the items of a mapping without conditional keys are copied in order |
| Conditionals.FreshHead | src/easysam/load.py:459-476 | with no key twice, the next key is not yet in the mapping being built |
| Conditionals.AssignUndotted | src/easysam/load.py:474-476 | assigning under an undotted key is a plain dict assignment |
| Conditionals.ResolveLastWins | src/easysam/load.py:459-476 | in a mapping whose keys are undotted and that resolves, every key holds the resolved value (nested mappings resolved in turn) of the last entry stored under it: a conditional is stored under `key.key` iff both checks pass, a later accepted entry overwrites an earlier one, and other keys keep what the mapping held |
| Overrides.OverridePath | src/easysam/load.py:484 | an override path becomes the dot-free segments that, joined by `.`, equal the path with `/` replaced by `.` |
| Overrides.ApplyOverrides | src/easysam/load.py:481-486 | without `overrides` in the context the graph is unchanged; otherwise the loop assigns each override in turn at its keypath |
| Overrides.OverridesKeepOthers | src/easysam/load.py:481-486 | keypaths that diverge from every override read what they read before |
| Overrides.OverrideTakesEffect | src/easysam/load.py:481-486 | an override not followed by another at the same keypath leaves its value there |
| Importer.EnsureSection | src/easysam/load.py:151-152 | `functions` (or `paths`, `tables`) is added as `{}` when absent, and nothing else changes |
| Importer.WithUri | src/easysam/load.py:166-170 | resources without `uri` get `uri` set to the fragment directory relative to the root, in POSIX form; given resources are kept |
| Importer.HoistedIntegration | src/easysam/load.py:190-194 | the stored integration names the function, has `integration: lambda`, loses `path`, and keeps every other key |
| Importer.OthersPut | src/easysam/load.py:173 | writing a merged section leaves the other top-level entries as they were |
| Importer.LookupOthers | src/easysam/load.py:173 | outside the merged sections, the graph answers as its other entries do |
| Importer.KeepsEntriesTrans | src/easysam/load.py:160-164 | keeping every existing entry is transitive |
| Importer.GrowsTrans | src/easysam/load.py:215-257 | the only-adds relation between states is transitive |
| Importer.GrowsRefl | src/easysam/load.py:215-257 | the only-adds relation is reflexive |
| Importer.ExtendsKeepsOthers | src/easysam/load.py:215-257 | a graph that only gained merged entries answers as before on every other section |
| Importer.KeepsEntriesRefl | src/easysam/load.py:160-164 | every section keeps its own entries |
| Importer.PutSectionGrows | src/easysam/load.py:173 | replacing a merged section by one that keeps its entries only adds |
| Importer.SectionKept | src/easysam/load.py:173 | after such a replacement, every section keeps its entries |
| Importer.AddEntryGrows | src/easysam/load.py:173 | giving a merged section a new key only adds |
| Importer.EnsureSectionGrows | src/easysam/load.py:151-152 | creating a missing merged section only adds |
| Importer.PreprocessLambdaGrows | src/easysam/load.py:143-194 | `preprocess_lambda` never replaces a function or path, touches no other section, and only appends errors |
| Importer.AddIntegrationGrows | src/easysam/load.py:174-194 | the integration step only adds |
| Importer.AddedPathGrows | src/easysam/load.py:184-194 | storing a new path only adds |
| Importer.AddedPathStored | src/easysam/load.py:184-194 | a new path is stored by one assignment into `paths` |
| Importer.StoreEntryGrows | src/easysam/load.py:173 | storing under a key the section lacks only adds |
| Importer.StoreEntryStores | src/easysam/load.py:173 | storing into a mapping section sets the key and reports nothing |
| Importer.LambdaWithoutName | src/easysam/load.py:154-158 | a lambda without a name adds exactly one error and no function |
| Importer.LambdaDuplicate | src/easysam/load.py:160-164 | a name already registered adds exactly one error and leaves the graph as it was, so the first entry wins |
| Importer.LambdaRegistered | src/easysam/load.py:166-194 | a new name is registered with its resources, `uri` included, whatever its integration later reports |
| Importer.IntegrationHoisted | src/easysam/load.py:174-194 | an integration with a new path is stored at `paths[path]` with no new error |
| Importer.IntegrationWithoutPath | src/easysam/load.py:177-181 | a missing path adds one error, and the function registered just before stays |
| Importer.IntegrationDuplicatePath | src/easysam/load.py:183-188 | a taken path adds one error and leaves the graph, registered function included, as it was |
| Importer.MergeTablesFirstWins | src/easysam/load.py:206-212 | an existing table keeps its value, and a new name takes the value of its first occurrence in the fragment |
| Importer.MergeTablesCount | src/easysam/load.py:206-212 | every fragment table either becomes a new table or adds exactly one duplicate error for this fragment |
| Importer.PreprocessTables | src/easysam/load.py:197-212 | the loop of `preprocess_tables` computes the table merge |
| Importer.PreprocessTablesGrows | src/easysam/load.py:197-212 | merging tables only adds |
| Importer.MergeTablesKeeps | src/easysam/load.py:206-212 | every table the section had keeps its value |
| Importer.MergeTablesErrorsGrow | src/easysam/load.py:206-212 | the table merge only appends errors |
| Importer.MergeTablesKeepsNonDict | src/easysam/load.py:206-212 | a section that is not a mapping stays as it is |
| Importer.PreprocessSections | src/easysam/load.py:233-239 | the `lambda` and then the `tables` section of a fragment are merged |
| Importer.PreprocessFile | src/easysam/load.py:215-244 | `preprocess_file` computes the fragment merge, recursing into the fragment's own imports |
| Importer.PreprocessFileImports | src/easysam/load.py:241-244 | once the sections are merged, a fragment's truthy `import` list is walked relative to its own directory; a crash in the merge or a non-iterable list crashes |
| Importer.PreprocessImportList | src/easysam/load.py:241-244 | the nested imports are resolved relative to the fragment's directory, in order |
| Importer.PreprocessEntries | src/easysam/load.py:256-257 | every fragment file of a directory is processed, in the order found |
| Importer.PreprocessImports | src/easysam/load.py:247-257 | every listed import directory is processed in order |
| Importer.TablesStepGrows | src/easysam/load.py:197-212 | `preprocess_tables` only adds |
| Importer.MergeSectionsGrows | src/easysam/load.py:233-239 | merging a fragment's sections only adds |
| Importer.ProcessFileGrows | src/easysam/load.py:215-244 | importing a fragment and everything it imports never replaces a function, path or table, and only appends errors |
| Importer.AfterSectionsGrows | src/easysam/load.py:241-244 | the nested imports after the merge only add |
| Importer.ProcessFileReported | src/easysam/load.py:222-231 | a fragment that is not merged leaves the graph as it was |
| Importer.ProcessImportListGrowsFrom | src/easysam/load.py:241-244 | an import list processed from a grown state ends in a grown state |
| Importer.ProcessEntriesGrows | src/easysam/load.py:256-257 | the fragments of one directory together only add |
| Importer.ProcessImportDirsGrows | src/easysam/load.py:247-257 | all import directories together only add |
| Importer.UnexpectedSectionsMergeNothing | src/easysam/load.py:229-231 | a fragment with a key other than `lambda`, `import` or `tables` adds one error and merges nothing |
| Importer.UnreadableFragment | src/easysam/load.py:222-227 | a fragment that cannot be read or parsed adds one error and merges nothing |
| Importer.NonMappingFragment | src/easysam/load.py:229 | a fragment whose document is not a mapping, such as the `Null` of an empty file, fails |
| Importer.MissingImportDir | src/easysam/load.py:250-254 | a missing import directory adds one error, and the next directory is processed |
| Defaults.MapValues | src/easysam/load.py:268-276 | rewriting every value of a mapping keeps the keys in order and fails exactly when one rewrite fails |
| Defaults.SectionDefaults | src/easysam/load.py:267-276 | an absent section is left alone; a present one must be a mapping, and it is replaced by its rewritten values in place |
| Defaults.SectionDefaultsOther | src/easysam/load.py:267-276 | a section's loop leaves every other section as it was |
| Defaults.DefaultValues | src/easysam/load.py:268-276 | the loop over a mapping's values computes the rewrite |
| Defaults.ProcessSection | src/easysam/load.py:267-276 | one section's loop writes the rewritten mapping back |
| Defaults.SearchDefaults | src/easysam/load.py:489-499 | an empty `search` becomes `{searchable: {}}`, and any other graph is unchanged |
| Defaults.FunctionDefaults | src/easysam/load.py:261-276 | string polls become `{name: s}`, other polls are kept, an empty `searches` becomes `['searchable']`, and every other key is kept |
| Defaults.SetDefault | src/easysam/load.py:305-309 | `if k not in d: d[k] = default` sets a missing key and keeps a present one |
| Defaults.FillMissing | src/easysam/load.py:304-309 | two keys are filled only where missing, and every other key is kept |
| Defaults.PromoteBucketName | src/easysam/load.py:287-302 | `bucketname` moves into `buckets.private`, and `bucketname`, `bucketprefix` and `intervalinseconds` leave the stream |
| Defaults.ProcessStream | src/easysam/load.py:287-309 | the stream with its loop over buckets computes the stream rewrite |
| Defaults.ProcessDefaultStreams | src/easysam/load.py:279-314 | the loop of `process_default_streams` computes the rebuilt stream section |
| Defaults.TableDefaults | src/easysam/load.py:332-346 | a string trigger becomes `{function: s}`; `viewtype` defaults to `new-and-old` and `startingposition` to `latest`; every other key is kept |
| Defaults.NamedTrigger | src/easysam/load.py:336-346 | a trigger named by a string becomes the three-key configuration |
| Defaults.FillSingle | src/easysam/load.py:341-346 | both trigger defaults are appended to a mapping that holds only `function` |
| Defaults.PathDefaults | src/easysam/load.py:317-329 | `integration` defaults to `lambda`; then dynamo gets `action: GetItem`, sqs gets `method: post` and lambda gets `greedy: true`, each only if unset; every other key is kept |
| Defaults.IntegrationDefaults | src/easysam/load.py:322-329 | the `match` on the integration fills only the key of the matching case |
| Defaults.PreprocessDefaults | src/easysam/load.py:349-354 | the five default passes are applied in source order |
| Defaults.RebuildStreamsErrors | src/easysam/load.py:282-285 | the streams loop adds exactly one error per stream giving both `buckets` and `bucketname`, in order |
| Defaults.RebuildStreamsLookup | src/easysam/load.py:280-314 | the rebuilt section omits conflicting streams and holds every other stream rewritten |
| Defaults.ConflictingStreamDropped | src/easysam/load.py:280-314 | with another stream surviving, a conflicting stream is dropped from `streams` and the survivor is rewritten |
| Defaults.AllStreamsConflicting | src/easysam/load.py:313-314 | when every stream conflicts, `new_streams` is empty and `streams` stays as it was |
| Defaults.AllConflictingRebuild | src/easysam/load.py:282-285 | a loop over conflicting streams only adds to the errors |
| Defaults.BucketNamePromoted | src/easysam/load.py:287-309 | the promoted bucket has `bucketprefix` defaulting to `''` and copies `intervalinseconds`, which stays null when unset |
| Defaults.PrivateBucketComplete | src/easysam/load.py:287-309 | the bucket loop leaves the promoted bucket unchanged |
| Defaults.MapValuesIdempotent | src/easysam/load.py:268-276 | rewriting every value with an idempotent rewrite is idempotent |
| Defaults.FillMissingIdempotent | src/easysam/load.py:304-309 | filling missing keys twice gives the same result as once |
| Defaults.FunctionDefaultsIdempotent | src/easysam/load.py:261-276 | the function defaults applied twice give the same result as once |
| Defaults.FunctionFixed | src/easysam/load.py:261-276 | a function with no string polls and a non-empty `searches` is left as it is |
| Defaults.TableDefaultsIdempotent | src/easysam/load.py:332-346 | the table defaults applied twice give the same result as once |
| Defaults.PathDefaultsIdempotent | src/easysam/load.py:317-329 | the path defaults applied twice give the same result as once |
| Defaults.DefaultsIdempotentEntries | src/easysam/load.py:260-346 | the function, bucket, table and path rewrites are each idempotent |
| Defaults.SectionDefaultsFixed | src/easysam/load.py:267-276 | a section whose entries are fixed points is left as it is |
| Defaults.SectionDefaultsNormalises | src/easysam/load.py:267-276 | after the loop, every entry of the section is a fixed point of its rewrite |
| Defaults.NormalStream | src/easysam/load.py:287-311 | a stream without `bucketname` whose buckets are complete is kept by the loop |
| Defaults.StreamDefaultsNormal | src/easysam/load.py:287-311 | a rewritten stream is kept unchanged by another pass |
| Defaults.RebuildStreamsNormal | src/easysam/load.py:280-311 | the rebuilt section has no name twice and only normal streams |
| Defaults.RebuildNormalStreams | src/easysam/load.py:280-311 | rebuilding a section of normal streams gives it back |
| Defaults.StreamsStepFixed | src/easysam/load.py:279-314 | a normalised streams section passes the streams step unchanged |
| Defaults.StreamsStepNormalises | src/easysam/load.py:279-314 | after the streams step, the section is normalised |
| Defaults.StreamsStepKeeps | src/easysam/load.py:279-314 | the streams step rewrites no other section and adds none |
| Defaults.DefaultsKeepErrors | src/easysam/load.py:349-354 | the defaults only append to the errors |
| Defaults.DefaultsKeepOtherSections | src/easysam/load.py:349-354 | the defaults keep the graph's keys in order and touch only their five sections |
| Defaults.AfterDefaultsOther | src/easysam/load.py:349-354 | each section after the defaults is what its own pass made of it |
| Defaults.DefaultsIdempotent | src/easysam/load.py:349-354 | applying the defaults to their own result gives the same graph |
| Defaults.AfterDefaultsSearch | src/easysam/load.py:489-499 | after the defaults, `search` is absent or non-empty |
| Defaults.SearchDefaultsTruthy | src/easysam/load.py:489-499 | after the search pass, `search` is absent or non-empty |
| Defaults.AfterDefaultsFunctions | src/easysam/load.py:260-276 | after the defaults, every function is a fixed point of its rewrite |
| Defaults.AfterDefaultsStreams | src/easysam/load.py:279-314 | after the defaults, the streams section is normalised |
| Defaults.AfterDefaultsTables | src/easysam/load.py:332-346 | after the defaults, every table is a fixed point of its rewrite |
| Defaults.AfterDefaultsPaths | src/easysam/load.py:317-329 | after the defaults, every path is a fixed point of its rewrite |
| Defaults.DefaultedFixed | src/easysam/load.py:349-354 | a graph whose five sections are normalised is a fixed point of the defaults |
| Loader.SupportedDistinct | src/easysam/load.py:17-27 | the supported section names are distinct |
| Loader.SortSection | src/easysam/load.py:374-379 | a dict section is sorted by key as a permutation of its items, a list section is sorted as a permutation, and any other value is kept |
| Loader.SortSectionLookup | src/easysam/load.py:377 | sorting a mapping keeps what each key maps to |
| Loader.SortSectionsKeys | src/easysam/load.py:374-379 | sorting adds no top-level section, removes none and moves none |
| Loader.SortSectionsOther | src/easysam/load.py:374-379 | a section that is not named is left as it was |
| Loader.SortSectionsSorted | src/easysam/load.py:374-379 | each named section that is present is replaced by its sorted form |
| Loader.SortSectionsOk | src/easysam/load.py:374-379 | sorting succeeds exactly when every present named section can be sorted |
| Loader.PreprocessResources | src/easysam/load.py:357-381 | imports when `import` is present, then the defaults, then the sorting |
| Loader.SortSupported | src/easysam/load.py:374-381 | the loop over the supported sections, followed by the discarded top-level sort |
| Loader.SortNamed | src/easysam/load.py:374-379 | the loop sorts each named section where it stands |
| Loader.SortStepKeepsOrder | src/easysam/load.py:381 | the top-level sort only rebinds a local, so the top-level order and the errors are unchanged |
| Loader.SortStepSorted | src/easysam/load.py:374-379 | supported sections are sorted and every other section is unchanged |
| Loader.SortSectionsAt | src/easysam/load.py:374-379 | where each key stands after the named sections are sorted |
| Loader.StreamsNotSorted | src/easysam/load.py:17-27 | `streams` is not a supported section, so it is not sorted |
| Loader.SortStepTopLevel | src/easysam/load.py:381 | the top-level `sort_dict` still raises when the top-level keys cannot be compared |
| Loader.KeysOrderable | src/easysam/load.py:381 | whether a graph can be sorted depends on its keys alone |
| Loader.ResourcesStepKeepsErrors | src/easysam/load.py:357-381 | `preprocess_resources` only appends to the errors it is given |
| Loader.LoadResources | src/easysam/load.py:33-75 | `resources`: read, resolve, override, preprocess and validate; an unreadable file gives an empty graph and one error |
| Loader.NonMappingResources | src/easysam/load.py:54-59 | a `resources.yaml` whose document is not a mapping, such as the `Null` of an empty file, gives one error and an empty graph; the source agrees for `None`, numbers and booleans (see "## Left out") |
| Loader.FatalOnlyFromConditions | src/easysam/load.py:56-63 | a load is fatal exactly when resolving a condition of the read document is fatal |
| Loader.LoadKeepsErrors | src/easysam/load.py:33-75 | a completed load keeps every error it was given, in front |
| Loader.LoadedSorted | src/easysam/load.py:72-75 | in a completed load, every supported section is in order |
| Validator.Collect | src/easysam/validate_schema.py:45-47 | the per-element checks succeed exactly when each element's check does |
| Validator.CollectStep | src/easysam/validate_schema.py:45-47 | gathering goes on from one element to the next |
| Validator.FoldStep | src/easysam/validate_schema.py:57-58 | a fold goes on from one element to the next |
| Validator.CollectMember | src/easysam/validate_schema.py:45-47 | an error is reported exactly when it was there before or some element reports it |
| Validator.CollectGrows | src/easysam/validate_schema.py:45-47 | the errors gathered before are kept, in front |
| Validator.FoldGrows | src/easysam/validate_schema.py:57-58 | steps that keep earlier errors keep them over the whole loop |
| Validator.CollectAtMostOne | src/easysam/validate_schema.py:57-85 | checks that report at most one error each add at most one per element |
| Validator.CollectNone | src/easysam/validate_schema.py:45-47 | when no element reports anything, the errors are as they were |
| Validator.CollectOnly | src/easysam/validate_schema.py:45-47 | when only one element reports, its errors alone are added |
| Validator.ValuesOf | src/easysam/validate_schema.py:58 | `values()` exists on a dict only, with one value per item |
| Validator.ValidateBuckets | src/easysam/validate_schema.py:43-47 | the loop of `validate_buckets` computes the bucket errors |
| Validator.BucketsOneError | src/easysam/validate_schema.py:43-47 | exactly one error is added iff the bucket named `private` is public, and none otherwise |
| Validator.ValidateStreams | src/easysam/validate_schema.py:55-85 | the nested loops of `validate_streams` compute the stream errors |
| Validator.StreamBucketOneRule | src/easysam/validate_schema.py:58-85 | one error is reported for neither form, and one for both forms (each iff); otherwise an unknown `bucketname`, or else an ARN that neither starts with `arn:aws:s3:::` nor equals `<overriden>`; never more than one error |
| Validator.StreamErrorsBounded | src/easysam/validate_schema.py:57-85 | a stream adds at most one error per bucket entry |
| Validator.CheckRefs | src/easysam/validate_schema.py:91-134 | one inner loop of `validate_lambda` computes that kind's reference errors |
| Validator.CheckRefList | src/easysam/validate_schema.py:91-134 | the loop over a kind's listed references collects each reference's error, and raises where one check raises |
| Validator.ValidateLambda | src/easysam/validate_schema.py:88-134 | `validate_lambda` checks buckets, tables, polls, sends and streams in that order |
| Validator.RefReported | src/easysam/validate_schema.py:88-134 | a reference error is reported exactly when some reference names something absent from its section; polls are named by `name` |
| Validator.RefErrorsBounded | src/easysam/validate_schema.py:88-134 | each reference adds at most one error |
| Validator.ValidateLambdaPath | src/easysam/validate_schema.py:149-162 | `validate_lambda_path` computes its errors |
| Validator.LambdaPathRules | src/easysam/validate_schema.py:149-162 | both `authorizer` and `open`, or neither, give exactly one error; an unknown named authorizer gives one more; nothing else is added |
| Validator.CheckTemplateFile | src/easysam/validate_schema.py:199-226 | one side's file check, and whether that side was provided (a file named or the inline template given) |
| Validator.ValidateTemplates | src/easysam/validate_schema.py:189-235 | `validate_request_response_templates` with its two flags |
| Validator.FileAddedMember | src/easysam/validate_schema.py:199-226 | the file check of one side adds exactly the missing-file and both-templates errors its rules call for |
| Validator.TemplateFileReports | src/easysam/validate_schema.py:199-226 | the file check keeps earlier errors and adds only what its rules call for |
| Validator.TemplateAppends | src/easysam/validate_schema.py:189-235 | the request file check, the response file check and then the two missing-template checks, appended in that order |
| Validator.TemplateReports | src/easysam/validate_schema.py:189-235 | a template error is reported exactly when a rule of the request or the response side calls for it |
| Validator.SideAddedMember | src/easysam/validate_schema.py:189-235 | the rules of one side are exactly what its file check and its missing check add |
| Validator.TemplateMissingRule | src/easysam/validate_schema.py:231-235 | a side is reported as missing a template iff it has neither a file nor an inline template |
| Validator.TemplateBothRule | src/easysam/validate_schema.py:205-224 | a side is reported for two templates iff it has both |
| Validator.TemplateFileRule | src/easysam/validate_schema.py:199-219 | a side is reported for a missing file iff it names a file that does not exist |
| Validator.ValidateSqsPath | src/easysam/validate_schema.py:175-186 | `validate_sqs_path` computes its errors |
| Validator.SqsUnknownQueue | src/easysam/validate_schema.py:183-184 | an sqs path is reported iff its `queue` is absent from `queues` |
| Validator.ValidatePaths | src/easysam/validate_schema.py:137-146 | the loop dispatches on `integration` (default `lambda`) to the lambda, dynamo and sqs checks |
| Validator.OtherIntegrationUnchecked | src/easysam/validate_schema.py:140-146 | integrations other than lambda, dynamo and sqs get no checks |
| Validator.ValidateImport | src/easysam/validate_schema.py:238-245 | the loop of `validate_import` computes its errors |
| Validator.ImportReported | src/easysam/validate_schema.py:238-245 | an import is reported exactly when it is listed and does not exist under the resources directory |
| Validator.CountThree | src/easysam/validate_schema.py:277 | `count(True) == 1` over the three flags means exactly one of them is set |
| Validator.ValidateAuthorizers | src/easysam/validate_schema.py:272-281 | the loop of `validate_authorizers` computes its errors |
| Validator.CheckAuthorizer | src/easysam/validate_schema.py:275-281 | the body of that loop for one authorizer |
| Validator.AuthorizerRules | src/easysam/validate_schema.py:272-281 | one error iff not exactly one of `token`, `query` and `headers` is present, and one iff `function` is not a function |
| Validator.Validate | src/easysam/validate_schema.py:25-33 | the semantic checks run in source order |
| Validator.EmptyGraphValid | src/easysam/validate_schema.py:25-33 | a graph with none of the checked sections passes all checks |
| Validator.StreamStepGrows | src/easysam/validate_schema.py:57-85 | a stream's checks only append |
| Validator.RefErrorsGrow | src/easysam/validate_schema.py:91-134 | a reference loop only appends |
| Validator.FunctionStepGrows | src/easysam/validate_schema.py:90-134 | a function's checks only append |
| Validator.PathStepGrows | src/easysam/validate_schema.py:139-146 | a path's checks only append |
| Validator.ValidationGrows | src/easysam/validate_schema.py:25-33 | the whole validation only appends to the errors it is given |
| CommonDeps.Public | src/easysam/commondep.py:26 | the filter keeps exactly the names that do not start with `_` |
| CommonDeps.DirNamesMember | src/easysam/commondep.py:19-21 | the directory names are exactly the subdirectories of the listing |
| CommonDeps.PyStemsMember | src/easysam/commondep.py:23-24 | the stems are exactly those of the `*.py` entries |
| CommonDeps.CommonsMember | src/easysam/commondep.py:16-26 | `find_commons` is sorted and holds exactly the public subdirectory names and `*.py` stems |
| CommonDeps.FindCommons | src/easysam/commondep.py:16-26 | the loops of `find_commons` compute that list; a missing common directory raises |
| CommonDeps.IsCommonPackage | src/easysam/commondep.py:29-41 | a recognised package is one of the shared modules and holds no dot |
| CommonDeps.CommonPackageOfSegments | src/easysam/commondep.py:29-41 | the result is the second segment iff there are at least two segments, the first is `common` and the second is a shared module; otherwise it is None |
| CommonDeps.NamesImportsMember | src/easysam/commondep.py:52-56 | the names of an `import` statement add exactly their shared packages, without repeats |
| CommonDeps.StmtImportsMember | src/easysam/commondep.py:50-62 | a statement adds exactly its shared packages, without repeats |
| CommonDeps.FileImportsMember | src/easysam/commondep.py:44-65 | a file's imports are exactly the shared packages of its top-level statements, without repeats |
| CommonDeps.NestedIgnored | src/easysam/commondep.py:50-51 | what a compound statement contains does not change a file's imports |
| CommonDeps.CollectNames | src/easysam/commondep.py:52-56 | the loop over one statement's names, taken sorted by name, computes what it adds |
| CommonDeps.CollectImports | src/easysam/commondep.py:48-62 | the loops over a file's top-level statements compute its imports |
| CommonDeps.Fresh | src/easysam/commondep.py:66 | the new imports are exactly those not yet seen |
| CommonDeps.Shrinks | src/easysam/commondep.py:68-70 | adding new shared names leaves fewer to find, so the recursion ends |
| CommonDeps.Monotone | src/easysam/commondep.py:68-70 | a larger seen set leaves no more to find |
| CommonDeps.ScanFile | src/easysam/commondep.py:44-82 | the seen set only grows, and only by shared module names |
| CommonDeps.ScanNew | src/easysam/commondep.py:73-82 | scanning the new imports only grows the set, by shared names |
| CommonDeps.ScanModule | src/easysam/commondep.py:74-82 | scanning one shared module, directory or file, only grows the set |
| CommonDeps.ScanDir | src/easysam/commondep.py:85-92 | `find_common_deps` only grows the set, by shared names |
| CommonDeps.ScanFiles | src/easysam/commondep.py:88-92 | scanning files in turn only grows the set |
| CommonDeps.FileImportsShared | src/easysam/commondep.py:44-65 | a file's imports have no repeats and are all shared modules |
| CommonDeps.FindCommonDepsInFile | src/easysam/commondep.py:44-82 | `find_common_deps_in_file` computes the file scan |
| CommonDeps.FindNewDeps | src/easysam/commondep.py:73-82 | its loop over the new imports, in sorted order |
| CommonDeps.FindModuleDeps | src/easysam/commondep.py:74-82 | the loop body for one import: a directory module, or a single file |
| CommonDeps.FindCommonDeps | src/easysam/commondep.py:85-92 | `find_common_deps` computes the scan of every source below the target, in path order |
| CommonDeps.CommonDep | src/easysam/commondep.py:6-13 | `commondep` returns a strictly sorted list holding exactly the closure |
| CommonDeps.ScanFileCovers | src/easysam/commondep.py:44-82 | every shared module a scanned file imports ends up in the set |
| CommonDeps.ScanFilesCovers | src/easysam/commondep.py:88-92 | every file scanned in turn has its imports in the set |
| CommonDeps.ScanDirCovers | src/easysam/commondep.py:85-92 | every source file below the target has its imports in the set |
| CommonDeps.ScanNewCovers | src/easysam/commondep.py:73-82 | every new import is scanned in turn |
| CommonDeps.Transitive | src/easysam/commondep.py:66-82 | every new shared module a file imports is itself scanned, which makes the closure transitive |
| CommonDeps.FileScannedOnce | src/easysam/commondep.py:68-82 | the modules a file's scan enters, in order, hold no name twice and are exactly the names that scan adds to `common_imports`, none of them in it before |
| CommonDeps.NewScannedOnce | src/easysam/commondep.py:73-82 | the loop over new imports, already added to the set, scans each of them once, and what their scans add, once each |
| CommonDeps.ModuleScannedOnce | src/easysam/commondep.py:74-82 | one new import, as a directory or a `.py` file, scans each module it adds once |
| CommonDeps.DirScannedOnce | src/easysam/commondep.py:85-90 | `find_common_deps` scans each module it adds once |
| CommonDeps.FilesScannedOnce | src/easysam/commondep.py:89-90 | the files of a target, in turn, scan each module they add once |
| CommonDeps.ClosureScannedOnce | src/easysam/commondep.py:85-92 | starting from an empty `common_imports`, every module of the closure is scanned exactly once |
| CommonDeps.PlainImport | src/easysam/commondep.py:32-33 | a dot-free import name is never a shared module |
| CommonDeps.SharedImport | src/easysam/commondep.py:29-41 | `common.<x>` names the shared module `x` |
| CommonDeps.CommonUtilsImport | example/myapp/backend/function/myfunction/index.py:3 | `common.utils` names `utils` |
| CommonDeps.CommonAossImport | example/aoss/backend/function/indexfunc/index.py:1 | `common.aoss` names `aoss` |
| CommonDeps.CommonDynamoImport | src/easysam/commondep.py:29-41 | `common.dynamo_access`, the import of a hypothetical handler, names `dynamo_access` when `dynamo_access` is a shared module |
| CommonDeps.RuntimeImport | example/prismarine/common/dynamo_access.py:3 | `prismarine.runtime.dynamo_access` is not a shared module |
| CommonDeps.JoinSegment | src/easysam/commondep.py:74-79 | a single segment extends a path |
| CommonDeps.SingleModuleListing | src/easysam/commondep.py:16-26 | one `*.py` entry offers its stem, unless the stem is private |
| CommonDeps.UtilsListing | example/myapp/backend/function/myfunction/index.py:3 | a common directory holding only `utils.py` offers `utils` |
| CommonDeps.AossListing | example/aoss/common/aoss.py:1-4 | a common directory holding only `aoss.py` offers `aoss` |
| CommonDeps.SingleSourceScan | src/easysam/commondep.py:85-92 | the scan of a target holding one source file is the scan of that file |
| CommonDeps.ImportOne | src/easysam/commondep.py:52-56 | an `import` of one name adds that name's package |
| CommonDeps.FileImportsStep | src/easysam/commondep.py:50-62 | the statement loop goes on from one statement to the next |
| CommonDeps.LeafScan | src/easysam/commondep.py:66-82 | a module that imports no shared module leaves the seen set as it was |
| CommonDeps.OneStepScan | src/easysam/commondep.py:66-82 | a file importing one new single-file module scans that module next |
| CommonDeps.MyAppImports | example/myapp/backend/function/myfunction/index.py:1-3 | the `myapp` handler imports `utils` |
| CommonDeps.AossHandlerImports | example/aoss/backend/function/indexfunc/index.py:1 | the aoss index handler imports `aoss` |
| CommonDeps.OpenSearchImport | example/aoss/common/aoss.py:4 | `from opensearchpy import ...` adds nothing |
| CommonDeps.AossModuleImports | example/aoss/common/aoss.py:1-11 | `aoss.py`, with its imports, its constant and its function definition, imports no shared module |
| CommonDeps.ItemsImports | src/easysam/commondep.py:44-65 | the file scan of a hypothetical handler whose one statement imports from `common.dynamo_access` finds `dynamo_access` only |
| CommonDeps.DynamoAccessImports | example/prismarine/common/dynamo_access.py:1-20 | `dynamo_access.py`, with its imports, its class, its module variable and its function, imports `utils` only |
| CommonDeps.UtilsImports | example/prismarine/common/dynamo_access.py:4 | a `utils.py` without shared imports adds nothing |
| CommonDeps.MyAppNeedsUtils | example/myapp/backend/function/myfunction/index.py:3 | the `myapp` function needs exactly `utils` |
| CommonDeps.AossNeedsAoss | example/aoss/backend/function/indexfunc/index.py:1 | the aoss index function needs exactly `aoss` |
| CommonDeps.DynamoAccessNeedsUtils | example/prismarine/common/dynamo_access.py:1-4 | a handler importing `common.dynamo_access` needs both `dynamo_access` and `utils` |
| Legacy.Pieces | src/easysam/generate.py:21 | cutting at line boundaries gives at least one piece, none holding a line break |
| Legacy.SplitLines | src/easysam/generate.py:21 | `splitlines` gives lines without line breaks |
| Legacy.LStripped | src/easysam/generate.py:21 | `lstrip` leaves no leading white space, and is empty iff the text is all white space |
| Legacy.RStripped | src/easysam/generate.py:21 | `rstrip` is a prefix without trailing white space, empty iff the text is all white space |
| Legacy.KeptInked | src/easysam/generate.py:21 | a line is kept iff it holds a character that is not white space |
| Legacy.KeptLines | src/easysam/generate.py:21 | the kept lines are exactly the non-blank input lines |
| Legacy.PiecesPlain | src/easysam/generate.py:21 | a text without line breaks is one line |
| Legacy.PiecesCons | src/easysam/generate.py:21 | a break-free head followed by `\n` is cut off as the first line |
| Legacy.PiecesJoin | src/easysam/generate.py:21 | joining break-free lines by `\n` and cutting again gives back the lines |
| Legacy.LinesOfSanitized | src/easysam/generate.py:21 | the written text's lines are exactly the non-blank input lines, in order |
| Legacy.KeptLinesTwice | src/easysam/generate.py:21 | filtering the lines twice gives the same lines as once |
| Legacy.SanitizedIdempotent | src/easysam/generate.py:21 | cleaning already cleaned text changes nothing |
| Legacy.JoinLast | src/easysam/generate.py:21 | a `\n`-join ends with the last character of its last line |
| Legacy.SanitizedEnds | src/easysam/generate.py:21 | the written text is empty iff no line is kept, and it never ends in a line break |
| Legacy.Hoisted | src/easysam/generate.py:97-100 | the stored integration names the function, loses `path`, keeps every other key, and is given no `integration` key |
| Legacy.Registered | src/easysam/generate.py:76-82 | the function is registered with its resources and its `uri`, and no other section changes |
| Legacy.LambdaWithoutName | src/easysam/generate.py:66-69 | a lambda without a name raises, with only the `functions` section ensured |
| Legacy.LambdaDuplicate | src/easysam/generate.py:71-74 | a duplicate name raises and leaves the existing function untouched |
| Legacy.IntegrationKeepsOthers | src/easysam/generate.py:85-100 | the integration step touches no section but `paths`, even when it raises |
| Legacy.LambdaRegistered | src/easysam/generate.py:76-100 | a new name is registered, and stays registered when the integration then raises |
| Legacy.HoistedWithoutKind | src/easysam/generate.py:97-100 | the legacy integration differs from the loader's only in lacking `integration: lambda` |
| Legacy.IntegrationStored | src/easysam/generate.py:85-100 | a stored integration sits at `paths[path]`, and no other section changes |
| Legacy.IntegrationDuplicatePath | src/easysam/generate.py:94-95 | a taken path raises with the graph, registered function included, as it was |
| Legacy.MergeTablesPrefix | src/easysam/generate.py:107-112 | new tables at the front are merged in order before the rest |
| Legacy.MergeTablesDone | src/easysam/generate.py:107-112 | with no taken table, all of the fragment's tables are appended in order |
| Legacy.MergeTablesStops | src/easysam/generate.py:107-112 | the first taken table raises, with the tables before it already merged |
| Legacy.PreprocessTables | src/easysam/generate.py:103-112 | the loop of the legacy `preprocess_tables` computes that merge |
| Legacy.UnexpectedSectionsMergeNothing | src/easysam/generate.py:120-121 | a fragment with an unexpected key raises before anything is merged |
| Legacy.UnreadableFragmentFails | src/easysam/generate.py:117 | an unreadable fragment raises out of the legacy path, while the loader only records it |
| Legacy.MissingImportDirRaises | src/easysam/generate.py:140-141 | a missing import directory raises, while the loader records it and goes on |
| Legacy.PreprocessSections | src/easysam/generate.py:123-127 | the `lambda` and then the `tables` section are merged |
| Legacy.PreprocessFile | src/easysam/generate.py:115-132 | the legacy `preprocess_file`, with nested imports relative to the fragment's directory |
| Legacy.PreprocessFileImports | src/easysam/generate.py:129-132 | once the sections are merged, the legacy walk of a fragment's truthy `import` list, relative to its directory; a warning from the merge is passed on unchanged |
| Legacy.PreprocessImportList | src/easysam/generate.py:129-132 | the loop over a fragment's own imports, stopping at the first raise |
| Legacy.PreprocessEntries | src/easysam/generate.py:143-144 | the fragments of one directory, in the order found |
| Legacy.PreprocessImports | src/easysam/generate.py:135-144 | the legacy `preprocess_imports` |
| Legacy.SortNamedSections | src/easysam/generate.py:157-159 | the loop over the five sections |
| Legacy.PreprocessResources | src/easysam/generate.py:147-161 | imports when `import` is present, then the five sections sorted |
| Legacy.Labels | src/easysam/generate.py:157 | the section names as graph keys, one each, in order |
| Legacy.SortSectionsDone | src/easysam/generate.py:157-159 | sorting never raises a warning, and succeeds exactly when every present section can be sorted |
| Legacy.SortSectionsSorted | src/easysam/generate.py:157-159 | keys stay in place, unlisted sections stay as they were, and each listed section is re-keyed in key order as a permutation |
| Legacy.SortSectionsSortedAt | src/easysam/generate.py:157-159 | one listed section ends up sorted with the same items |
| Legacy.SortedSectionsDistinct | src/easysam/generate.py:157 | the five sections are distinct |
| Legacy.OrderableSameKeys | src/easysam/generate.py:161 | whether the top-level sort raises depends on the keys alone |
| Legacy.SortStepSorted | src/easysam/generate.py:157-161 | the sorting half succeeds exactly when the five sections and the top-level keys can be sorted, and then it sorts exactly the five sections |
| Legacy.ExtendsTrans | src/easysam/generate.py:115-144 | only adding is transitive |
| Legacy.OnlyAddsTrans | src/easysam/generate.py:115-144 | an only-adding step after an extension only adds |
| Legacy.EnsureSectionExtends | src/easysam/generate.py:63-64 | creating a missing merged section only adds |
| Legacy.StoreNewExtends | src/easysam/generate.py:82 | storing under a new key only adds |
| Legacy.IntegrationOnlyAdds | src/easysam/generate.py:85-100 | the integration step only adds, even when it raises |
| Legacy.RegisteredExtends | src/easysam/generate.py:82 | registering a new name replaces nothing |
| Legacy.LambdaOnlyAdds | src/easysam/generate.py:62-100 | the legacy `preprocess_lambda` only adds, even when it raises |
| Legacy.MergeTablesKeeps | src/easysam/generate.py:107-112 | every existing table keeps its value |
| Legacy.TablesOnlyAdds | src/easysam/generate.py:103-112 | the legacy `preprocess_tables` only adds, even when it raises |
| Legacy.SectionsOnlyAdds | src/easysam/generate.py:123-127 | merging a fragment's sections only adds |
| Legacy.FileOnlyAdds | src/easysam/generate.py:115-132 | a fragment and all it imports never replace a function, path or table, and the graph left by a raise satisfies the same |
| Legacy.AfterSectionsOnlyAdds | src/easysam/generate.py:129-132 | the nested imports after the merge only add |
| Legacy.ImportListOnlyAdds | src/easysam/generate.py:129-132 | a fragment's own imports only add |
| Legacy.EntriesOnlyAdds | src/easysam/generate.py:143-144 | the fragments of one directory only add |
| Legacy.ImportDirsOnlyAdds | src/easysam/generate.py:135-144 | all import directories only add, and so does the part imported before a raise |

## Left out

- YAML parsing and file reading are left out. Fragments and `resources.yaml` are already-parsed values in `FileSystem`; a file that cannot be read or parsed is absent. An empty YAML file is the document `Null`: as a fragment it gives `Crash`, because `entry_data.keys()` at load.py:229 is outside the `try` (`Importer.NonMappingFragment`); as `resources.yaml` it gives one error and an empty graph, as load.py:54-59 does (`Loader.NonMappingResources`).
- `benedict` internals are left out. Where the model does follow a keypath assignment, in `Conditionals.Assign` (the `resolved[...]` of `resolve_conditionals`) and in `Overrides.ApplyOverrides`, it is `Values.SetPath` on `.`-split keys, with intermediate non-dicts replaced by `{}`.
- Dotted string keys are outside the model everywhere else. `benedict(...)` in `load_resources` refuses a string key holding `.`, which the source would report as a load error with an empty graph; `Loader.LoadResources` instead reads such a key as a key path. The section lookups and assignments of `preprocess_lambda` and `preprocess_tables` go through `benedict` views as key paths, while `Importer` stores and looks up a lambda, path or table name as one flat key, so a dotted name such as the path `/v1.0/items` is stored differently from the source.
- Glob order: the order in which the operating system lists the fragment files of a directory is a parameter of the file system. The source does not sort `import_dir.glob(...)`, so the model does not either.
- `Path.resolve` and symbolic links are left out; paths are normalised segment lists.
- Python's recursion limit is modelled as a `budget`, and running out of it gives `Crash`; the exact limit is not modelled. In the legacy `preprocess_file` nothing catches the `RecursionError`, so the source fails too. In the loader's `preprocess_file` the recursive call is outside the `try`, but the deepest call of each level, `yaml.safe_load`, is inside it; there the `RecursionError` is most likely caught and recorded as a load error, and the enclosing levels return normally. Which of these happens depends on where Python raises, so the model does not promise the loader's outcome on a self-import.
- Exceptions are not told apart. Every exception the source does not catch (`KeyError`, `TypeError`, `AttributeError`, `RecursionError`) becomes one `Crash` outcome. In the legacy preprocessor, `UserWarning` is the separate `Warned` case.
- Python's `1 == True` and `hash(1) == hash(True)` are left out: `Int(1)` and `Bool(true)` are different keys.
- Ordering: only strings are ordered. A dict whose keys are not all strings, or a list whose elements are not all strings, can be sorted only when it has fewer than two items; otherwise sorting gives `Crash`. Mixed numeric and other orderable values are not modelled.
- Aliasing is left out. The source mutates `lambda_def`'s `resources` and `integration` dicts in place and then stores them in the graph; the model stores copies. This is observable only through YAML anchors, which are left out with YAML.
- The prismarine integration is left out, because it calls the foreign `prismarine` library and probes the file system. This covers `preprocess_prismarine`, `prismarine_dynamo_tables`, `validate_prismarine` and the `prismarine` step of both `preprocess_resources` variants.
- The Draft7 JSON-schema step of `validate` is left out, because it is a foreign library working on a schema file that is not part of this model. `validate_queues` is left out because it does nothing.
- `check_lambda_layer` is left out because it only probes the file system for `thirdparty`. `Loader.LoadResources` therefore ends after validation, without the `enable_lambda_layer` key.
- `generate()` and its Jinja rendering are left out, as is the I/O of `write_result`: `mkdir` and `write_text`. Only its text filter is modelled.
- commondep's `ast` parsing and globbing are left out. A source file is its list of top-level statements: `import` with its names, `from ... import` with its module, and compound statements. A directory is its listing, and the sources below a target are given in path order.
- Logging is left out throughout, as are the texts of the error messages. Errors are a datatype carrying what each message names.
- Values.ConstructConditional: `key`, and `environment` and `region` when given, must be strings; the source accepts any YAML value there, and a non-string one only fails later, in `check_condition`.
- Loader.LoadResources: a `resources.yaml` that parses to something other than a mapping is treated as unreadable: one error and an empty graph. For `None`, a number or a boolean, `benedict(...)` raises inside the `try` of load.py:54-59, which gives the same outcome. Two documents are left out: a list of two-element lists, which `dict()` accepts as a mapping, so the source loads it; and a string, which `benedict` tries to decode as serialised data. The model reports both as unreadable.
