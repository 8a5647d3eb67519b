# ssmple in Dafny

A model of the core of ssmple, a command-line tool that synchronises local
key/value configuration files (Java `.properties` or YAML) with the AWS Systems
Manager parameter store. The model covers:

- the mapping from (path prefix, filename, key) to a remote parameter name;
- the escaping of values the remote store would reject;
- `get`, `put`, `delete` and `clear`, each per file, over an abstract parameter store;
- the batching of deletes into requests of ten names;
- the KMS alias map;
- the serializer registry;
- the command-line parser;
- the command dispatch.

Modules, in dependency order:

| module | file | models |
|---|---|---|
| `Wrappers` | wrappers.dfy | `Option`, for Go's nil pointers, missed map lookups and `error` values |
| `GoStrings` | gostrings.dfy | the parts of Go's `strings` package the tool uses (ASCII) |
| `GoPath` | gopath.dfy | Go's `path.Clean`, `Join`, `Dir` and `Base`, following the lexical rules of Plan 9 ("getting dot-dot right"), and `filepath.Ext` |
| `ParamPath` | parampath.dfy | `buildParameterPath` |
| `ValueCodec` | codec.dfy | `escapeValueBeforePut` and `unescapeValueAfterGet` |
| `Kms` | kms.dfy | `KmsMap`, `deref`, `aliasFor` and `buildAliasList` |
| `Serials` | serial.dfy | the `serials` registry, `GetSerialFor`, `RegisterSerial` and `init` |
| `Remote` | remote.dfy | the parameter store as a class |
| `FileStores` | filestore.dfy | the local store of one file: its dictionary, and the dictionary last saved |
| `Args` | args.dfy | `parseArgs`: the option loop with its hand-advanced index, then the checks after it |
| `SsmOps` | ssmops.dfy | `findAllParametersForPath`, `getParamsPerPath`, `getParamsPerFile`, `putParamsPerFile`, `clearParamsPerFile` and `deleteParamsPerFile` |
| `Command` | command.dfy | `doGet`, `doPut`, `doDelete` and `doClear`, plus the switch of `execCmd` |

The remote parameter store (`Remote.ParameterStore`) has three kinds of state:

- **Parameters.** A map from name to (type, value, key id).
- **Request log.** Every `PutParameter` and `DeleteParameters` request it receives, in order.
- **Fixed behaviour.** Three things do not change during a run:
  - the set of names it refuses;
  - its answer to a `GetParametersByPath` listing: a sequence of pages and an optional error;
  - its answer to `DescribeParameters`.

A request is refused in three cases:
- it names a refused parameter;
- it is a put without the overwrite flag on a name that already exists;
- it is a delete of zero or more than ten names.

Pure logic is written as functions. Each loop of the Go code is a method with its loop. The methods are proved against reference functions:
- **Plans.** A plan is the sequence of requests an operation issues. `Remote.Run` carries a plan out up to its first failure.
- **Write lists.** A write list is the sequence of dictionary writes a get makes. `SsmOps.Overwrite` applies one.

Go's map iteration order is unspecified. Each loop over a map therefore picks its next key with `:|`, and returns the order it visited as a ghost `order`. The contracts hold for every such order.

`log.Fatal`, `log.Fatalf` and `os.Exit` are distinct results:
- `Command.CmdResult.Fatal` carries the message;
- `Args.ParseOutcome` is `Exit(code)`, `Fatal(msg)` or `IndexOutOfRange(i)`, the last for the runtime panic when an option's value is missing.

## Model

| member | source | states |
|---|---|---|
| GoStrings.TrimPrefix | ssmops.go:102 | with the prefix present, prefix + result == input; otherwise the input is unchanged |
| GoStrings.LastIndex | ssmops.go:151 | -1 or the index of an occurrence of the character, with none after it |
| GoStrings.LastIndexAbsent | ssmops.go:151 | LastIndex is -1 exactly when the character does not occur |
| GoStrings.ToLower | main.go:243 | same length; every character lowered (ASCII letters) |
| GoPath.Split | ssmops.go:145 | never empty; no element holds a '/'; joining the elements with '/' gives the input back |
| GoPath.SplitJoin | ssmops.go:145 | splitting undoes joining for slash-free elements |
| GoPath.Clean | ssmops.go:145-157 | the result is clean: "." or a list of elements with no "", "." or slash in any, `..` only as a leading run and never in a rooted path; it is rooted exactly when the input is |
| GoPath.CleanRender | ssmops.go:145-157 | cleaning a clean path gives it back |
| GoPath.CleanIdempotent | ssmops.go:145-157 | Clean(Clean(p)) == Clean(p) |
| GoPath.CleanAppend | ssmops.go:155-157 | cleaning p + "/" + k for a normal element k appends k to Clean(p) |
| GoPath.CleanTrailingSlash | ssmops.go:146 | a trailing slash does not change the cleaned path |
| GoPath.Join | ssmops.go:145 | path.Join: "" exactly when every element is empty, and otherwise a clean path |
| GoPath.Dir | ssmops.go:146 | path.Dir: a clean path, rooted exactly when its argument is |
| GoPath.Base | ssmops.go:147 | path.Base: never empty, and either "/" or free of slashes |
| GoPath.FirstNonEmpty | ssmops.go:145 | the index past the leading empty elements that Join skips |
| GoPath.DirBaseRender | ssmops.go:146-147 | Dir of a clean path is the path without its last element, and Base is that last element |
| GoPath.Ext | serial.go:79 | the suffix from the last '.' of the final element: it starts with '.', holds no other '.' and no '/', and is "" exactly when the final element has no '.' |
| ParamPath.BuildParameterPath | ssmops.go:134-159 | every parameter name built is a clean path: no empty or "." element, no trailing slash |
| ParamPath.StripExt | ssmops.go:149-152 | text is removed only from the last '.' on, and that '.' is the only one removed; a name without '.' is unchanged |
| ParamPath.FileElement | ssmops.go:140-143 | an empty filename becomes "$", and any other filename is kept |
| ParamPath.StripOneExt | ssmops.go:149-152 | stem + "." + ext loses exactly "." + ext when ext has no '.' (one extension only) |
| ParamPath.BuildNoKey | ssmops.go:145-157 | with no key, the name is Clean(Dir(base) + "/" + StripExt(Base(base))), where base joins the raw prefix and the file element |
| ParamPath.BuildWithKey | ssmops.go:145-155 | with a key, the key is one more element before cleaning |
| ParamPath.KeyIsLastElement | ssmops.go:154-158 | a normal key becomes the final element appended to the name built with no key |
| ParamPath.ShapeNoKey | ssmops.go:145-157 | when prefix and file element clean to dirs + [last], the name with no key is dirs + [StripExt(last)] |
| ParamPath.BuildShape | ssmops.go:145-158 | the same with a normal key, which becomes the final element |
| ParamPath.KeyRoundTrip | ssmops.go:98-102 | a key's name starts with its file's path and "/", and trimming those gives the key back (where get recovers the key of a name put builds) |
| ParamPath.AbsolutePrefix | ssmops.go:134-158 | an absolute prefix gives a name that starts with "/", is clean and, beyond the root, has no "", "." or ".." element (so no "//" and no trailing "/") |
| ParamPath.TestVectors | ssmops_test.go:28-44 | all eight cases of the repository's buildParameterPath test give the expected names |
| ParamPath.LiteralPaths | ssmops_test.go:29-32 | the element lists of TestVectors and EdgeCases read as "/alpha/beta", "one/file.properties", "one/file", "alpha" and "/alpha" |
| ParamPath.EdgeCases | ssmops.go:134-158 | a relative prefix stays relative (the "/"-prefixed `dir` is never used); an empty filename becomes "$"; "f.tar.gz" loses only ".gz" |
| ValueCodec.Escape | ssmops.go:70-80 | a value with a non-space rune is unchanged; any other value (including "") gains one space |
| ValueCodec.Unescape | ssmops.go:55-68 | "" and values with a non-space rune are unchanged; a value of spaces only loses one |
| ValueCodec.EscapeValueBeforePut | ssmops.go:71-80 | the early-exit scan returns Escape(value) |
| ValueCodec.UnescapeValueAfterGet | ssmops.go:56-68 | the early-exit scan returns Unescape(value) |
| ValueCodec.EscapeNonEmpty | ssmops.go:70-80 | an escaped value is never "" |
| ValueCodec.UnescapeEscape | ssmops.go:55-80 | Unescape(Escape(v)) == v for every v |
| ValueCodec.EscapeUnescape | ssmops.go:55-80 | Escape(Unescape(w)) == w for every non-empty w |
| ValueCodec.EscapeUnescapeEmpty | ssmops.go:57-59 | the round trip of the empty value fails: it comes back as " " |
| Kms.Qualify | kms.go:32-36 | "alias/" is put in front unless already there; the result always starts with "alias/" |
| Kms.KmsMap.Deref | kms.go:29-43 | the key id mapped for the qualified alias; on a miss, the qualified alias itself, which starts with "alias/" |
| Kms.KmsMap.AliasFor | kms.go:45-51 | the alias mapped for the key id; on a miss, the key id unchanged |
| Kms.DerefQualified | kms.go:32-42 | deref(x) == deref("alias/" + x) for x not starting with "alias/" |
| Kms.BuildAliasList | kms.go:53-67 | on a listing error, both maps are unchanged and the error is returned; otherwise every entry is recorded in listing order |
| Kms.RecordLastWins | kms.go:59-63 | in both maps, the last complete entry for an alias (or key id) wins, and unmentioned entries keep their value or their absence |
| Kms.RecordIgnoresIncomplete | kms.go:60 | entries missing an alias name or a target key id have no effect |
| Kms.DerefAliasFor | kms.go:29-51 | with distinct, fully qualified alias names, deref(aliasFor(k)) == k for every listed target k |
| Serials.Registry.constructor | serial.go:106-108 | init: the registry is exactly { "" -> PropsSerial } |
| Serials.Registry.GetSerialFor | serial.go:78-85 | the serial of Ext(path) when registered, otherwise the "" entry, which is present in a valid registry |
| Serials.Registry.RegisterSerial | serial.go:91-103 | the loop ends in the state and error of Register, the reference function; the default entry survives |
| Serials.RegisterSucceeds | serial.go:91-102 | a call succeeds exactly when every extension starts with '.', none is registered and none repeats within the call |
| Serials.RegisterFrame | serial.go:91-102 | no entry is replaced or removed; new entries are named extensions bound to the new serial |
| Serials.RegisterKeepsPrefix | serial.go:91-102 | no rollback: when extension i is the first to fail, exactly the extensions before it are added and an error is returned |
| Serials.RegisterKeepsDefault | serial.go:93-95 | the "" entry can never be replaced, because "" lacks a leading '.' |
| Serials.DottedDirectoryUsesDefault | serial.go:78-85 | "a.d/file" has no extension and gets the default serial |
| Serials.StartupRegistry | yaml.go:66-68 | registering YAML for ".yml" and ".yaml" on top of init succeeds, giving three entries |
| Serials.StartupLookup | serial.go:78-85 | after startup, ".yml" and ".yaml" get YAML and every other extension the default |
| Remote.ParameterStore.Send | ssmops.go:202 | the request is logged; it succeeds exactly when the store accepts it, and the parameters then change as the request says |
| Remote.RunAppend | ssmops.go:212-216 | running two plans in sequence: the second runs only when the first ended without error |
| Remote.RunStopsAtFirstFailure | ssmops.go:252-255 | a plan sends all its requests, or exactly those up to its first failing step; the store is left as the steps before that step left it |
| Remote.RunSendsDeletesOnly | ssmops.go:300-302 | a plan holding no put sends no put |
| FileStores.FileStore.constructor | filestore.go:53-62 | a store starts with its dictionary and nothing saved |
| FileStores.FileStore.Save | filestore.go:48-51 | the dictionary is saved unless the write fails, in which case the error is returned and what was saved is unchanged |
| Args.NormalizeRewrites | main.go:90-94 | "--no-x" is read as "--x", negated; any other argument is read unchanged |
| Args.Switch | main.go:96-132 | each case of the switch updates its own variable, as Apply states |
| Args.ScanStep | main.go:89-133 | one turn of the loop: an unknown option is fatal; a value-taking option as the last argument reads past the end; otherwise the loop goes on two or one arguments later |
| Args.OptionTurn | main.go:89-133 | the body of the loop with its manual `i++`: the index advances, and the result is that of RunScan |
| Args.OptionLoop | main.go:89-133 | the loop from argument 1 gives RunScan(args, 1, Initial) |
| Args.ParseArgs | main.go:68-171 | parseArgs returns Parse(args): the loop, then help, a missing command, no prefix, no filename |
| Args.FoldSummary | main.go:96-128 | applying the options in turn gives Summary: single values and switches settled by their last occurrence, -f and -s collected in order, the last operation word as the command |
| Args.ScanTokens | main.go:89-133 | the loop reads the arguments as tokens, then folds them, stopping at a bad option or a missing value |
| Args.MissingValueAtEnd | main.go:100-117 | a value can only be missing for the last argument |
| Args.ParseByTokens | main.go:89-156 | Parse stated over the options given: bad option fatal; missing value at index len(args); else Exit(0) for help (even with no command), Exit(1) with no command, then fatal with no prefix, then fatal with no filename, else the Summary preferences |
| SsmOps.FlattenMembers | ssmops.go:41-46 | a parameter is accumulated exactly when it is on some page |
| SsmOps.FindAllParametersForPath | ssmops.go:27-53 | the pages' parameters in page order, with the paging error |
| SsmOps.OverwriteLastWins | ssmops.go:103 | after a list of dictionary writes, a key holds its last write, or keeps its old entry (or its absence) when never written |
| SsmOps.GetParam | ssmops.go:90-124 | one parameter's writes (value, then sidecar) and its describe error; the saved file is untouched |
| SsmOps.GetParamsPerPath | ssmops.go:82-127 | the dictionary receives PathResult's writes in order; the error is the listing's or the first describe error |
| SsmOps.StoreKeyName | ssmops.go:98-102 | a kept parameter's name is the path, "/" and its store key |
| SsmOps.PathWritesSkipped | ssmops.go:93-100 | a parameter writes nothing exactly when it is a list, a skipped secure string, or not directly under the path |
| SsmOps.PathWritesFrom | ssmops.go:90-124 | every write comes from a kept listed parameter: its unescaped value under its key, or its alias under the sidecar key |
| SsmOps.PathWritesAll | ssmops.go:90-124 | without an error, every kept parameter's value and every sidecar a description yields is written |
| SsmOps.PathWritesError | ssmops.go:114-117 | a describe error stops the loop: the failing parameter's value is written, but not its sidecar and nothing after it |
| SsmOps.GetParamsPerFile | ssmops.go:161-176 | the store ends as GetFile says: all prefixes in order, then a save |
| SsmOps.GetFileSaves | ssmops.go:171-175 | the file is written only when no error occurred and the dictionary is non-empty, and then it holds the whole dictionary |
| SsmOps.LaterPrefixWins | ssmops.go:164-169 | for a key the last prefix's path writes, that value wins; other keys keep what earlier prefixes left |
| SsmOps.PlanPutSends | ssmops.go:219-250 | sidecar keys are never put, and keys with a sidecar are skipped under NoPutSecureString; secure iff sidecar or KeyIdPutAll (which wins), with deref of the key id; escaped non-empty value; overwrite flag |
| SsmOps.PutThenGet | ssmops.go:98-103 | a key that put sends, when listed back under the same prefix and file, is stored under the same key with the same value, unless get skips secure strings |
| SsmOps.PutValue | ssmops.go:220-255 | one key of the put loop: skip, or send its request |
| SsmOps.PutKey | ssmops.go:219-256 | the log and parameters after one more key, as PutRun says |
| SsmOps.PutLoop | ssmops.go:219-258 | the keys in a map order; all of them unless a put failed, which ends the loop |
| SsmOps.PutRunSendsPlanned | ssmops.go:219-255 | a put loop that ended without error sent the planned request of every key it visited |
| SsmOps.FileRunSendsPlanned | ssmops.go:211-259 | a putParamsPerFile that ended without error sent the planned request of every key of the store, with or without clear-on-put |
| SsmOps.FileRunSteps | ssmops.go:212-216 | putParamsPerFile is the clear's plan followed by the puts' plan |
| SsmOps.PutParamsPerFile | ssmops.go:211-259 | clear first under ClearOnPut (its error aborts), then the put loop; log, parameters and error as FileRun says |
| SsmOps.ChunkSize | ssmops.go:192-200 | every batch but the last holds ten names; the last holds what remains |
| SsmOps.SendBatch | ssmops.go:201-205 | an empty batch sends nothing |
| SsmOps.SendNextBatch | ssmops.go:194-205 | batch b slices names[10b:10(b+1)], or names[10b:] for the last |
| SsmOps.SendBatches | ssmops.go:192-206 | the batching loop is the plan BatchSteps(names, count), stopping at the first failed request |
| SsmOps.Names | ssmops.go:184-190 | one name per listed parameter, in listing order |
| SsmOps.ListNames | ssmops.go:184-190 | the slice filled by index holds Names(params) |
| SsmOps.ClearPath | ssmops.go:179-208 | a failed listing sends nothing; otherwise the listed names are deleted in batches |
| SsmOps.ClearParamsPerFile | ssmops.go:178-209 | log, parameters and error as ClearRun says |
| SsmOps.BatchStepsCover | ssmops.go:194-200 | whatever the count, the batches sent concatenate to all of `names`, in order |
| SsmOps.BatchStepsSized | ssmops.go:192-200 | when the count is the number of names, every request holds one to ten names |
| SsmOps.ClearSendsListed | ssmops.go:184-206 | clear deletes every listed name exactly once, in listing order, in requests of one to ten names |
| SsmOps.KeyNameList | ssmops.go:262-266 | one candidate name per store key, in a map order visiting every key once, sidecar keys included |
| SsmOps.AllNames | ssmops.go:274-277 | the listed names, in order |
| SsmOps.Intersect | ssmops.go:279-287 | the kept names are candidates that are also listed |
| SsmOps.IntersectKeeps | ssmops.go:279-287 | every listed candidate is kept |
| SsmOps.IntersectNone | ssmops.go:279-287 | with no candidate listed, nothing is kept |
| SsmOps.ToDelete | ssmops.go:279-287 | the nested loop with `break` computes Intersect(names, allNames) |
| SsmOps.DeletePath | ssmops.go:268-306 | as written: the number of batches counts the listed candidates, but the batches slice all the candidates |
| SsmOps.DeleteParamsPerFile | ssmops.go:261-307 | as written: log, parameters and error of ListedDeleteSteps over the candidate names of every key |
| SsmOps.ListedDeleteStepsDeletesOnly | ssmops.go:289-304 | as written, deleteParamsPerFile sends delete requests only |
| SsmOps.DeleteSendsAllCandidates | ssmops.go:289-304 | as written: the batches sent concatenate to every candidate, listed or not |
| SsmOps.DeleteOversizedBatch | ssmops.go:289-304 | as written: eleven unlisted candidates go out as one request of eleven names, which the store refuses |
| SsmOps.DeletePathCorrected | ssmops.go:268-306 | corrected: the listed candidates are batched |
| SsmOps.DeleteParamsPerFileCorrected | ssmops.go:261-307 | corrected: log, parameters and error of the listed candidates' batches |
| SsmOps.DeleteSendsListedCandidates | ssmops.go:279-304 | corrected: exactly the listed candidates are deleted, in candidate order, in requests of one to ten names |
| Command.GetAllFrame | command.go:60-64 | get changes only the stores it names |
| Command.GetStep | command.go:61 | getParamsPerFile changes its own store and no other |
| Command.DoGet | command.go:54-65 | a directory error is fatal before any file is read; else the files are read in declared order, each with all prefixes, and the first error is fatal and touches no later file |
| Command.PutStep | command.go:73-77 | one file of doPut's loop, extending PutAll by that file; its keys are visited once each, and all of them unless the file failed |
| Command.PutFiles | command.go:72-77 | files in declared order with the one prefix; the first error is fatal and no later file is visited; every key of every file visited is put, except in the file that failed |
| Command.DoPut | command.go:67-78 | not exactly one prefix: fatal before any request; otherwise as PutFiles |
| Command.PutAllSendsPlanned | command.go:72-77 | a run that got through every file sent the planned request of every key of every file |
| Command.PutCompletedSendsEveryKey | command.go:67-78 | when doPut completes, the request putParamsPerFile plans for each key of each file is in the log |
| Command.ClearStep | command.go:95-97 | one file of doClear's loop, its error ignored |
| Command.ClearFiles | command.go:95-97 | every file is cleared in turn, whatever the errors |
| Command.DoClear | command.go:90-98 | not exactly one prefix: fatal before any request; otherwise every file is cleared and the command completes |
| Command.ClearSendsNoPut | command.go:90-98 | doClear sends delete requests only |
| Command.DeleteStep | command.go:85-87 | one file of doDelete's loop, through deleteParamsPerFile as written, its error ignored |
| Command.DeleteFiles | command.go:85-87 | every file goes through deleteParamsPerFile as written, in turn, whatever the errors |
| Command.DoDelete | command.go:80-88 | not exactly one prefix: fatal before any request; otherwise every file goes through deleteParamsPerFile as written, and the command completes |
| Command.DeleteSendsNoPut | command.go:80-88 | doDelete, as written, sends delete requests only |
| Command.CommandOf | main.go:243-259 | the switch knows exactly "get", "put", "delete" and "clear", in lower case |
| Command.CommandOfIgnoresCase | main.go:243 | the command name is matched without regard to case |
| Command.CommandContext | main.go:233-257 | aliases are listed only for get without NoStoreSecureString and for put without NoPutSecureString; a listing error is ignored and leaves the map empty |
| Command.ExecRemote | main.go:249-259 | put, delete and clear change the parameter store only, as PutDone, DeleteDone (deleteParamsPerFile as written) and ClearDone state; an unknown command is fatal and sends nothing |
| Command.ExecCmd | main.go:243-260 | the command's case runs as its Done predicate states (put covering every key of every file unless one fails, delete as written); only get changes local stores; get and unknown commands send nothing |

## Left out

- I/O of every kind is not modelled: reading and writing the configuration files, the AWS SDK, the clock and the network. The parameter store is the abstract `Remote.ParameterStore`. Its listing and describe answers are fixed functions, and its refusals are a fixed set of names.
- `PropsSerial.Load`/`Save` (serial.go:39-71) and the YAML codec (yaml.go) are third-party formats. `Serials.Serial` only names them.
- `FileStore.Load` and the loading of stores in `execCmd` (main.go:224-231) are not modelled: each store is given with its dictionary.
- The file a save writes is modelled as "the dictionary last saved". Whether a save fails is fixed when the store is made.
- `requireDir` (command.go:33-52) is not modelled: `Command.DoGet` takes its outcome as the parameter `dirErr`.
- The ListAliases call is not modelled: `Command.CommandContext` takes its result as a parameter.
- Credential and configuration resolution (main.go:173-218) and `main` are not modelled.
- Args.ParseArgs: `os.Getwd` and `filepath.Abs` are not modelled. The configuration directory is kept as given, and the "Failed to resolve confDir" exit cannot occur.
- `usage` only prints help text, so it is not modelled. Before the fatal error for an unrecognised option, the tool prints that text.
- ParamPath.StripExt: names are ASCII. The Go code indexes a rune array with a byte index (ssmops.go:150-151), which differs only for non-ASCII names.
- GoStrings.ToLower: only ASCII letters are lowered, unlike Go's Unicode `strings.ToLower`.
- Pagination is modelled only as the given sequence of pages.
- Go's map iteration order is modelled by nondeterministic choice. The chosen order is returned as a ghost value, and some contracts speak of it.
- The tool has no concurrency, and no floating point is involved.
- The KeyIdSuffix sidecar value written on get is `aliasFor` of the first KeyId. The describe filter itself (`Name`, `Equals`) belongs to the store and is part of its fixed describe answer.

## Findings

| source | as written | input that shows it | evidently intended | confidence | as-written member | corrected member |
|---|---|---|---|---|---|---|
| ssmops.go:289-304 | `deleteParamsPerFile` computes `toDelete`, the local candidates that exist remotely. It takes the number of batches from `len(toDelete)` but slices the batches from `names`, which holds every local candidate. | A store with eleven keys, none of them listed remotely. Then `toDelete` is empty and there is one batch. That batch is `names[0:]`: one DeleteParameters request of eleven names, over the limit of ten, so the store refuses it. With fewer than eleven such keys, names that do not exist remotely are sent. | Delete exactly the listed candidates, in batches of at most ten, as usage.go:172-173 describes ("delete any SSM parameters ... whose parameter names are present in the file"). | not executed | SsmOps.DeleteParamsPerFile, SsmOps.DeletePath, SsmOps.DeleteSendsAllCandidates, SsmOps.DeleteOversizedBatch | SsmOps.DeleteParamsPerFileCorrected, SsmOps.DeletePathCorrected, SsmOps.DeleteSendsListedCandidates |

`Command.DoDelete`, and through it `Command.ExecCmd`, follow the code as written. The corrected per-file delete is stated beside the as-written one in `SsmOps`.
