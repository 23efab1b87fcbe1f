# rig: the render pipeline, modelled in Dafny

rig renders a Kubernetes-style template: it takes a reference to a template (a local
directory or a git repository URL with an optional revision), merges user-supplied values
(`--value` and `--string-value` overrides) into a value map, renders every template file
with Go's `text/template`, and joins the non-empty documents with `"\n---\n"`. When the
rig file pins a digest, the checked-out templates are hashed first and compared. An older
JavaScript front end picks schema and template paths from small lookup tables keyed by
the input file's base name or by a template kind.

The project models that pipeline as Dafny functions, with the loops of the Go code as
methods proved against them:

- `Reference`, `Context`: turning a parsed URL into scheme, host, owner, repository,
  sub-path and gitref; reading a rig file's `template` section; and the repository and
  template URLs and the `~/.rig/<host>/<owner>/<repo>` cache directories.
- `Overrides`, `BuildValues`: `createValueMap`, the copy of the base map followed by the
  `--value` and then the `--string-value` overrides, wrapped under `"values"`.
- `Engine`: `Render`. Non-ASCII characters are stripped before parsing and `<no value>` is
  removed after execution. Empty-line removal happens only on request. The strict
  `env`/`expandenv` template helpers are modelled too.
- `Fs`: `DirectoryDigest` walks a tree and hashes file contents in walk order. `ReadFiles`
  reads one file or a directory's top-level glob matches.
- `Build`: `FromString`, `FromTemplatesPath` and `FromRigFile`. These cover render each
  file in order, stop at the first failure, keep the non-whitespace outputs, join and trim,
  and the digest check on the remote branch.
- `Template`: the older `pkg/template` reader, its URL builders, `mergeValues` and `Build`.
- `Js`, `BuildConfig`, `BreakoutConfig`, `ValidateConfig`, `GenK8sConfig`, `Constants`,
  `CliConfig`: the JavaScript option builders. `Js` holds the semantics they rely on:
  truthiness, `||`, property lookup through `Object.prototype`, and POSIX `path.basename`.

Everything the pipeline calls but does not implement is passed in as a value (module
`Externals`). `Libraries` holds `url.Parse`, the strvals grammar and type inference,
`text/template` parse and execute, the `emptyLines` regexp, `os.ExpandEnv`, SHA-256 and
the YAML parser. `Machine` holds the working and home directories, the temporary
directory, `os.Stat`, `filepath.Glob`, `ioutil.ReadFile`, the callbacks of
`filepath.Walk` as an event list, and the outcomes of `git.Sync` and `git.Checkout`.
The model assumes nothing about any of them.

## Model

| member | source | states |
|---|---|---|
| Reference.Parse | pkg/context/context.go:41-75 | a parsed reference always has a scheme, a host and a non-empty gitref |
| Reference.ParseOutcome | pkg/context/context.go:47-72 | missing scheme, host or path fail in that order with their own messages; a path with fewer than 3 segments is an invalid repository URL; success exactly otherwise, with owner and repository the segments 1 and 2, the sub-path the rest joined by "/", and the gitref the fragment or "master" |
| Reference.ParseRejoins | pkg/context/context.go:64-72 | the first path segment, owner and repository joined with "/", followed by "/" and the sub-path whenever the path had more than three segments (even when the sub-path is empty, as for `/o/r/`), give back the URL path |
| Reference.Section | pkg/context/context.go:84-95 | a file with no `template` map is malformed; a section with none of path, url and gitref non-empty is refused; otherwise the section is returned |
| Context.FromURL | pkg/context/context.go:41-75 | succeeds exactly when the reference parses, with its error otherwise, and the context carries the parsed parts with no digest and no values |
| Context.FromFileOutcome | pkg/context/context.go:78-114 | a malformed section is the error; a section without a string url gives a local context with the path, an empty digest and the file's values; with a url, the parsed context plus the file's digest and values, or the parse error |
| Context.FromFileIgnoresGitref | pkg/context/context.go:104-111 | a rig file holding an unfragmented URL and `gitref: v1` is read with gitref "master"; the corrected reader gives "v1" |
| Context.FromFileReadersDifferInGitref | pkg/context/context.go:78-114 | the reader as written and the corrected reader fail together, agree on every field but the gitref, and agree outright on a local rig file |
| Context.FromFilePinnedGitref | pkg/context/context.go:104-111 | the corrected reader equals the reader as written except that a non-empty pinned gitref replaces the URL's |
| Context.ParseOwnerRepo | pkg/context/context.go:59-72 | `https://github.com/o/r` parses to owner "o", repository "r", no sub-path, gitref "master" |
| Context.URL | pkg/context/context.go:144-156 | fails with "Context contains no URL" exactly when the scheme is empty |
| Context.RepoURL | pkg/context/context.go:158-166 | fails with "Context contains no URL" exactly when the scheme is empty |
| Context.URLExtendsRepoURL | pkg/context/context.go:144-166 | the repository URL does not depend on the path; the URL is the repository URL plus "/path" only when the path is non-empty |
| Context.URLRoundTrip | pkg/context/context.go:41-156 | for a URL whose path starts with "/" and does not end with "/", the context's URL is `scheme://host` plus the original path |
| Context.AbsolutePathRejoins | pkg/context/context.go:64-72 | an absolute path is "/", segment 1, "/", segment 2 and the "/"-led joined rest, if any |
| Context.Values | pkg/context/context.go:168-173 | the stored values, or the empty map when none are set |
| Context.OwnerDir | pkg/context/context.go:175-186 | fails for a context without a scheme, and with the home directory's error when that lookup fails |
| Context.RepoDir | pkg/context/context.go:188-199 | fails for a context without a scheme, and with the home directory's error when that lookup fails |
| Context.OwnerDirUnderHome | pkg/context/context.go:175-186 | for plain names, the owner directory is `<home>/.rig/<host>/<owner>` |
| Context.RepoDirUnderOwnerDir | pkg/context/context.go:188-199 | for plain names, the repository directory is the owner directory plus "/<repo>" |
| GoStrings.JoinSplit | pkg/context/context.go:64-72 | joining the pieces of a split with the separator gives back the string |
| GoStrings.SplitJoin | pkg/context/context.go:64-72 | splitting a join of separator-free pieces gives back the pieces |
| GoPath.JoinUnder | pkg/context/context.go:175-199 | joining plain names onto an absolute plain path only inserts "/": `path.Join` has nothing to clean |
| Values.SetPath | pkg/build/values.go:21-32 | setting a dotted key adds only its head to the top-level keys, leaves the other entries alone and makes the key hold the value; one level down, an existing map gains only the second segment and keeps its other entries |
| Overrides.Coerce | pkg/build/values.go:21-32 | a `--string-value` value is stored as a string; a `--value` value gets the inferred type |
| Overrides.AssignFrame | pkg/build/values.go:21-25 | applying assignments adds exactly their head keys and keeps every entry they do not touch |
| Overrides.LastAssignmentWins | pkg/build/values.go:21-32 | after a list of assignments, the last one's key holds its value |
| Overrides.ParseInto | pkg/build/values.go:22-29 | a parse failure is tagged with its flag and the parser's reason; otherwise the assignments are applied |
| Overrides.ApplyListStops | pkg/build/values.go:21-25 | once an override fails, the later strings change nothing |
| Overrides.ApplyListSucceeds | pkg/build/values.go:21-25 | a list applies exactly when every string in it parses |
| Overrides.ApplyListFirstError | pkg/build/values.go:22-24 | the error is that of the first string that does not parse |
| Overrides.ApplyListFrame | pkg/build/values.go:12-25 | when all parse, the keys are the base keys plus the overridden heads and untouched entries keep their values |
| Overrides.ParseAllInto | pkg/build/values.go:21-25 | the override loop computes the list application |
| Overrides.ApplyAllErrors | pkg/build/values.go:21-32 | every failure is a parse error; a failing `--value` list gives its error, tagged `--value`, before any `--string-value` string is looked at; a failure after all `--value` strings applied is tagged `--string-value` |
| Overrides.ListErrorsTagged | pkg/build/values.go:22-31 | every error of a list names that list's flag |
| Overrides.StringValueWins | pkg/build/values.go:21-32 | a `--string-value` assignment overrides a `--value` assignment to the same key, as a string |
| Overrides.LastStringValueWins | pkg/build/values.go:28-32 | the last assignment of the last `--string-value` decides its key |
| BuildValues.CreateValueMap | pkg/build/values.go:11-37 | the copy and the two override loops compute the value map of the specification |
| BuildValues.ValueMapShape | pkg/build/values.go:34-36 | a result has exactly the one key "values", holding a map |
| BuildValues.ValueMapBase | pkg/build/values.go:12-18 | a nil base map behaves as an empty one; with no overrides "values" is the base map |
| BuildValues.ValueMapFrame | pkg/build/values.go:12-32 | when all overrides parse, "values" has the base keys plus the overridden heads, and untouched base entries as they were |
| BuildValues.ValueMapFirstError | pkg/build/values.go:21-25 | a malformed `--value` gives its tagged error and no map |
| BuildValues.StringValueFirstError | pkg/build/values.go:28-32 | a malformed `--string-value` after well-formed `--value` strings gives its tagged error and no map |
| Engine.StripNonAscii | pkg/engine/engine.go:52-60 | the pre-processed text is no longer than the input and holds only ASCII characters |
| Engine.StripNonAsciiKeeps | pkg/engine/engine.go:52-60 | a character survives exactly when it is in the input and ASCII; ASCII-only text is unchanged |
| Engine.StripNonAsciiIdempotent | pkg/engine/engine.go:60 | stripping twice is stripping once |
| Engine.StripNonAsciiConcat | pkg/engine/engine.go:60 | stripping distributes over concatenation, so the ASCII characters keep their order |
| Engine.Render | pkg/engine/engine.go:54-84 | rendering fails exactly when the template engine fails; with empty lines kept, the output is no longer than what the engine produced |
| Engine.RenderRemovesEmptyLinesOnRequest | pkg/engine/engine.go:75-80 | with removal requested, the rendering is the one with empty lines kept, passed through the `emptyLines` regexp, or the same error |
| Engine.RenderFails | pkg/engine/engine.go:62-71 | rendering fails exactly when the template engine fails, with its reason |
| Engine.RenderSeesOnlyAscii | pkg/engine/engine.go:60-62 | rendering the stripped text is rendering the original |
| Engine.RenderPlain | pkg/engine/engine.go:73-83 | without the `<no value>` marker and without empty-line removal, the executed output is returned as it is |
| Engine.RenderRemovesMarker | pkg/engine/engine.go:73 | an output containing `<no value>` is shortened by at least the marker's length |
| Engine.EnvFunc | pkg/engine/engine.go:28-34 | `env` succeeds exactly when the variable is set to a non-empty value, and returns that value |
| Engine.ExpandEnvFunc | pkg/engine/engine.go:35-41 | `expandenv` succeeds exactly when the expansion is non-empty, and returns it |
| GoStrings.RemoveAllAbsent | pkg/engine/engine.go:73 | replacing a pattern that does not occur leaves the text unchanged |
| GoStrings.RemoveAllShrinks | pkg/engine/engine.go:73 | replacing an occurring pattern shortens the text by at least its length |
| Fs.UnmarshalYaml | pkg/fs/fs.go:74-93 | a read failure and a render failure are returned; otherwise the YAML parse of the rendered text |
| Fs.Hex | pkg/fs/fs.go:70 | `%x` writes two lower-case hex digits per byte |
| Fs.HexInjective | pkg/fs/fs.go:70 | different hashes print differently |
| Fs.FedAppend | pkg/fs/fs.go:49-64 | feeding a longer walk continues from the shorter one and stops at its first failure |
| Fs.FedConcat | pkg/fs/fs.go:54-61 | the bytes fed for two walks in sequence are the two concatenations in order |
| Fs.SilentEventIgnored | pkg/fs/fs.go:50-61 | a walk error and a directory contribute nothing to the digest |
| Fs.UnreadableFileEmptiesDigest | pkg/fs/fs.go:55-67 | one unreadable file makes the digest "" instead of an error |
| Fs.DigestFormat | pkg/fs/fs.go:70 | a digest is "sha256:" followed by the hex of the hash; two digests are equal exactly when the hashes of what was fed are |
| Fs.DigestEmptyOnlyOnFailure | pkg/fs/fs.go:66-70 | the digest is "" exactly when the walk stopped on an unreadable file |
| Fs.DirectoryDigest | pkg/fs/fs.go:46-71 | the walk with its running hash computes the digest of the specification |
| Fs.Targets | pkg/fs/fs.go:96-109 | a stat failure is returned; a regular file is read alone; a directory gives its `*` glob matches |
| Fs.ReadAllContents | pkg/fs/fs.go:111-121 | one content per path, in order, each what reading that path gave |
| Fs.ReadAllSucceeds | pkg/fs/fs.go:113-120 | reading succeeds exactly when every path is readable |
| Fs.ReadAllFirstError | pkg/fs/fs.go:113-117 | the error is that of the first unreadable path |
| Fs.ReadFiles | pkg/fs/fs.go:96-123 | the read loop computes the contents of the specification |
| GoStrings.TrimSpace | pkg/build/build.go:30 | the result is a slice of the input with only white space before and after it, has no leading or trailing white space, and is the input when that was already trimmed |
| GoStrings.ContainsNonWhitespaceAt | pkg/build/build.go:16 | the `\S+` match succeeds exactly when some character is not regexp white space |
| GoStrings.TrimmedHasNonWhitespace | pkg/build/build.go:52-54 | a trimmed string contains a non-whitespace character exactly when it is non-empty |
| Build.StringOutput | pkg/build/build.go:19-31 | a rendered string is trimmed |
| Build.FromString | pkg/build/build.go:19-31 | the method computes the rendering of the specification |
| Build.RenderEachOutputs | pkg/build/build.go:45-55 | a successful loop has one output per file, in order, each that file's rendering |
| Build.RenderEachSucceeds | pkg/build/build.go:45-55 | the loop succeeds exactly when every file renders |
| Build.RenderEachStops | pkg/build/build.go:47-50 | once a file fails, the later files change nothing |
| Build.FirstFailureAborts | pkg/build/build.go:45-55 | the build is the error of the first file that fails, with no output |
| Build.KeptTrimmed | pkg/build/build.go:52-54 | on trimmed outputs the whitespace filter keeps exactly the non-empty ones |
| Build.JoinedTrimmed | pkg/build/build.go:57-58 | joining non-empty trimmed pieces gives a trimmed string, so the final trim changes nothing |
| Build.AssembleJoins | pkg/build/build.go:45-60 | when every file renders, the build is the non-empty outputs joined with "\n---\n" in file order, and "" when none |
| Build.TwoDocuments | pkg/build/build.go:52-58 | "A" and "B" join to "A\n---\nB"; an empty second output leaves "A" |
| Build.AssembleStops | pkg/build/build.go:45-55 | a failing prefix fails the whole build |
| Build.RenderAll | pkg/build/build.go:45-60 | the render-and-keep loop computes the assembled build of the specification |
| Build.FromTemplatesPath | pkg/build/build.go:34-61 | the method computes the build of the files under the working directory's path |
| Build.FromRigFile | pkg/build/build.go:64-137 | the method computes the rig file build as written: the file read by `context.FromFile`, a local context built from its path, a remote one synced, checked out at the context's gitref, digest-checked when pinned, and built |
| Build.PinnedBuildDiffersInGitref | pkg/build/build.go:64-101 | the build with the corrected rig file reader is the build as written when the read fails or the context is local; for a remote context both are the remote build of the same context, differing only in the gitref checked out |
| Build.LocalBuild | pkg/build/build.go:70-72 | a local context builds its own path with its values, and no home, temporary directory, walk, sync or checkout can change the output |
| Build.RemoteDigestCheck | pkg/build/build.go:106-136 | after a successful checkout, a pinned digest that differs from the templates' digest fails naming the new digest; otherwise the templates are read and built |
| Build.UnpinnedIgnoresWalk | pkg/build/build.go:106-114 | a build without a pinned digest does not depend on the digest walk |
| Template.NewFromURLAgrees | pkg/template/template.go:48-82 | the template reader applies the same checks, errors, defaults and split as the context reader |
| Template.NewFromPath | pkg/template/template.go:85-87 | only the path is set |
| Template.ReadYaml | pkg/template/template.go:136-163 | a read failure is returned; otherwise the lenient template run's failure on the ASCII-only text, or the YAML of its output |
| Template.ReadYamlSeesOnlyAscii | pkg/template/template.go:136-163 | the reader ignores the non-ASCII characters of the file |
| Template.NewFromFileOutcome | pkg/template/template.go:90-114 | no `template` map and no path, url or gitref are refused with their messages; a non-empty path gives a local template |
| Template.NewFromFilePinsGitref | pkg/template/template.go:109-113 | with no path, the file's gitref becomes the template's revision |
| Template.OwnerDir | pkg/template/template.go:189-196 | succeeds exactly when the home directory is found, and fails with its error otherwise |
| Template.RepoDir | pkg/template/template.go:198-205 | succeeds exactly when the home directory is found, and fails with its error otherwise |
| Template.CacheDirsAgree | pkg/template/template.go:189-205 | for a remote template the directories are the context's; a local one still gets directories where the context refuses |
| Template.UrlForms | pkg/template/template.go:207-223 | the SCP and URL forms name the same owner/repository; the template URL adds "/path" only for a non-empty path; both agree with the context's URLs |
| Template.MergeAgreement | pkg/template/template.go:439-466 | the merge fails exactly when an override fails; with a `values` map it equals the corrected merge; without one it returns the file untouched |
| Template.MergeDropsOverrides | pkg/template/template.go:446-465 | a file without `values` and the override `a=1`: as written the override is lost; corrected, `values.a` is set |
| Template.MergedFixedKeepsOverrides | pkg/template/template.go:446-465 | the corrected merge keeps the other entries of the file and the last `--string-value` assignment decides its key under "values" |
| Template.MergeValues | pkg/template/template.go:439-466 | the read-and-override loops compute the merge as written |
| Template.MergeValuesFixed | pkg/template/template.go:439-466 | the same loops with the corrected result compute the corrected merge |
| Template.FindFiles | pkg/template/template.go:357-403 | the method computes the file list of the specification, local or checked out |
| Template.BuildTemplate | pkg/template/template.go:334-437 | the method computes the build as written, executing the templates with what `mergeValues` returns |
| Template.BuildFixedAgreesWithValues | pkg/template/template.go:340-343 | the build with the corrected merge fails like the build as written on an unreadable rig file or a bad override, and equals it whenever the rig file has a `values` map |
| Template.BuildNeedsPathOrUrl | pkg/template/template.go:353-355 | a template section with neither path nor url is refused |
| Template.DigestCheckedOnlyWhenPinned | pkg/template/template.go:387-403 | the digest is compared only when the file pins a non-empty one; a mismatch fails naming the new digest; otherwise the templates are globbed |
| Template.BuildJoinsInOrder | pkg/template/template.go:406-436 | the output is the non-whitespace renderings in order, joined by "\n---\n", with empty lines removed; the first failing file aborts with its error |
| Js.OrTruthy | lib/config.js:4-5 | `a \|\| b` is `a` when `a` is truthy and `b` otherwise |
| Js.Member | lib/cmds/build/config.js:11 | a lookup finds an own entry exactly for the table's keys, and nothing exactly for names that are neither keys nor `Object.prototype` members |
| Js.OwnMember | lib/cmds/build/config.js:11 | an own-entry lookup finds the table's keys and never an inherited member |
| Js.MemberVersusOwn | lib/cmds/build/config.js:11-13 | the two lookups differ exactly on the inherited names, which only the plain lookup finds |
| Js.Copied | lib/cmds/build/config.js:19-23 | `Object.assign` copies a table property exactly when an own entry was found |
| Js.Prop | lib/config.js:4-5 | reading a property of `undefined` or `null` throws a `TypeError`; an own property is returned |
| Js.Basename | lib/cmds/build/config.js:11 | a base name contains no "/" |
| Js.BasenameOfPath | lib/cmds/build/config.js:11 | the base name of `dir/name/` with any trailing slashes is `name` |
| Js.ConstructorBasename | lib/cmds/build/config.js:11-13 | the base name of `constructor` is an `Object.prototype` member |
| BuildConfig.MakeErrors | lib/cmds/build/config.js:13-23 | the checks run as file type, cluster, image tag, each with its message, and options are made exactly when all pass |
| BuildConfig.ConfigFromOwnErrors | lib/cmds/build/config.js:10-17 | only the base name `k8s.yaml` is known; cluster and image tag are checked after it in that order |
| BuildConfig.ConfigFromOwnContents | lib/cmds/build/config.js:19-23 | the options hold the k8s schema and manifest paths and the file name, cluster and image tag unchanged |
| BuildConfig.DirectoryIgnored | lib/cmds/build/config.js:11-13 | `dir/name` is accepted exactly when `name` is |
| BuildConfig.ConfigFromAgrees | lib/cmds/build/config.js:11-13 | as written and corrected agree on every base name that is not an `Object.prototype` member |
| BuildConfig.InheritedNameAccepted | lib/cmds/build/config.js:11-13 | an inherited base name passes the check and yields options without schema or template path; the corrected lookup rejects it |
| BuildConfig.ConstructorAccepted | lib/cmds/build/config.js:11-13 | a file named `constructor`, cluster "dev", tag "v1" is accepted as written and rejected when corrected |
| BreakoutConfig.MakeErrors | lib/cmds/breakout/config.js:19-24 | an unknown file is rejected first; reading `flags.k` then throws for missing flags; options are made exactly otherwise |
| BreakoutConfig.ConfigFromOwnErrors | lib/cmds/breakout/config.js:16-24 | exactly `build.yaml` and `k8s.yaml` are known, and missing flags throw a `TypeError` after the file check |
| BreakoutConfig.ConfigFromOwnContents | lib/cmds/breakout/config.js:21-25 | the options hold the entry's code, schema and template directory, the file name, the output directory or ".", and `flags.k` or `false` |
| BreakoutConfig.TableMatchesTypes | lib/cmds/breakout/config.js:3-14 | each kind's default file maps to that kind's code, schema and template directory |
| BreakoutConfig.ConfigFromAgrees | lib/cmds/breakout/config.js:17-19 | as written and corrected agree on every base name that is not an `Object.prototype` member |
| BreakoutConfig.InheritedMemberCopiesNothing | lib/cmds/breakout/config.js:21-22 | an inherited member passes the check and copies no code, schema or template directory |
| BreakoutConfig.InheritedNameAccepted | lib/cmds/breakout/config.js:17-19 | an inherited base name is accepted as written and rejected when corrected |
| BreakoutConfig.ConstructorAccepted | lib/cmds/breakout/config.js:17-23 | a file named `constructor` is accepted with output directory "." as written and rejected when corrected |
| ValidateConfig.ConfigFromOwnOutcome | lib/cmds/validate/config.js:12-20 | exactly `build.yaml` and `k8s.yaml` are known, others throw `Unknown file type`; the options are the entry's schema and the file name unchanged |
| ValidateConfig.TableMatchesTypes | lib/cmds/validate/config.js:3-10 | each kind's default file maps to that kind's schema |
| ValidateConfig.ConfigFromAgrees | lib/cmds/validate/config.js:13-15 | as written and corrected agree on every base name that is not an `Object.prototype` member |
| ValidateConfig.InheritedNameAccepted | lib/cmds/validate/config.js:13-15 | an inherited base name is accepted without a schema as written and rejected when corrected |
| ValidateConfig.ConstructorAccepted | lib/cmds/validate/config.js:13-15 | a file named `constructor` is accepted as written and rejected when corrected |
| GenK8sConfig.ConfigFromErrors | lib/cmds/gen-k8s/config.js:2-6 | a cluster outside dev, int and prod throws before the image tag is checked; a falsy tag throws; options are made exactly otherwise |
| GenK8sConfig.ConfigFromContents | lib/cmds/gen-k8s/config.js:8-14 | the options hold the two fixed paths and the three inputs unchanged |
| GenK8sConfig.FileNameNotValidated | lib/cmds/gen-k8s/config.js:1-14 | any two file names give the same outcome apart from the file name itself |
| Constants.TypeFrom | lib/constants.js:1-10 | succeeds exactly for "build" and "k8s", and throws `Unknown type` otherwise |
| Constants.TypeFromFindsEntry | lib/constants.js:3-6 | "build" and "k8s" give their `TYPES` entries |
| Constants.TypesWellFormed | lib/constants.js:12-25 | each type's code is its key, its default file is code + ".yaml", and its schema and template directory lie under `./templates/<code>/` |
| CliConfig.ConfigOutcome | lib/config.js:1-7 | missing flags throw a `TypeError`; otherwise the type is unchanged, the file path is `flags.f` or the type's default, and keepInputFile is `flags.k` or `false` |
| CliConfig.DefaultFilePath | lib/config.js:4 | with no `-f`, the file path of `typeFrom(t)` is `t + ".yaml"` |

The specification functions that the methods compute carry no contract of their own;
the rows above state them through the lemmas and methods about them:

- `Context.FromFile` and `Context.FromFilePinned`: Context.FromFileOutcome,
  Context.FromFileReadersDifferInGitref, Context.FromFilePinnedGitref and
  Context.FromFileIgnoresGitref.
- `Template.NewFromURL`: Template.NewFromURLAgrees. `Template.NewFromFile`:
  Template.NewFromFileOutcome and Template.NewFromFilePinsGitref.
- `Template.GitSCPURI`, `Template.GitURL` and `Template.TemplateURL`: Template.UrlForms.
- `Template.MergedFile` and `Template.MergedFileFixed`: Template.MergeAgreement,
  Template.MergeDropsOverrides and Template.MergedFixedKeepsOverrides.
- `Template.BuildOutput` and `Template.BuildOutputFixed`: Template.BuildTemplate,
  Template.BuildNeedsPathOrUrl, Template.BuildJoinsInOrder and
  Template.BuildFixedAgreesWithValues.
- `Build.Assemble`: Build.AssembleJoins, Build.AssembleStops, Build.FirstFailureAborts and
  Build.RenderAll. `Build.RenderEach`: Build.RenderEachOutputs, Build.RenderEachSucceeds
  and Build.RenderEachStops.
- `Build.RigFileOutput`, `Build.RigFileOutputPinned` and `Build.RemoteOutput`:
  Build.FromRigFile, Build.LocalBuild, Build.RemoteDigestCheck, Build.UnpinnedIgnoresWalk
  and Build.PinnedBuildDiffersInGitref.
- `Fs.DigestOf` and `Fs.Fed`: Fs.FedAppend, Fs.FedConcat, Fs.SilentEventIgnored,
  Fs.UnreadableFileEmptiesDigest, Fs.DigestFormat, Fs.DigestEmptyOnlyOnFailure and
  Fs.DirectoryDigest. `Fs.ReadFilesOf`: Fs.Targets, Fs.ReadAllContents,
  Fs.ReadAllSucceeds, Fs.ReadAllFirstError and Fs.ReadFiles.
- `Overrides.ApplyList`: Overrides.ApplyListStops, Overrides.ApplyListSucceeds,
  Overrides.ApplyListFirstError, Overrides.ApplyListFrame and Overrides.ParseAllInto.
- `BuildValues.ValueMap`: BuildValues.CreateValueMap, BuildValues.ValueMapShape,
  BuildValues.ValueMapBase, BuildValues.ValueMapFrame, BuildValues.ValueMapFirstError and
  BuildValues.StringValueFirstError.

## Left out

- pkg/git/git.go is not part of this model: git shells out to subprocesses. `Sync` and `Checkout` are parameters that return success or an error text.
- pkg/install/install.go and `Install`/`Sync` in pkg/template/template.go are filesystem and subprocess flows. The same goes for `PathExists`, `EnsureDir`, `HomeDir` and `TempDir` in pkg/fs/fs.go. Their results are parameters.
- cmd/*.go: the cobra command line, printing and `os.Exit`.
- The JavaScript I/O and foreign code (schema validation, handlebars rendering, file writes, the CLI entry points, interactive init) and lib/cmds/install/config.js, which wraps a URL-parsing package.
- Concurrency: the `~/.rig` cache is not locked and the JavaScript writes run in parallel. The model is sequential.
- Foreign libraries are uninterpreted: `url.Parse`, `text/template` with sprig and chartutil, the strvals grammar and its type inference, SHA-256, the YAML parser, the `emptyLines` regexp and `os.ExpandEnv`.
- Values.SetPath: list indices in override keys are not modelled. A non-map value in the middle of a dotted path is replaced by a map, where helm panics.
- The temporary checkout directory is removed after a remote build (`defer os.RemoveAll`). The model does not state this clean-up.
- pkg/build/build.go calls `engine.Render` with two arguments, but the function takes three. The model makes `removeEmptyLines` a parameter of the build functions.
- `DirectoryDigest` never returns an error (the walk's error is turned into an empty digest). The error checks after it, and after `OwnerDir`/`RepoDir` once the scheme is known, are dead and have no state of their own.
- Js.Basename: only POSIX `path.basename` is modelled, not the Windows variant.
- Js: numbers are rationals plus one NaN. Property lookup covers own properties and `Object.prototype` only, and no getters or other prototypes.
- CliConfig.ConfigOutcome: the `type` argument is assumed to be an entry of `TYPES`, as `typeFrom` returns it. Any other object is not modelled.
- "The table is not mutated" holds by construction: tables are immutable values and every result is a fresh value. No lemma states it.
- BuildConfig.DirectoryIgnored: states only that `dir/name` and `name` are accepted alike, not that the options are equal. The options differ anyway in the file name they carry.
- BuildValues.CreateValueMap: Go copies the base map one level deep, so its nested maps stay shared with the context's values, and helm's override parser changes them in place. Each template file is rendered by a fresh `FromString` call with the same context values, so a file sees the nested maps as the previous file's overrides left them. The model merges every file from the unchanged base. The two differ visibly only when replaying a dotted path meets a non-map value left by an earlier file, where helm panics (`--value a.x.y=1,a.x=2` over `values: {a: {}}` with two files).
- Overrides.Coerce: in helm's strvals grammar a braced value `k={x,y}` is a list under both flags. An assignment here carries one raw text, so a `--string-value` always stores a string, and Overrides.StringValueWins and Overrides.LastStringValueWins hold for scalar values only.
- Engine.RenderRemovesMarker: states a length bound, not the exact replacement, because the text being replaced comes from the uninterpreted template engine.

## Findings

| source | as written | input that shows it | evidently intended | confidence | as-written member | corrected member |
|---|---|---|---|---|---|---|
| pkg/context/context.go:104-111 | a rig file with a `url` gets its gitref only from the URL's fragment; the file's own `gitref` is never read | a rig file with `url: https://github.com/o/r` and `gitref: v1` (what `rig install` writes) builds revision "master" | the pinned gitref wins, as in `NewFromFile` of pkg/template/template.go:113 | high, not executed | Context.FromFileIgnoresGitref | Context.FromFilePinnedGitref |
| pkg/template/template.go:446-465 | the overrides are parsed into a fresh map when the file has no `values` map, and that map is never stored in the returned file | a rig file without `values` and `--value a=1` renders with no `values.a` | the merged values are stored under `values` | high, not executed | Template.MergeDropsOverrides | Template.MergedFixedKeepsOverrides |
| lib/cmds/build/config.js:11-13 | `FILE_CONFIGS[path.basename(f)]` also finds the properties every object inherits, so the file-type check passes | a file named `constructor`, cluster `dev`, tag `v1` is accepted, with no schema or template path | only the table's own entries are file types | medium, not executed | BuildConfig.ConstructorAccepted | BuildConfig.ConfigFromOwnErrors |
| lib/cmds/breakout/config.js:17-19 | the same inherited lookup as in the build options | a file named `constructor` is accepted, with no code, schema or template directory | only the table's own entries are file types | medium, not executed | BreakoutConfig.ConstructorAccepted | BreakoutConfig.ConfigFromOwnErrors |
| lib/cmds/validate/config.js:13-15 | the same inherited lookup as in the build options | a file named `constructor` is accepted, with no schema | only the table's own entries are file types | medium, not executed | ValidateConfig.ConstructorAccepted | ValidateConfig.ConfigFromOwnOutcome |

The builds follow the code as written: `Build.FromRigFile` reads the rig file with
`Context.FromFile`, and `Template.BuildTemplate` merges with `Template.MergeValues`. The
corrected definitions sit beside them. `Build.RigFileOutputPinned` is the rig file build
with `Context.FromFilePinned`, and `Template.BuildOutputFixed` is the template build with
the corrected merge. `Build.PinnedBuildDiffersInGitref` and
`Template.BuildFixedAgreesWithValues` state where each pair differs. The option builders'
contents lemmas are stated for the own-entry lookup (`ConfigFromOwn`).
