# setup-clojure, modelled in Dafny

This project models the GitHub Action `setup-clojure`, which installs Clojure tools on
a CI runner. The tools are Leiningen, Boot, the Clojure CLI (tools.deps), Babashka,
clj-kondo, cljfmt, cljstyle and zprint. The model then proves properties of it.

Each tool installer follows one protocol:

- resolve "latest" through a release API (only the GitHub-hosted tools do this);
- look the version up in the runner's tool cache;
- on a miss, download the artifact, lay it out, and store it in the cache;
- export environment variables and extend PATH.

The two entry points start the installers:

- `main` in `src/entrypoint.ts` wraps each installer in a restore from and a save to
  the cross-run cache;
- `run` in `src/setup-clojure.ts` is the older entry point.

## Layout

One Dafny module per source file, plus shared modules:

- `Common`: `Option`, `Result` and `Outcome`.
- `Strings`: JavaScript `split`, `join`, `startsWith` and `endsWith`.
- `Paths`: `path.join` as joining with "/", and the decimal rendering of numbers.
- `Placeholder`: the `/PREFIX/gim` replacement.
- `Release`: the "latest release" lookup that five tools share.
- `ToolKit`: the runner. The class `Runner` holds the tool cache, the file tree, the PATH
  additions, the exported variables and a log of the external steps. Its methods
  stand for the `@actions/tool-cache`, `@actions/core`, `@actions/io` and
  `@actions/exec` primitives.
- `Utils`: `src/utils.ts`.
- `ClojureTools`: the directory layout that `src/cli.ts` and `src/tdeps.ts` share.
- `Cli`, `TDeps`, `Leiningen`, `Boot`, `Babashka`, `CljKondo`, `CljFmt`, `CljStyle`,
  `ZPrint`: the tool installers.
- `Entrypoint`: `src/entrypoint.ts`. The class `Job` is one run of the action.
- `SetupClojure`: `src/setup-clojure.ts`. The class `Session` is one run of the action.

The model turns each kind of input into something a contract can talk about:

- Network answers are data. A download succeeds when its address is in the runner's
  `remote` map, and a release lookup gets its answer as a `Reply` parameter.
- The random temporary-directory suffix is a parameter below 2000000000.
- Paths that the toolkit picks itself (download names, extraction directories) are
  scratch names numbered by the log position.

Four behaviours of the code are visible in the contracts:

- In `src/setup-clojure.ts`, the `tools-deps` input on Windows runs both the
  PowerShell installer and the Linux-way setup.
- Babashka and cljfmt pick the extractor by the name of the downloaded file. That
  name is the toolkit's, not the archive's, so the tar extractor is always used. It
  reads zip archives too, so the Windows zip downloads still unpack.
- cljstyle's `parseInt` rule judges "0.15.0" an old release. Old releases are tarballs,
  and `setup` still unzips them.
- `tdeps.ts` trusts a cache hit even for "latest", and `cli.ts` does not.

Five further behaviours of the code worth noting:

- "latest" is never resolved for Leiningen, Boot and the Clojure CLI. It is cached
  under the key "latest.0.0".
- cljfmt keeps the leading "v" of its tag.
- The placeholder in the `clojure` script is replaced by the literal text
  `"$CLOJURE_INSTALL_DIR"`, not by the install directory.
- Babashka, clj-kondo, cljfmt, cljstyle and zprint put the tool directory itself on
  PATH, not its `bin`.
- After a setup, the cross-run cache is saved only when the restore missed.

## Model

| member | source | states |
|---|---|---|
| Strings.Split | src/utils.ts:4 | `split` on one character always yields at least one part |
| Strings.SplitCount | src/utils.ts:4 | there is one part more than there are separators |
| Strings.SplitPartsClean | src/utils.ts:4 | no part contains the separator |
| Strings.SplitJoinBack | src/utils.ts:4 | joining the parts with the separator gives back the string |
| Strings.SplitJoin | src/utils.ts:4-8 | splitting undoes joining when no part contains the separator |
| Strings.JoinAvoids | src/utils.ts:7 | joining with "-" parts that have no "." leaves no "." |
| Strings.Count | src/utils.ts:4 | the count is at most the length, and zero exactly when the character is absent |
| Strings.CountAppend | src/utils.ts:4 | counts add up over concatenation |
| Strings.SplitWithoutSeparator | src/utils.ts:4 | a string without the separator splits into itself alone |
| Strings.SplitAfterPart | src/utils.ts:4 | a leading part without the separator is peeled off as the first part |
| Strings.TemplateInjective | src/cli.ts:22-26 | a template literal `prefix${v}suffix` determines `v` |
| Strings.EndsWithAppend | src/babashka.ts:48 | whether `a + b` ends with a short suffix depends on `b` alone |
| Paths.JoinDistinct | src/cli.ts:64-74 | two joins with single-component names collide only when directory and name both agree |
| Paths.JoinEq | src/cli.ts:64-74 | such joins are equal exactly when directories and names are |
| Paths.LastSeparator | src/cli.ts:78 | the separator that a join inserts is the last "/" of the result |
| Paths.Decimal | src/cli.ts:29 | the rendering of a number is non-empty and made of digits |
| Paths.DecimalInjective | src/cli.ts:29 | distinct numbers render differently |
| Utils.CacheVersionShape | src/utils.ts:3-9 | the key has exactly three "."-separated parts: the first part, the second or "0", and the rest joined with "-" or "0" |
| Utils.CacheVersionFixedPoint | src/utils.ts:3-9 | a version is its own key exactly when it has exactly two dots |
| Utils.CacheVersionIdempotent | src/utils.ts:3-9 | normalising a key again changes nothing |
| Utils.CacheVersionOfJoin | src/utils.ts:3-9 | the key of a version given by its parts, in terms of those parts |
| Utils.CacheVersionOfFourParts | src/utils.ts:7 | a fourth part is joined to the third with "-" |
| Utils.CacheVersionCollision | src/utils.ts:6-7 | "a.b" and "a.b.0" share a cache key |
| Utils.CacheVersionOfOnePart | src/utils.ts:5-8 | "latest" becomes "latest.0.0" and "" becomes ".0.0" |
| Utils.TempDir | src/utils.ts:11-30 | RUNNER_TEMP is used whenever it is defined, even when empty; otherwise the result ends in "/actions/temp" |
| Utils.TempDirFallback | src/utils.ts:13-27 | without RUNNER_TEMP: "/home" for any platform other than win32 and darwin, "/Users" on darwin, "C:\" on Windows without USERPROFILE |
| Utils.OwnTempDirVersusTempDir | src/boot.ts:10-25 | the module-level temporary directory of boot.ts and tdeps.ts differs from `getTempDir` exactly when RUNNER_TEMP is the empty string |
| Utils.TempDirForShape | src/cli.ts:27-30 | the working directory lies under the temporary directory, and distinct suffixes give distinct directories |
| Placeholder.InstallDirRefIsSafe | src/cli.ts:95-98 | the replacement text has no letter at its start and no "p" or "P", so it cannot recreate the placeholder |
| Placeholder.ReplaceAllIdentity | src/cli.ts:117 | text without the placeholder, in any case, is unchanged |
| Placeholder.LetterPrefix | src/cli.ts:117 | while the output starts with letters only, it agrees with the input |
| Placeholder.TokenShape | src/cli.ts:117 | a match is six letters, the first a "p" or "P" |
| Placeholder.NoTokenAfterReplace | src/cli.ts:117 | after the global, case-insensitive replacement no placeholder remains, in any case |
| Placeholder.ReplaceAllUnchangedIff | src/cli.ts:117 | the patch changes the text exactly when the text contains the placeholder |
| Release.StripV | src/babashka.ts:20 | exactly one leading "v" is removed and nothing else changes |
| Release.Latest | src/babashka.ts:9-26 | a transport failure rejects with its own message; a missing or empty tag gives "Can't obtain latest <tool> version"; success is the tag, or the tag after its "v" when stripping |
| Release.LatestRoundTrip | src/babashka.ts:20-23 | a "v"-prefixed tag gives back the version when stripping and the whole tag otherwise (cljfmt.ts:19) |
| Release.LatestFailsIff | src/babashka.ts:20-25 | the lookup fails exactly when the tag is missing, empty, or only "v" when stripping |
| ToolKit.EntriesMember | src/cli.ts:87-88 | a directory listing holds exactly the single-component names of the files in the directory |
| ToolKit.Runner.Lookup | src/babashka.ts:15-18 | the release request is logged with its address and authorization |
| ToolKit.Runner.DownloadTool | src/cli.ts:22-26 | the download succeeds exactly when the address answers; the content lands in a fresh scratch file and nothing else changes |
| ToolKit.Runner.Extract | src/cli.ts:76 | an archive readable by the extractor is unpacked into the destination; otherwise it fails and nothing changes |
| ToolKit.Runner.MakeDir | src/cli.ts:59 | the directory creation is logged and no file changes |
| ToolKit.Runner.Move | src/leiningen.ts:58 | the move succeeds exactly when the source exists; the file then exists only at the target, with its content |
| ToolKit.Runner.MoveInto | src/cli.ts:84-85 | moving into a directory keeps the file's name |
| ToolKit.Runner.Chmod | src/leiningen.ts:60-62 | the mode change is logged |
| ToolKit.Runner.Exec | src/leiningen.ts:64-73 | the command is logged with its directory, environment or input |
| ToolKit.Runner.CacheDir | src/cli.ts:36-40 | the tool cache maps the tool and version to the returned cache path |
| ToolKit.Runner.CacheFile | src/zprint.ts:64 | the same for a single file stored under a target name |
| ToolKit.Runner.AddPath | src/cli.ts:45 | the directory is appended to the PATH additions |
| ToolKit.Runner.ExportVariable | src/cli.ts:44 | the variable is set to the value and the other exports are kept |
| ToolKit.Runner.Rewrite | src/cli.ts:110-123 | a readable text file is replaced in place by its patched text; a missing file changes nothing |
| ClojureTools.Activate | src/cli.ts:43-45 | CLOJURE_INSTALL_DIR becomes `<tool>/lib/clojure` and `<tool>/bin` goes on PATH |
| ClojureTools.InstalledScriptIsPatched | src/cli.ts:95-98 | the installed `clojure` script contains the placeholder in no letter case |
| ClojureTools.Prepare | src/cli.ts:59-85 | a missing file fails with ENOENT ("no such file or directory", since `fs.statSync` throws), an unreadable archive fails to unpack; otherwise it succeeds exactly when both `deps.edn` files were extracted, and they are then in `lib/clojure` with their extracted content |
| ClojureTools.JarsAfterDocs | src/cli.ts:84-89 | moving the `deps.edn` files does not change the list of jars |
| ClojureTools.MoveJars | src/cli.ts:86-94 | every entry ending in "jar" is moved into `libexec` with its content, no jar is left in the source, and nothing outside these files changes |
| ClojureTools.MoveJarStep | src/cli.ts:91-92 | moving one more jar keeps the moved jars in `libexec` and the rest where they were |
| ClojureTools.StepApart | src/cli.ts:91-92 | moving one jar touches no other jar's source or target |
| ClojureTools.NoJarLeft | src/cli.ts:86-94 | once every listed jar has left the source directory, it holds no jar |
| ClojureTools.Finish | src/cli.ts:95-102 | succeeds exactly when the four scripts and manual pages are there with `clojure` as text; the patched script and the others end up in `bin` and `share/man/man1` |
| ClojureTools.PlacementPlaces | src/cli.ts:99-102 | the four moves, in order, place each script and manual page and touch nothing else |
| ClojureTools.PlaceScripts | src/cli.ts:99-102 | the moves succeed exactly when all four files are there, and then the files are placed |
| ClojureTools.AfterJars | src/cli.ts:84-94 | after the first two phases the scripts are as extracted, the `deps.edn` files are placed and every jar is in `libexec` |
| ClojureTools.DocKept | src/cli.ts:84-94 | a placed `deps.edn` stays while the jars move |
| ClojureTools.JarsKept | src/cli.ts:84-89 | the jars are untouched by the `deps.edn` moves |
| ClojureTools.ScriptKept | src/cli.ts:84-94 | a file that is neither a jar nor a `deps.edn` stays where it was extracted |
| ClojureTools.OutsideScripts | src/cli.ts:99-102 | paths inside other directories are not touched by the script moves |
| ClojureTools.AfterScripts | src/cli.ts:95-104 | after the last phase the layout is complete and the earlier placements are intact |
| Cli.ArchiveUrlShape | src/cli.ts:22-26 | "latest" fetches the unversioned archive; other versions fetch `clojure-tools-<version>.tar.gz` |
| Cli.ArchiveUrlInjective | src/cli.ts:22-26 | distinct versions, "latest" included, use distinct addresses |
| Cli.SetupWindows | src/cli.ts:48-53 | the PowerShell installer runs once, with "1" on its input, and nothing else happens |
| Cli.Install | src/cli.ts:55-108 | missing file, unreadable archive and incomplete archive are errors; success gives `dest/clojure` with the full layout and every jar in `libexec` |
| Cli.Provision | src/cli.ts:22-40 | the download is the first step; success is exactly an archive that completes the layout, and the installation is then cached under the key; failure leaves the cache unchanged |
| Cli.Setup | src/cli.ts:12-46 | a cache hit is trusted only for explicit versions, with no download; otherwise the cache and the exports change exactly when the installation succeeds |
| TDeps.ArchiveUrlInjective | src/tdeps.ts:38-40 | each version, "latest" included, has its own address |
| TDeps.JarApart | src/tdeps.ts:95-98 | the jar is none of the files the other moves touch |
| TDeps.ScriptKeptPastJar | src/tdeps.ts:93-98 | scripts and manual pages are untouched by the `deps.edn` and jar moves |
| TDeps.AfterJar | src/tdeps.ts:93-98 | after the jar move the jar is in `libexec` and the rest is as placed |
| TDeps.AfterScriptsWithJar | src/tdeps.ts:99-106 | the last phase keeps the jar and the `deps.edn` files in place |
| TDeps.Install | src/tdeps.ts:63-112 | succeeds exactly when the archive completes the layout and holds `clojure-tools-<version>.jar`, which ends up in `libexec` |
| TDeps.Provision | src/tdeps.ts:38-55 | as `Cli.Provision`, with the versioned jar required and installed |
| TDeps.Setup | src/tdeps.ts:9-61 | on Windows it fails and nothing changes; any cache hit is used, "latest" included; otherwise it installs, caches and exports as for the CLI |
| Leiningen.ScriptUrlTag | src/leiningen.ts:23-27 | an explicit version is fetched from the tag it names |
| Leiningen.ScriptUrlBatch | src/leiningen.ts:26 | the address ends in ".bat" exactly on Windows |
| Leiningen.ScriptUrlShape | src/leiningen.ts:23-27 | "latest" is fetched from the branch "stable" |
| Leiningen.ScriptUrlInjective | src/leiningen.ts:23-27 | distinct versions share an address only when they are "latest" and "stable" |
| Leiningen.Install | src/leiningen.ts:45-79 | a missing launcher fails after creating `dest`; otherwise the launcher moves into `leiningen/bin` (chmod 0755 off Windows) and runs `version` with LEIN_HOME set |
| Leiningen.Provision | src/leiningen.ts:23-38 | succeeds exactly when the launcher's address answers, and then caches `dest/leiningen` under the key |
| Leiningen.Activate | src/leiningen.ts:41-42 | LEIN_HOME names the tool directory and its `bin` goes on PATH |
| Leiningen.Setup | src/leiningen.ts:13-43 | a cache hit is trusted only for explicit versions; otherwise it succeeds exactly when the launcher is downloadable, and it caches and exports |
| Boot.ChildEnvContents | src/boot.ts:77-94 | the command environment holds BOOT_HOME, BOOT_VERSION exactly for explicit versions, and PATH and JAVA_CMD exactly when they are non-empty, and nothing else |
| Boot.Install | src/boot.ts:60-105 | a missing script fails; otherwise it moves into `boot/bin` with mode 0755 and runs `-u` or `-V` in that environment |
| Boot.Provision | src/boot.ts:37-50 | succeeds exactly when the bootstrap script downloads, and then caches `dest/boot` |
| Boot.Activate | src/boot.ts:53-57 | BOOT_HOME is exported, BOOT_VERSION only for an explicit version, and `bin` goes on PATH |
| Boot.Setup | src/boot.ts:27-58 | trusted hit or install into the module's own temporary directory, then the exports |
| Babashka.TailShape | src/babashka.ts:32-39 | the suffix is ".zip" exactly on Windows and ".tar.gz" elsewhere |
| Babashka.ArtifactNameShape | src/babashka.ts:28-40 | the name starts with `babashka-<version>-` and is a zip exactly on Windows |
| Babashka.ArtifactUrlInjective | src/babashka.ts:42-45 | distinct versions have distinct addresses |
| Babashka.OtherPlatformsGetLinux | src/babashka.ts:37-38 | an unnamed platform gets the Linux archive |
| Babashka.ExtractFollowsPlatform | src/babashka.ts:47-51 | applied to an archive name, the zip extractor is chosen exactly on Windows |
| Babashka.DownloadsGoToTar | src/babashka.ts:63-64 | a downloaded file's name never ends in ".zip", so `extract` uses tar |
| Babashka.Fetch | src/babashka.ts:62-65 | the miss path succeeds exactly when the address gives an archive; it extracts with tar and caches under the version |
| Babashka.Setup | src/babashka.ts:53-69 | a resolution failure changes nothing; a hit adds the cached directory to PATH; a miss adds the extracted directory, not the cached one |
| CljKondo.ArtifactNameShape | src/clj-kondo.ts:27-39 | every archive is a zip named after the version |
| CljKondo.ArtifactNamePlatforms | src/clj-kondo.ts:31-38 | the platform families get distinct names; other platforms get Linux's |
| CljKondo.ArtifactUrlInjective | src/clj-kondo.ts:41-44 | distinct versions have distinct addresses |
| CljKondo.Fetch | src/clj-kondo.ts:55-65 | the miss path succeeds exactly when the address gives a zip archive, and caches it |
| CljKondo.Setup | src/clj-kondo.ts:46-72 | the cached directory goes on PATH after a hit or a successful miss |
| CljFmt.TailShape | src/cljfmt.ts:29-36 | the suffix is ".zip" exactly on Windows |
| CljFmt.ExtractFollowsPlatform | src/cljfmt.ts:44-48 | applied to an archive name, the zip extractor is chosen exactly on Windows |
| CljFmt.DownloadsGoToTar | src/cljfmt.ts:61-67 | a downloaded file is always handed to tar |
| CljFmt.ArtifactUrlInjective | src/cljfmt.ts:39-42 | distinct versions have distinct addresses |
| CljFmt.Fetch | src/cljfmt.ts:58-68 | the miss path succeeds exactly when the address gives an archive |
| CljFmt.Setup | src/cljfmt.ts:50-75 | the tag is used unstripped; the cached directory goes on PATH |
| CljStyle.DigitRunOfDigits | src/cljstyle.ts:28 | `parseInt` reads the longest run of digits |
| CljStyle.ValueSnoc | src/cljstyle.ts:28 | one more digit multiplies by the radix and adds the digit |
| CljStyle.ValueOfDecimal | src/cljstyle.ts:28 | the digits of a decimal rendering spell the number |
| CljStyle.StartsPlain | src/cljstyle.ts:28 | a leading letter or digit means no whitespace and no sign |
| CljStyle.ParseIntDecimal | src/cljstyle.ts:28 | `parseInt` reads back a number and stops at the first non-digit |
| CljStyle.ParseIntNaN | src/cljstyle.ts:28 | no digit where the number should be gives NaN |
| CljStyle.NewSchemeOfNumbers | src/cljstyle.ts:28-32 | a numeric version is new exactly when major > 0 or minor > 15 |
| CljStyle.NewSchemeOfMajorOnly | src/cljstyle.ts:28-32 | a version without a dot is judged by its major number |
| CljStyle.NewNameShape | src/cljstyle.ts:33-38 | new names are per-architecture zips |
| CljStyle.OldNameShape | src/cljstyle.ts:43-48 | old names are tarballs |
| CljStyle.ArtifactNameCases | src/cljstyle.ts:27-50 | the name is refused exactly for an old version on arm64, with the x86-64 message; it is a zip exactly for a new version |
| CljStyle.ArtifactUrlInjective | src/cljstyle.ts:52-55 | distinct versions have distinct addresses |
| CljStyle.UrlShape | src/cljstyle.ts:52-55 | the address holds the version at a fixed place, with one of two lengths |
| CljStyle.Install | src/cljstyle.ts:65-80 | a refused name fails with no change; otherwise download, unzip and cache |
| CljStyle.Setup | src/cljstyle.ts:57-83 | resolve, reuse a hit or install, and put the cached directory on PATH |
| ZPrint.ArtifactNameShape | src/zprint.ts:28-38 | the name ends with the version; the three families get distinct names |
| ZPrint.ArtifactUrlInjective | src/zprint.ts:40-43 | distinct versions have distinct addresses |
| ZPrint.Fetch | src/zprint.ts:52-65 | succeeds exactly when the address answers; the file gets mode 0755 and is cached as "zprint" |
| ZPrint.Setup | src/zprint.ts:45-71 | the cached directory goes on PATH |
| Entrypoint.Auth | src/entrypoint.ts:35-37 | a token gives exactly `Bearer <token>`, and no token gives no authorization |
| Entrypoint.OrderRanks | src/entrypoint.ts:40-140 | the rank of each tool is its place in input order |
| Entrypoint.PushNext | src/entrypoint.ts:40-140 | considering the next input extends the plan by that tool |
| Entrypoint.PushedPlan | src/entrypoint.ts:40-140 | the pushes are exactly the given inputs' requests, in order, at the asked version (`tools-deps` only without `cli`) |
| Entrypoint.NoneGivenNoneWanted | src/entrypoint.ts:142-144 | no input is given exactly when nothing is pushed |
| Entrypoint.PushedNothing | src/entrypoint.ts:142-144 | with no input, no prefix of the plan pushes anything |
| Entrypoint.Plan | src/entrypoint.ts:40-144 | the requests started up to the cljstyle Windows gate, and the error: the gate first, then "no tool" |
| Entrypoint.CachePaths | src/entrypoint.ts:195-197 | one path, the identifier under the tool cache root |
| Entrypoint.HeadOf | src/entrypoint.ts:191-193 | each identifier starts with its four-letter head |
| Entrypoint.IdentifiersApart | src/entrypoint.ts:191-193 | no identifier followed by "-" starts another |
| Entrypoint.CommonPrefix | src/entrypoint.ts:191-193 | of two strings that start the same string, the shorter starts the longer |
| Entrypoint.CacheKeyInjective | src/entrypoint.ts:191-193 | within a run, the cache key determines the tool and the version |
| Entrypoint.FirstRejectionStep | src/entrypoint.ts:146 | one more setup keeps an earlier rejection and otherwise reports its own |
| Entrypoint.FirstRejectionIsEarliest | src/entrypoint.ts:146-150 | the reported failure is the earliest rejected setup's reason, and there is one exactly when some setup was rejected |
| Entrypoint.Job.constructor | src/entrypoint.ts:17 | the cache root is RUNNER_TOOL_CACHE or "" |
| Entrypoint.Job.SetupTool | src/entrypoint.ts:154-189 | the setup's own outcome is passed on, and the calls are those of `ToolCalls` |
| Entrypoint.Job.RunAction | src/entrypoint.ts:19-152 | an `invalidate-cache` value that is not a YAML 1.2 boolean rejects `main` with the toolkit's message, before anything starts and without `setFailed`; otherwise the reported failure is the gate's, else "no tool", else the first rejection; every started setup runs; the failure goes to `setFailed` |
| Entrypoint.BooleanInputCases | src/entrypoint.ts:33 | `invalidate-cache` is read exactly when it is one of `true`, `True`, `TRUE`, `false`, `False`, `FALSE`, true exactly for the first three; any other value fails with the "Core Schema" message |
| Entrypoint.Job.SettleAll | src/entrypoint.ts:146 | every started setup runs in order, and the first rejection in request order is reported |
| Entrypoint.Job.RunStep | src/entrypoint.ts:146 | the calls of one more request follow those of the earlier ones |
| Entrypoint.Job.ToolCallsInstall | src/entrypoint.ts:174 | a request's calls set up exactly its own tool, with the run's authorization |
| Entrypoint.Job.RunInstalls | src/entrypoint.ts:40-146 | a tool is set up exactly when it was requested at that version |
| Entrypoint.Job.LatestUncached | src/entrypoint.ts:160-188 | "latest" is neither restored nor saved |
| Entrypoint.Job.SaveWhenMissed | src/entrypoint.ts:160-188 | a save happens exactly on a fulfilled, non-"latest" setup with no restore hit; restore exactly for a non-"latest" version without invalidation; both under the tool's own key |
| SetupClojure.Auth | src/setup-clojure.ts:18-19 | a token gives exactly `token <token>` |
| SetupClojure.InOrderAppend | src/setup-clojure.ts:21-49 | concatenating ordered call lists with increasing ranks keeps the order |
| SetupClojure.CallsInOrder | src/setup-clojure.ts:21-49 | each setup is started at most once, in source order |
| SetupClojure.CallsMembers | src/setup-clojure.ts:21-49 | a call is started exactly when it is in a part that runs |
| SetupClojure.LeinAndBoot | src/setup-clojure.ts:21-30 | Leiningen starts whenever asked for; Boot starts only off Windows |
| SetupClojure.CliAndBabashka | src/setup-clojure.ts:32-49 | the PowerShell installer runs exactly on Windows; the Linux-way setup runs off Windows or for `tools-deps`; Babashka gets the raw token |
| SetupClojure.Session.constructor | src/setup-clojure.ts:10 | a session starts with an empty log |
| SetupClojure.Session.Run | src/setup-clojure.ts:10-63 | the started setups are `Calls`; the failure is the Boot gate, else Babashka's, else "no tool" |
| SetupClojure.Session.StartRest | src/setup-clojure.ts:32-59 | the CLI and Babashka setups, and the "no tool" check |

## Left out

- `path.join` normalisation and the Windows path separator. Paths are joined with "/".
- Semantic-version matching and the architecture argument of `tc.find`. The cache is a
  map from exact (tool, version) pairs.
- The exit status of `exec`. Commands always succeed.
- HTTP retries (`maxRetries`) and the shape of HTTP errors. A failed download is
  `DownloadFailed`.
- Concurrency.
  - `readWriteAsync` is modelled as synchronous, completing before the moves that
    follow. Its callback errors, which the source does not catch, are modelled as a
    failed installation. In the source neither `fs.readFile` nor the `fs.writeFile`
    inside it is awaited (src/cli.ts:95-98 and 114-123, src/tdeps.ts:99-102 and
    118-127), so the write may land after `io.mv` has moved `clojure` into `bin`,
    recreate `clojure-tools/clojure` and leave `bin/clojure` with its placeholder.
    `ClojureTools.InstalledScriptIsPatched` holds only under the sequential reading.
  - `Promise.all` is taken one setup after another, with the first rejection in request
    order.
  - The setups that `src/setup-clojure.ts` starts without awaiting them are logged
    calls.
  - A rejection of a setup started before the cljstyle Windows throw goes unhandled in
    the source; the model does not track it.
- The tool setups that `Entrypoint` and `SetupClojure` start are logged calls with
  outcome parameters. They are not calls to the tool modules' `Setup` methods.
- The `identifier` constants of the Leiningen, Boot and CLI modules. `src/entrypoint.ts`
  uses them, but they are not defined in the modules shown. The model uses the
  tool-cache names "Leiningen", "Boot" and "ClojureToolsDeps" instead.
- src/cache.ts and `@actions/cache`, which are not part of this model.
  `restoreCache` and `saveCache` are logged calls; the restore's answer is a parameter.
- The release of the action (`VERSION`) is a parameter.
- Download and extraction directory names are scratch names numbered by the log length,
  not UUIDs.
- Archive formats. An archive is a list of members. The zip extractor reads only zip
  archives; the tar extractor reads any archive, as `tar` on the Windows runners detects
  zip by itself. This is why the Windows Babashka and cljfmt setups, which always use
  the tar extractor on a zip download, succeed.
- The "Not a file" branch of `installLeiningen`, `installBoot` and
  `installClojureToolsDeps`. A downloaded path is always a file, so a path that is not a
  file is modelled as missing, which makes `fs.statSync` throw.
- `Math.random`. The temporary-directory suffix is a parameter.
- Input trimming and defaults. `core.getInput` trims the value and the action's
  metadata supplies defaults; the model takes each input as the runner delivers it.
- `core.info`, `core.debug` and `console.log` output.
- Arguments that `setup` does not declare. `src/setup-clojure.ts` passes the
  authorization to the Leiningen and Boot setups, and they ignore it.
- The `deps.exe` input. `getTools` reads it and nothing uses it.
- `(error as Error).message` for a thrown value that is not an `Error` in
  `src/setup-clojure.ts`. Every failure there carries a message.
- zprint's `fs.chmod` is imported from src/fs.ts, which is not part of this model. It is
  modelled as a logged mode change.
- src/tdeps.ts is imported by neither entry point. Its module-level Windows throw is
  modelled as `TDeps.Setup` failing with nothing changed.
- The cljstyle test table expects zip names for version "0.15.0". The code gives that
  version the old tarball name, and the model follows the code.
- ClojureTools.MoveJars: the jar moves are made in one fixed order, not concurrently.
  The contract does not depend on the order.
