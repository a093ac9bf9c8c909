/** The runner the installers act on, standing for the services they call:
    @actions/tool-cache (`find`, `downloadTool`, `extractZip`, `extractTar`, `cacheDir`,
    `cacheFile`), @actions/core (`addPath`, `exportVariable`), @actions/io (`mkdirP`,
    `mv`), `fs.chmodSync`, `fs.readFile`/`fs.writeFile` and @actions/exec. Each call is
    recorded as a `Step` in `log`; the state the installers depend on (the tool cache,
    the files they touch, the PATH additions and the exported variables) is held in
    fields. */
module ToolKit {
  import opened Common
  import opened Paths
  import opened Placeholder

  datatype Format = Zip | TarGz

  /** One file inside an archive, named by its path relative to the archive root. */
  datatype Member = Member(name: string, body: string)

  /** What a URL serves and what a file holds: text, or an archive of members. */
  datatype Payload = Text(body: string) | Archive(format: Format, members: seq<Member>)

  /** A tool-cache entry is keyed by tool name and version; the architecture is always
      the runner's own (`os.arch()`, the default of `find` and `cacheDir`). */
  datatype Slot = Slot(tool: string, version: string)

  datatype ExecOptions = InDir(cwd: string, env: map<string, string>) | WithInput(input: string)

  datatype Step =
    | GetJson(url: string, auth: string)
    | Get(url: string, auth: string)
    | Unpack(format: Format, file: string, dest: string)
    | MkdirP(dir: string)
    | Mv(src: string, dst: string)
    | ChmodSync(file: string, mode: string)
    | Run(command: string, options: ExecOptions)
    | StoreDir(src: string, tool: string, version: string)
    | StoreFile(src: string, tool: string, target: string, version: string)
    | WriteBack(file: string)

  const DownloadFailed: string := "Unexpected HTTP response: 404"
  const UnpackFailed: string := "Unable to extract archive"
  const NoSuchFile: string := "ENOENT: no such file or directory"

  /** The files an archive's members become once extracted under `dest`. */
  function Overlay(files: map<string, Payload>, dest: string, members: seq<Member>): map<string, Payload>
    decreases |members|
  {
    if members == [] then files
    else Overlay(files[PathJoin(dest, members[0].name) := Text(members[0].body)], dest, members[1..])
  }

  /** Whether an extractor reads a payload: the zip extractor reads zip archives only,
      the tar extractor reads any archive. */
  predicate Reads(format: Format, payload: Payload)
  {
    payload.Archive? && (format == TarGz || payload.format == Zip)
  }

  /** Whether `p` names a file directly inside `dir`. */
  predicate IsChild(p: string, dir: string)
  {
    |p| > |dir| + 1 && p[..|dir| + 1] == dir + "/" && '/' !in p[|dir| + 1..]
  }

  /** The names `fs.readdirSync(dir)` lists: the last components of the files directly
      inside `dir`. */
  function Entries(files: map<string, Payload>, dir: string): set<string>
  {
    set p | p in files && IsChild(p, dir) :: p[|dir| + 1..]
  }

  /** A name is listed exactly when it is a single non-empty component and the file it
      names inside `dir` exists. */
  lemma EntriesMember(files: map<string, Payload>, dir: string, name: string)
    ensures name in Entries(files, dir) <==> name != [] && '/' !in name && PathJoin(dir, name) in files
  {
    if name in Entries(files, dir) {
      var p :| p in files && IsChild(p, dir) && p[|dir| + 1..] == name;
      assert p == p[..|dir| + 1] + p[|dir| + 1..];
    }
    if name != [] && '/' !in name && PathJoin(dir, name) in files {
      var p := PathJoin(dir, name);
      assert p[..|dir| + 1] == dir + "/";
      assert p[|dir| + 1..] == name;
      assert IsChild(p, dir);
    }
  }

  /** `after` agrees with `before` on every path outside `touched`. */
  predicate Frame(before: map<string, Payload>, after: map<string, Payload>, touched: set<string>)
  {
    (forall p :: p in after && p !in touched ==> p in before && after[p] == before[p]) &&
    (forall p :: p in before && p !in touched ==> p in after)
  }

  class Runner {
    /** `os.platform()`, `os.arch()` and `process.env`. */
    const platform: string
    const arch: string
    const env: map<string, string>
    /** RUNNER_TOOL_CACHE, the root of the tool cache. */
    const toolRoot: string
    /** Where the toolkit puts downloads and extractions whose destination is not given. */
    const scratch: string
    /** What each URL serves; a URL not in the map answers 404. */
    const remote: map<string, Payload>

    /** The complete tool-cache entries. */
    var cache: map<Slot, string>
    var files: map<string, Payload>
    /** The arguments of `core.addPath`, in call order. */
    var path: seq<string>
    var exported: map<string, string>
    var log: seq<Step>

    constructor (platform: string, arch: string, env: map<string, string>, toolRoot: string,
                 scratch: string, remote: map<string, Payload>, cache: map<Slot, string>)
      ensures this.platform == platform && this.arch == arch && this.env == env
      ensures this.toolRoot == toolRoot && this.scratch == scratch && this.remote == remote
      ensures this.cache == cache && files == map[] && path == [] && exported == map[] && log == []
    {
      this.platform, this.arch, this.env := platform, arch, env;
      this.toolRoot, this.scratch, this.remote := toolRoot, scratch, remote;
      this.cache, files, path, exported, log := cache, map[], [], map[], [];
    }

    /** `tc.find(tool, version)`: the cached directory, or nothing ("" in the source). */
    function Find(tool: string, version: string): Option<string>
      reads this
    {
      if Slot(tool, version) in cache then Some(cache[Slot(tool, version)]) else None
    }

    /** Where `cacheDir` and `cacheFile` store an entry. */
    function CachePath(tool: string, version: string): string
    {
      PathJoin(PathJoin(PathJoin(toolRoot, tool), version), arch)
    }

    /** The name the toolkit gives the next download or extraction of its own choosing
        (a UUID in the source). */
    function Fresh(): string
      reads this
    {
      PathJoin(scratch, Decimal(|log|))
    }

    /** The entries `fs.readdirSync(dir)` lists. */
    function ReadDir(dir: string): set<string>
      reads this
    {
      Entries(files, dir)
    }

    /** `client.getJson` on the release API. */
    method Lookup(url: string, auth: string)
      modifies this`log
      ensures log == old(log) + [GetJson(url, auth)]
    {
      log := log + [GetJson(url, auth)];
    }

    /** `tc.downloadTool(url, undefined, auth)`. */
    method DownloadTool(url: string, auth: string) returns (res: Result<string>)
      modifies this`log, this`files
      ensures log == old(log) + [Get(url, auth)]
      ensures url in remote ==> res == Ok(old(Fresh())) && files == old(files)[old(Fresh()) := remote[url]]
      ensures url !in remote ==> res == Err(DownloadFailed) && files == old(files)
    {
      var file := Fresh();
      log := log + [Get(url, auth)];
      if url in remote {
        files := files[file := remote[url]];
        res := Ok(file);
      } else {
        res := Err(DownloadFailed);
      }
    }

    /** `tc.extractZip(file)` / `tc.extractTar(file[, dest])`: the members of an archive of
        the right format are written under the destination, which is returned. */
    method Extract(format: Format, file: string, dest: Option<string>) returns (res: Result<string>)
      modifies this`log, this`files
      ensures var d := if dest.Some? then dest.value else old(Fresh());
              log == old(log) + [Unpack(format, file, d)] &&
              (if file in old(files) && Reads(format, old(files)[file])
               then res == Ok(d) && files == Overlay(old(files), d, old(files)[file].members)
               else res == Err(UnpackFailed) && files == old(files))
    {
      var d := if dest.Some? then dest.value else Fresh();
      log := log + [Unpack(format, file, d)];
      if file in files && Reads(format, files[file]) {
        files := Overlay(files, d, files[file].members);
        res := Ok(d);
      } else {
        res := Err(UnpackFailed);
      }
    }

    /** `io.mkdirP(dir)`. Directories are not tracked. */
    method MakeDir(dir: string)
      modifies this`log
      ensures log == old(log) + [MkdirP(dir)]
    {
      log := log + [MkdirP(dir)];
    }

    /** `io.mv(src, dst)`: fails when there is nothing at `src`. */
    method Move(src: string, dst: string) returns (ok: bool)
      modifies this`log, this`files
      ensures log == old(log) + [Mv(src, dst)]
      ensures ok == (src in old(files))
      ensures ok ==> files == (old(files) - {src})[dst := old(files)[src]]
      ensures !ok ==> files == old(files)
    {
      log := log + [Mv(src, dst)];
      ok := src in files;
      if ok {
        files := (files - {src})[dst := files[src]];
      }
    }

    /** `io.mv(srcDir/name, dir)` onto an existing directory: the file keeps its name
        inside `dir`. */
    method MoveInto(srcDir: string, name: string, dir: string) returns (ok: bool)
      modifies this`log, this`files
      ensures log == old(log) + [Mv(PathJoin(srcDir, name), dir)]
      ensures ok == (PathJoin(srcDir, name) in old(files))
      ensures ok ==> files == (old(files) - {PathJoin(srcDir, name)})[PathJoin(dir, name) := old(files)[PathJoin(srcDir, name)]]
      ensures !ok ==> files == old(files)
    {
      var src := PathJoin(srcDir, name);
      log := log + [Mv(src, dir)];
      ok := src in files;
      if ok {
        files := (files - {src})[PathJoin(dir, name) := files[src]];
      }
    }

    /** `fs.chmodSync(file, mode)`. Permissions are not tracked. */
    method Chmod(file: string, mode: string)
      modifies this`log
      ensures log == old(log) + [ChmodSync(file, mode)]
    {
      log := log + [ChmodSync(file, mode)];
    }

    /** `exec.exec(command, [], options)`; the command is assumed to succeed. */
    method Exec(command: string, options: ExecOptions)
      modifies this`log
      ensures log == old(log) + [Run(command, options)]
    {
      log := log + [Run(command, options)];
    }

    /** `tc.cacheDir(src, tool, version)`: the entry is complete and its path returned. */
    method CacheDir(src: string, tool: string, version: string) returns (dir: string)
      modifies this`log, this`cache
      ensures dir == CachePath(tool, version)
      ensures cache == old(cache)[Slot(tool, version) := dir]
      ensures log == old(log) + [StoreDir(src, tool, version)]
    {
      dir := CachePath(tool, version);
      cache := cache[Slot(tool, version) := dir];
      log := log + [StoreDir(src, tool, version)];
    }

    /** `tc.cacheFile(src, target, tool, version)`: the single file is stored as `target`. */
    method CacheFile(src: string, target: string, tool: string, version: string) returns (dir: string)
      modifies this`log, this`cache
      ensures dir == CachePath(tool, version)
      ensures cache == old(cache)[Slot(tool, version) := dir]
      ensures log == old(log) + [StoreFile(src, tool, target, version)]
    {
      dir := CachePath(tool, version);
      cache := cache[Slot(tool, version) := dir];
      log := log + [StoreFile(src, tool, target, version)];
    }

    /** `core.addPath(dir)`. */
    method AddPath(dir: string)
      modifies this`path
      ensures path == old(path) + [dir]
    {
      path := path + [dir];
    }

    /** `core.exportVariable(name, value)`. */
    method ExportVariable(name: string, value: string)
      modifies this`exported
      ensures exported == old(exported)[name := value]
    {
      exported := exported[name := value];
    }

    /** `readWriteAsync(file, replacement)`: the text of `file` is read, every placeholder
        replaced and the result written back to the same file. Reading a missing file
        throws. */
    method Rewrite(file: string, replacement: string) returns (ok: bool)
      modifies this`log, this`files
      ensures ok == (file in old(files) && old(files)[file].Text?)
      ensures ok ==> files == old(files)[file := Text(ReplaceAll(old(files)[file].body, replacement))]
      ensures ok ==> log == old(log) + [WriteBack(file)]
      ensures !ok ==> files == old(files) && log == old(log)
    {
      ok := file in files && files[file].Text?;
      if ok {
        files := files[file := Text(ReplaceAll(files[file].body, replacement))];
        log := log + [WriteBack(file)];
      }
    }
  }
}
