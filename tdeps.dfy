/** src/tdeps.ts: the older Clojure CLI installer. It fetches the versioned
    clojure-tools archive, lays it out as `ClojureTools` describes with the single jar
    `clojure-tools-<version>.jar` in `libexec`, and caches it as "ClojureToolsDeps". The
    module refuses to load on Windows. */
module TDeps {
  import opened Common
  import opened Strings
  import opened Paths
  import opened Utils
  import opened Placeholder
  import opened ToolKit
  import opened ClojureTools

  const Tool: string := "ClojureToolsDeps"
  const WindowsUnsupported: string := "Windows is not supported yet."

  /** The archive address; "latest" gets no special treatment. */
  function ArchiveUrl(version: string): string
  {
    "https://download.clojure.org/install/clojure-tools-" + version + ".tar.gz"
  }

  /** The one jar the installer moves. */
  function JarName(version: string): string
  {
    "clojure-tools-" + version + ".jar"
  }

  /** Every version, "latest" included, is fetched from its own address. */
  lemma {:induction false} ArchiveUrlInjective(v1: string, v2: string)
    requires ArchiveUrl(v1) == ArchiveUrl(v2)
    ensures v1 == v2
  {
    TemplateInjective("https://download.clojure.org/install/clojure-tools-", v1, v2, ".tar.gz");
  }

  /** The last character of a join is that of its last component. */
  lemma LastOfJoin(d: string, n: string)
    requires n != []
    ensures PathJoin(d, n)[|PathJoin(d, n)| - 1] == n[|n| - 1]
  {
  }

  /** The jar, wherever it is, is none of the files the other moves touch: its name ends
      in "r" and none of theirs does. */
  lemma JarApart(d: string, version: string, dest: string)
    ensures PathJoin(d, JarName(version)) !in DocPaths(dest)
    ensures PathJoin(d, JarName(version)) !in ScriptPaths(dest)
  {
    var s := SourceDir(dest);
    var l := LibDir(dest);
    var b := BinDir(dest);
    var m := ManDir(dest);
    LastOfJoin(d, JarName(version));
    LastOfJoin(s, "deps.edn");
    LastOfJoin(s, "example-deps.edn");
    LastOfJoin(l, "deps.edn");
    LastOfJoin(l, "example-deps.edn");
    LastOfJoin(s, "clj");
    LastOfJoin(s, "clojure");
    LastOfJoin(s, "clojure.1");
    LastOfJoin(s, "clj.1");
    LastOfJoin(b, "clj");
    LastOfJoin(b, "clojure");
    LastOfJoin(m, "clojure.1");
    LastOfJoin(m, "clj.1");
  }

  /** A script or manual page of the extracted tree is untouched by the `deps.edn` and
      jar moves. */
  lemma ScriptKeptPastJar(ext: map<string, Payload>, f2: map<string, Payload>, f3: map<string, Payload>,
                          dest: string, version: string, n: string)
    requires n in {"clj", "clojure", "clojure.1", "clj.1"}
    requires Frame(ext, f2, DocPaths(dest))
    requires var j := PathJoin(SourceDir(dest), JarName(version));
             j in f2 && f3 == (f2 - {j})[PathJoin(LibexecDir(dest), JarName(version)) := f2[j]]
    ensures Same(f3, ext, PathJoin(SourceDir(dest), n))
  {
    var s := SourceDir(dest);
    PlainNames();
    LayoutLengths(dest);
    JarApart(s, version, dest);
    JarApart(LibexecDir(dest), version, dest);
    assert PathJoin(s, n) in ScriptPaths(dest);
    JoinEq(s, n, s, "deps.edn");
    JoinEq(s, n, s, "example-deps.edn");
    JoinEq(s, n, LibDir(dest), "deps.edn");
    JoinEq(s, n, LibDir(dest), "example-deps.edn");
  }

  /** What the jar move leaves for the last phase. */
  lemma AfterJar(ext: map<string, Payload>, f2: map<string, Payload>, f3: map<string, Payload>,
                 dest: string, version: string)
    requires var s := SourceDir(dest);
             var l := LibDir(dest);
             PathJoin(s, "deps.edn") in ext && PathJoin(s, "example-deps.edn") in ext &&
             PathJoin(l, "deps.edn") in f2 && f2[PathJoin(l, "deps.edn")] == ext[PathJoin(s, "deps.edn")] &&
             PathJoin(l, "example-deps.edn") in f2 &&
             f2[PathJoin(l, "example-deps.edn")] == ext[PathJoin(s, "example-deps.edn")] &&
             Frame(ext, f2, DocPaths(dest))
    requires var j := PathJoin(SourceDir(dest), JarName(version));
             j in f2 && f3 == (f2 - {j})[PathJoin(LibexecDir(dest), JarName(version)) := f2[j]]
    ensures var s := SourceDir(dest);
            Same(f3, ext, PathJoin(s, "clj")) && Same(f3, ext, PathJoin(s, "clojure")) &&
            Same(f3, ext, PathJoin(s, "clojure.1")) && Same(f3, ext, PathJoin(s, "clj.1"))
    ensures var s := SourceDir(dest);
            var l := LibDir(dest);
            PathJoin(l, "deps.edn") in f3 && f3[PathJoin(l, "deps.edn")] == ext[PathJoin(s, "deps.edn")] &&
            PathJoin(l, "example-deps.edn") in f3 &&
            f3[PathJoin(l, "example-deps.edn")] == ext[PathJoin(s, "example-deps.edn")]
    ensures var j := PathJoin(SourceDir(dest), JarName(version));
            j in ext && PathJoin(LibexecDir(dest), JarName(version)) in f3 &&
            f3[PathJoin(LibexecDir(dest), JarName(version))] == ext[j]
  {
    var s := SourceDir(dest);
    var l := LibDir(dest);
    ScriptKeptPastJar(ext, f2, f3, dest, version, "clj");
    ScriptKeptPastJar(ext, f2, f3, dest, version, "clojure");
    ScriptKeptPastJar(ext, f2, f3, dest, version, "clojure.1");
    ScriptKeptPastJar(ext, f2, f3, dest, version, "clj.1");
    JarApart(s, version, dest);
    JarApart(LibexecDir(dest), version, dest);
    assert PathJoin(l, "deps.edn") in DocPaths(dest) && PathJoin(l, "example-deps.edn") in DocPaths(dest);
  }

  /** The last phase keeps the jar and the `deps.edn` files where they were placed. */
  lemma AfterScriptsWithJar(ext: map<string, Payload>, f3: map<string, Payload>, f4: map<string, Payload>,
                            dest: string, version: string)
    requires Complete(ext, dest)
    requires var s := SourceDir(dest);
             Same(f3, ext, PathJoin(s, "clj")) && Same(f3, ext, PathJoin(s, "clojure")) &&
             Same(f3, ext, PathJoin(s, "clojure.1")) && Same(f3, ext, PathJoin(s, "clj.1"))
    requires var s := SourceDir(dest);
             var l := LibDir(dest);
             PathJoin(l, "deps.edn") in f3 && f3[PathJoin(l, "deps.edn")] == ext[PathJoin(s, "deps.edn")] &&
             PathJoin(l, "example-deps.edn") in f3 &&
             f3[PathJoin(l, "example-deps.edn")] == ext[PathJoin(s, "example-deps.edn")]
    requires var j := PathJoin(SourceDir(dest), JarName(version));
             j in ext && PathJoin(LibexecDir(dest), JarName(version)) in f3 &&
             f3[PathJoin(LibexecDir(dest), JarName(version))] == ext[j]
    requires var c := PathJoin(SourceDir(dest), "clojure");
             Placed(f3[c := Text(ReplaceAll(f3[c].body, InstallDirRef))], f4, dest)
    ensures Installed(ext, f4, dest)
    ensures var j := PathJoin(SourceDir(dest), JarName(version));
            PathJoin(LibexecDir(dest), JarName(version)) in f4 &&
            f4[PathJoin(LibexecDir(dest), JarName(version))] == ext[j]
  {
    var l := LibDir(dest);
    PlainNames();
    LayoutLengths(dest);
    OutsideScripts(l, "deps.edn", dest);
    OutsideScripts(l, "example-deps.edn", dest);
    JarApart(LibexecDir(dest), version, dest);
  }

  /** `installClojureToolsDeps(file, dest, version)`: the layout of `ClojureTools` with
      `clojure-tools-<version>.jar` moved into `libexec`. It succeeds exactly when the
      archive can be read and holds that jar and the files the layout needs. */
  method Install(r: Runner, file: string, dest: string, version: string) returns (res: Result<string>)
    modifies r`log, r`files
    ensures |r.log| >= |old(r.log)| && r.log[..|old(r.log)|] == old(r.log)
    ensures file !in old(r.files) ==> res == Err(NoSuchFile)
    ensures file in old(r.files) && !Reads(TarGz, old(r.files)[file]) ==> res == Err(UnpackFailed)
    ensures file in old(r.files) && Reads(TarGz, old(r.files)[file]) ==>
              var ext := Overlay(old(r.files), dest, old(r.files)[file].members);
              var j := PathJoin(SourceDir(dest), JarName(version));
              (res.Ok? <==> Complete(ext, dest) && j in ext) &&
              (res.Err? ==> res.error == NoSuchFile) &&
              (res.Ok? ==>
                 res.value == Home(dest) && Installed(ext, r.files, dest) &&
                 PathJoin(LibexecDir(dest), JarName(version)) in r.files &&
                 r.files[PathJoin(LibexecDir(dest), JarName(version))] == ext[j])
  {
    ghost var f1 := r.files;
    var p := Prepare(r, file, dest);
    if p.Fail? {
      return Err(p.message);
    }
    ghost var ext := Overlay(f1, dest, f1[file].members);
    ghost var f2 := r.files;
    ghost var l2 := r.log;
    JarApart(SourceDir(dest), version, dest);
    var ok := r.MoveInto(SourceDir(dest), JarName(version), LibexecDir(dest));
    if !ok {
      return Err(NoSuchFile);
    }
    ghost var f3 := r.files;
    ghost var l3 := r.log;
    AfterJar(ext, f2, f3, dest, version);
    var q := Finish(r, dest);
    assert r.log[..|l3|] == l3;
    assert l3[..|l2|] == l2;
    if q.Fail? {
      return Err(q.message);
    }
    AfterScriptsWithJar(ext, f3, r.files, dest, version);
    res := Ok(Home(dest));
  }

  /** The miss path of `setup`: download the archive at `url`, install it and the jar
      of `version` into `dest` and cache the installation under `key`, answering the
      cached directory. */
  method Provision(r: Runner, url: string, key: string, dest: string, version: string) returns (res: Result<string>)
    modifies r`log, r`files, r`cache
    ensures |r.log| > |old(r.log)| && r.log[|old(r.log)|] == Get(url, "")
    ensures url !in r.remote ==> res == Err(DownloadFailed)
    ensures url in r.remote && !r.remote[url].Archive? ==> res == Err(UnpackFailed)
    ensures res.Err? ==> r.cache == old(r.cache)
    ensures url in r.remote && r.remote[url].Archive? ==>
              var payload := r.remote[url];
              var file := PathJoin(r.scratch, Decimal(|old(r.log)|));
              var ext := Overlay(old(r.files)[file := payload], dest, payload.members);
              (res.Ok? <==> Complete(ext, dest) && PathJoin(SourceDir(dest), JarName(version)) in ext) &&
              (res.Ok? ==>
                 res.value == r.CachePath(Tool, key) &&
                 Installed(ext, r.files, dest) &&
                 PathJoin(LibexecDir(dest), JarName(version)) in r.files &&
                 r.log[|r.log| - 1] == StoreDir(Home(dest), Tool, key) &&
                 r.cache == old(r.cache)[Slot(Tool, key) := res.value])
  {
    ghost var start := |r.log|;
    var file := r.DownloadTool(url, "");
    assert r.log[start] == Get(url, "");
    if file.Err? {
      return Err(file.error);
    }
    var dir := Install(r, file.value, dest, version);
    assert r.log[start] == Get(url, "");
    if dir.Err? {
      return Err(dir.error);
    }
    var cached := r.CacheDir(dir.value, Tool, key);
    assert r.log[start] == Get(url, "");
    res := Ok(cached);
  }

  /** `setup(version)`, after the module has loaded: on Windows loading fails and nothing
      happens. Any cache hit is used, "latest" included; otherwise the archive is
      downloaded, installed into a fresh temporary directory and cached under the
      normalised version. CLOJURE_INSTALL_DIR then names `lib/clojure` of the tool
      directory and its `bin` goes on PATH. */
  method Setup(r: Runner, version: string, suffix: nat) returns (res: Outcome)
    requires suffix < SuffixBound
    modifies r`log, r`files, r`cache, r`exported, r`path
    ensures IsWindows(r.platform) ==>
              res == Fail(WindowsUnsupported) && r.log == old(r.log) && r.files == old(r.files) &&
              r.cache == old(r.cache) && r.exported == old(r.exported) && r.path == old(r.path)
    ensures var found := old(r.Find(Tool, CacheVersionString(version)));
            !IsWindows(r.platform) && found.Some? ==>
              res == Pass && r.log == old(r.log) && r.files == old(r.files) && r.cache == old(r.cache) &&
              r.exported == old(r.exported)["CLOJURE_INSTALL_DIR" := PathJoin(PathJoin(found.value, "lib"), "clojure")] &&
              r.path == old(r.path) + [PathJoin(found.value, "bin")]
    ensures var key := CacheVersionString(version);
            !IsWindows(r.platform) && old(r.Find(Tool, key)).None? ==>
              var url := ArchiveUrl(version);
              |r.log| > |old(r.log)| && r.log[|old(r.log)|] == Get(url, "") &&
              (url !in r.remote ==> res == Fail(DownloadFailed)) &&
              (url in r.remote && !r.remote[url].Archive? ==> res == Fail(UnpackFailed)) &&
              (res.Fail? ==> r.cache == old(r.cache) && r.exported == old(r.exported) && r.path == old(r.path))
    ensures var key := CacheVersionString(version);
            !IsWindows(r.platform) && old(r.Find(Tool, key)).None? && ArchiveUrl(version) in r.remote &&
            r.remote[ArchiveUrl(version)].Archive? ==>
              var payload := r.remote[ArchiveUrl(version)];
              var file := PathJoin(r.scratch, Decimal(|old(r.log)|));
              var dest := TempDirFor(OwnTempDir(r.env, r.platform), suffix);
              var ext := Overlay(old(r.files)[file := payload], dest, payload.members);
              var toolPath := r.CachePath(Tool, key);
              (res.Pass? <==> Complete(ext, dest) && PathJoin(SourceDir(dest), JarName(version)) in ext) &&
              (res.Pass? ==>
                 Installed(ext, r.files, dest) &&
                 PathJoin(LibexecDir(dest), JarName(version)) in r.files &&
                 r.log[|r.log| - 1] == StoreDir(Home(dest), Tool, key) &&
                 r.cache == old(r.cache)[Slot(Tool, key) := toolPath] &&
                 r.exported == old(r.exported)["CLOJURE_INSTALL_DIR" := PathJoin(PathJoin(toolPath, "lib"), "clojure")] &&
                 r.path == old(r.path) + [PathJoin(toolPath, "bin")])
  {
    if IsWindows(r.platform) {
      return Fail(WindowsUnsupported);
    }
    var key := CacheVersionString(version);
    var toolPath: string;
    var found := r.Find(Tool, key);
    if found.Some? {
      toolPath := found.value;
    } else {
      var dest := TempDirFor(OwnTempDir(r.env, r.platform), suffix);
      var cached := Provision(r, ArchiveUrl(version), key, dest, version);
      if cached.Err? {
        return Fail(cached.error);
      }
      toolPath := cached.value;
    }
    Activate(r, toolPath);
    res := Pass;
  }
}
