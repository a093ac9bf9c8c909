/** src/cli.ts: installs the Clojure CLI. On Linux and macOS the clojure-tools archive is
    downloaded, laid out under a temporary directory and cached as "ClojureToolsDeps";
    on Windows the PowerShell installer is run instead. */
module Cli {
  import opened Common
  import opened Strings
  import opened Paths
  import opened Utils
  import opened ToolKit
  import opened ClojureTools

  const Tool: string := "ClojureToolsDeps"
  const ArchiveBase: string := "https://download.clojure.org/install/clojure-tools"

  /** The archive address: unversioned for "latest", `clojure-tools-<version>` otherwise. */
  function ArchiveUrl(version: string): string
  {
    ArchiveBase + (if version == "latest" then "" else "-" + version) + ".tar.gz"
  }

  /** "latest" fetches the unversioned archive; any other version names its own. */
  lemma {:induction false} ArchiveUrlShape(version: string)
    ensures ArchiveUrl("latest") == "https://download.clojure.org/install/clojure-tools.tar.gz"
    ensures version != "latest" ==>
              StartsWith(ArchiveUrl(version), ArchiveBase + "-" + version) && EndsWith(ArchiveUrl(version), ".tar.gz")
  {
    if version != "latest" {
      var u := ArchiveUrl(version);
      assert u == ArchiveBase + "-" + version + ".tar.gz";
      assert u[..|ArchiveBase + "-" + version|] == ArchiveBase + "-" + version;
      assert u[|u| - 7..] == ".tar.gz";
    }
  }

  /** Distinct versions, "latest" included, are fetched from distinct addresses. */
  lemma {:induction false} ArchiveUrlInjective(v1: string, v2: string)
    requires ArchiveUrl(v1) == ArchiveUrl(v2)
    ensures v1 == v2
  {
    if v1 != "latest" && v2 != "latest" {
      assert ArchiveUrl(v1) == ArchiveBase + "-" + v1 + ".tar.gz";
      assert ArchiveUrl(v2) == ArchiveBase + "-" + v2 + ".tar.gz";
      TemplateInjective(ArchiveBase + "-", v1, v2, ".tar.gz");
    }
  }

  function WindowsInstallerUrl(version: string): string
  {
    "download.clojure.org/install/win-install-" + version + ".ps1"
  }

  /** The PowerShell command that downloads the installer script and runs it. */
  function WindowsCommand(version: string): string
  {
    "powershell -c \"iwr -useb " + WindowsInstallerUrl(version) + " | iex\""
  }

  /** `setupWindows(version)`: the installer runs with "1" on its standard input (the
      first install location it offers). Its completion is not awaited, so nothing else
      changes. */
  method SetupWindows(r: Runner, version: string)
    modifies r`log
    ensures r.log == old(r.log) + [Run(WindowsCommand(version), WithInput("1"))]
  {
    r.Exec(WindowsCommand(version), WithInput("1"));
  }

  /** `installClojureToolsDeps(file, dest)`: the layout of `ClojureTools`, with every
      entry of `dest/clojure-tools` whose name ends in "jar" moved into `libexec`. The
      installation succeeds exactly when the archive can be read and holds the files
      the layout needs. */
  method Install(r: Runner, file: string, dest: string) returns (res: Result<string>)
    modifies r`log, r`files
    ensures |r.log| >= |old(r.log)| && r.log[..|old(r.log)|] == old(r.log)
    ensures file !in old(r.files) ==> res == Err(NoSuchFile)
    ensures file in old(r.files) && !Reads(TarGz, old(r.files)[file]) ==> res == Err(UnpackFailed)
    ensures file in old(r.files) && Reads(TarGz, old(r.files)[file]) ==>
              var ext := Overlay(old(r.files), dest, old(r.files)[file].members);
              var s := SourceDir(dest);
              (res.Ok? <==> Complete(ext, dest)) &&
              (res.Err? ==> res.error == NoSuchFile) &&
              (res.Ok? ==>
                 res.value == Home(dest) && Installed(ext, r.files, dest) &&
                 (forall x :: x in JarNames(Entries(ext, s)) ==>
                    PathJoin(s, x) in ext && PathJoin(LibexecDir(dest), x) in r.files &&
                    r.files[PathJoin(LibexecDir(dest), x)] == ext[PathJoin(s, x)]) &&
                 (forall x :: x in Entries(r.files, s) ==> !IsJar(x)))
  {
    ghost var f1 := r.files;
    var p := Prepare(r, file, dest);
    if p.Fail? {
      return Err(p.message);
    }
    ghost var ext := Overlay(f1, dest, f1[file].members);
    ghost var f2 := r.files;
    ghost var l2 := r.log;
    LayoutLengths(dest);
    ghost var jars, moves := MoveJars(r, SourceDir(dest), LibexecDir(dest));
    ghost var f3 := r.files;
    ghost var l3 := r.log;
    AfterJars(ext, f2, f3, dest, jars);
    var q := Finish(r, dest);
    assert r.log[..|l3|] == l3;
    assert l3[..|l2|] == l2;
    if q.Fail? {
      return Err(q.message);
    }
    AfterScripts(ext, f3, r.files, dest, jars);
    res := Ok(Home(dest));
  }

  /** The miss path of `setup`: download the archive at `url`, install it into `dest`
      and cache the installation under `key`, answering the cached directory. */
  method Provision(r: Runner, url: string, key: string, dest: string) returns (res: Result<string>)
    modifies r`log, r`files, r`cache
    ensures |r.log| > |old(r.log)| && r.log[|old(r.log)|] == Get(url, "")
    ensures url !in r.remote ==> res == Err(DownloadFailed)
    ensures url in r.remote && !r.remote[url].Archive? ==> res == Err(UnpackFailed)
    ensures res.Err? ==> r.cache == old(r.cache)
    ensures url in r.remote && r.remote[url].Archive? ==>
              var payload := r.remote[url];
              var file := PathJoin(r.scratch, Decimal(|old(r.log)|));
              var ext := Overlay(old(r.files)[file := payload], dest, payload.members);
              (res.Ok? <==> Complete(ext, dest)) &&
              (res.Ok? ==>
                 res.value == r.CachePath(Tool, key) &&
                 Installed(ext, r.files, dest) &&
                 r.log[|r.log| - 1] == StoreDir(Home(dest), Tool, key) &&
                 r.cache == old(r.cache)[Slot(Tool, key) := res.value])
  {
    ghost var start := |r.log|;
    var file := r.DownloadTool(url, "");
    assert r.log[start] == Get(url, "");
    if file.Err? {
      return Err(file.error);
    }
    var dir := Install(r, file.value, dest);
    assert r.log[start] == Get(url, "");
    if dir.Err? {
      return Err(dir.error);
    }
    var cached := r.CacheDir(dir.value, Tool, key);
    assert r.log[start] == Get(url, "");
    res := Ok(cached);
  }

  /** `setup(version)`: a cache hit is trusted for explicit versions only; otherwise the
      archive is downloaded, installed into a fresh temporary directory and cached under
      the normalised version. CLOJURE_INSTALL_DIR then names `lib/clojure` of the tool
      directory and its `bin` goes on PATH. */
  method Setup(r: Runner, version: string, suffix: nat) returns (res: Outcome)
    requires suffix < SuffixBound
    modifies r`log, r`files, r`cache, r`exported, r`path
    ensures var found := old(r.Find(Tool, CacheVersionString(version)));
            Trusted(found, version) ==>
              res == Pass && r.log == old(r.log) && r.files == old(r.files) && r.cache == old(r.cache) &&
              r.exported == old(r.exported)["CLOJURE_INSTALL_DIR" := PathJoin(PathJoin(found.value, "lib"), "clojure")] &&
              r.path == old(r.path) + [PathJoin(found.value, "bin")]
    ensures var key := CacheVersionString(version);
            !Trusted(old(r.Find(Tool, key)), version) ==>
              var url := ArchiveUrl(version);
              |r.log| > |old(r.log)| && r.log[|old(r.log)|] == Get(url, "") &&
              (url !in r.remote ==> res == Fail(DownloadFailed)) &&
              (url in r.remote && !r.remote[url].Archive? ==> res == Fail(UnpackFailed)) &&
              (res.Fail? ==> r.cache == old(r.cache) && r.exported == old(r.exported) && r.path == old(r.path))
    ensures var key := CacheVersionString(version);
            !Trusted(old(r.Find(Tool, key)), version) && ArchiveUrl(version) in r.remote &&
            r.remote[ArchiveUrl(version)].Archive? ==>
              var payload := r.remote[ArchiveUrl(version)];
              var file := PathJoin(r.scratch, Decimal(|old(r.log)|));
              var dest := TempDirFor(TempDir(r.env, r.platform), suffix);
              var ext := Overlay(old(r.files)[file := payload], dest, payload.members);
              var toolPath := r.CachePath(Tool, key);
              (res.Pass? <==> Complete(ext, dest)) &&
              (res.Pass? ==>
                 Installed(ext, r.files, dest) &&
                 r.log[|r.log| - 1] == StoreDir(Home(dest), Tool, key) &&
                 r.cache == old(r.cache)[Slot(Tool, key) := toolPath] &&
                 r.exported == old(r.exported)["CLOJURE_INSTALL_DIR" := PathJoin(PathJoin(toolPath, "lib"), "clojure")] &&
                 r.path == old(r.path) + [PathJoin(toolPath, "bin")])
  {
    var key := CacheVersionString(version);
    var toolPath: string;
    var found := r.Find(Tool, key);
    if found.Some? && version != "latest" {
      toolPath := found.value;
    } else {
      var dest := TempDirFor(TempDir(r.env, r.platform), suffix);
      var cached := Provision(r, ArchiveUrl(version), key, dest);
      if cached.Err? {
        return Fail(cached.error);
      }
      toolPath := cached.value;
    }
    Activate(r, toolPath);
    res := Pass;
  }
}
