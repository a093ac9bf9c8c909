/** src/leiningen.ts: installs Leiningen from its launcher script. The script is fetched
    from the Leiningen repository, moved into `<temp>/leiningen/bin`, run once with
    `version` so that it downloads its own jar, and the whole `leiningen` directory is
    cached under the normalised version. */
module Leiningen {
  import opened Common
  import opened Strings
  import opened Paths
  import opened Utils
  import opened ToolKit

  const Tool: string := "Leiningen"

  /** The launcher's file name: "lein.bat" on Windows, "lein" elsewhere. */
  function ScriptName(platform: string): string
  {
    if IsWindows(platform) then "lein.bat" else "lein"
  }

  /** The download address: the launcher from the "stable" branch for "latest", from
      the tag named by the version otherwise. */
  function ScriptUrl(version: string, platform: string): string
  {
    "https://raw.githubusercontent.com/technomancy/leiningen/" +
    (if version == "latest" then "stable" else version) + "/bin/" + ScriptName(platform)
  }

  /** The command that lets the launcher fetch its jar, run from the bin directory. */
  function VersionCommand(platform: string): string
  {
    "." + (if IsWindows(platform) then "\\" else "/") + ScriptName(platform) + " version"
  }

  /** An explicit version is fetched from the tag it names. */
  lemma {:induction false} ScriptUrlTag(version: string, platform: string)
    requires version != "latest"
    ensures StartsWith(ScriptUrl(version, platform),
                       "https://raw.githubusercontent.com/technomancy/leiningen/" + version + "/bin/")
  {
    var p := "https://raw.githubusercontent.com/technomancy/leiningen/" + version + "/bin/";
    assert ScriptUrl(version, platform) == p + ScriptName(platform);
    assert (p + ScriptName(platform))[..|p|] == p;
  }

  /** The Windows launcher, and only it, is the batch file. */
  lemma {:induction false} ScriptUrlBatch(version: string, platform: string)
    ensures EndsWith(ScriptUrl(version, platform), ".bat") <==> IsWindows(platform)
  {
    var u := ScriptUrl(version, platform);
    var front := "https://raw.githubusercontent.com/technomancy/leiningen/" +
                 (if version == "latest" then "stable" else version) + "/bin/";
    assert u == front + ScriptName(platform);
    if IsWindows(platform) {
      EndsWithAppend(front + "lein", ".bat", ".bat");
      assert u == (front + "lein") + ".bat";
    } else {
      assert u[|u| - 1] == 'n';
    }
  }

  /** Where each explicit version comes from, and that "latest" is fetched from the
      branch "stable"; the Windows launcher is the batch file. */
  lemma ScriptUrlShape(version: string, platform: string)
    ensures var base := "https://raw.githubusercontent.com/technomancy/leiningen/";
            version != "latest" ==> StartsWith(ScriptUrl(version, platform), base + version + "/bin/")
    ensures ScriptUrl("latest", platform) == ScriptUrl("stable", platform)
    ensures EndsWith(ScriptUrl(version, platform), ".bat") <==> IsWindows(platform)
  {
    if version != "latest" {
      ScriptUrlTag(version, platform);
    }
    ScriptUrlBatch(version, platform);
  }

  /** Distinct explicit versions are fetched from distinct addresses, and no explicit
      version is fetched from the address of "latest" unless it names the branch
      "stable" itself. */
  lemma {:induction false} ScriptUrlInjective(v1: string, v2: string, platform: string)
    requires ScriptUrl(v1, platform) == ScriptUrl(v2, platform)
    ensures v1 == v2 || {v1, v2} == {"latest", "stable"}
  {
    var base := "https://raw.githubusercontent.com/technomancy/leiningen/";
    var b1 := if v1 == "latest" then "stable" else v1;
    var b2 := if v2 == "latest" then "stable" else v2;
    var tail := "/bin/" + ScriptName(platform);
    assert ScriptUrl(v1, platform) == base + b1 + tail;
    assert ScriptUrl(v2, platform) == base + b2 + tail;
    TemplateInjective(base, b1, b2, tail);
  }

  /** `installLeiningen(binScript, destinationFolder)`. A file that is not there makes
      `fs.statSync` throw. */
  method Install(r: Runner, binScript: string, dest: string) returns (res: Result<string>)
    modifies r`log, r`files
    ensures var home := PathJoin(dest, "leiningen");
            var binDir := PathJoin(home, "bin");
            var target := PathJoin(binDir, ScriptName(r.platform));
            var chmod := if IsWindows(r.platform) then [] else [ChmodSync(PathJoin(binDir, "lein"), "0755")];
            (binScript !in old(r.files) ==>
               res == Err(NoSuchFile) && r.files == old(r.files) && r.log == old(r.log) + [MkdirP(dest)]) &&
            (binScript in old(r.files) ==>
               res == Ok(home) &&
               r.files == (old(r.files) - {binScript})[target := old(r.files)[binScript]] &&
               r.log == old(r.log) + [MkdirP(dest), MkdirP(binDir), Mv(binScript, target)] + chmod +
                        [Run(VersionCommand(r.platform), InDir(binDir, map["LEIN_HOME" := home]))])
  {
    r.MakeDir(dest);
    if binScript !in r.files {
      return Err(NoSuchFile);
    }
    var home := PathJoin(dest, "leiningen");
    var binDir := PathJoin(home, "bin");
    r.MakeDir(binDir);
    var moved := r.Move(binScript, PathJoin(binDir, ScriptName(r.platform)));
    if !IsWindows(r.platform) {
      r.Chmod(PathJoin(binDir, "lein"), "0755");
    }
    r.Exec(VersionCommand(r.platform), InDir(binDir, map["LEIN_HOME" := home]));
    res := Ok(home);
  }

  /** The miss path of `setup`: download the launcher at `url`, install it into `dest`
      and cache the installation under `key`, answering the cached directory. It fails
      exactly when the launcher's address does not answer. */
  method Provision(r: Runner, url: string, key: string, dest: string) returns (res: Result<string>)
    modifies r`log, r`files, r`cache
    ensures |r.log| > |old(r.log)| && r.log[|old(r.log)|] == Get(url, "")
    ensures res.Ok? <==> url in r.remote
    ensures res.Ok? ==>
              res.value == r.CachePath(Tool, key) &&
              r.log[|r.log| - 1] == StoreDir(PathJoin(dest, "leiningen"), Tool, key) &&
              PathJoin(PathJoin(PathJoin(dest, "leiningen"), "bin"), ScriptName(r.platform)) in r.files &&
              r.cache == old(r.cache)[Slot(Tool, key) := res.value]
    ensures res.Err? ==> res.error == DownloadFailed && r.cache == old(r.cache)
  {
    ghost var start := |r.log|;
    var file := r.DownloadTool(url, "");
    assert r.log[start] == Get(url, "");
    if file.Err? {
      return Err(file.error);
    }
    var dir := Install(r, file.value, dest);
    if dir.Err? {
      assert false;
    }
    assert r.log[start] == Get(url, "");
    var cached := r.CacheDir(dir.value, Tool, key);
    assert r.log[start] == Get(url, "");
    res := Ok(cached);
  }

  /** The end of `setup`: LEIN_HOME names the tool directory and its `bin` goes on
      PATH. */
  method Activate(r: Runner, toolPath: string)
    modifies r`exported, r`path
    ensures r.exported == old(r.exported)["LEIN_HOME" := toolPath]
    ensures r.path == old(r.path) + [PathJoin(toolPath, "bin")]
  {
    r.ExportVariable("LEIN_HOME", toolPath);
    r.AddPath(PathJoin(toolPath, "bin"));
  }

  /** `setup(version)`: a trusted cache hit is used as it is; otherwise the launcher is
      installed into a fresh temporary directory and cached under the normalised
      version. Either way LEIN_HOME names the installation and its `bin` goes on PATH. */
  method Setup(r: Runner, version: string, suffix: nat) returns (res: Outcome)
    requires suffix < SuffixBound
    modifies r`log, r`files, r`cache, r`exported, r`path
    ensures var key := CacheVersionString(version);
            var found := old(r.Find(Tool, key));
            Trusted(found, version) ==>
              res == Pass && r.log == old(r.log) && r.files == old(r.files) && r.cache == old(r.cache) &&
              r.exported == old(r.exported)["LEIN_HOME" := found.value] &&
              r.path == old(r.path) + [PathJoin(found.value, "bin")]
    ensures var key := CacheVersionString(version);
            !Trusted(old(r.Find(Tool, key)), version) ==>
              var url := ScriptUrl(version, r.platform);
              var dest := TempDirFor(TempDir(r.env, r.platform), suffix);
              var toolPath := r.CachePath(Tool, key);
              |r.log| > |old(r.log)| && r.log[|old(r.log)|] == Get(url, "") &&
              (res.Pass? <==> url in r.remote) &&
              (res.Pass? ==>
                 r.log[|r.log| - 1] == StoreDir(PathJoin(dest, "leiningen"), Tool, key) &&
                 PathJoin(PathJoin(PathJoin(dest, "leiningen"), "bin"), ScriptName(r.platform)) in r.files &&
                 r.cache == old(r.cache)[Slot(Tool, key) := toolPath] &&
                 r.exported == old(r.exported)["LEIN_HOME" := toolPath] &&
                 r.path == old(r.path) + [PathJoin(toolPath, "bin")]) &&
              (res.Fail? ==> r.cache == old(r.cache) && r.exported == old(r.exported) && r.path == old(r.path))
  {
    var key := CacheVersionString(version);
    var toolPath: string;
    var found := r.Find(Tool, key);
    if found.Some? && version != "latest" {
      toolPath := found.value;
    } else {
      var dest := TempDirFor(TempDir(r.env, r.platform), suffix);
      var cached := Provision(r, ScriptUrl(version, r.platform), key, dest);
      if cached.Err? {
        return Fail(cached.error);
      }
      toolPath := cached.value;
    }
    Activate(r, toolPath);
    res := Pass;
  }
}
