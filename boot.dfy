/** src/boot.ts: installs Boot from its bootstrap script. The script is moved into
    `<temp>/boot/bin` and run once, with `-u` for "latest" and `-V` otherwise, in an
    environment built for it; the `boot` directory is then cached under the normalised
    version. */
module Boot {
  import opened Common
  import opened Strings
  import opened Paths
  import opened Utils
  import opened ToolKit

  const Tool: string := "Boot"
  const ScriptUrl: string := "https://github.com/boot-clj/boot-bin/releases/download/latest/boot.sh"

  /** The command run in the bin directory: `-u` updates to the latest Boot, `-V` pins
      the version given in BOOT_VERSION. */
  function BootCommand(version: string): string
  {
    "./boot " + (if version == "latest" then "-u" else "-V")
  }

  /** The environment of that command: BOOT_HOME, BOOT_VERSION for an explicit version,
      and PATH and JAVA_CMD copied from the process when they are non-empty. Nothing else
      of the process environment is passed. */
  function ChildEnv(version: string, home: string, env: map<string, string>): map<string, string>
  {
    var base := map["BOOT_HOME" := home];
    var pinned := if version == "latest" then base else base["BOOT_VERSION" := version];
    var withPath := if "PATH" in env && env["PATH"] != "" then pinned["PATH" := env["PATH"]] else pinned;
    if "JAVA_CMD" in env && env["JAVA_CMD"] != "" then withPath["JAVA_CMD" := env["JAVA_CMD"]] else withPath
  }

  lemma ChildEnvContents(version: string, home: string, env: map<string, string>)
    ensures var e := ChildEnv(version, home, env);
            e.Keys <= {"BOOT_HOME", "BOOT_VERSION", "PATH", "JAVA_CMD"} &&
            "BOOT_HOME" in e && e["BOOT_HOME"] == home &&
            ("BOOT_VERSION" in e <==> version != "latest") &&
            ("BOOT_VERSION" in e ==> e["BOOT_VERSION"] == version) &&
            ("PATH" in e <==> "PATH" in env && env["PATH"] != "") &&
            ("PATH" in e ==> e["PATH"] == env["PATH"]) &&
            ("JAVA_CMD" in e <==> "JAVA_CMD" in env && env["JAVA_CMD"] != "") &&
            ("JAVA_CMD" in e ==> e["JAVA_CMD"] == env["JAVA_CMD"])
  {
  }

  /** `installBoot(binScript, destinationFolder, version)`. */
  method Install(r: Runner, binScript: string, dest: string, version: string) returns (res: Result<string>)
    modifies r`log, r`files
    ensures var home := PathJoin(dest, "boot");
            var binDir := PathJoin(home, "bin");
            var target := PathJoin(binDir, "boot");
            (binScript !in old(r.files) ==>
               res == Err(NoSuchFile) && r.files == old(r.files) && r.log == old(r.log) + [MkdirP(dest)]) &&
            (binScript in old(r.files) ==>
               res == Ok(home) &&
               r.files == (old(r.files) - {binScript})[target := old(r.files)[binScript]] &&
               r.log == old(r.log) + [MkdirP(dest), MkdirP(binDir), Mv(binScript, target),
                                      ChmodSync(target, "0755"),
                                      Run(BootCommand(version), InDir(binDir, ChildEnv(version, home, r.env)))])
  {
    r.MakeDir(dest);
    if binScript !in r.files {
      return Err(NoSuchFile);
    }
    var home := PathJoin(dest, "boot");
    var binDir := PathJoin(home, "bin");
    r.MakeDir(binDir);
    var moved := r.Move(binScript, PathJoin(binDir, "boot"));
    r.Chmod(PathJoin(binDir, "boot"), "0755");
    var env: map<string, string>;
    if version == "latest" {
      env := map["BOOT_HOME" := home];
    } else {
      env := map["BOOT_HOME" := home, "BOOT_VERSION" := version];
    }
    if "PATH" in r.env && r.env["PATH"] != "" {
      env := env["PATH" := r.env["PATH"]];
    }
    if "JAVA_CMD" in r.env && r.env["JAVA_CMD"] != "" {
      env := env["JAVA_CMD" := r.env["JAVA_CMD"]];
    }
    r.Exec(BootCommand(version), InDir(binDir, env));
    res := Ok(home);
  }

  /** The miss path of `setup`: download the bootstrap script, install it into `dest`
      for `version` and cache the installation under `key`, answering the cached
      directory. Only the download can fail. */
  method Provision(r: Runner, key: string, dest: string, version: string) returns (res: Result<string>)
    modifies r`log, r`files, r`cache
    ensures |r.log| > |old(r.log)| && r.log[|old(r.log)|] == Get(ScriptUrl, "")
    ensures res.Ok? <==> ScriptUrl in r.remote
    ensures res.Ok? ==>
              res.value == r.CachePath(Tool, key) &&
              r.log[|r.log| - 1] == StoreDir(PathJoin(dest, "boot"), Tool, key) &&
              PathJoin(PathJoin(PathJoin(dest, "boot"), "bin"), "boot") in r.files &&
              r.cache == old(r.cache)[Slot(Tool, key) := res.value]
    ensures res.Err? ==> res.error == DownloadFailed && r.cache == old(r.cache)
  {
    ghost var start := |r.log|;
    var file := r.DownloadTool(ScriptUrl, "");
    if file.Err? {
      return Err(file.error);
    }
    var dir := Install(r, file.value, dest, version);
    if dir.Err? {
      assert false;
    }
    var cached := r.CacheDir(dir.value, Tool, key);
    assert r.log[start] == Get(ScriptUrl, "");
    res := Ok(cached);
  }

  /** The end of `setup`: BOOT_HOME names the tool directory, BOOT_VERSION is exported
      for an explicit version, and `bin` goes on PATH. */
  method Activate(r: Runner, toolPath: string, version: string)
    modifies r`exported, r`path
    ensures r.exported == (if version == "latest" then old(r.exported)["BOOT_HOME" := toolPath]
                           else old(r.exported)["BOOT_HOME" := toolPath]["BOOT_VERSION" := version])
    ensures r.path == old(r.path) + [PathJoin(toolPath, "bin")]
  {
    r.ExportVariable("BOOT_HOME", toolPath);
    if version != "latest" {
      r.ExportVariable("BOOT_VERSION", version);
    }
    r.AddPath(PathJoin(toolPath, "bin"));
  }

  /** `setup(version)`: like Leiningen's, with the fixed bootstrap address; BOOT_HOME
      names the installation and BOOT_VERSION is exported for an explicit version. */
  method Setup(r: Runner, version: string, suffix: nat) returns (res: Outcome)
    requires suffix < SuffixBound
    modifies r`log, r`files, r`cache, r`exported, r`path
    ensures var key := CacheVersionString(version);
            var found := old(r.Find(Tool, key));
            Trusted(found, version) ==>
              res == Pass && r.log == old(r.log) && r.files == old(r.files) && r.cache == old(r.cache) &&
              r.exported == old(r.exported)["BOOT_HOME" := found.value]
                              ["BOOT_VERSION" := version] &&
              r.path == old(r.path) + [PathJoin(found.value, "bin")]
    ensures var key := CacheVersionString(version);
            !Trusted(old(r.Find(Tool, key)), version) ==>
              var dest := TempDirFor(OwnTempDir(r.env, r.platform), suffix);
              var toolPath := r.CachePath(Tool, key);
              |r.log| > |old(r.log)| && r.log[|old(r.log)|] == Get(ScriptUrl, "") &&
              (res.Pass? <==> ScriptUrl in r.remote) &&
              (res.Pass? ==>
                 r.log[|r.log| - 1] == StoreDir(PathJoin(dest, "boot"), Tool, key) &&
                 PathJoin(PathJoin(PathJoin(dest, "boot"), "bin"), "boot") in r.files &&
                 r.cache == old(r.cache)[Slot(Tool, key) := toolPath] &&
                 r.exported == (if version == "latest" then old(r.exported)["BOOT_HOME" := toolPath]
                                else old(r.exported)["BOOT_HOME" := toolPath]["BOOT_VERSION" := version]) &&
                 r.path == old(r.path) + [PathJoin(toolPath, "bin")]) &&
              (res.Fail? ==> r.cache == old(r.cache) && r.exported == old(r.exported) && r.path == old(r.path))
  {
    var key := CacheVersionString(version);
    var toolPath: string;
    var found := r.Find(Tool, key);
    if found.Some? && version != "latest" {
      toolPath := found.value;
    } else {
      var dest := TempDirFor(OwnTempDir(r.env, r.platform), suffix);
      var cached := Provision(r, key, dest, version);
      if cached.Err? {
        return Fail(cached.error);
      }
      toolPath := cached.value;
    }
    Activate(r, toolPath, version);
    res := Pass;
  }
}
