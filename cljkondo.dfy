/** src/clj-kondo.ts: installs the clj-kondo linter from its GitHub release archives,
    which are zip archives on every platform. */
module CljKondo {
  import opened Common
  import opened Strings
  import opened Paths
  import opened Release
  import opened ToolKit

  const Identifier: string := "clj-kondo"
  const Repository: string := "clj-kondo/clj-kondo"

  function ArchLabel(arch: string): string
  {
    if arch == "arm64" then "aarch64" else "amd64"
  }

  function OsLabel(platform: string): string
  {
    match platform
    case "win32" => "windows"
    case "darwin" => "macos"
    case _ => "linux"
  }

  /** `getArtifactName`. */
  function ArtifactName(version: string, platform: string, arch: string): string
  {
    "clj-kondo-" + version + "-" + OsLabel(platform) + "-" + ArchLabel(arch) + ".zip"
  }

  /** `getArtifactUrl`: published under the tag "v" + version. */
  function ArtifactUrl(version: string, platform: string, arch: string): string
  {
    "https://github.com/clj-kondo/clj-kondo/releases/download/v" + version + "/" + ArtifactName(version, platform, arch)
  }

  /** Every archive is a zip archive named after the version, whatever the platform. */
  lemma {:induction false} ArtifactNameShape(version: string, platform: string, arch: string)
    ensures StartsWith(ArtifactName(version, platform, arch), "clj-kondo-" + version + "-")
    ensures EndsWith(ArtifactName(version, platform, arch), ".zip")
  {
    var prefix := "clj-kondo-" + version + "-";
    var rest := OsLabel(platform) + "-" + ArchLabel(arch);
    assert ArtifactName(version, platform, arch) == prefix + rest + ".zip";
    assert ArtifactName(version, platform, arch)[..|prefix|] == prefix;
    EndsWithAppend(prefix + rest, ".zip", ".zip");
  }

  /** Distinct platform families get distinct archives, and every platform other than
      win32 and darwin gets the Linux one. */
  lemma {:induction false} ArtifactNamePlatforms(version: string, p1: string, p2: string, arch: string)
    ensures ArtifactName(version, p1, arch) == ArtifactName(version, p2, arch) <==> OsLabel(p1) == OsLabel(p2)
    ensures p1 != "win32" && p1 != "darwin" ==> ArtifactName(version, p1, arch) == ArtifactName(version, "linux", arch)
  {
    var prefix, a := "clj-kondo-" + version + "-", "-" + ArchLabel(arch) + ".zip";
    assert ArtifactName(version, p1, arch) == prefix + OsLabel(p1) + a;
    assert ArtifactName(version, p2, arch) == prefix + OsLabel(p2) + a;
    if ArtifactName(version, p1, arch) == ArtifactName(version, p2, arch) {
      TemplateInjective(prefix, OsLabel(p1), OsLabel(p2), a);
    }
  }

  /** Distinct versions are fetched from distinct addresses. */
  lemma {:induction false} ArtifactUrlInjective(v1: string, v2: string, platform: string, arch: string)
    requires ArtifactUrl(v1, platform, arch) == ArtifactUrl(v2, platform, arch)
    ensures v1 == v2
  {
    var base := "https://github.com/clj-kondo/clj-kondo/releases/download/v";
    var rest := "-" + OsLabel(platform) + "-" + ArchLabel(arch) + ".zip";
    var u1, u2 := ArtifactUrl(v1, platform, arch), ArtifactUrl(v2, platform, arch);
    assert |u1| == |base| + 2 * |v1| + 11 + |rest|;
    assert |u2| == |base| + 2 * |v2| + 11 + |rest|;
    assert u1[|base|..|base| + |v1|] == v1;
    assert u2[|base|..|base| + |v2|] == v2;
  }

  /** The miss path of `setup`: download the archive at `url`, unzip it into a
      directory of the toolkit's choosing and cache that directory under the version,
      answering the cached directory. It fails exactly when the address does not
      answer or the download is no zip archive. */
  method Fetch(r: Runner, url: string, ver: string, auth: string) returns (res: Result<string>)
    modifies r`log, r`files, r`cache
    ensures var file := PathJoin(r.scratch, Decimal(|old(r.log)|));
            var dir := PathJoin(r.scratch, Decimal(|old(r.log)| + 1));
            (res.Ok? <==> url in r.remote && Reads(Zip, r.remote[url])) &&
            (res.Ok? ==> res.value == r.CachePath(Identifier, ver) &&
                         r.log == old(r.log) + [Get(url, auth), Unpack(Zip, file, dir), StoreDir(dir, Identifier, ver)] &&
                         r.cache == old(r.cache)[Slot(Identifier, ver) := r.CachePath(Identifier, ver)]) &&
            (res.Err? ==> r.cache == old(r.cache))
  {
    ghost var before := r.log;
    var file := r.DownloadTool(url, auth);
    if file.Err? {
      return Err(file.error);
    }
    assert file.value == PathJoin(r.scratch, Decimal(|before|));
    var dir := r.Extract(Zip, file.value, None);
    if dir.Err? {
      return Err(dir.error);
    }
    assert dir.value == PathJoin(r.scratch, Decimal(|before| + 1));
    var cached := r.CacheDir(dir.value, Identifier, ver);
    res := Ok(cached);
  }

  /** `setup(version, githubAuth)`: like Babashka's, except that the download always goes
      to the zip extractor and the directory put on PATH after a download is the cached
      one. */
  method Setup(r: Runner, version: string, auth: string, reply: Reply) returns (res: Outcome)
    modifies r`log, r`files, r`cache, r`exported, r`path
    ensures r.exported == old(r.exported)
    ensures var ver := Resolve(version, reply, true, Identifier);
            var asked := if version == "latest" then [GetJson(LatestUrl(Repository), auth)] else [];
            ver.Err? ==> res == Fail(ver.error) && r.log == old(r.log) + asked &&
                         r.files == old(r.files) && r.cache == old(r.cache) && r.path == old(r.path)
    ensures var ver := Resolve(version, reply, true, Identifier);
            var asked := if version == "latest" then [GetJson(LatestUrl(Repository), auth)] else [];
            ver.Ok? && old(r.Find(Identifier, ver.value)).Some? ==>
              res == Pass && r.log == old(r.log) + asked &&
              r.files == old(r.files) && r.cache == old(r.cache) &&
              r.path == old(r.path) + [old(r.Find(Identifier, ver.value)).value]
    ensures var ver := Resolve(version, reply, true, Identifier);
            var asked := if version == "latest" then [GetJson(LatestUrl(Repository), auth)] else [];
            var start := |old(r.log)| + |asked|;
            var file := PathJoin(r.scratch, Decimal(start));
            var dir := PathJoin(r.scratch, Decimal(start + 1));
            ver.Ok? && old(r.Find(Identifier, ver.value)).None? ==>
              var url := ArtifactUrl(ver.value, r.platform, r.arch);
              (res.Pass? <==> url in r.remote && Reads(Zip, r.remote[url])) &&
              (res.Pass? ==> r.log == old(r.log) + asked + [Get(url, auth), Unpack(Zip, file, dir),
                                                          StoreDir(dir, Identifier, ver.value)] &&
                             r.cache == old(r.cache)[Slot(Identifier, ver.value) := r.CachePath(Identifier, ver.value)] &&
                             r.path == old(r.path) + [r.CachePath(Identifier, ver.value)]) &&
              (res.Fail? ==> r.cache == old(r.cache) && r.path == old(r.path))
  {
    var ver: string;
    if version == "latest" {
      r.Lookup(LatestUrl(Repository), auth);
      var latest := Latest(reply, true, Identifier);
      if latest.Err? {
        return Fail(latest.error);
      }
      ver := latest.value;
    } else {
      ver := version;
    }
    assert Resolve(version, reply, true, Identifier) == Ok(ver);
    var found := r.Find(Identifier, ver);
    var toolDir: string;
    if found.Some? {
      toolDir := found.value;
    } else {
      var dir := Fetch(r, ArtifactUrl(ver, r.platform, r.arch), ver, auth);
      if dir.Err? {
        return Fail(dir.error);
      }
      toolDir := dir.value;
    }
    r.AddPath(toolDir);
    res := Pass;
  }
}
