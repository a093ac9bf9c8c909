/** src/babashka.ts: installs the Babashka interpreter from its GitHub release archives. */
module Babashka {
  import opened Common
  import opened Strings
  import opened Paths
  import opened Release
  import opened ToolKit

  const Identifier: string := "Babashka"
  const Repository: string := "babashka/babashka"

  /** The architecture label of the release archives: "aarch64" on arm64, "amd64" on
      every other architecture. */
  function ArchLabel(arch: string): string
  {
    if arch == "arm64" then "aarch64" else "amd64"
  }

  /** The platform part of an archive name, after "babashka-<version>-". */
  function Tail(platform: string, arch: string): string
  {
    match platform
    case "win32" => "windows-" + ArchLabel(arch) + ".zip"
    case "darwin" => "macos-" + ArchLabel(arch) + ".tar.gz"
    case _ => "linux-" + ArchLabel(arch) + "-static.tar.gz"
  }

  /** `getArtifactName`: the release archive for a version on a platform. */
  function ArtifactName(version: string, platform: string, arch: string): string
  {
    "babashka-" + version + "-" + Tail(platform, arch)
  }

  /** `getArtifactUrl`: the archive is published under the tag "v" + version. */
  function ArtifactUrl(version: string, platform: string, arch: string): string
  {
    "https://github.com/babashka/babashka/releases/download/v" + version + "/" + ArtifactName(version, platform, arch)
  }

  /** `extract`: the extractor is chosen by the file name. */
  function ExtractFormat(source: string): Format
  {
    if EndsWith(source, ".zip") then Zip else TarGz
  }

  lemma {:induction false} TailShape(platform: string, arch: string)
    ensures EndsWith(Tail(platform, arch), ".zip") <==> platform == "win32"
    ensures EndsWith(Tail(platform, arch), ".tar.gz") <==> platform != "win32"
  {
    var t, a := Tail(platform, arch), ArchLabel(arch);
    if platform == "win32" {
      EndsWithAppend("windows-" + a, ".zip", ".zip");
      assert t[|t| - 1] == 'p';
    } else if platform == "darwin" {
      EndsWithAppend("macos-" + a, ".tar.gz", ".tar.gz");
      assert t[|t| - 1] == 'z';
    } else {
      EndsWithAppend("linux-" + a + "-static", ".tar.gz", ".tar.gz");
      assert t[|t| - 1] == 'z';
    }
  }

  /** The archive name starts with the version and is a zip archive on Windows and a
      gzipped tarball everywhere else. */
  lemma {:induction false} ArtifactNameShape(version: string, platform: string, arch: string)
    ensures StartsWith(ArtifactName(version, platform, arch), "babashka-" + version + "-")
    ensures EndsWith(ArtifactName(version, platform, arch), ".zip") <==> platform == "win32"
    ensures EndsWith(ArtifactName(version, platform, arch), ".tar.gz") <==> platform != "win32"
  {
    var prefix, t := "babashka-" + version + "-", Tail(platform, arch);
    assert |t| >= 7;
    assert ArtifactName(version, platform, arch)[..|prefix|] == prefix;
    EndsWithAppend(prefix, t, ".zip");
    EndsWithAppend(prefix, t, ".tar.gz");
    TailShape(platform, arch);
  }

  /** The archive of one version is never the archive of another: the version is part of
      both the file name and the download address. */
  lemma {:induction false} ArtifactUrlInjective(v1: string, v2: string, platform: string, arch: string)
    requires ArtifactUrl(v1, platform, arch) == ArtifactUrl(v2, platform, arch)
    ensures v1 == v2
  {
    var base := "https://github.com/babashka/babashka/releases/download/v";
    var u1, u2 := ArtifactUrl(v1, platform, arch), ArtifactUrl(v2, platform, arch);
    assert |u1| == |base| + 2 * |v1| + 11 + |Tail(platform, arch)|;
    assert |u2| == |base| + 2 * |v2| + 11 + |Tail(platform, arch)|;
    assert u1[|base|..|base| + |v1|] == v1;
    assert u2[|base|..|base| + |v2|] == v2;
  }

  /** Every platform the source does not name gets the Linux archive. */
  lemma OtherPlatformsGetLinux(version: string, platform: string, arch: string)
    requires platform != "win32" && platform != "darwin"
    ensures ArtifactName(version, platform, arch) == ArtifactName(version, "linux", arch)
  {
  }

  /** Applied to the archive names, `extract` picks the zip extractor exactly for the
      Windows archive. */
  lemma ExtractFollowsPlatform(version: string, platform: string, arch: string)
    ensures ExtractFormat(ArtifactName(version, platform, arch)) == Zip <==> platform == "win32"
  {
    ArtifactNameShape(version, platform, arch);
  }

  /** A downloaded file is named by the toolkit, not after the archive: its name ends
      in a digit, so `extract` hands every download to the tar extractor. */
  lemma DownloadsGoToTar(scratch: string, n: nat)
    ensures ExtractFormat(PathJoin(scratch, Decimal(n))) == TarGz
  {
    var name := PathJoin(scratch, Decimal(n));
    assert name[|name| - 1] == Decimal(n)[|Decimal(n)| - 1];
  }

  /** The miss path of `setup`: download the archive at `url`, extract it into a
      directory of the toolkit's choosing and cache that directory under the version.
      It fails exactly when the address does not answer or the download is no archive. */
  method Fetch(r: Runner, url: string, ver: string, auth: string) returns (res: Result<string>)
    modifies r`log, r`files, r`cache
    ensures var file := PathJoin(r.scratch, Decimal(|old(r.log)|));
            var dir := PathJoin(r.scratch, Decimal(|old(r.log)| + 1));
            (res.Ok? <==> url in r.remote && r.remote[url].Archive?) &&
            (res.Ok? ==> res.value == dir &&
                         r.log == old(r.log) + [Get(url, auth), Unpack(TarGz, file, dir), StoreDir(dir, Identifier, ver)] &&
                         r.cache == old(r.cache)[Slot(Identifier, ver) := r.CachePath(Identifier, ver)]) &&
            (res.Err? ==> r.cache == old(r.cache))
  {
    ghost var before := r.log;
    var file := r.DownloadTool(url, auth);
    if file.Err? {
      return Err(file.error);
    }
    assert file.value == PathJoin(r.scratch, Decimal(|before|));
    DownloadsGoToTar(r.scratch, |before|);
    var dir := r.Extract(ExtractFormat(file.value), file.value, None);
    if dir.Err? {
      return Err(dir.error);
    }
    assert dir.value == PathJoin(r.scratch, Decimal(|before| + 1));
    var _ := r.CacheDir(dir.value, Identifier, ver);
    res := Ok(dir.value);
  }

  /** `setup(version, githubAuth)`: resolve "latest" through the release API, reuse a
      cached copy when there is one, otherwise download, extract and cache the archive;
      the directory put on PATH is the cached one on a hit and the extracted one on a
      miss. */
  method Setup(r: Runner, version: string, auth: string, reply: Reply) returns (res: Outcome)
    modifies r`log, r`files, r`cache, r`exported, r`path
    ensures r.exported == old(r.exported)
    ensures var ver := Resolve(version, reply, true, Identifier);
            var asked := if version == "latest" then [GetJson(LatestUrl(Repository), auth)] else [];
            ver.Err? ==> res == Fail(ver.error) && r.log == old(r.log) + asked &&
                         r.files == old(r.files) && r.cache == old(r.cache) && r.path == old(r.path)
    ensures var ver := Resolve(version, reply, true, Identifier);
            var asked := if version == "latest" then [GetJson(LatestUrl(Repository), auth)] else [];
            ver.Ok? && old(r.Find(Identifier, ver.value)).Some? ==>
              res == Pass && r.log == old(r.log) + asked &&
              r.files == old(r.files) && r.cache == old(r.cache) &&
              r.path == old(r.path) + [old(r.Find(Identifier, ver.value)).value]
    ensures var ver := Resolve(version, reply, true, Identifier);
            var asked := if version == "latest" then [GetJson(LatestUrl(Repository), auth)] else [];
            var start := |old(r.log)| + |asked|;
            var file := PathJoin(r.scratch, Decimal(start));
            var dir := PathJoin(r.scratch, Decimal(start + 1));
            ver.Ok? && old(r.Find(Identifier, ver.value)).None? ==>
              var url := ArtifactUrl(ver.value, r.platform, r.arch);
              (res.Pass? <==> url in r.remote && r.remote[url].Archive?) &&
              (res.Pass? ==> r.log == old(r.log) + asked + [Get(url, auth), Unpack(TarGz, file, dir),
                                                          StoreDir(dir, Identifier, ver.value)] &&
                             r.cache == old(r.cache)[Slot(Identifier, ver.value) := r.CachePath(Identifier, ver.value)] &&
                             r.path == old(r.path) + [dir]) &&
              (res.Fail? ==> r.cache == old(r.cache) && r.path == old(r.path))
  {
    var ver: string;
    if version == "latest" {
      r.Lookup(LatestUrl(Repository), auth);
      var latest := Latest(reply, true, Identifier);
      if latest.Err? {
        return Fail(latest.error);
      }
      ver := latest.value;
    } else {
      ver := version;
    }
    assert Resolve(version, reply, true, Identifier) == Ok(ver);
    var found := r.Find(Identifier, ver);
    var toolDir: string;
    if found.Some? {
      toolDir := found.value;
    } else {
      var dir := Fetch(r, ArtifactUrl(ver, r.platform, r.arch), ver, auth);
      if dir.Err? {
        return Fail(dir.error);
      }
      toolDir := dir.value;
    }
    r.AddPath(toolDir);
    res := Pass;
  }
}
