/** src/cljfmt.ts: installs the cljfmt formatter from its GitHub release archives. Its
    release tags carry no "v", so the tag is the version as it is. Only amd64 builds are
    published. */
module CljFmt {
  import opened Common
  import opened Strings
  import opened Paths
  import opened Release
  import opened ToolKit

  const Identifier: string := "cljfmt"
  const Repository: string := "weavejester/cljfmt"

  /** The platform part of an archive name, after "cljfmt-<version>-". */
  function Tail(platform: string): string
  {
    match platform
    case "win32" => "win-amd64.zip"
    case "darwin" => "darwin-amd64.tar.gz"
    case _ => "linux-amd64.tar.gz"
  }

  /** `getArtifactName`. */
  function ArtifactName(version: string, platform: string): string
  {
    "cljfmt-" + version + "-" + Tail(platform)
  }

  /** `getArtifactUrl`: published under the tag equal to the version. */
  function ArtifactUrl(version: string, platform: string): string
  {
    "https://github.com/weavejester/cljfmt/releases/download/" + version + "/" + ArtifactName(version, platform)
  }

  /** `extract`: the extractor is chosen by the file name. */
  function ExtractFormat(source: string): Format
  {
    if EndsWith(source, ".zip") then Zip else TarGz
  }

  lemma {:induction false} TailShape(platform: string)
    ensures EndsWith(Tail(platform), ".zip") <==> platform == "win32"
  {
    var t := Tail(platform);
    if platform == "win32" {
      EndsWithAppend("win-amd64", ".zip", ".zip");
    } else {
      assert t[|t| - 1] == 'z';
    }
  }

  /** The archive is a zip archive exactly on Windows, so `extract` applied to an
      archive name picks the zip extractor exactly there. */
  lemma {:induction false} ExtractFollowsPlatform(version: string, platform: string)
    ensures EndsWith(ArtifactName(version, platform), ".zip") <==> platform == "win32"
    ensures ExtractFormat(ArtifactName(version, platform)) == Zip <==> platform == "win32"
  {
    EndsWithAppend("cljfmt-" + version + "-", Tail(platform), ".zip");
    TailShape(platform);
  }

  /** A downloaded file is named by the toolkit and ends in a digit, so `extract` hands
      every download to the tar extractor. */
  lemma DownloadsGoToTar(scratch: string, n: nat)
    ensures ExtractFormat(PathJoin(scratch, Decimal(n))) == TarGz
  {
    var name := PathJoin(scratch, Decimal(n));
    assert name[|name| - 1] == Decimal(n)[|Decimal(n)| - 1];
  }

  /** Distinct versions are fetched from distinct addresses. */
  lemma {:induction false} ArtifactUrlInjective(v1: string, v2: string, platform: string)
    requires ArtifactUrl(v1, platform) == ArtifactUrl(v2, platform)
    ensures v1 == v2
  {
    var base := "https://github.com/weavejester/cljfmt/releases/download/";
    var u1, u2 := ArtifactUrl(v1, platform), ArtifactUrl(v2, platform);
    assert |u1| == |base| + 2 * |v1| + 9 + |Tail(platform)|;
    assert |u2| == |base| + 2 * |v2| + 9 + |Tail(platform)|;
    assert u1[|base|..|base| + |v1|] == v1;
    assert u2[|base|..|base| + |v2|] == v2;
  }

  /** The miss path of `setup`: download the archive at `url`, extract it into a
      directory of the toolkit's choosing and cache that directory under the version,
      answering the cached directory. It fails exactly when the address does not
      answer or the download is no archive. */
  method Fetch(r: Runner, url: string, ver: string, auth: string) returns (res: Result<string>)
    modifies r`log, r`files, r`cache
    ensures var file := PathJoin(r.scratch, Decimal(|old(r.log)|));
            var dir := PathJoin(r.scratch, Decimal(|old(r.log)| + 1));
            (res.Ok? <==> url in r.remote && r.remote[url].Archive?) &&
            (res.Ok? ==> res.value == r.CachePath(Identifier, ver) &&
                         r.log == old(r.log) + [Get(url, auth), Unpack(TarGz, file, dir), StoreDir(dir, Identifier, ver)] &&
                         r.cache == old(r.cache)[Slot(Identifier, ver) := r.CachePath(Identifier, ver)]) &&
            (res.Err? ==> r.cache == old(r.cache))
  {
    ghost var before := r.log;
    var file := r.DownloadTool(url, auth);
    if file.Err? {
      return Err(file.error);
    }
    assert file.value == PathJoin(r.scratch, Decimal(|before|));
    DownloadsGoToTar(r.scratch, |before|);
    var dir := r.Extract(ExtractFormat(file.value), file.value, None);
    if dir.Err? {
      return Err(dir.error);
    }
    assert dir.value == PathJoin(r.scratch, Decimal(|before| + 1));
    var cached := r.CacheDir(dir.value, Identifier, ver);
    res := Ok(cached);
  }

  /** `setup(version, githubAuth)`: the tag is taken without stripping; the download
      goes through `extract` and the cached directory is put on PATH. */
  method Setup(r: Runner, version: string, auth: string, reply: Reply) returns (res: Outcome)
    modifies r`log, r`files, r`cache, r`exported, r`path
    ensures r.exported == old(r.exported)
    ensures var ver := Resolve(version, reply, false, Identifier);
            var asked := if version == "latest" then [GetJson(LatestUrl(Repository), auth)] else [];
            ver.Err? ==> res == Fail(ver.error) && r.log == old(r.log) + asked &&
                         r.files == old(r.files) && r.cache == old(r.cache) && r.path == old(r.path)
    ensures var ver := Resolve(version, reply, false, Identifier);
            var asked := if version == "latest" then [GetJson(LatestUrl(Repository), auth)] else [];
            ver.Ok? && old(r.Find(Identifier, ver.value)).Some? ==>
              res == Pass && r.log == old(r.log) + asked &&
              r.files == old(r.files) && r.cache == old(r.cache) &&
              r.path == old(r.path) + [old(r.Find(Identifier, ver.value)).value]
    ensures var ver := Resolve(version, reply, false, Identifier);
            var asked := if version == "latest" then [GetJson(LatestUrl(Repository), auth)] else [];
            var start := |old(r.log)| + |asked|;
            var file := PathJoin(r.scratch, Decimal(start));
            var dir := PathJoin(r.scratch, Decimal(start + 1));
            ver.Ok? && old(r.Find(Identifier, ver.value)).None? ==>
              var url := ArtifactUrl(ver.value, r.platform);
              (res.Pass? <==> url in r.remote && r.remote[url].Archive?) &&
              (res.Pass? ==> r.log == old(r.log) + asked + [Get(url, auth), Unpack(TarGz, file, dir),
                                                          StoreDir(dir, Identifier, ver.value)] &&
                             r.cache == old(r.cache)[Slot(Identifier, ver.value) := r.CachePath(Identifier, ver.value)] &&
                             r.path == old(r.path) + [r.CachePath(Identifier, ver.value)]) &&
              (res.Fail? ==> r.cache == old(r.cache) && r.path == old(r.path))
  {
    var ver: string;
    if version == "latest" {
      r.Lookup(LatestUrl(Repository), auth);
      var latest := Latest(reply, false, Identifier);
      if latest.Err? {
        return Fail(latest.error);
      }
      ver := latest.value;
    } else {
      ver := version;
    }
    assert Resolve(version, reply, false, Identifier) == Ok(ver);
    var found := r.Find(Identifier, ver);
    var toolDir: string;
    if found.Some? {
      toolDir := found.value;
    } else {
      var dir := Fetch(r, ArtifactUrl(ver, r.platform), ver, auth);
      if dir.Err? {
        return Fail(dir.error);
      }
      toolDir := dir.value;
    }
    r.AddPath(toolDir);
    res := Pass;
  }
}
