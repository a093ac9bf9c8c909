/** src/zprint.ts: installs the zprint formatter, published as a single executable per
    platform, which is made executable and cached as the file "zprint". */
module ZPrint {
  import opened Common
  import opened Strings
  import opened Paths
  import opened Release
  import opened ToolKit

  const Identifier: string := "zprint"
  const Repository: string := "kkinnear/zprint"

  /** The part of the executable's name before the version. */
  function Stem(platform: string): string
  {
    match platform
    case "win32" => "zprint-filter-"
    case "darwin" => "zprintm-"
    case _ => "zprintl-"
  }

  /** `getArtifactName`: a bare executable, named after the version. */
  function ArtifactName(version: string, platform: string): string
  {
    Stem(platform) + version
  }

  /** `getArtifactUrl`: published under the tag equal to the version. */
  function ArtifactUrl(version: string, platform: string): string
  {
    "https://github.com/kkinnear/zprint/releases/download/" + version + "/" + ArtifactName(version, platform)
  }

  /** The name ends with the version, and the three platform families get distinct
      names for the same version; every other platform gets the Linux one. */
  lemma {:induction false} ArtifactNameShape(version: string, p1: string, p2: string)
    ensures EndsWith(ArtifactName(version, p1), version)
    ensures ArtifactName(version, p1) == ArtifactName(version, p2) <==> Stem(p1) == Stem(p2)
    ensures p1 != "win32" && p1 != "darwin" ==> ArtifactName(version, p1) == ArtifactName(version, "linux")
  {
    var n := ArtifactName(version, p1);
    assert n[|n| - |version|..] == version;
    if ArtifactName(version, p1) == ArtifactName(version, p2) {
      assert |Stem(p1)| == |Stem(p2)|;
      assert Stem(p1) == ArtifactName(version, p1)[..|Stem(p1)|];
      assert Stem(p2) == ArtifactName(version, p2)[..|Stem(p2)|];
    }
  }

  /** Distinct versions are fetched from distinct addresses. */
  lemma {:induction false} ArtifactUrlInjective(v1: string, v2: string, platform: string)
    requires ArtifactUrl(v1, platform) == ArtifactUrl(v2, platform)
    ensures v1 == v2
  {
    var base := "https://github.com/kkinnear/zprint/releases/download/";
    var u1, u2 := ArtifactUrl(v1, platform), ArtifactUrl(v2, platform);
    assert |u1| == |base| + 2 * |v1| + 1 + |Stem(platform)|;
    assert |u2| == |base| + 2 * |v2| + 1 + |Stem(platform)|;
    assert u1[|base|..|base| + |v1|] == v1;
    assert u2[|base|..|base| + |v2|] == v2;
  }

  /** The miss path of `setup`: download the executable at `url`, make it executable and
      store it in the cache as "zprint", answering the cached directory. It fails exactly
      when the address does not answer. */
  method Fetch(r: Runner, url: string, ver: string, auth: string) returns (res: Result<string>)
    modifies r`log, r`files, r`cache
    ensures var file := PathJoin(r.scratch, Decimal(|old(r.log)|));
            (res.Ok? <==> url in r.remote) &&
            (res.Ok? ==> res.value == r.CachePath(Identifier, ver) &&
                         r.log == old(r.log) + [Get(url, auth), ChmodSync(file, "0755"),
                                                StoreFile(file, Identifier, "zprint", ver)] &&
                         r.files == old(r.files)[file := r.remote[url]] &&
                         r.cache == old(r.cache)[Slot(Identifier, ver) := r.CachePath(Identifier, ver)]) &&
            (res.Err? ==> r.files == old(r.files) && r.cache == old(r.cache))
  {
    ghost var before := r.log;
    var file := r.DownloadTool(url, auth);
    if file.Err? {
      return Err(file.error);
    }
    assert file.value == PathJoin(r.scratch, Decimal(|before|));
    r.Chmod(file.value, "0755");
    var cached := r.CacheFile(file.value, "zprint", Identifier, ver);
    res := Ok(cached);
  }

  /** `setup(version, githubAuth)`: on a miss the executable is downloaded, given mode
      0755 and stored in the cache as "zprint"; the cached directory is put on PATH. */
  method Setup(r: Runner, version: string, auth: string, reply: Reply) returns (res: Outcome)
    modifies r`log, r`files, r`cache, r`exported, r`path
    ensures r.exported == old(r.exported)
    ensures var ver := Resolve(version, reply, true, Identifier);
            var asked := if version == "latest" then [GetJson(LatestUrl(Repository), auth)] else [];
            ver.Err? ==> res == Fail(ver.error) && r.log == old(r.log) + asked &&
                         r.files == old(r.files) && r.cache == old(r.cache) && r.path == old(r.path)
    ensures var ver := Resolve(version, reply, true, Identifier);
            var asked := if version == "latest" then [GetJson(LatestUrl(Repository), auth)] else [];
            ver.Ok? && old(r.Find(Identifier, ver.value)).Some? ==>
              res == Pass && r.log == old(r.log) + asked &&
              r.files == old(r.files) && r.cache == old(r.cache) &&
              r.path == old(r.path) + [old(r.Find(Identifier, ver.value)).value]
    ensures var ver := Resolve(version, reply, true, Identifier);
            var asked := if version == "latest" then [GetJson(LatestUrl(Repository), auth)] else [];
            var file := PathJoin(r.scratch, Decimal(|old(r.log)| + |asked|));
            ver.Ok? && old(r.Find(Identifier, ver.value)).None? ==>
              var url := ArtifactUrl(ver.value, r.platform);
              (res.Pass? <==> url in r.remote) &&
              (res.Pass? ==> r.log == old(r.log) + asked + [Get(url, auth), ChmodSync(file, "0755"),
                                                          StoreFile(file, Identifier, "zprint", ver.value)] &&
                             r.files == old(r.files)[file := r.remote[url]] &&
                             r.cache == old(r.cache)[Slot(Identifier, ver.value) := r.CachePath(Identifier, ver.value)] &&
                             r.path == old(r.path) + [r.CachePath(Identifier, ver.value)]) &&
              (res.Fail? ==> r.files == old(r.files) && r.cache == old(r.cache) && r.path == old(r.path))
  {
    var ver: string;
    if version == "latest" {
      r.Lookup(LatestUrl(Repository), auth);
      var latest := Latest(reply, true, Identifier);
      if latest.Err? {
        return Fail(latest.error);
      }
      ver := latest.value;
    } else {
      ver := version;
    }
    assert Resolve(version, reply, true, Identifier) == Ok(ver);
    var found := r.Find(Identifier, ver);
    var toolDir: string;
    if found.Some? {
      toolDir := found.value;
    } else {
      var dir := Fetch(r, ArtifactUrl(ver, r.platform), ver, auth);
      if dir.Err? {
        return Fail(dir.error);
      }
      toolDir := dir.value;
    }
    r.AddPath(toolDir);
    res := Pass;
  }
}
