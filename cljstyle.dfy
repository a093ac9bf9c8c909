/** src/cljstyle.ts: installs the cljstyle formatter from its GitHub release archives.
    Which archive exists depends on the version: releases after 0.15 are zip archives
    built per architecture, older ones are x86-64 tarballs. */
module CljStyle {
  import opened Common
  import opened Strings
  import opened Paths
  import opened Release
  import opened ToolKit

  const Identifier: string := "cljstyle"
  const Repository: string := "greglook/cljstyle"
  const OnlyX64: string := "This cljstyle version only supports x86-64 architecture."

  // ---------------------------------------------------------------------------------
  // `parseInt(n)` with no radix, as `getArtifactName` applies it to each version part.

  /** The characters `parseInt` skips before the number (JavaScript's white space and
      line terminators). */
  predicate IsSpace(c: char)
  {
    c == '\t' || c == '\n' || c == '\U{B}' || c == '\U{C}' || c == '\r' || c == ' ' ||
    c == '\U{A0}' || c == '\U{1680}' || ('\U{2000}' <= c <= '\U{200A}') ||
    c == '\U{2028}' || c == '\U{2029}' || c == '\U{202F}' || c == '\U{205F}' ||
    c == '\U{3000}' || c == '\U{FEFF}'
  }

  function TrimStart(s: string): string
  {
    if s != [] && IsSpace(s[0]) then TrimStart(s[1..]) else s
  }

  /** The value of an ASCII digit or letter as a digit of base up to 36, or 36 when it
      is neither. */
  function DigitValue(c: char): nat
  {
    if '0' <= c <= '9' then c as nat - '0' as nat
    else if 'a' <= c <= 'z' then c as nat - 'a' as nat + 10
    else if 'A' <= c <= 'Z' then c as nat - 'A' as nat + 10
    else 36
  }

  predicate IsDigitIn(c: char, radix: nat)
  {
    DigitValue(c) < radix
  }

  /** The longest prefix of `s` made of digits of the radix. */
  function DigitRun(s: string, radix: nat): string
  {
    if s != [] && IsDigitIn(s[0], radix) then [s[0]] + DigitRun(s[1..], radix) else []
  }

  /** The number the digits spell, most significant first, after the digits already
      read into `acc`. */
  function Value(d: string, radix: nat, acc: nat): nat
  {
    if d == [] then acc else Value(d[1..], radix, acc * radix + DigitValue(d[0]))
  }

  /** The digits after the sign: a "0x"/"0X" prefix selects base 16, anything else is
      read in base 10; no digit at all is NaN (`None`). */
  function Unsigned(u: string): Option<nat>
  {
    var hex := |u| >= 2 && u[0] == '0' && (u[1] == 'x' || u[1] == 'X');
    var radix := if hex then 16 else 10;
    var d := DigitRun(if hex then u[2..] else u, radix);
    if d == [] then None else Some(Value(d, radix, 0))
  }

  /** `parseInt(s)`: leading white space is skipped, then an optional sign, then the
      digits as `Unsigned` reads them. */
  function ParseInt(s: string): Option<int>
  {
    var t := TrimStart(s);
    var signed := t != [] && (t[0] == '-' || t[0] == '+');
    var m: Option<int> := Unsigned(if signed then t[1..] else t);
    if m.None? then None
    else if signed && t[0] == '-' then Some(-m.value)
    else Some(m.value)
  }


  lemma {:induction false} DigitRunOfDigits(d: string, rest: string, radix: nat)
    requires forall i :: 0 <= i < |d| ==> IsDigitIn(d[i], radix)
    requires rest == [] || !IsDigitIn(rest[0], radix)
    ensures DigitRun(d + rest, radix) == d
    decreases |d|
  {
    if d != [] {
      assert (d + rest)[1..] == d[1..] + rest;
      DigitRunOfDigits(d[1..], rest, radix);
    }
  }

  /** Reading one more digit multiplies what was read by the radix and adds it. */
  lemma {:induction false} ValueSnoc(d: string, c: char, radix: nat, acc: nat)
    ensures Value(d + [c], radix, acc) == Value(d, radix, acc) * radix + DigitValue(c)
    decreases |d|
  {
    if d != [] {
      assert (d + [c])[1..] == d[1..] + [c];
      ValueSnoc(d[1..], c, radix, acc * radix + DigitValue(d[0]));
    } else {
      assert [c][1..] == [];
    }
  }

  lemma {:induction false} ValueOfDecimal(n: nat)
    ensures Value(Decimal(n), 10, 0) == n
  {
    if n >= 10 {
      ValueOfDecimal(n / 10);
      ValueSnoc(Decimal(n / 10), (48 + n % 10) as char, 10, 0);
    }
  }

  /** A string starting with an ASCII letter or digit has nothing for `parseInt` to
      skip and no sign. */
  lemma StartsPlain(s: string)
    requires s != [] && DigitValue(s[0]) < 36
    ensures TrimStart(s) == s && s[0] != '-' && s[0] != '+'
  {
    assert !IsSpace(s[0]);
  }

  /** `parseInt` reads back a decimal rendering, and stops at the first character that
      is not a digit: "16-beta" gives 16. */
  lemma {:induction false} ParseIntDecimal(n: nat, rest: string)
    requires rest == [] || (!IsDigitIn(rest[0], 10) && rest[0] != 'x' && rest[0] != 'X')
    ensures ParseInt(Decimal(n) + rest) == Some(n)
  {
    var s := Decimal(n) + rest;
    assert s[0] == Decimal(n)[0];
    StartsPlain(s);
    if n >= 10 {
      assert Decimal(n)[0] == Decimal(n / 10)[0];
    }
    DigitRunOfDigits(Decimal(n), rest, 10);
    ValueOfDecimal(n);
    assert Unsigned(s) == Some(n);
  }

  /** A part with no digit where the number should be is NaN. */
  lemma ParseIntNaN(s: string)
    requires s == [] || (IsDigitIn(s[0], 36) && !IsDigitIn(s[0], 10))
    ensures ParseInt(s) == None
  {
    if s != [] {
      StartsPlain(s);
    }
  }

  // ---------------------------------------------------------------------------------

  /** `major > 0 || minor > 15`, where major and minor are the first two dot-separated
      parts of the version read by `parseInt`; a missing part is `undefined` and NaN
      and `undefined` compare false. */
  predicate NewScheme(version: string)
  {
    var parts := Split(version, '.');
    var major := ParseInt(parts[0]);
    var minor := if |parts| >= 2 then ParseInt(parts[1]) else None;
    (major.Some? && major.value > 0) || (minor.Some? && minor.value > 15)
  }

  /** For a numeric "major.minor.patch" version the new archives start after 0.15. */
  lemma {:induction false} NewSchemeOfNumbers(major: nat, minor: nat, patch: string)
    ensures NewScheme(Decimal(major) + "." + Decimal(minor) + "." + patch) <==> major > 0 || minor > 15
  {
    var a, b := Decimal(major), Decimal(minor);
    assert '.' !in a && '.' !in b;
    assert a + "." + b + "." + patch == a + ['.'] + (b + ['.'] + patch);
    SplitAfterPart(a, b + ['.'] + patch, '.');
    SplitAfterPart(b, patch, '.');
    ParseIntDecimal(major, []);
    assert a + [] == a;
    ParseIntDecimal(minor, []);
    assert b + [] == b;
  }

  /** A version without a dot is judged by its major number alone. */
  lemma {:induction false} NewSchemeOfMajorOnly(major: nat)
    ensures NewScheme(Decimal(major)) <==> major > 0
  {
    SplitWithoutSeparator(Decimal(major), '.');
    ParseIntDecimal(major, []);
    assert Decimal(major) + [] == Decimal(major);
  }

  function ArchLabel(arch: string): string
  {
    if arch == "arm64" then "arm64" else "amd64"
  }

  function OsLabel(platform: string): string
  {
    if platform == "darwin" then "macos" else "linux"
  }

  /** The archive name of a release after 0.15. */
  function NewName(version: string, platform: string, arch: string): string
  {
    "cljstyle_" + version + "_" + OsLabel(platform) + "_" + ArchLabel(arch) + ".zip"
  }

  /** The archive name of a release up to 0.15. */
  function OldName(version: string, platform: string): string
  {
    "cljstyle_" + version + "_" + OsLabel(platform) + ".tar.gz"
  }

  /** `getArtifactName`: new releases are per-architecture zip archives; old releases
      are x86-64 tarballs, and asking for one on another architecture throws. Windows
      gets the Linux name. */
  function ArtifactName(version: string, platform: string, arch: string): Result<string>
  {
    if NewScheme(version) then Ok(NewName(version, platform, arch))
    else if ArchLabel(arch) != "amd64" then Err(OnlyX64)
    else Ok(OldName(version, platform))
  }

  /** `getArtifactUrl`: published under the tag equal to the version. */
  function ArtifactUrl(version: string, platform: string, arch: string): Result<string>
  {
    var name := ArtifactName(version, platform, arch);
    if name.Err? then Err(name.error)
    else Ok("https://github.com/greglook/cljstyle/releases/download/" + version + "/" + name.value)
  }

  lemma {:induction false} NewNameShape(version: string, platform: string, arch: string)
    ensures StartsWith(NewName(version, platform, arch), "cljstyle_" + version + "_")
    ensures EndsWith(NewName(version, platform, arch), ".zip")
    ensures |NewName(version, platform, arch)| == |version| + 25
  {
    var prefix, body := "cljstyle_" + version + "_", OsLabel(platform) + "_" + ArchLabel(arch);
    assert NewName(version, platform, arch) == prefix + body + ".zip";
    assert (prefix + body + ".zip")[..|prefix|] == prefix;
    EndsWithAppend(prefix + body, ".zip", ".zip");
  }

  lemma {:induction false} OldNameShape(version: string, platform: string)
    ensures StartsWith(OldName(version, platform), "cljstyle_" + version + "_")
    ensures !EndsWith(OldName(version, platform), ".zip")
    ensures |OldName(version, platform)| == |version| + 22
  {
    var prefix, n := "cljstyle_" + version + "_", OldName(version, platform);
    assert n == prefix + (OsLabel(platform) + ".tar.gz");
    assert n[..|prefix|] == prefix;
    assert n[|n| - 1] == 'z';
  }

  /** The name is refused exactly for an old version on arm64; otherwise it is a zip
      archive exactly for a new version. */
  lemma {:induction false} ArtifactNameCases(version: string, platform: string, arch: string)
    ensures ArtifactName(version, platform, arch).Err? <==> !NewScheme(version) && arch == "arm64"
    ensures ArtifactName(version, platform, arch).Err? ==> ArtifactName(version, platform, arch).error == OnlyX64
    ensures ArtifactName(version, platform, arch).Ok? ==>
              StartsWith(ArtifactName(version, platform, arch).value, "cljstyle_" + version + "_") &&
              (EndsWith(ArtifactName(version, platform, arch).value, ".zip") <==> NewScheme(version))
  {
    NewNameShape(version, platform, arch);
    OldNameShape(version, platform);
  }

  /** Distinct versions are fetched from distinct addresses. */
  lemma {:induction false} ArtifactUrlInjective(v1: string, v2: string, platform: string, arch: string)
    requires ArtifactUrl(v1, platform, arch).Ok? && ArtifactUrl(v2, platform, arch).Ok?
    requires ArtifactUrl(v1, platform, arch).value == ArtifactUrl(v2, platform, arch).value
    ensures v1 == v2
  {
    UrlShape(v1, platform, arch);
    UrlShape(v2, platform, arch);
    // a new-scheme name is three characters longer than an old-scheme one, so the
    // address lengths, 2|v| plus a constant, cannot agree across schemes
    assert |v1| == |v2|;
  }

  lemma {:induction false} UrlShape(v: string, platform: string, arch: string)
    requires ArtifactUrl(v, platform, arch).Ok?
    ensures var u := ArtifactUrl(v, platform, arch).value;
            (|u| == 56 + 2 * |v| + 25 || |u| == 56 + 2 * |v| + 22) &&
            |u| >= 55 + |v| && u[55..55 + |v|] == v
  {
    var base := "https://github.com/greglook/cljstyle/releases/download/";
    assert |base| == 55;
    NewNameShape(v, platform, arch);
    OldNameShape(v, platform);
    var u := ArtifactUrl(v, platform, arch).value;
    assert u == base + v + ("/" + ArtifactName(v, platform, arch).value);
  }

  /** The part of `setup` after a cache miss, given the outcome of `getArtifactUrl`:
      download, unzip and cache the archive, and put the cached directory on PATH. */
  method Install(r: Runner, ver: string, url: Result<string>, auth: string) returns (res: Outcome)
    modifies r`log, r`files, r`cache, r`exported, r`path
    ensures r.exported == old(r.exported)
    ensures url.Err? ==>
              res == Fail(url.error) && r.log == old(r.log) &&
              r.files == old(r.files) && r.cache == old(r.cache) && r.path == old(r.path)
    ensures url.Ok? ==> (res.Pass? <==> url.value in r.remote && Reads(Zip, r.remote[url.value]))
    ensures var file := PathJoin(r.scratch, Decimal(|old(r.log)|));
            var dir := PathJoin(r.scratch, Decimal(|old(r.log)| + 1));
            url.Ok? && res.Pass? ==>
              r.log == old(r.log) + [Get(url.value, auth), Unpack(Zip, file, dir), StoreDir(dir, Identifier, ver)]
    ensures res.Pass? ==>
              r.cache == old(r.cache)[Slot(Identifier, ver) := r.CachePath(Identifier, ver)] &&
              r.path == old(r.path) + [r.CachePath(Identifier, ver)]
    ensures res.Fail? ==> r.cache == old(r.cache) && r.path == old(r.path)
  {
    if url.Err? {
      return Fail(url.error);
    }
    var file := r.DownloadTool(url.value, auth);
    if file.Err? {
      return Fail(file.error);
    }
    var dir := r.Extract(Zip, file.value, None);
    if dir.Err? {
      return Fail(dir.error);
    }
    var toolDir := r.CacheDir(dir.value, Identifier, ver);
    r.AddPath(toolDir);
    res := Pass;
  }

  /** `setup(version, githubAuth)`: as for clj-kondo, with two differences: the archive
      name can be refused before anything is downloaded, and the download always goes to
      the zip extractor, which cannot read the tarball of an old release. */
  method Setup(r: Runner, version: string, auth: string, reply: Reply) returns (res: Outcome)
    modifies r`log, r`files, r`cache, r`exported, r`path
    ensures r.exported == old(r.exported)
    ensures var ver := Resolve(version, reply, true, Identifier);
            var asked := if version == "latest" then [GetJson(LatestUrl(Repository), auth)] else [];
            ver.Err? ==> res == Fail(ver.error) && r.log == old(r.log) + asked &&
                         r.files == old(r.files) && r.cache == old(r.cache) && r.path == old(r.path)
    ensures var ver := Resolve(version, reply, true, Identifier);
            var asked := if version == "latest" then [GetJson(LatestUrl(Repository), auth)] else [];
            ver.Ok? && old(r.Find(Identifier, ver.value)).Some? ==>
              res == Pass && r.log == old(r.log) + asked &&
              r.files == old(r.files) && r.cache == old(r.cache) &&
              r.path == old(r.path) + [old(r.Find(Identifier, ver.value)).value]
    ensures var ver := Resolve(version, reply, true, Identifier);
            var asked := if version == "latest" then [GetJson(LatestUrl(Repository), auth)] else [];
            ver.Ok? && old(r.Find(Identifier, ver.value)).None? ==>
              (ArtifactUrl(ver.value, r.platform, r.arch).Err? ==>
                 res == Fail(OnlyX64) && r.log == old(r.log) + asked && r.files == old(r.files)) &&
              (res.Pass? <==> ArtifactUrl(ver.value, r.platform, r.arch).Ok? &&
                              ArtifactUrl(ver.value, r.platform, r.arch).value in r.remote &&
                              Reads(Zip, r.remote[ArtifactUrl(ver.value, r.platform, r.arch).value])) &&
              (res.Pass? ==> r.cache == old(r.cache)[Slot(Identifier, ver.value) := r.CachePath(Identifier, ver.value)] &&
                             r.path == old(r.path) + [r.CachePath(Identifier, ver.value)]) &&
              (res.Fail? ==> r.cache == old(r.cache) && r.path == old(r.path))
  {
    var ver: string;
    if version == "latest" {
      r.Lookup(LatestUrl(Repository), auth);
      var latest := Latest(reply, true, Identifier);
      if latest.Err? {
        return Fail(latest.error);
      }
      ver := latest.value;
    } else {
      ver := version;
    }
    assert Resolve(version, reply, true, Identifier) == Ok(ver);
    var found := r.Find(Identifier, ver);
    if found.Some? {
      r.AddPath(found.value);
      return Pass;
    }
    var url := ArtifactUrl(ver, r.platform, r.arch);
    if url.Err? {
      ArtifactNameCases(ver, r.platform, r.arch);
    }
    res := Install(r, ver, url, auth);
  }
}
