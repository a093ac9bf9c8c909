/** src/utils.ts: the tool-cache version key, the temporary directory and the
    Windows test, with the environment and the platform passed in. */
module Utils {
  import opened Strings
  import opened Paths
  import opened Common

  /** `getCacheVersionString`: split on ".", keep the first part, use the second or "0",
      and join the parts after the second with "-" (or use "0"). */
  function CacheVersionString(version: string): (key: string)
  {
    var parts := Split(version, '.');
    var major := parts[0];
    var minor := if |parts| > 1 then parts[1] else "0";
    var patch := if |parts| > 2 then Join(parts[2..], "-") else "0";
    major + "." + minor + "." + patch
  }

  /** The key always has exactly three "."-separated parts: the first part of the
      version verbatim, its second part or "0", and its remaining parts joined with "-"
      or "0". */
  lemma {:induction false} CacheVersionShape(version: string)
    ensures var parts := Split(version, '.');
            Split(CacheVersionString(version), '.') ==
              [parts[0],
               if |parts| > 1 then parts[1] else "0",
               if |parts| > 2 then Join(parts[2..], "-") else "0"]
    ensures Count(CacheVersionString(version), '.') == 2
  {
    SplitFacts(version, '.');
    var parts := Split(version, '.');
    var major := parts[0];
    var minor := if |parts| > 1 then parts[1] else "0";
    var patch := if |parts| > 2 then Join(parts[2..], "-") else "0";
    if |parts| > 2 {
      JoinAvoids(parts[2..], "-", '.');
    }
    var three := [major, minor, patch];
    Join3(major, minor, patch, ".");
    SplitJoin(three, '.');
    SplitFacts(CacheVersionString(version), '.');
  }

  /** A version is its own key exactly when it already has three "."-separated parts. */
  lemma {:induction false} CacheVersionFixedPoint(version: string)
    ensures CacheVersionString(version) == version <==> Count(version, '.') == 2
  {
    CacheVersionShape(version);
    SplitFacts(version, '.');
    var parts := Split(version, '.');
    if Count(version, '.') == 2 {
      assert |parts| == 3;
      assert Join(parts[2..], "-") == parts[2];
      assert parts == [parts[0], parts[1], parts[2]];
      Join3(parts[0], parts[1], parts[2], ".");
    }
  }

  /** Normalising a key again changes nothing. */
  lemma CacheVersionIdempotent(version: string)
    ensures CacheVersionString(CacheVersionString(version)) == CacheVersionString(version)
  {
    CacheVersionShape(version);
    CacheVersionFixedPoint(CacheVersionString(version));
  }

  /** The key of a version given by its parts. */
  lemma CacheVersionOfJoin(parts: seq<string>)
    requires |parts| >= 1
    requires forall i :: 0 <= i < |parts| ==> '.' !in parts[i]
    ensures CacheVersionString(Join(parts, ".")) ==
              parts[0] + "." + (if |parts| > 1 then parts[1] else "0") + "." +
              (if |parts| > 2 then Join(parts[2..], "-") else "0")
  {
    SplitJoin(parts, '.');
  }

  /** The key of a version with four parts joins the fourth part to the third with "-"
      (so "1.10.1.469" becomes "1.10.1-469"). */
  lemma {:induction false} CacheVersionOfFourParts(a: string, b: string, c: string, d: string)
    requires '.' !in a && '.' !in b && '.' !in c && '.' !in d
    ensures CacheVersionString(a + "." + b + "." + c + "." + d) == a + "." + b + "." + c + "-" + d
  {
    var parts := [a, b, c, d];
    assert Join(parts, ".") == a + "." + b + "." + c + "." + d by {
      assert parts[1..] == [b, c, d];
      Join3(b, c, d, ".");
    }
    CacheVersionOfJoin(parts);
    assert parts[2..] == [c, d];
    assert parts[2..][1..] == [d];
    assert Join(parts[2..], "-") == c + "-" + d;
    assert a + "." + b + "." + (c + "-" + d) == a + "." + b + "." + c + "-" + d;
  }

  /** A two-part version and the same version with a third part "0" share a key (as
      "1.2" and "1.2.0" do): the normalisation is not injective. */
  lemma {:induction false} CacheVersionCollision(a: string, b: string)
    requires '.' !in a && '.' !in b
    ensures CacheVersionString(a + "." + b) == a + "." + b + ".0"
    ensures CacheVersionString(a + "." + b + ".0") == a + "." + b + ".0"
  {
    var two, three := [a, b], [a, b, "0"];
    assert Join(two, ".") == a + "." + b by {
      assert two[1..] == [b];
    }
    CacheVersionOfJoin(two);
    assert CacheVersionString(a + "." + b) == a + "." + b + "." + "0";
    Join3(a, b, "0", ".");
    assert a + "." + b + "." + "0" == a + "." + b + ".0";
    CacheVersionOfJoin(three);
    assert three[2..] == ["0"];
    assert CacheVersionString(a + "." + b + ".0") == a + "." + b + "." + "0";
  }

  /** "latest" and "" have one part and are padded with zeros. */
  lemma CacheVersionOfOnePart()
    ensures CacheVersionString("latest") == "latest.0.0"
    ensures CacheVersionString("") == ".0.0"
  {
    SplitWithoutSeparator("latest", '.');
  }

  /** `isWindows`. */
  predicate IsWindows(platform: string)
  {
    platform == "win32"
  }

  /** The directory under which `getTempDir` places "actions/temp" when RUNNER_TEMP is
      not set: USERPROFILE when it is a non-empty string (else "C:\") on Windows,
      "/Users" on macOS, "/home" elsewhere. */
  function TempBase(env: map<string, string>, platform: string): string
  {
    if IsWindows(platform) then
      (if "USERPROFILE" in env && env["USERPROFILE"] != "" then env["USERPROFILE"] else "C:\\")
    else if platform == "darwin" then "/Users"
    else "/home"
  }

  /** `getTempDir`: RUNNER_TEMP whenever it is defined, even when it is empty. */
  function TempDir(env: map<string, string>, platform: string): (dir: string)
    ensures "RUNNER_TEMP" in env ==> dir == env["RUNNER_TEMP"]
    ensures "RUNNER_TEMP" !in env ==> EndsWith(dir, "/actions/temp")
  {
    if "RUNNER_TEMP" in env then env["RUNNER_TEMP"]
    else
      var d := PathJoin(PathJoin(TempBase(env, platform), "actions"), "temp");
      assert d == TempBase(env, platform) + "/actions/temp";
      d
  }

  /** Without RUNNER_TEMP the fallback depends on the platform only through the
      three-way Windows / macOS / other split; any unknown platform behaves as Linux. */
  lemma TempDirFallback(env: map<string, string>, platform: string)
    requires "RUNNER_TEMP" !in env
    ensures platform != "win32" && platform != "darwin" ==>
              TempDir(env, platform) == PathJoin(PathJoin("/home", "actions"), "temp")
    ensures platform == "darwin" ==> TempDir(env, platform) == PathJoin(PathJoin("/Users", "actions"), "temp")
    ensures platform == "win32" && "USERPROFILE" !in env ==>
              TempDir(env, platform) == PathJoin(PathJoin("C:\\", "actions"), "temp")
  {
  }

  /** The temporary directory src/boot.ts and src/tdeps.ts each compute for themselves:
      unlike `getTempDir`, an empty RUNNER_TEMP counts as unset. */
  function OwnTempDir(env: map<string, string>, platform: string): string
  {
    if "RUNNER_TEMP" in env && env["RUNNER_TEMP"] != "" then env["RUNNER_TEMP"]
    else PathJoin(PathJoin(TempBase(env, platform), "actions"), "temp")
  }

  /** The two temporary-directory rules agree except when RUNNER_TEMP is set to the
      empty string, where `getTempDir` keeps "" and the other rule falls back. */
  lemma OwnTempDirVersusTempDir(env: map<string, string>, platform: string)
    ensures OwnTempDir(env, platform) != TempDir(env, platform) <==>
              "RUNNER_TEMP" in env && env["RUNNER_TEMP"] == ""
    ensures OwnTempDir(env, platform) != ""
  {
  }

  /** The cache rule shared by the Leiningen, Boot and Clojure CLI installers: a hit is
      used only for an explicit version, "latest" is always fetched again. */
  predicate Trusted(found: Option<string>, version: string)
  {
    found.Some? && version != "latest"
  }

  /** `Math.floor(Math.random() * 2000000000)`, the random suffix of a temporary
      directory, is below this bound. */
  const SuffixBound: nat := 2000000000

  /** `path.join(base, 'temp_' + suffix)`: the fresh directory an installer works in. */
  function TempDirFor(base: string, suffix: nat): string
  {
    PathJoin(base, "temp_" + Decimal(suffix))
  }

  /** The directory lies under `base`, and distinct suffixes give distinct directories. */
  lemma {:induction false} TempDirForShape(base: string, s1: nat, s2: nat)
    ensures StartsWith(TempDirFor(base, s1), base + "/temp_")
    ensures TempDirFor(base, s1) == TempDirFor(base, s2) ==> s1 == s2
  {
    assert TempDirFor(base, s1) == base + "/temp_" + Decimal(s1);
    assert (base + "/temp_" + Decimal(s1))[..|base + "/temp_"|] == base + "/temp_";
    if TempDirFor(base, s1) == TempDirFor(base, s2) {
      assert base + "/temp_" + Decimal(s2) == TempDirFor(base, s2);
      assert Decimal(s1) == TempDirFor(base, s1)[|base + "/temp_"|..];
      assert Decimal(s2) == TempDirFor(base, s2)[|base + "/temp_"|..];
      DecimalInjective(s1, s2);
    }
  }
}
