/** The installation layout shared by src/cli.ts and src/tdeps.ts. The clojure-tools
    archive is extracted under a temporary directory `dest`; its files are sorted out of
    `dest/clojure-tools` into `dest/clojure/bin`, `dest/clojure/lib/clojure`,
    `dest/clojure/lib/clojure/libexec` and `dest/clojure/share/man/man1`, and the
    `clojure` script has its PREFIX placeholder replaced by a reference to
    CLOJURE_INSTALL_DIR. */
module ClojureTools {
  import opened Common
  import opened Strings
  import opened Paths
  import opened Placeholder
  import opened ToolKit

  /** The installed tree, `dest/clojure`, which is what gets cached. */
  function Home(dest: string): string
  {
    PathJoin(dest, "clojure")
  }

  function BinDir(dest: string): string
  {
    PathJoin(Home(dest), "bin")
  }

  /** `clojureLibDir`: `dest/clojure/lib/clojure`. */
  function LibDir(dest: string): string
  {
    PathJoin(PathJoin(Home(dest), "lib"), "clojure")
  }

  function LibexecDir(dest: string): string
  {
    PathJoin(LibDir(dest), "libexec")
  }

  function ManDir(dest: string): string
  {
    PathJoin(PathJoin(PathJoin(Home(dest), "share"), "man"), "man1")
  }

  /** Where the archive unpacks: `dest/clojure-tools`. */
  function SourceDir(dest: string): string
  {
    PathJoin(dest, "clojure-tools")
  }

  /** The end of `setup` in both installers: CLOJURE_INSTALL_DIR names `lib/clojure`
      of the tool directory and its `bin` goes on PATH. */
  method Activate(r: Runner, toolPath: string)
    modifies r`exported, r`path
    ensures r.exported == old(r.exported)["CLOJURE_INSTALL_DIR" := PathJoin(PathJoin(toolPath, "lib"), "clojure")]
    ensures r.path == old(r.path) + [PathJoin(toolPath, "bin")]
  {
    r.ExportVariable("CLOJURE_INSTALL_DIR", PathJoin(PathJoin(toolPath, "lib"), "clojure"));
    r.AddPath(PathJoin(toolPath, "bin"));
  }

  /** `f.endsWith('jar')`. */
  predicate IsJar(name: string)
  {
    EndsWith(name, "jar")
  }

  function JarNames(names: set<string>): set<string>
  {
    set x | x in names && IsJar(x)
  }

  /** The files `names` would be inside `dir`. */
  function Under(dir: string, names: set<string>): set<string>
  {
    set x | x in names :: PathJoin(dir, x)
  }

  /** The paths the two `deps.edn` moves touch. */
  function DocPaths(dest: string): set<string>
  {
    var s := SourceDir(dest);
    var l := LibDir(dest);
    {PathJoin(s, "deps.edn"), PathJoin(s, "example-deps.edn"), PathJoin(l, "deps.edn"), PathJoin(l, "example-deps.edn")}
  }

  /** The paths the script and manual-page moves touch. */
  function ScriptPaths(dest: string): set<string>
  {
    var s := SourceDir(dest);
    var b := BinDir(dest);
    var m := ManDir(dest);
    {PathJoin(s, "clj"), PathJoin(s, "clojure"), PathJoin(s, "clojure.1"), PathJoin(s, "clj.1"),
     PathJoin(b, "clj"), PathJoin(b, "clojure"), PathJoin(m, "clojure.1"), PathJoin(m, "clj.1")}
  }

  /** What the extracted tree must hold, besides the jars, for the installation to
      finish: the two `deps.edn` files, the `clj` and `clojure` scripts (the latter
      readable as text) and their manual pages. */
  predicate Complete(ext: map<string, Payload>, dest: string)
  {
    var s := SourceDir(dest);
    PathJoin(s, "deps.edn") in ext && PathJoin(s, "example-deps.edn") in ext &&
    PathJoin(s, "clojure") in ext && ext[PathJoin(s, "clojure")].Text? &&
    PathJoin(s, "clj") in ext && PathJoin(s, "clojure.1") in ext && PathJoin(s, "clj.1") in ext
  }

  /** The layout after a successful installation from the extracted tree `ext`: each
      file in its directory with the content it was extracted with, except that the
      installed `clojure` script has its placeholders replaced. */
  predicate Installed(ext: map<string, Payload>, files: map<string, Payload>, dest: string)
    requires Complete(ext, dest)
  {
    var s := SourceDir(dest);
    var l := LibDir(dest);
    var b := BinDir(dest);
    var m := ManDir(dest);
    PathJoin(l, "deps.edn") in files && files[PathJoin(l, "deps.edn")] == ext[PathJoin(s, "deps.edn")] &&
    PathJoin(l, "example-deps.edn") in files &&
    files[PathJoin(l, "example-deps.edn")] == ext[PathJoin(s, "example-deps.edn")] &&
    PathJoin(b, "clj") in files && files[PathJoin(b, "clj")] == ext[PathJoin(s, "clj")] &&
    PathJoin(b, "clojure") in files &&
    files[PathJoin(b, "clojure")] == Text(ReplaceAll(ext[PathJoin(s, "clojure")].body, InstallDirRef)) &&
    PathJoin(m, "clojure.1") in files && files[PathJoin(m, "clojure.1")] == ext[PathJoin(s, "clojure.1")] &&
    PathJoin(m, "clj.1") in files && files[PathJoin(m, "clj.1")] == ext[PathJoin(s, "clj.1")]
  }

  /** The installed `clojure` script no longer contains the placeholder in any letter
      case. */
  lemma InstalledScriptIsPatched(ext: map<string, Payload>, files: map<string, Payload>, dest: string)
    requires Complete(ext, dest) && Installed(ext, files, dest)
    ensures PathJoin(BinDir(dest), "clojure") in files
    ensures NoToken(files[PathJoin(BinDir(dest), "clojure")].body)
  {
    InstallDirRefIsSafe();
    NoTokenAfterReplace(ext[PathJoin(SourceDir(dest), "clojure")].body, InstallDirRef);
  }

  /** A file outside `dir`, or one whose name is not among `names`, is not one of the
      files `names` would be inside `dir`. */
  lemma NotUnder(d: string, n: string, dir: string, names: set<string>)
    requires '/' !in n
    requires forall y :: y in names ==> '/' !in y
    requires d != dir || n !in names
    ensures PathJoin(d, n) !in Under(dir, names)
  {
    forall y | y in names
      ensures PathJoin(dir, y) != PathJoin(d, n)
    {
      JoinEq(dir, y, d, n);
    }
  }

  /** `installClojureToolsDeps` up to the jars: create `dest`, extract the archive into
      it (a missing file makes `fs.statSync` throw), create the target directories and
      move the two `deps.edn` files into `dest/clojure/lib/clojure`. */
  method Prepare(r: Runner, file: string, dest: string) returns (res: Outcome)
    modifies r`log, r`files
    ensures |r.log| >= |old(r.log)| && r.log[..|old(r.log)|] == old(r.log)
    ensures file !in old(r.files) ==> res == Fail(NoSuchFile)
    ensures file in old(r.files) && !Reads(TarGz, old(r.files)[file]) ==> res == Fail(UnpackFailed)
    ensures file in old(r.files) && Reads(TarGz, old(r.files)[file]) ==>
              var ext := Overlay(old(r.files), dest, old(r.files)[file].members);
              var s := SourceDir(dest);
              var l := LibDir(dest);
              (res.Pass? <==> PathJoin(s, "deps.edn") in ext && PathJoin(s, "example-deps.edn") in ext) &&
              (res.Fail? ==> res.message == NoSuchFile) &&
              (res.Pass? ==>
                 PathJoin(l, "deps.edn") in r.files && r.files[PathJoin(l, "deps.edn")] == ext[PathJoin(s, "deps.edn")] &&
                 PathJoin(l, "example-deps.edn") in r.files &&
                 r.files[PathJoin(l, "example-deps.edn")] == ext[PathJoin(s, "example-deps.edn")] &&
                 PathJoin(s, "deps.edn") !in r.files && PathJoin(s, "example-deps.edn") !in r.files &&
                 Frame(ext, r.files, DocPaths(dest)) &&
                 r.log == old(r.log) + [MkdirP(dest), Unpack(TarGz, file, dest), MkdirP(BinDir(dest)),
                                        MkdirP(ManDir(dest)), MkdirP(LibexecDir(dest)),
                                        Mv(PathJoin(s, "deps.edn"), l), Mv(PathJoin(s, "example-deps.edn"), l)])
  {
    r.MakeDir(dest);
    if file !in r.files {
      return Fail(NoSuchFile);
    }
    var x := r.Extract(TarGz, file, Some(dest));
    if x.Err? {
      return Fail(x.error);
    }
    ghost var ext := r.files;
    var s := SourceDir(dest);
    var l := LibDir(dest);
    r.MakeDir(BinDir(dest));
    r.MakeDir(ManDir(dest));
    r.MakeDir(LibexecDir(dest));
    var ok := r.MoveInto(s, "deps.edn", l);
    if !ok {
      return Fail(NoSuchFile);
    }
    ok := r.MoveInto(s, "example-deps.edn", l);
    if !ok {
      return Fail(NoSuchFile);
    }
    res := Pass;
  }

  /** The jars-only listing does not change when the `deps.edn` files move out. */
  lemma JarsAfterDocs(ext: map<string, Payload>, f: map<string, Payload>, dest: string)
    requires Frame(ext, f, DocPaths(dest))
    ensures JarNames(Entries(f, SourceDir(dest))) == JarNames(Entries(ext, SourceDir(dest)))
  {
    var s := SourceDir(dest);
    forall x | IsJar(x)
      ensures x in Entries(f, s) <==> x in Entries(ext, s)
    {
      EntriesMember(f, s, x);
      EntriesMember(ext, s, x);
      if '/' !in x {
        JoinEq(s, x, s, "deps.edn");
        JoinEq(s, x, s, "example-deps.edn");
        JoinEq(s, x, LibDir(dest), "deps.edn");
        JoinEq(s, x, LibDir(dest), "example-deps.edn");
        assert PathJoin(s, x) !in DocPaths(dest);
      }
    }
  }

  /** `Promise.all` over the entries of `source` ending in "jar", each moved into
      `target`; the moves are made one after another, in an unspecified order. */
  method MoveJars(r: Runner, source: string, target: string) returns (ghost jars: set<string>, ghost moves: seq<Step>)
    requires source != target
    modifies r`log, r`files
    ensures jars == JarNames(Entries(old(r.files), source))
    ensures forall x :: x in jars ==> '/' !in x && PathJoin(source, x) in old(r.files)
    ensures forall x :: x in jars ==>
              PathJoin(target, x) in r.files && r.files[PathJoin(target, x)] == old(r.files)[PathJoin(source, x)]
    ensures forall x :: x in Entries(r.files, source) ==> !IsJar(x)
    ensures Frame(old(r.files), r.files, Under(source, jars) + Under(target, jars))
    ensures r.log == old(r.log) + moves
    ensures forall k :: 0 <= k < |moves| ==> moves[k].Mv? && moves[k].dst == target
  {
    var names := JarNames(r.ReadDir(source));
    jars := names;
    ghost var f0 := r.files;
    forall x | x in jars
      ensures x != [] && '/' !in x && PathJoin(source, x) in f0
    {
      EntriesMember(f0, source, x);
    }
    var remaining := names;
    moves := [];
    while remaining != {}
      invariant remaining <= jars
      invariant Progress(f0, r.files, source, target, jars, remaining)
      invariant r.log == old(r.log) + moves
      invariant forall k :: 0 <= k < |moves| ==> moves[k].Mv? && moves[k].dst == target
      decreases |remaining|
    {
      var j :| j in remaining;
      ghost var f := r.files;
      var ok := r.MoveInto(source, j, target);
      ExtendMoves(old(r.log), moves, Mv(PathJoin(source, j), target), target);
      moves := moves + [Mv(PathJoin(source, j), target)];
      MoveJarStep(f0, f, source, target, jars, remaining, j);
      remaining := remaining - {j};
    }
    NoJarLeft(f0, r.files, source, target, jars);
  }

  /** One more move into `target` appended to the log. */
  lemma ExtendMoves(o: seq<Step>, moves: seq<Step>, m: Step, target: string)
    requires m.Mv? && m.dst == target
    requires forall k :: 0 <= k < |moves| ==> moves[k].Mv? && moves[k].dst == target
    ensures o + moves + [m] == o + (moves + [m])
    ensures forall k :: 0 <= k < |moves + [m]| ==> (moves + [m])[k].Mv? && (moves + [m])[k].dst == target
  {
  }

  /** Part way through the jar moves: the jars still `remaining` sit in `source` as
      they were, the others have left it for `target`, and nothing else has changed. */
  ghost predicate Progress(f0: map<string, Payload>, f: map<string, Payload>, source: string, target: string,
                           jars: set<string>, remaining: set<string>)
  {
    (forall x :: x in remaining ==>
       PathJoin(source, x) in f0 && PathJoin(source, x) in f && f[PathJoin(source, x)] == f0[PathJoin(source, x)]) &&
    (forall x :: x in jars && x !in remaining ==>
       PathJoin(source, x) in f0 && PathJoin(source, x) !in f &&
       PathJoin(target, x) in f && f[PathJoin(target, x)] == f0[PathJoin(source, x)]) &&
    Frame(f0, f, Under(source, jars) + Under(target, jars))
  }

  /** Moving one remaining jar keeps the progress invariant. */
  lemma MoveJarStep(f0: map<string, Payload>, f: map<string, Payload>, source: string, target: string,
                    jars: set<string>, remaining: set<string>, j: string)
    requires source != target && j in remaining && remaining <= jars
    requires forall x :: x in jars ==> '/' !in x && PathJoin(source, x) in f0
    requires Progress(f0, f, source, target, jars, remaining)
    ensures PathJoin(source, j) in f
    ensures Progress(f0, Moved(f, source, j, target), source, target, jars, remaining - {j})
  {
    StepApart(source, target, j, jars);
    var g := Moved(f, source, j, target);
    forall x | x in remaining - {j}
      ensures PathJoin(source, x) in g && g[PathJoin(source, x)] == f0[PathJoin(source, x)]
    {
      assert PathJoin(source, x) != PathJoin(source, j) && PathJoin(source, x) != PathJoin(target, j);
    }
    forall x | x in jars && x !in remaining - {j}
      ensures PathJoin(source, x) !in g
      ensures PathJoin(target, x) in g && g[PathJoin(target, x)] == f0[PathJoin(source, x)]
    {
      if x != j {
        assert PathJoin(source, x) != PathJoin(target, j) && PathJoin(target, x) != PathJoin(target, j);
        assert PathJoin(target, x) != PathJoin(source, j);
      }
    }
  }

  /** Moving jar `j` touches no other jar's source or target. */
  lemma StepApart(source: string, target: string, j: string, jars: set<string>)
    requires source != target && j in jars
    requires forall x :: x in jars ==> '/' !in x
    ensures PathJoin(source, j) in Under(source, jars) && PathJoin(target, j) in Under(target, jars)
    ensures forall x :: x in jars ==> PathJoin(source, x) != PathJoin(target, j) && PathJoin(target, x) != PathJoin(source, j)
    ensures forall x :: x in jars && x != j ==> PathJoin(source, x) != PathJoin(source, j) && PathJoin(target, x) != PathJoin(target, j)
  {
    forall x | x in jars
      ensures PathJoin(source, x) != PathJoin(target, j) && PathJoin(target, x) != PathJoin(source, j)
      ensures x != j ==> PathJoin(source, x) != PathJoin(source, j) && PathJoin(target, x) != PathJoin(target, j)
    {
      JoinEq(source, x, target, j);
      JoinEq(target, x, source, j);
      JoinEq(source, x, source, j);
      JoinEq(target, x, target, j);
    }
  }

  /** Once every listed jar has left `source`, no entry of `source` is a jar: the moves
      only add files inside `target`. */
  lemma NoJarLeft(f0: map<string, Payload>, f1: map<string, Payload>, source: string, target: string,
                  jars: set<string>)
    requires source != target
    requires jars == JarNames(Entries(f0, source))
    requires forall x :: x in jars ==> '/' !in x && PathJoin(source, x) !in f1
    requires Frame(f0, f1, Under(source, jars) + Under(target, jars))
    ensures forall x :: x in Entries(f1, source) ==> !IsJar(x)
  {
    forall x | x in Entries(f1, source)
      ensures !IsJar(x)
    {
      EntriesMember(f1, source, x);
      assert x !in jars;
      NotUnder(source, x, source, jars);
      NotUnder(source, x, target, jars);
      EntriesMember(f0, source, x);
    }
  }

  /** `installClojureToolsDeps` after the jars: the `clojure` script is patched in place,
      then the scripts move into `bin` and the manual pages into `share/man/man1`. A
      script that cannot be read fails the installation. */
  method Finish(r: Runner, dest: string) returns (res: Outcome)
    modifies r`log, r`files
    ensures |r.log| >= |old(r.log)| && r.log[..|old(r.log)|] == old(r.log)
    ensures var s := SourceDir(dest);
            var g := old(r.files);
            res.Pass? <==> PathJoin(s, "clojure") in g && g[PathJoin(s, "clojure")].Text? &&
                           PathJoin(s, "clj") in g && PathJoin(s, "clojure.1") in g && PathJoin(s, "clj.1") in g
    ensures res.Fail? ==> res.message == NoSuchFile
    ensures res.Pass? ==>
              var s := SourceDir(dest);
              var g := old(r.files);
              Placed(g[PathJoin(s, "clojure") := Text(ReplaceAll(g[PathJoin(s, "clojure")].body, InstallDirRef))],
                     r.files, dest) &&
              r.log == old(r.log) + [WriteBack(PathJoin(s, "clojure"))] + ScriptMoves(dest)
  {
    var s := SourceDir(dest);
    var ok := r.Rewrite(PathJoin(s, "clojure"), InstallDirRef);
    if !ok {
      return Fail(NoSuchFile);
    }
    res := PlaceScripts(r, dest);
  }

  /** The steps that move the scripts and manual pages. */
  function ScriptMoves(dest: string): seq<Step>
  {
    var s := SourceDir(dest);
    [Mv(PathJoin(s, "clj"), BinDir(dest)), Mv(PathJoin(s, "clojure"), BinDir(dest)),
     Mv(PathJoin(s, "clojure.1"), ManDir(dest)), Mv(PathJoin(s, "clj.1"), ManDir(dest))]
  }

  /** `files` is `g` with the scripts moved into `bin` and the manual pages into
      `share/man/man1`, and nothing else changed. */
  predicate Placed(g: map<string, Payload>, files: map<string, Payload>, dest: string)
  {
    var s := SourceDir(dest);
    var b := BinDir(dest);
    var m := ManDir(dest);
    PathJoin(s, "clj") in g && PathJoin(s, "clojure") in g && PathJoin(s, "clojure.1") in g && PathJoin(s, "clj.1") in g &&
    PathJoin(b, "clj") in files && files[PathJoin(b, "clj")] == g[PathJoin(s, "clj")] &&
    PathJoin(b, "clojure") in files && files[PathJoin(b, "clojure")] == g[PathJoin(s, "clojure")] &&
    PathJoin(m, "clojure.1") in files && files[PathJoin(m, "clojure.1")] == g[PathJoin(s, "clojure.1")] &&
    PathJoin(m, "clj.1") in files && files[PathJoin(m, "clj.1")] == g[PathJoin(s, "clj.1")] &&
    PathJoin(s, "clj") !in files && PathJoin(s, "clojure") !in files &&
    PathJoin(s, "clojure.1") !in files && PathJoin(s, "clj.1") !in files &&
    Frame(g, files, ScriptPaths(dest))
  }

  /** `g` with the file `name` of `src` moved into `dir`. */
  function Moved(g: map<string, Payload>, src: string, name: string, dir: string): map<string, Payload>
    requires PathJoin(src, name) in g
  {
    (g - {PathJoin(src, name)})[PathJoin(dir, name) := g[PathJoin(src, name)]]
  }

  /** The four script and manual-page moves, made one after another. */
  function Placement(g: map<string, Payload>, dest: string): map<string, Payload>
    requires var s := SourceDir(dest);
             PathJoin(s, "clj") in g && PathJoin(s, "clojure") in g && PathJoin(s, "clojure.1") in g &&
             PathJoin(s, "clj.1") in g
  {
    var s := SourceDir(dest);
    var b := BinDir(dest);
    var m := ManDir(dest);
    LayoutLengths(dest);
    var g1 := Moved(g, s, "clj", b);
    var g2 := Moved(g1, s, "clojure", b);
    var g3 := Moved(g2, s, "clojure.1", m);
    Moved(g3, s, "clj.1", m)
  }

  /** Made one after another, the four moves place every script and manual page and
      touch nothing else. */
  lemma PlacementPlaces(g: map<string, Payload>, dest: string)
    requires var s := SourceDir(dest);
             PathJoin(s, "clj") in g && PathJoin(s, "clojure") in g && PathJoin(s, "clojure.1") in g &&
             PathJoin(s, "clj.1") in g
    ensures Placed(g, Placement(g, dest), dest)
  {
    var s := SourceDir(dest);
    var b := BinDir(dest);
    var m := ManDir(dest);
    LayoutLengths(dest);
    JoinEq(s, "clj.1", b, "clojure");
    var f := Placement(g, dest);
    forall p | p !in ScriptPaths(dest)
      ensures Same(f, g, p)
    {
    }
  }

  /** The four moves out of `dest/clojure-tools`; the first file missing stops them. */
  method PlaceScripts(r: Runner, dest: string) returns (res: Outcome)
    modifies r`log, r`files
    ensures |r.log| >= |old(r.log)| && r.log[..|old(r.log)|] == old(r.log)
    ensures var s := SourceDir(dest);
            res.Pass? <==> PathJoin(s, "clj") in old(r.files) && PathJoin(s, "clojure") in old(r.files) &&
                           PathJoin(s, "clojure.1") in old(r.files) && PathJoin(s, "clj.1") in old(r.files)
    ensures res.Fail? ==> res.message == NoSuchFile
    ensures res.Pass? ==> Placed(old(r.files), r.files, dest) && r.log == old(r.log) + ScriptMoves(dest)
  {
    var s := SourceDir(dest);
    var b := BinDir(dest);
    var m := ManDir(dest);
    LayoutLengths(dest);
    JoinEq(s, "clj.1", b, "clojure");
    var ok := r.MoveInto(s, "clj", b);
    if !ok {
      return Fail(NoSuchFile);
    }
    ok := r.MoveInto(s, "clojure", b);
    if !ok {
      return Fail(NoSuchFile);
    }
    ok := r.MoveInto(s, "clojure.1", m);
    if !ok {
      return Fail(NoSuchFile);
    }
    ok := r.MoveInto(s, "clj.1", m);
    if !ok {
      return Fail(NoSuchFile);
    }
    assert r.files == Placement(old(r.files), dest);
    PlacementPlaces(old(r.files), dest);
    res := Pass;
  }

  /** `a` and `b` agree at `p`: both hold it with the same content, or neither does. */
  predicate Same(a: map<string, Payload>, b: map<string, Payload>, p: string)
  {
    (p in a <==> p in b) && (p in a ==> a[p] == b[p])
  }

  /** What the first two phases leave for the last: the scripts and manual pages as
      extracted, the `deps.edn` files in place and every listed jar in `libexec`. */
  lemma AfterJars(ext: map<string, Payload>, f2: map<string, Payload>, f3: map<string, Payload>,
                  dest: string, jars: set<string>)
    requires var s := SourceDir(dest);
             var l := LibDir(dest);
             PathJoin(s, "deps.edn") in ext && PathJoin(s, "example-deps.edn") in ext &&
             PathJoin(l, "deps.edn") in f2 && f2[PathJoin(l, "deps.edn")] == ext[PathJoin(s, "deps.edn")] &&
             PathJoin(l, "example-deps.edn") in f2 &&
             f2[PathJoin(l, "example-deps.edn")] == ext[PathJoin(s, "example-deps.edn")] &&
             Frame(ext, f2, DocPaths(dest))
    requires jars == JarNames(Entries(f2, SourceDir(dest)))
    requires forall x :: x in jars ==> '/' !in x && PathJoin(SourceDir(dest), x) in f2
    requires forall x :: x in jars ==>
               PathJoin(LibexecDir(dest), x) in f3 &&
               f3[PathJoin(LibexecDir(dest), x)] == f2[PathJoin(SourceDir(dest), x)]
    requires Frame(f2, f3, Under(SourceDir(dest), jars) + Under(LibexecDir(dest), jars))
    ensures var s := SourceDir(dest);
            Same(f3, ext, PathJoin(s, "clj")) && Same(f3, ext, PathJoin(s, "clojure")) &&
            Same(f3, ext, PathJoin(s, "clojure.1")) && Same(f3, ext, PathJoin(s, "clj.1"))
    ensures var s := SourceDir(dest);
            var l := LibDir(dest);
            PathJoin(l, "deps.edn") in f3 && f3[PathJoin(l, "deps.edn")] == ext[PathJoin(s, "deps.edn")] &&
            PathJoin(l, "example-deps.edn") in f3 &&
            f3[PathJoin(l, "example-deps.edn")] == ext[PathJoin(s, "example-deps.edn")]
    ensures jars == JarNames(Entries(ext, SourceDir(dest)))
    ensures forall x :: x in jars ==>
              PathJoin(SourceDir(dest), x) in ext &&
              PathJoin(LibexecDir(dest), x) in f3 &&
              f3[PathJoin(LibexecDir(dest), x)] == ext[PathJoin(SourceDir(dest), x)]
  {
    var s := SourceDir(dest);
    var l := LibDir(dest);
    var x := LibexecDir(dest);
    LayoutLengths(dest);
    PlainNames();
    JarsAfterDocs(ext, f2, dest);
    ScriptKept(ext, f2, f3, dest, jars, "clj");
    ScriptKept(ext, f2, f3, dest, jars, "clojure");
    ScriptKept(ext, f2, f3, dest, jars, "clojure.1");
    ScriptKept(ext, f2, f3, dest, jars, "clj.1");
    DocKept(f2, f3, dest, jars, "deps.edn");
    DocKept(f2, f3, dest, jars, "example-deps.edn");
    JarsKept(ext, f2, dest, jars);
  }

  /** A `deps.edn` file placed in `dest/clojure/lib/clojure` stays there while the jars
      move. */
  lemma DocKept(f2: map<string, Payload>, f3: map<string, Payload>, dest: string, jars: set<string>, n: string)
    requires '/' !in n
    requires forall x :: x in jars ==> '/' !in x
    requires Frame(f2, f3, Under(SourceDir(dest), jars) + Under(LibexecDir(dest), jars))
    ensures Same(f3, f2, PathJoin(LibDir(dest), n))
  {
    LayoutLengths(dest);
    NotUnder(LibDir(dest), n, SourceDir(dest), jars);
    NotUnder(LibDir(dest), n, LibexecDir(dest), jars);
  }

  /** The listed jars are untouched by the `deps.edn` moves. */
  lemma JarsKept(ext: map<string, Payload>, f2: map<string, Payload>, dest: string, jars: set<string>)
    requires Frame(ext, f2, DocPaths(dest))
    requires forall x :: x in jars ==> '/' !in x && IsJar(x) && PathJoin(SourceDir(dest), x) in f2
    ensures forall x :: x in jars ==> Same(f2, ext, PathJoin(SourceDir(dest), x))
  {
    var s := SourceDir(dest);
    var l := LibDir(dest);
    LayoutLengths(dest);
    forall y | y in jars
      ensures PathJoin(s, y) !in DocPaths(dest)
    {
      assert !IsJar("deps.edn") && !IsJar("example-deps.edn");
      JoinEq(s, y, s, "deps.edn");
      JoinEq(s, y, s, "example-deps.edn");
      JoinEq(s, y, l, "deps.edn");
      JoinEq(s, y, l, "example-deps.edn");
    }
  }

  /** The names the installers move are single path components and none is a jar. */
  lemma PlainNames()
    ensures '/' !in "deps.edn" && '/' !in "example-deps.edn" && !IsJar("deps.edn") && !IsJar("example-deps.edn")
    ensures '/' !in "clj" && '/' !in "clojure" && '/' !in "clojure.1" && '/' !in "clj.1"
    ensures !IsJar("clj") && !IsJar("clojure") && !IsJar("clojure.1") && !IsJar("clj.1")
  {
  }

  /** The directories of the layout have distinct lengths, so no two coincide. */
  lemma LayoutLengths(dest: string)
    ensures |SourceDir(dest)| == |dest| + 14 && |BinDir(dest)| == |dest| + 12 && |LibDir(dest)| == |dest| + 20
    ensures |LibexecDir(dest)| == |dest| + 28 && |ManDir(dest)| == |dest| + 23
  {
  }

  /** A file of `dest/clojure-tools` that is neither a jar nor a `deps.edn` file is
      left where it was extracted by the first two phases. */
  lemma ScriptKept(ext: map<string, Payload>, f2: map<string, Payload>, f3: map<string, Payload>,
                   dest: string, jars: set<string>, n: string)
    requires n in {"clj", "clojure", "clojure.1", "clj.1"}
    requires Frame(ext, f2, DocPaths(dest))
    requires forall x :: x in jars ==> '/' !in x && IsJar(x)
    requires Frame(f2, f3, Under(SourceDir(dest), jars) + Under(LibexecDir(dest), jars))
    ensures Same(f3, ext, PathJoin(SourceDir(dest), n))
  {
    var s := SourceDir(dest);
    assert !IsJar(n);
    NotUnder(s, n, s, jars);
    NotUnder(s, n, LibexecDir(dest), jars);
    assert PathJoin(s, n) !in DocPaths(dest);
  }

  /** No path inside `d` is one the script moves touch, unless `d` is one of their
      directories. */
  lemma OutsideScripts(d: string, y: string, dest: string)
    requires '/' !in y
    requires d != SourceDir(dest) && d != BinDir(dest) && d != ManDir(dest)
    ensures PathJoin(d, y) !in ScriptPaths(dest)
  {
    var s := SourceDir(dest);
    var b := BinDir(dest);
    var m := ManDir(dest);
    JoinEq(d, y, s, "clj");
    JoinEq(d, y, s, "clojure");
    JoinEq(d, y, s, "clojure.1");
    JoinEq(d, y, s, "clj.1");
    JoinEq(d, y, b, "clj");
    JoinEq(d, y, b, "clojure");
    JoinEq(d, y, m, "clojure.1");
    JoinEq(d, y, m, "clj.1");
  }

  /** The last phase completes the layout: with the scripts and manual pages moved,
      everything the earlier phases placed is still there. */
  lemma AfterScripts(ext: map<string, Payload>, f3: map<string, Payload>, f4: map<string, Payload>,
                     dest: string, jars: set<string>)
    requires Complete(ext, dest)
    requires var s := SourceDir(dest);
             Same(f3, ext, PathJoin(s, "clj")) && Same(f3, ext, PathJoin(s, "clojure")) &&
             Same(f3, ext, PathJoin(s, "clojure.1")) && Same(f3, ext, PathJoin(s, "clj.1"))
    requires var s := SourceDir(dest);
             var l := LibDir(dest);
             PathJoin(l, "deps.edn") in f3 && f3[PathJoin(l, "deps.edn")] == ext[PathJoin(s, "deps.edn")] &&
             PathJoin(l, "example-deps.edn") in f3 &&
             f3[PathJoin(l, "example-deps.edn")] == ext[PathJoin(s, "example-deps.edn")]
    requires forall x :: x in jars ==>
               '/' !in x && PathJoin(SourceDir(dest), x) in ext &&
               PathJoin(LibexecDir(dest), x) in f3 &&
               f3[PathJoin(LibexecDir(dest), x)] == ext[PathJoin(SourceDir(dest), x)]
    requires forall x :: x in Entries(f3, SourceDir(dest)) ==> !IsJar(x)
    requires var c := PathJoin(SourceDir(dest), "clojure");
             Placed(f3[c := Text(ReplaceAll(f3[c].body, InstallDirRef))], f4, dest)
    ensures Installed(ext, f4, dest)
    ensures forall x :: x in jars ==>
              PathJoin(LibexecDir(dest), x) in f4 &&
              f4[PathJoin(LibexecDir(dest), x)] == ext[PathJoin(SourceDir(dest), x)]
    ensures forall x :: x in Entries(f4, SourceDir(dest)) ==> !IsJar(x)
  {
    var s := SourceDir(dest);
    var l := LibDir(dest);
    var b := BinDir(dest);
    var m := ManDir(dest);
    var c := PathJoin(s, "clojure");
    var g := f3[c := Text(ReplaceAll(f3[c].body, InstallDirRef))];
    OutsideScripts(l, "deps.edn", dest);
    OutsideScripts(l, "example-deps.edn", dest);
    forall y | y in jars
      ensures PathJoin(LibexecDir(dest), y) in f4 &&
              f4[PathJoin(LibexecDir(dest), y)] == ext[PathJoin(s, y)]
    {
      OutsideScripts(LibexecDir(dest), y, dest);
    }
    forall y | y in Entries(f4, s)
      ensures !IsJar(y)
    {
      EntriesMember(f4, s, y);
      JoinEq(s, y, b, "clj");
      JoinEq(s, y, b, "clojure");
      JoinEq(s, y, m, "clojure.1");
      JoinEq(s, y, m, "clj.1");
      assert PathJoin(s, y) !in ScriptPaths(dest);
      EntriesMember(f3, s, y);
    }
  }
}
