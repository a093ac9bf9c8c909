/** src/entrypoint.ts: the action's entry point. `main` turns the tool inputs into setup
    requests, starting each through `setupTool`, which brackets the tool's own setup
    with a restore from and a save to the cross-run cache; the first failure is
    reported to the runner. */
module Entrypoint {
  import opened Common
  import opened Strings
  import opened Paths
  import Utils
  import Leiningen
  import Boot
  import Cli
  import Babashka
  import CljKondo
  import CljFmt
  import CljStyle
  import ZPrint

  /** The tools `main` can set up, in the order in which it considers their inputs. */
  datatype Tool = LeinTool | BootTool | CliTool | BbTool | CljKondoTool | CljFmtTool | CljStyleTool | ZprintTool

  function Rank(t: Tool): nat
  {
    match t
    case LeinTool => 0
    case BootTool => 1
    case CliTool => 2
    case BbTool => 3
    case CljKondoTool => 4
    case CljFmtTool => 5
    case CljStyleTool => 6
    case ZprintTool => 7
  }

  /** The `identifier` each tool module exports, under which the cross-run cache keeps
      it. Both `cli` and `tools-deps` requests use the CLI's. */
  function Identifier(t: Tool): string
  {
    match t
    case LeinTool => Leiningen.Tool
    case BootTool => Boot.Tool
    case CliTool => Cli.Tool
    case BbTool => Babashka.Identifier
    case CljKondoTool => CljKondo.Identifier
    case CljFmtTool => CljFmt.Identifier
    case CljStyleTool => CljStyle.Identifier
    case ZprintTool => ZPrint.Identifier
  }

  /** The action inputs `main` reads, as the runner delivers them; a tool input that is
      not given reads as "". */
  datatype Inputs = Inputs(lein: string, boot: string, toolsDeps: string, cli: string, bb: string,
                           cljKondo: string, cljfmt: string, cljstyle: string, zprint: string,
                           token: string, invalidateCache: string)

  const NotBoolean: string :=
    "Input does not meet YAML 1.2 \"Core Schema\" specification: invalidate-cache\n" +
    "Support boolean input list: `true | True | TRUE | false | False | FALSE`"

  /** `core.getBooleanInput('invalidate-cache')`: the YAML 1.2 core-schema booleans are
      accepted, anything else throws. */
  function BooleanInput(value: string): Result<bool>
  {
    if value == "true" || value == "True" || value == "TRUE" then Ok(true)
    else if value == "false" || value == "False" || value == "FALSE" then Ok(false)
    else Err(NotBoolean)
  }

  /** Exactly six spellings are accepted, three of them meaning true; every other
      value, "" and "yes" included, is refused with the same message. */
  lemma BooleanInputCases(value: string)
    ensures BooleanInput(value).Ok? <==> value in {"true", "True", "TRUE", "false", "False", "FALSE"}
    ensures BooleanInput(value) == Ok(true) <==> value in {"true", "True", "TRUE"}
    ensures BooleanInput(value).Err? ==> BooleanInput(value).error == NotBoolean
  {
  }

  /** One tool to set up, at the version its input asks for. */
  datatype Request = Request(tool: Tool, version: string)

  const NoTool: string := "You must specify at least one clojure tool."
  const CljStyleOnWindows: string := "cljstyle on windows is not supported yet."

  /** The version input that asks for tool `t`; the CLI is asked for by `cli` and, when
      that is not given, by the older `tools-deps`. */
  function Wanted(inputs: Inputs, t: Tool): string
  {
    match t
    case LeinTool => inputs.lein
    case BootTool => inputs.boot
    case CliTool => if inputs.cli != "" then inputs.cli else inputs.toolsDeps
    case BbTool => inputs.bb
    case CljKondoTool => inputs.cljKondo
    case CljFmtTool => inputs.cljfmt
    case CljStyleTool => inputs.cljstyle
    case ZprintTool => inputs.zprint
  }

  /** The authorization handed to every setup: a bearer token when one is given. */
  function Auth(token: string): (auth: Option<string>)
    ensures auth.Some? <==> token != ""
    ensures auth.Some? ==> StartsWith(auth.value, "Bearer ") && auth.value[7..] == token
  {
    if |token| > 0 then Some("Bearer " + token) else None
  }

  function Tools(started: seq<Request>): set<Tool>
  {
    set q | q in started :: q.tool
  }

  /** The requests pushed once the inputs of the first `k` tools have been considered:
      in input order, each at the version its input asks for, one for each of those
      tools whose input is given. */
  ghost predicate PlannedUpTo(inputs: Inputs, started: seq<Request>, k: nat)
  {
    (forall i, j :: 0 <= i < j < |started| ==> Rank(started[i].tool) < Rank(started[j].tool)) &&
    (forall q :: q in started ==> q.version == Wanted(inputs, q.tool)) &&
    (forall t :: t in Tools(started) <==> Wanted(inputs, t) != "" && Rank(t) < k)
  }

  /** Whether the Windows gate on cljstyle stops `main`. */
  predicate Stopped(inputs: Inputs, platform: string)
  {
    inputs.cljstyle != "" && Utils.IsWindows(platform)
  }

  /** The pushes so far followed by the one for tool `t`. */
  function Push(inputs: Inputs, started: seq<Request>, t: Tool): seq<Request>
  {
    if Wanted(inputs, t) != "" then started + [Request(t, Wanted(inputs, t))] else started
  }

  /** The tools in the order `main` considers their inputs. */
  const Order: seq<Tool> := [LeinTool, BootTool, CliTool, BbTool, CljKondoTool, CljFmtTool, CljStyleTool, ZprintTool]

  /** The requests pushed once the inputs of the first `k` tools have been considered. */
  function Pushed(inputs: Inputs, k: nat): seq<Request>
    requires k <= |Order|
  {
    if k == 0 then [] else Push(inputs, Pushed(inputs, k - 1), Order[k - 1])
  }

  /** The tool of rank `k` is the `k`-th of `Order`. */
  lemma OrderRanks()
    ensures forall k :: 0 <= k < |Order| ==> Rank(Order[k]) == k
  {
  }

  /** Considering the next tool's input extends the plan by that tool. */
  lemma {:induction false} PushNext(inputs: Inputs, started: seq<Request>, t: Tool)
    requires PlannedUpTo(inputs, started, Rank(t))
    ensures PlannedUpTo(inputs, Push(inputs, started, t), Rank(t) + 1)
  {
    var next := Push(inputs, started, t);
    forall u
      ensures u in Tools(next) <==> Wanted(inputs, u) != "" && Rank(u) < Rank(t) + 1
    {
      if Wanted(inputs, t) != "" {
        assert Tools(next) == Tools(started) + {t} by {
          forall x ensures x in Tools(next) <==> x in Tools(started) + {t} {
            if x in Tools(next) {
              var q :| q in next && q.tool == x;
              if q !in started {
                assert q == next[|started|];
              }
            }
            if x == t {
              assert next[|started|] in next;
            }
          }
        }
      }
      if Rank(u) == Rank(t) {
        assert u == t;
      }
    }
    if Wanted(inputs, t) != "" {
      forall i, j | 0 <= i < j < |next|
        ensures Rank(next[i].tool) < Rank(next[j].tool)
      {
        if j == |started| {
          assert next[i] in started;
          assert next[i].tool in Tools(started);
        }
      }
    }
  }

  /** The pushes after `k` tools are exactly the requests for those of the first `k`
      tools whose input is given, in input order, each at the version asked for. */
  lemma {:induction false} PushedPlan(inputs: Inputs, k: nat)
    requires k <= |Order|
    ensures PlannedUpTo(inputs, Pushed(inputs, k), k)
  {
    OrderRanks();
    if k > 0 {
      PushedPlan(inputs, k - 1);
      PushNext(inputs, Pushed(inputs, k - 1), Order[k - 1]);
    }
  }

  /** None of the tool inputs is given. */
  predicate NoneGiven(inputs: Inputs)
  {
    inputs.lein == "" && inputs.boot == "" && inputs.toolsDeps == "" && inputs.cli == "" && inputs.bb == "" &&
    inputs.cljKondo == "" && inputs.cljfmt == "" && inputs.cljstyle == "" && inputs.zprint == ""
  }

  /** No tool input means no tool is wanted, and so nothing is pushed. */
  lemma NoneGivenNoneWanted(inputs: Inputs)
    ensures NoneGiven(inputs) <==> forall t :: Wanted(inputs, t) == ""
    ensures NoneGiven(inputs) <==> Pushed(inputs, |Order|) == []
  {
    var all := Pushed(inputs, |Order|);
    PushedPlan(inputs, |Order|);
    if !NoneGiven(inputs) {
      var t :| Wanted(inputs, t) != "";
      OrderRanks();
      assert t in Tools(all);
      var q :| q in all && q.tool == t;
    } else {
      PushedNothing(inputs, |Order|);
    }
  }

  lemma {:induction false} PushedNothing(inputs: Inputs, k: nat)
    requires k <= |Order|
    requires NoneGiven(inputs)
    ensures Pushed(inputs, k) == []
  {
    if k > 0 {
      PushedNothing(inputs, k - 1);
    }
  }

  /** How many tools `main` considers before it stops. */
  function Considered(inputs: Inputs, platform: string): nat
  {
    if Stopped(inputs, platform) then Rank(CljStyleTool) else |Order|
  }

  /** The request selection of `main`: each given input pushes its request, the
      `tools-deps` input only when `cli` is not given. */
  method Plan(inputs: Inputs, platform: string) returns (started: seq<Request>, error: Option<string>)
    ensures started == Pushed(inputs, Considered(inputs, platform))
    ensures error == (if Stopped(inputs, platform) then Some(CljStyleOnWindows)
                      else if NoneGiven(inputs) then Some(NoTool)
                      else None)
  {
    started := [];
    if inputs.lein != "" {
      started := started + [Request(LeinTool, inputs.lein)];
    }
    assert started == Pushed(inputs, 1);
    if inputs.boot != "" {
      started := started + [Request(BootTool, inputs.boot)];
    }
    assert started == Pushed(inputs, 2);
    if inputs.cli != "" {
      started := started + [Request(CliTool, inputs.cli)];
    }
    if inputs.toolsDeps != "" && inputs.cli == "" {
      started := started + [Request(CliTool, inputs.toolsDeps)];
    }
    assert started == Pushed(inputs, 3);
    if inputs.bb != "" {
      started := started + [Request(BbTool, inputs.bb)];
    }
    assert started == Pushed(inputs, 4);
    if inputs.cljKondo != "" {
      started := started + [Request(CljKondoTool, inputs.cljKondo)];
    }
    assert started == Pushed(inputs, 5);
    if inputs.cljfmt != "" {
      started := started + [Request(CljFmtTool, inputs.cljfmt)];
    }
    assert started == Pushed(inputs, 6);
    if inputs.cljstyle != "" {
      if Utils.IsWindows(platform) {
        return started, Some(CljStyleOnWindows);
      }
      started := started + [Request(CljStyleTool, inputs.cljstyle)];
    }
    assert started == Pushed(inputs, 7);
    if inputs.zprint != "" {
      started := started + [Request(ZprintTool, inputs.zprint)];
    }
    assert started == Pushed(inputs, 8);
    if |started| == 0 {
      return started, Some(NoTool);
    }
    error := None;
  }

  /** `getCacheKey(identifier, version)`: the cross-run cache key of a tool, for the
      platform and the action's own release. */
  function CacheKey(platform: string, release: string, id: string, version: string): string
  {
    "setupclojure-" + platform + "-" + release + "-" + id + "-" + version
  }

  /** `cacheDir`: the runner's tool cache, or "" when RUNNER_TOOL_CACHE is unset or
      empty. */
  function ToolCacheRoot(env: map<string, string>): string
  {
    if "RUNNER_TOOL_CACHE" in env then env["RUNNER_TOOL_CACHE"] else ""
  }

  /** `getCachePaths(identifier)`: the single directory the cross-run cache keeps for a
      tool. */
  function CachePaths(root: string, id: string): (paths: seq<string>)
    ensures |paths| == 1 && StartsWith(paths[0], root + "/") && paths[0][|root| + 1..] == id
  {
    [PathJoin(root, id)]
  }

  /** The first four characters of each identifier, which tell the tools apart. */
  function Head(t: Tool): string
  {
    match t
    case LeinTool => "Lein"
    case BootTool => "Boot"
    case CliTool => "Cloj"
    case BbTool => "Baba"
    case CljKondoTool => "clj-"
    case CljFmtTool => "cljf"
    case CljStyleTool => "cljs"
    case ZprintTool => "zpri"
  }

  lemma HeadOf(t: Tool)
    ensures |Identifier(t)| >= 4 && Identifier(t)[..4] == Head(t)
  {
    match t
    case LeinTool =>
    case BootTool =>
    case CliTool =>
    case BbTool =>
    case CljKondoTool =>
    case CljFmtTool =>
    case CljStyleTool =>
    case ZprintTool =>
  }

  /** Identifiers of different tools are not even prefixes of one another once the
      separator is appended. */
  lemma IdentifiersApart(t1: Tool, t2: Tool)
    requires t1 != t2
    ensures !StartsWith(Identifier(t2) + "-", Identifier(t1) + "-")
  {
    var x, y := Identifier(t1) + "-", Identifier(t2) + "-";
    HeadOf(t1);
    HeadOf(t2);
    assert x[..4] == Head(t1) && y[..4] == Head(t2);
    assert |y| < |x| || y[..|x|][..4] == y[..4];
  }

  /** Of two strings that start the same string, the shorter starts the longer. */
  lemma CommonPrefix(x: string, y: string, a: string, b: string)
    requires x + a == y + b
    ensures |x| <= |y| ==> StartsWith(y, x)
    ensures |y| <= |x| ==> StartsWith(x, y)
  {
    assert (x + a)[..|x|] == x && (y + b)[..|y|] == y;
    if |x| <= |y| {
      assert (y + b)[..|x|] == y[..|x|];
    } else {
      assert (x + a)[..|y|] == x[..|y|];
    }
  }

  /** Within one run (one platform and one release of the action), the cache key names
      the tool and the version: different tools, or different versions of one tool,
      never share an entry. */
  lemma {:induction false} CacheKeyInjective(platform: string, release: string, t1: Tool, v1: string, t2: Tool, v2: string)
    requires CacheKey(platform, release, Identifier(t1), v1) == CacheKey(platform, release, Identifier(t2), v2)
    ensures t1 == t2 && v1 == v2
  {
    var p := "setupclojure-" + platform + "-" + release + "-";
    var x, y := Identifier(t1) + "-", Identifier(t2) + "-";
    var k := CacheKey(platform, release, Identifier(t1), v1);
    assert k == p + (x + v1) && k == p + (y + v2);
    var rest := k[|p|..];
    assert rest == x + v1 && rest == y + v2;
    CommonPrefix(x, y, v1, v2);
    if t1 != t2 {
      IdentifiersApart(t1, t2);
      IdentifiersApart(t2, t1);
      assert false;
    }
    assert rest[|x|..] == v1 && rest[|y|..] == v2;
  }

  /** A value a setup can throw: an `Error`, or any other value, which `String` turns
      into text. */
  datatype Thrown = ErrorValue(message: string) | OtherValue(text: string)

  /** What `main` reports for a thrown value. */
  function Report(t: Thrown): string
  {
    match t
    case ErrorValue(message) => message
    case OtherValue(text) => text
  }

  /** How a `cache.restoreCache` call ends: the key is found, it is not, or the call
      throws. */
  datatype RestoreReply = Restored | Missed | RestoreRaised(reason: Thrown)

  /** How a tool's own setup ends. */
  datatype Settled = Fulfilled | Rejected(reason: Thrown)

  /** What `main` asks of the outside world. */
  datatype Call =
    | Restore(paths: seq<string>, key: string)
    | Install(tool: Tool, version: string, auth: Option<string>)
    | Save(paths: seq<string>, key: string)
    | SetFailed(message: string)

  /** One run of the action: the platform, the action's release and the tool cache
      root are fixed for the run; the calls it makes are logged. */
  class Job {
    const platform: string
    const release: string
    const root: string
    var log: seq<Call>

    constructor (platform: string, release: string, env: map<string, string>)
      ensures this.platform == platform && this.release == release && root == ToolCacheRoot(env)
      ensures log == []
    {
      this.platform := platform;
      this.release := release;
      this.root := ToolCacheRoot(env);
      log := [];
    }

    /** The calls `setupTool` makes for one request: a restore unless the version is
        "latest" or the cache is invalidated, the tool's setup, and a save when the
        setup fulfilled, nothing was restored and the version is not "latest". */
    function ToolCalls(q: Request, auth: Option<string>, invalidate: bool, restore: RestoreReply, settled: Settled): seq<Call>
    {
      var paths := CachePaths(root, Identifier(q.tool));
      var key := CacheKey(platform, release, Identifier(q.tool), q.version);
      var tries := q.version != "latest" && !invalidate;
      var hit := tries && restore.Restored?;
      (if tries then [Restore(paths, key)] else []) + [Install(q.tool, q.version, auth)] +
      (if settled.Fulfilled? && !hit && q.version != "latest" then [Save(paths, key)] else [])
    }

    /** `setupTool`: a failed or throwing restore counts as a miss, a throwing save is
        ignored, and the setup's own failure is passed on (and skips the save). */
    method SetupTool(q: Request, auth: Option<string>, invalidate: bool, restore: RestoreReply, settled: Settled)
      returns (res: Settled)
      modifies this`log
      ensures res == settled
      ensures log == old(log) + ToolCalls(q, auth, invalidate, restore, settled)
    {
      var paths := CachePaths(root, Identifier(q.tool));
      var key := CacheKey(platform, release, Identifier(q.tool), q.version);
      var cacheHit := false;
      if q.version != "latest" && !invalidate {
        log := log + [Restore(paths, key)];
        cacheHit := restore.Restored?;
      }
      log := log + [Install(q.tool, q.version, auth)];
      if settled.Rejected? {
        return settled;
      }
      if !cacheHit && q.version != "latest" {
        log := log + [Save(paths, key)];
      }
      res := Fulfilled;
    }

    /** The calls of `setupTool` for each request in turn. */
    function Run(qs: seq<Request>, auth: Option<string>, invalidate: bool,
                 restores: Tool -> RestoreReply, outcomes: Tool -> Settled): seq<Call>
    {
      if qs == [] then []
      else
        var q := qs[|qs| - 1];
        Run(qs[..|qs| - 1], auth, invalidate, restores, outcomes) +
        ToolCalls(q, auth, invalidate, restores(q.tool), outcomes(q.tool))
    }

    /** `main`: the `invalidate-cache` input is read before the `try`, so a value that is
        not a boolean rejects `main` itself, with nothing started and nothing reported.
        Otherwise the requests are started in input order, each through `setupTool`
        (`Promise.all` is taken one request after the other); a failure raised while
        choosing the requests wins over the setups' own, which are still started. The
        reported failure goes to `setFailed`. */
    method RunAction(inputs: Inputs, restores: Tool -> RestoreReply, outcomes: Tool -> Settled)
      returns (outcome: Result<Option<string>>)
      modifies this`log
      ensures BooleanInput(inputs.invalidateCache).Err? ==> outcome == Err(NotBoolean) && log == old(log)
      ensures BooleanInput(inputs.invalidateCache).Ok? ==>
                var started := Pushed(inputs, Considered(inputs, platform));
                var invalidate := BooleanInput(inputs.invalidateCache).value;
                outcome.Ok? &&
                outcome.value == (if Stopped(inputs, platform) then Some(CljStyleOnWindows)
                                  else if NoneGiven(inputs) then Some(NoTool)
                                  else FirstRejection(started, outcomes)) &&
                log == old(log) + Run(started, Auth(inputs.token), invalidate, restores, outcomes) +
                       (if outcome.value.Some? then [SetFailed(outcome.value.value)] else [])
    {
      var invalidate := BooleanInput(inputs.invalidateCache);
      if invalidate.Err? {
        return Err(invalidate.error);
      }
      var started, error := Plan(inputs, platform);
      var rejection := SettleAll(started, Auth(inputs.token), invalidate.value, restores, outcomes);
      var failure := if error.Some? then error else rejection;
      if failure.Some? {
        log := log + [SetFailed(failure.value)];
      }
      outcome := Ok(failure);
    }

    /** `Promise.all` over the started setups, taken one request after the other: every
        setup runs, and the first rejection in request order is the one reported. */
    method SettleAll(started: seq<Request>, auth: Option<string>, invalidate: bool,
                     restores: Tool -> RestoreReply, outcomes: Tool -> Settled)
      returns (rejection: Option<string>)
      modifies this`log
      ensures rejection == FirstRejection(started, outcomes)
      ensures log == old(log) + Run(started, auth, invalidate, restores, outcomes)
    {
      rejection := None;
      var i := 0;
      while i < |started|
        invariant 0 <= i <= |started|
        invariant log == old(log) + Run(started[..i], auth, invalidate, restores, outcomes)
        invariant rejection == FirstRejection(started[..i], outcomes)
      {
        var q := started[i];
        RunStep(started, i, auth, invalidate, restores, outcomes);
        FirstRejectionStep(started, i, outcomes);
        ghost var done := Run(started[..i], auth, invalidate, restores, outcomes);
        var res := SetupTool(q, auth, invalidate, restores(q.tool), outcomes(q.tool));
        Associate(old(log), done, ToolCalls(q, auth, invalidate, restores(q.tool), outcomes(q.tool)));
        if res.Rejected? && rejection.None? {
          rejection := Some(Report(res.reason));
        }
        i := i + 1;
      }
      assert started[..i] == started;
    }

    /** The calls for one more request come after those of the requests before it. */
    lemma RunStep(qs: seq<Request>, i: nat, auth: Option<string>, invalidate: bool,
                  restores: Tool -> RestoreReply, outcomes: Tool -> Settled)
      requires i < |qs|
      ensures Run(qs[..i + 1], auth, invalidate, restores, outcomes) ==
              Run(qs[..i], auth, invalidate, restores, outcomes) +
              ToolCalls(qs[i], auth, invalidate, restores(qs[i].tool), outcomes(qs[i].tool))
    {
      assert qs[..i + 1][..i] == qs[..i];
    }

    /** The calls for one request set up that request's tool and nothing else. */
    lemma ToolCallsInstall(q: Request, auth: Option<string>, invalidate: bool, restore: RestoreReply, settled: Settled,
                           t: Tool, v: string, a: Option<string>)
      ensures Install(t, v, a) in ToolCalls(q, auth, invalidate, restore, settled) <==> q == Request(t, v) && a == auth
    {
    }

    /** Every started request reaches its tool's setup, with the run's authorization,
        and nothing else is set up. */
    lemma {:induction false} RunInstalls(qs: seq<Request>, auth: Option<string>, invalidate: bool,
                                         restores: Tool -> RestoreReply, outcomes: Tool -> Settled,
                                         t: Tool, v: string, a: Option<string>)
      ensures Install(t, v, a) in Run(qs, auth, invalidate, restores, outcomes) <==> Request(t, v) in qs && a == auth
    {
      if qs != [] {
        var q := qs[|qs| - 1];
        var init := qs[..|qs| - 1];
        RunInstalls(init, auth, invalidate, restores, outcomes, t, v, a);
        ToolCallsInstall(q, auth, invalidate, restores(q.tool), outcomes(q.tool), t, v, a);
        var earlier := Run(init, auth, invalidate, restores, outcomes);
        var calls := ToolCalls(q, auth, invalidate, restores(q.tool), outcomes(q.tool));
        assert Run(qs, auth, invalidate, restores, outcomes) == earlier + calls;
        InConcat(earlier, calls, Install(t, v, a));
        InInitOrLast(qs, Request(t, v));
      }
    }

    /** Nothing is restored or saved for a request of "latest". */
    lemma LatestUncached(q: Request, auth: Option<string>, invalidate: bool, restore: RestoreReply, settled: Settled)
      requires q.version == "latest"
      ensures ToolCalls(q, auth, invalidate, restore, settled) == [Install(q.tool, q.version, auth)]
    {
    }

    /** A save happens exactly when the setup fulfilled, the version is not "latest"
        and no restore found the key; restore and save use the tool's own key. */
    lemma SaveWhenMissed(q: Request, auth: Option<string>, invalidate: bool, restore: RestoreReply, settled: Settled,
                         paths: seq<string>, key: string)
      ensures Save(paths, key) in ToolCalls(q, auth, invalidate, restore, settled) <==>
                settled.Fulfilled? && q.version != "latest" && (invalidate || !restore.Restored?) &&
                paths == CachePaths(root, Identifier(q.tool)) &&
                key == CacheKey(platform, release, Identifier(q.tool), q.version)
      ensures Restore(paths, key) in ToolCalls(q, auth, invalidate, restore, settled) <==>
                q.version != "latest" && !invalidate &&
                paths == CachePaths(root, Identifier(q.tool)) &&
                key == CacheKey(platform, release, Identifier(q.tool), q.version)
    {
    }
  }

  /** The failure `Promise.all` reports: that of the first rejected setup, in request
      order. */
  function FirstRejection(qs: seq<Request>, outcomes: Tool -> Settled): Option<string>
  {
    if qs == [] then None
    else
      var earlier := FirstRejection(qs[..|qs| - 1], outcomes);
      var last := outcomes(qs[|qs| - 1].tool);
      if earlier.Some? then earlier
      else if last.Rejected? then Some(Report(last.reason))
      else None
  }

  lemma InConcat(a: seq<Call>, b: seq<Call>, x: Call)
    ensures x in a + b <==> x in a || x in b
  {
    if x in b {
      var j :| 0 <= j < |b| && b[j] == x;
      assert (a + b)[|a| + j] == x;
    }
  }

  /** An element of a non-empty sequence is among the ones before the last or is the last. */
  lemma InInitOrLast(qs: seq<Request>, x: Request)
    requires qs != []
    ensures x in qs <==> x in qs[..|qs| - 1] || x == qs[|qs| - 1]
  {
    if x in qs {
      var j :| 0 <= j < |qs| && qs[j] == x;
      if j < |qs| - 1 {
        assert qs[..|qs| - 1][j] == x;
      }
    }
  }

  lemma Associate(a: seq<Call>, b: seq<Call>, c: seq<Call>)
    ensures a + b + c == a + (b + c)
  {
  }

  /** One more request keeps an earlier rejection and otherwise reports its own. */
  lemma FirstRejectionStep(qs: seq<Request>, i: nat, outcomes: Tool -> Settled)
    requires i < |qs|
    ensures FirstRejection(qs[..i + 1], outcomes) ==
            if FirstRejection(qs[..i], outcomes).Some? then FirstRejection(qs[..i], outcomes)
            else if outcomes(qs[i].tool).Rejected? then Some(Report(outcomes(qs[i].tool).reason))
            else None
  {
    assert qs[..i + 1][..i] == qs[..i];
  }

  /** The reported failure is the reason of the earliest rejected request, and there is
      one exactly when some request was rejected. */
  lemma {:induction false} FirstRejectionIsEarliest(qs: seq<Request>, outcomes: Tool -> Settled)
    ensures FirstRejection(qs, outcomes).None? <==> forall i :: 0 <= i < |qs| ==> outcomes(qs[i].tool).Fulfilled?
    ensures FirstRejection(qs, outcomes).Some? ==>
              exists i :: 0 <= i < |qs| && outcomes(qs[i].tool).Rejected? &&
                          FirstRejection(qs, outcomes) == Some(Report(outcomes(qs[i].tool).reason)) &&
                          forall j :: 0 <= j < i ==> outcomes(qs[j].tool).Fulfilled?
  {
    if qs != [] {
      var init := qs[..|qs| - 1];
      FirstRejectionIsEarliest(init, outcomes);
      assert forall i :: 0 <= i < |init| ==> init[i] == qs[i];
      if FirstRejection(init, outcomes).Some? {
        var i :| 0 <= i < |init| && outcomes(init[i].tool).Rejected? &&
                 FirstRejection(init, outcomes) == Some(Report(outcomes(init[i].tool).reason)) &&
                 forall j :: 0 <= j < i ==> outcomes(init[j].tool).Fulfilled?;
        assert outcomes(qs[i].tool).Rejected?;
      } else if outcomes(qs[|qs| - 1].tool).Rejected? {
        assert outcomes(qs[|qs| - 1].tool).Rejected?;
      }
    }
  }
}
