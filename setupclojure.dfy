/** src/setup-clojure.ts: the older entry point. `run` starts the Leiningen, Boot and
    CLI setups without waiting for them, waits for Babashka's, and reports the first
    error it catches. */
module SetupClojure {
  import opened Common
  import opened Strings
  import Utils

  /** The inputs `run` reads; an input that is not given reads as "". */
  datatype Inputs = Inputs(lein: string, boot: string, toolsDeps: string, cli: string, bb: string, token: string)

  /** The setups `run` starts. */
  datatype Call =
    | LeinSetup(version: string, auth: Option<string>)
    | BootSetup(version: string, auth: Option<string>)
    | CliSetupWindows(version: string)
    | CliSetup(version: string)
    | BbSetup(version: string, token: string)

  const BootOnWindows: string := "Boot on windows is not supported yet."
  const NoTool: string := "You must specify at least one clojure tool."

  /** The order in which `run` can start the setups. */
  function Rank(c: Call): nat
  {
    match c
    case LeinSetup(_, _) => 0
    case BootSetup(_, _) => 1
    case CliSetupWindows(_) => 2
    case CliSetup(_) => 3
    case BbSetup(_, _) => 4
  }

  /** The authorization handed to the Leiningen and Boot setups: `token <token>` when a
      token is given. */
  function Auth(token: string): (auth: Option<string>)
    ensures auth.Some? <==> token != ""
    ensures auth.Some? ==> StartsWith(auth.value, "token ") && auth.value[6..] == token
  {
    if token != "" then Some("token " + token) else None
  }

  /** The version the CLI is installed at: `cli`, or `tools-deps` when `cli` is not given. */
  function CliVersion(inputs: Inputs): string
  {
    if inputs.cli != "" then inputs.cli else inputs.toolsDeps
  }

  /** None of the five tool inputs is given. */
  predicate NoneGiven(inputs: Inputs)
  {
    inputs.lein == "" && inputs.boot == "" && inputs.toolsDeps == "" && inputs.cli == "" && inputs.bb == ""
  }

  /** The calls come in `Rank` order, so each setup is started at most once. */
  ghost predicate InOrder(calls: seq<Call>)
  {
    forall i, j :: 0 <= i < j < |calls| ==> Rank(calls[i]) < Rank(calls[j])
  }

  /** Whether the Boot input stops the run before anything after Leiningen starts. */
  predicate Stopped(inputs: Inputs, platform: string)
  {
    inputs.boot != "" && Utils.IsWindows(platform)
  }

  function LeinPart(inputs: Inputs): seq<Call>
  {
    if inputs.lein != "" then [LeinSetup(inputs.lein, Auth(inputs.token))] else []
  }

  function BootPart(inputs: Inputs): seq<Call>
  {
    if inputs.boot != "" then [BootSetup(inputs.boot, Auth(inputs.token))] else []
  }

  function CliPart(inputs: Inputs, platform: string): seq<Call>
  {
    if CliVersion(inputs) == "" then []
    else if !Utils.IsWindows(platform) then [CliSetup(CliVersion(inputs))]
    else if inputs.cli != "" then [CliSetupWindows(inputs.cli)]
    else [CliSetupWindows(inputs.toolsDeps), CliSetup(inputs.toolsDeps)]
  }

  function BbPart(inputs: Inputs): seq<Call>
  {
    if inputs.bb != "" then [BbSetup(inputs.bb, inputs.token)] else []
  }

  /** The setups `run` starts, in order. */
  function Calls(inputs: Inputs, platform: string): seq<Call>
  {
    if Stopped(inputs, platform) then LeinPart(inputs)
    else LeinPart(inputs) + BootPart(inputs) + CliPart(inputs, platform) + BbPart(inputs)
  }

  lemma Regroup(o: seq<Call>, a: seq<Call>, b: seq<Call>, c: seq<Call>, d: seq<Call>)
    ensures o + a + b + c + d == o + (a + b + c + d)
  {
  }

  /** Concatenating calls in order, with every rank of the first below every rank of
      the second, keeps them in order. */
  lemma InOrderAppend(a: seq<Call>, b: seq<Call>, bound: nat)
    requires InOrder(a) && InOrder(b)
    requires forall x :: x in a ==> Rank(x) < bound
    requires forall y :: y in b ==> bound <= Rank(y)
    ensures InOrder(a + b)
  {
    forall i, j | 0 <= i < j < |a + b|
      ensures Rank((a + b)[i]) < Rank((a + b)[j])
    {
      if i < |a| && j >= |a| {
        assert (a + b)[i] == a[i] && a[i] in a;
        assert (a + b)[j] == b[j - |a|] && b[j - |a|] in b;
      }
    }
  }

  /** Each setup `run` starts is started at most once, in the order of `Rank`. */
  lemma {:induction false} CallsInOrder(inputs: Inputs, platform: string)
    ensures InOrder(Calls(inputs, platform))
  {
    var l, b, c, z := LeinPart(inputs), BootPart(inputs), CliPart(inputs, platform), BbPart(inputs);
    if !Stopped(inputs, platform) {
      InOrderAppend(l, b, 1);
      InOrderAppend(l + b, c, 2);
      InOrderAppend(l + b + c, z, 4);
    }
  }

  /** A call is among those of `run` exactly when it is in one of the parts that run. */
  lemma CallsMembers(inputs: Inputs, platform: string, x: Call)
    ensures x in Calls(inputs, platform) <==>
              x in LeinPart(inputs) ||
              (!Stopped(inputs, platform) && (x in BootPart(inputs) || x in CliPart(inputs, platform) || x in BbPart(inputs)))
  {
    var l, b, c, z := LeinPart(inputs), BootPart(inputs), CliPart(inputs, platform), BbPart(inputs);
    assert x in l + b + c + z <==> x in l || x in b || x in c || x in z;
  }

  /** Leiningen is started whenever it is asked for, Boot only when it does not stop
      the run, both with the `token` authorization. */
  lemma LeinAndBoot(inputs: Inputs, platform: string)
    ensures forall v, a :: LeinSetup(v, a) in Calls(inputs, platform) <==>
              inputs.lein != "" && v == inputs.lein && a == Auth(inputs.token)
    ensures forall v, a :: BootSetup(v, a) in Calls(inputs, platform) <==>
              inputs.boot != "" && !Stopped(inputs, platform) && v == inputs.boot && a == Auth(inputs.token)
  {
    forall v, a ensures LeinSetup(v, a) in Calls(inputs, platform) <==> LeinSetup(v, a) in LeinPart(inputs) {
      CallsMembers(inputs, platform, LeinSetup(v, a));
    }
    forall v, a
      ensures BootSetup(v, a) in Calls(inputs, platform) <==> !Stopped(inputs, platform) && BootSetup(v, a) in BootPart(inputs)
    {
      CallsMembers(inputs, platform, BootSetup(v, a));
    }
  }

  /** Unless Boot stops the run, the PowerShell installer runs exactly on Windows, the
      Linux-way CLI setup off Windows or for `tools-deps`, both at the CLI version, and
      Babashka gets the raw token. */
  lemma CliAndBabashka(inputs: Inputs, platform: string)
    ensures forall v :: CliSetupWindows(v) in Calls(inputs, platform) <==>
              CliVersion(inputs) != "" && !Stopped(inputs, platform) && Utils.IsWindows(platform) && v == CliVersion(inputs)
    ensures forall v :: CliSetup(v) in Calls(inputs, platform) <==>
              CliVersion(inputs) != "" && !Stopped(inputs, platform) && (!Utils.IsWindows(platform) || inputs.cli == "") &&
              v == CliVersion(inputs)
    ensures forall v, t :: BbSetup(v, t) in Calls(inputs, platform) <==>
              inputs.bb != "" && !Stopped(inputs, platform) && v == inputs.bb && t == inputs.token
  {
    forall v ensures CliSetupWindows(v) in Calls(inputs, platform) <==>
                     !Stopped(inputs, platform) && CliSetupWindows(v) in CliPart(inputs, platform) {
      CallsMembers(inputs, platform, CliSetupWindows(v));
    }
    forall v ensures CliSetup(v) in Calls(inputs, platform) <==>
                     !Stopped(inputs, platform) && CliSetup(v) in CliPart(inputs, platform) {
      CallsMembers(inputs, platform, CliSetup(v));
    }
    forall v, t ensures BbSetup(v, t) in Calls(inputs, platform) <==>
                        !Stopped(inputs, platform) && BbSetup(v, t) in BbPart(inputs) {
      CallsMembers(inputs, platform, BbSetup(v, t));
    }
  }

  /** One run of the action on one platform. */
  class Session {
    const platform: string
    var log: seq<Call>

    constructor (platform: string)
      ensures this.platform == platform && log == []
    {
      this.platform := platform;
      log := [];
    }

    /** `run`: Leiningen is started first, so it still runs when the Boot input stops the
        run on Windows. The CLI is set up by the PowerShell installer on Windows when
        asked for by `cli`; asked for by `tools-deps` it is also set up the Linux way.
        Babashka gets the raw token. `bb` is how Babashka's setup ends, and its failure
        is the one reported when nothing else stops the run. */
    method Run(inputs: Inputs, bb: Outcome) returns (failure: Option<string>)
      modifies this`log
      ensures log == old(log) + Calls(inputs, platform)
      ensures failure == (if Stopped(inputs, platform) then Some(BootOnWindows)
                          else if inputs.bb != "" && bb.Fail? then Some(bb.message)
                          else if NoneGiven(inputs) then Some(NoTool)
                          else None)
    {
      var auth := Auth(inputs.token);
      var windows := Utils.IsWindows(platform);
      if inputs.lein != "" {
        log := log + [LeinSetup(inputs.lein, auth)];
      }
      assert log == old(log) + LeinPart(inputs);
      if inputs.boot != "" {
        if windows {
          return Some(BootOnWindows);
        }
        log := log + [BootSetup(inputs.boot, auth)];
      }
      assert log == old(log) + LeinPart(inputs) + BootPart(inputs);
      failure := StartRest(inputs, bb);
      Regroup(old(log), LeinPart(inputs), BootPart(inputs), CliPart(inputs, platform), BbPart(inputs));
    }

    /** The part of `run` after the Boot gate: the CLI and Babashka setups and the check
        that some tool was asked for. */
    method StartRest(inputs: Inputs, bb: Outcome) returns (failure: Option<string>)
      modifies this`log
      ensures log == old(log) + CliPart(inputs, platform) + BbPart(inputs)
      ensures failure == (if inputs.bb != "" && bb.Fail? then Some(bb.message)
                          else if NoneGiven(inputs) then Some(NoTool)
                          else None)
    {
      var windows := Utils.IsWindows(platform);
      if inputs.cli != "" {
        if windows {
          log := log + [CliSetupWindows(inputs.cli)];
        } else {
          log := log + [CliSetup(inputs.cli)];
        }
      }
      if inputs.toolsDeps != "" && inputs.cli == "" {
        if windows {
          log := log + [CliSetupWindows(inputs.toolsDeps)];
        }
        log := log + [CliSetup(inputs.toolsDeps)];
      }
      assert log == old(log) + CliPart(inputs, platform);
      if inputs.bb != "" {
        log := log + [BbSetup(inputs.bb, inputs.token)];
        if bb.Fail? {
          return Some(bb.message);
        }
      }
      if NoneGiven(inputs) {
        return Some(NoTool);
      }
      failure := None;
    }
  }
}
