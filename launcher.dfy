/**
 * The shell launcher's decisions: which executable `sls shell` spawns, the
 * line it logs first, and what it hands to the child process.
 */
module Launcher {
  import opened Wrappers
  import opened JsValues
  import opened Config

  predicate StartsWith(s: string, prefix: string) {
    |prefix| <= |s| && s[..|prefix|] == prefix
  }

  /** `_.has(serverless, 'service.custom.shellBinary')`, with its value. */
  function CustomShellBinary(custom: Option<CustomSection>): (r: Option<string>)
    ensures r.Some? <==> custom.Some? && custom.value.shellBinary.Some?
    ensures r.Some? ==> r == custom.value.shellBinary
  {
    if custom.Some? then custom.value.shellBinary else None
  }

  /**
   * The executable, by first match: a truthy `--shell`, then a configured
   * `custom.shellBinary` (whatever its value), then `node` for a `nodejs*`
   * runtime, then the runtime itself. `None` when the chain reaches the
   * runtime and there is none: there `runtime.startsWith` throws.
   */
  function SelectShellBinary(shellOption: Option<string>, custom: Option<CustomSection>,
                             runtime: Option<string>): (r: Option<string>)
    ensures TextTruthy(shellOption) ==> r == shellOption
    ensures r.None? <==> !TextTruthy(shellOption) && CustomShellBinary(custom).None? && runtime.None?
  {
    if TextTruthy(shellOption) then shellOption
    else if CustomShellBinary(custom).Some? then CustomShellBinary(custom)
    else if runtime.None? then None
    else if StartsWith(runtime.value, "nodejs") then Some("node")
    else runtime
  }

  /**
   * Reference definition of "first match wins": the first candidate that is
   * present.
   */
  function FirstMatch(candidates: seq<Option<string>>): (r: Option<string>)
    ensures r.None? <==> forall i :: 0 <= i < |candidates| ==> candidates[i].None?
    ensures r.Some? ==>
              exists i :: 0 <= i < |candidates| && candidates[i] == r &&
                          forall j :: 0 <= j < i ==> candidates[j].None?
    decreases |candidates|
  {
    if candidates == [] then None
    else if candidates[0].Some? then candidates[0]
    else
      var r := FirstMatch(candidates[1..]);
      assert forall i :: 0 < i < |candidates| ==> candidates[i] == candidates[1..][i - 1];
      r
  }

  /** The four rules of the chain, in order; each one either applies or not. */
  function ShellCandidates(shellOption: Option<string>, custom: Option<CustomSection>,
                           runtime: Option<string>): seq<Option<string>>
  {
    [ if TextTruthy(shellOption) then shellOption else None,
      CustomShellBinary(custom),
      if runtime.Some? && StartsWith(runtime.value, "nodejs") then Some("node") else None,
      runtime ]
  }

  /** The if/else chain in the plugin is exactly a first match over its rules. */
  lemma SelectShellBinaryIsFirstMatch(shellOption: Option<string>, custom: Option<CustomSection>,
                                      runtime: Option<string>)
    ensures SelectShellBinary(shellOption, custom, runtime) ==
            FirstMatch(ShellCandidates(shellOption, custom, runtime))
  {
    var c := ShellCandidates(shellOption, custom, runtime);
    assert c[1..][1..][1..][1..] == [];
    assert FirstMatch(c[1..][1..][1..]) == c[3];
    assert FirstMatch(c[1..][1..]) == if c[2].Some? then c[2] else c[3];
    assert FirstMatch(c[1..]) == if c[1].Some? then c[1] else FirstMatch(c[1..][1..]);
  }

  /** An explicit `--shell` beats both `custom.shellBinary` and runtime inference. */
  lemma ExplicitShellWins(shell: string, custom: Option<CustomSection>, runtime: Option<string>)
    requires shell != ""
    ensures SelectShellBinary(Some(shell), custom, runtime) == Some(shell)
  {
  }

  /** A configured `custom.shellBinary` is used even when it is the empty string. */
  lemma CustomShellBinaryWins(binary: string, pythonRequirements: Option<Env>, runtime: Option<string>)
    ensures SelectShellBinary(None, Some(CustomSection(Some(binary), pythonRequirements)), runtime) == Some(binary)
    ensures SelectShellBinary(Some(""), Some(CustomSection(Some(binary), pythonRequirements)), runtime) == Some(binary)
  {
  }

  /** Runtime inference: `nodejs18.x` spawns `node`, `python3.11` spawns itself. */
  lemma RuntimeExamples()
    ensures SelectShellBinary(None, None, Some("nodejs18.x")) == Some("node")
    ensures SelectShellBinary(None, None, Some("python3.11")) == Some("python3.11")
    ensures SelectShellBinary(Some("bash"), None, Some("nodejs18.x")) == Some("bash")
  {
    assert "nodejs18.x"[..6] == "nodejs";
    assert "python3.11"[..6] != "nodejs" by { assert "python3.11"[0] != "nodejs"[0]; }
  }

  /** What is spawned: the executable, no arguments, and the environment to inherit. */
  datatype Launch = Launch(binary: string, args: seq<string>, env: Env)

  /** The informational line logged before spawning. */
  function SpawnMessage(binary: string): (line: string)
    ensures |line| == |binary| + 12
    ensures line[..9] == "Spawning " && line[9..9 + |binary|] == binary && line[9 + |binary|..] == "..."
  {
    "Spawning " + binary + "..."
  }
}
