/**
 * internal/executor/executor.go: runs one shell command with a derived
 * environment and package-manager-aware command rewriting. Spawning the child
 * is an abstract function `run` from what exec.Command is asked to run to what
 * the child produced; the parent process environment (os.Environ) and the
 * platform (runtime.GOOS) are parameters.
 */
module Executor {
  import opened Wrappers
  import opened Strings

  /** The PATH every command runs with, whatever the caller supplied. */
  const StandardPath := "/usr/local/sbin:/usr/local/bin:/usr/sbin:/usr/bin:/sbin:/bin"

  /** The marker whose presence means the command already passes Dpkg options. */
  const DpkgMarker := "-o Dpkg::Options"

  /** The suffix that keeps dpkg from asking about changed configuration files. */
  const DpkgOptions := " " + DpkgMarker + "::=\"--force-confdef\" " + DpkgMarker + "::=\"--force-confold\""

  /** runtime.GOOS, as far as the executor looks at it. */
  datatype Platform = Windows | OtherOS

  /** What exec.Command is asked to run: the shell, its arguments, and the child's environment. */
  datatype Invocation = Invocation(path: string, args: seq<string>, env: map<string, string>)

  /** What a run produced: the captured streams, and cmd.Run's error text when it failed. */
  datatype RunOutcome = RunOutcome(stdout: string, stderr: string, err: Option<string>)

  function ShellFor(p: Platform): string {
    if p == Windows then "cmd.exe" else "/bin/sh"
  }

  function ShellArgs(p: Platform, command: string): seq<string> {
    if p == Windows then ["/C", command] else ["-c", command]
  }

  // ---------------------------------------------------------------------------
  // Command rewriting
  // ---------------------------------------------------------------------------

  /** The Debian branch's guard. "apt-get" contains "apt", so this is the bare substring "apt". */
  predicate IsDebian(c: string) {
    Contains(c, "apt-get") || Contains(c, "apt")
  }

  /** The command has no -y flag: neither " -y " inside it nor " -y" at its end. */
  predicate LacksYes(c: string) {
    !Contains(c, " -y ") && !HasSuffix(c, " -y")
  }

  /** One guarded -y injection: "-y " goes right after the first `tool` when no -y is present. */
  function InjectYes(c: string, tool: string): string {
    if LacksYes(c) && Contains(c, tool) then ReplaceFirst(c, tool, tool + "-y ") else c
  }

  /** The guarded Dpkg option suffix for install commands. */
  function AppendDpkg(c: string): string {
    if Contains(c, "install") && !Contains(c, DpkgMarker) then c + DpkgOptions else c
  }

  /** The rewrite of lines 49-87: the first branch whose guard holds applies, in the order apt, yum, dnf. */
  function Rewrite(c: string): string {
    if IsDebian(c) then AppendDpkg(InjectYes(InjectYes(c, "apt-get "), "apt "))
    else if Contains(c, "yum") then InjectYes(c, "yum ")
    else if Contains(c, "dnf") then InjectYes(c, "dnf ")
    else c
  }

  /** The environment keys the executor writes for a command. */
  function ManagedKeys(c: string): set<string> {
    if IsDebian(c) then {"PATH", "DEBIAN_FRONTEND", "DEBIAN_PRIORITY"} else {"PATH"}
  }

  /**
   * The caller's map after the executor's writes: PATH is always the standard
   * one, the two DEBIAN_* keys are set exactly for Debian-branch commands, and
   * every other key keeps the caller's value.
   */
  function Overlay(env: map<string, string>, c: string): (r: map<string, string>)
    ensures r.Keys == env.Keys + ManagedKeys(c)
    ensures r["PATH"] == StandardPath
    ensures IsDebian(c) ==> r["DEBIAN_FRONTEND"] == "noninteractive" && r["DEBIAN_PRIORITY"] == "critical"
    ensures forall k | k in env && k !in ManagedKeys(c) :: r[k] == env[k]
  {
    var withPath := env["PATH" := StandardPath];
    if IsDebian(c) then withPath["DEBIAN_FRONTEND" := "noninteractive"]["DEBIAN_PRIORITY" := "critical"]
    else withPath
  }

  /** The returned output: trimmed stdout on success; on failure trimmed stderr, or trimmed stdout when that is empty. */
  function SelectOutput(o: RunOutcome): string {
    var stdout := TrimSpace(o.stdout);
    if o.err.None? then stdout
    else
      var stderr := TrimSpace(o.stderr);
      if stderr != "" then stderr else stdout
  }

  /** The returned error: none on success, otherwise a message that embeds the selected output. */
  function ErrorText(o: RunOutcome): Option<string> {
    if o.err.None? then None
    else Some("command failed: " + o.err.value + "\nOutput: " + SelectOutput(o))
  }

  /** What the code as written hands to exec.Command: the command before any rewriting. */
  function AsWrittenInvocation(shell: string, p: Platform, command: string, env: map<string, string>,
                               parent: map<string, string>): Invocation
  {
    Invocation(shell, ShellArgs(p, command), parent + Overlay(env, command))
  }

  /** What the rewriting is evidently for: the shell receives the rewritten command. */
  function IntendedInvocation(shell: string, p: Platform, command: string, env: map<string, string>,
                              parent: map<string, string>): Invocation
  {
    Invocation(shell, ShellArgs(p, Rewrite(command)), parent + Overlay(env, command))
  }

  /** A Go map passed by reference: the executor writes into the caller's map. */
  class EnvMap {
    var vars: map<string, string>

    constructor (vars: map<string, string>)
      ensures this.vars == vars
    {
      this.vars := vars;
    }
  }

  /**
   * The environment exec hands the child: os.Environ() followed by one "k=v"
   * entry per overlay key. exec keeps the last value of a duplicated key, so
   * each overlay key wins over the parent's.
   */
  method ChildEnv(parent: map<string, string>, vars: map<string, string>) returns (childEnv: map<string, string>)
    ensures childEnv == parent + vars
  {
    childEnv := parent;
    var todo := vars.Keys;
    while todo != {}
      invariant todo <= vars.Keys
      invariant childEnv == parent + (map k | k in vars.Keys - todo :: vars[k])
      decreases todo
    {
      var k :| k in todo;
      childEnv := childEnv[k := vars[k]];
      todo := todo - {k};
    }
    assert (map k | k in vars.Keys - {} :: vars[k]) == vars;
  }

  class Executor {
    const shell: string
    /** runtime.GOOS, which ExecuteWithEnv consults again when it builds the command line. */
    const platform: Platform

    /** NewExecutor: /bin/sh, or cmd.exe on Windows. */
    constructor (platform: Platform)
      ensures shell == (if platform == Windows then "cmd.exe" else "/bin/sh")
      ensures this.platform == platform
    {
      shell := ShellFor(platform);
      this.platform := platform;
    }

    /**
     * Lines 45-53: writes PATH, and for Debian-branch commands the DEBIAN_*
     * keys, into `env` in place; then the guarded rewrite of lines 55-86.
     */
    static method Prepare(env: EnvMap, command: string) returns (c: string)
      modifies env
      ensures env.vars == Overlay(old(env.vars), command)
      ensures c == Rewrite(command)
    {
      env.vars := env.vars["PATH" := StandardPath];
      if Contains(command, "apt-get") || Contains(command, "apt") {
        env.vars := env.vars["DEBIAN_FRONTEND" := "noninteractive"];
        env.vars := env.vars["DEBIAN_PRIORITY" := "critical"];
      }
      c := RewriteCommand(command);
    }

    /** Lines 49-87: the package-manager switch, reassigning the command step by step. */
    static method RewriteCommand(command: string) returns (c: string)
      ensures c == Rewrite(command)
    {
      c := command;
      if Contains(c, "apt-get") || Contains(c, "apt") {
        c := RewriteDebian(c);
      } else if Contains(c, "yum") {
        c := AddYesAfterTool(c, "yum ");
      } else if Contains(c, "dnf") {
        c := AddYesAfterTool(c, "dnf ");
      }
    }

    /** Lines 74-78 and 82-86: without a -y flag, "-y " goes right after the first "yum " (or "dnf "). */
    static method AddYesAfterTool(command: string, tool: string) returns (c: string)
      ensures c == InjectYes(command, tool)
    {
      c := command;
      if !Contains(c, " -y ") && !HasSuffix(c, " -y") {
        if Contains(c, tool) {
          c := ReplaceFirst(c, tool, tool + "-y ");
        }
      }
    }

    /** Lines 55-70: the three guarded steps of the Debian branch, in order. */
    static method RewriteDebian(command: string) returns (c: string)
      ensures c == AppendDpkg(InjectYes(InjectYes(command, "apt-get "), "apt "))
    {
      c := AddYesAfterAptGet(command);
      c := AddYesAfterApt(c);
      c := AddDpkgOptions(c);
    }

    /** Lines 55-58. The guard looks for "apt-get"; the replacement needs "apt-get ". */
    static method AddYesAfterAptGet(command: string) returns (c: string)
      ensures c == InjectYes(command, "apt-get ")
    {
      c := command;
      if Contains(c, "apt-get ") {
        assert "apt-get" + " " == "apt-get ";
        ContainsPrefix(c, "apt-get", " ");
      }
      if Contains(c, "apt-get") && !Contains(c, " -y ") && !HasSuffix(c, " -y") {
        c := ReplaceFirst(c, "apt-get ", "apt-get -y ");
      }
    }

    /** Lines 60-63. */
    static method AddYesAfterApt(command: string) returns (c: string)
      ensures c == InjectYes(command, "apt ")
    {
      c := command;
      if Contains(c, "apt ") && !Contains(c, " -y ") && !HasSuffix(c, " -y") {
        c := ReplaceFirst(c, "apt ", "apt -y ");
      }
    }

    /** Lines 65-70. */
    static method AddDpkgOptions(command: string) returns (c: string)
      ensures c == AppendDpkg(command)
    {
      c := command;
      if Contains(c, "install") {
        if !Contains(c, DpkgMarker) {
          c := c + DpkgOptions;
        }
      }
    }

    /**
     * ExecuteWithEnv as written: the command line is built before the rewrite,
     * so the child runs the caller's command unchanged; only the environment
     * writes reach it. A nil `env` becomes a fresh map; a caller's map is
     * written in place.
     */
    method ExecuteWithEnvAsWritten(command: string, env: EnvMap?, parent: map<string, string>,
                                   run: Invocation -> RunOutcome)
      returns (output: string, err: Option<string>)
      modifies env
      ensures env != null ==> env.vars == Overlay(old(env.vars), command)
      ensures var base := if env == null then map[] else old(env.vars);
              var o := run(AsWrittenInvocation(shell, platform, command, base, parent));
              output == SelectOutput(o) && err == ErrorText(o)
    {
      var args := if platform == Windows then ["/C", command] else ["-c", command];
      var target := env;
      if target == null {
        target := new EnvMap(map[]);
      }
      var rewritten := Prepare(target, command);
      var childEnv := ChildEnv(parent, target.vars);
      var o := run(Invocation(shell, args, childEnv));
      output, err := Report(o);
    }

    /**
     * ExecuteWithEnv as its comments intend: the same environment writes, and
     * the child runs the rewritten command.
     */
    method ExecuteWithEnv(command: string, env: EnvMap?, parent: map<string, string>,
                          run: Invocation -> RunOutcome)
      returns (output: string, err: Option<string>)
      modifies env
      ensures env != null ==> env.vars == Overlay(old(env.vars), command)
      ensures var base := if env == null then map[] else old(env.vars);
              var o := run(IntendedInvocation(shell, platform, command, base, parent));
              output == SelectOutput(o) && err == ErrorText(o)
    {
      var target := env;
      if target == null {
        target := new EnvMap(map[]);
      }
      var rewritten := Prepare(target, command);
      var args := if platform == Windows then ["/C", rewritten] else ["-c", rewritten];
      var childEnv := ChildEnv(parent, target.vars);
      var o := run(Invocation(shell, args, childEnv));
      output, err := Report(o);
    }

    /** Lines 99-109: trimmed stdout, or on failure trimmed stderr unless it is empty, and the error around it. */
    static method Report(o: RunOutcome) returns (output: string, err: Option<string>)
      ensures output == SelectOutput(o) && err == ErrorText(o)
    {
      output := TrimSpace(o.stdout);
      if o.err.Some? {
        var errStr := TrimSpace(o.stderr);
        if errStr != "" {
          output := errStr;
        }
        err := Some("command failed: " + o.err.value + "\nOutput: " + output);
        return;
      }
      err := None;
    }

    /** Execute: ExecuteWithEnv, as written, with a nil map. */
    method Execute(command: string, parent: map<string, string>, run: Invocation -> RunOutcome)
      returns (output: string, err: Option<string>)
      ensures var o := run(AsWrittenInvocation(shell, platform, command, map[], parent));
              output == SelectOutput(o) && err == ErrorText(o)
    {
      output, err := ExecuteWithEnvAsWritten(command, null, parent, run);
    }
  }

  // ---------------------------------------------------------------------------
  // Properties of the rewrite
  // ---------------------------------------------------------------------------

  /** Go's guard for the Debian branch is the bare substring "apt": "laptop" or "capture" take it too. */
  lemma DebianOnBareApt(c: string)
    ensures IsDebian(c) <==> Contains(c, "apt")
  {
    if Contains(c, "apt-get") {
      assert "apt" + "-get" == "apt-get";
      ContainsPrefix(c, "apt", "-get");
    }
  }

  /**
   * An injection happens only when the command has no -y flag, and it inserts
   * "-y " directly after the first occurrence of the tool name; nothing else moves.
   */
  lemma InjectYesAfterFirst(c: string, tool: string)
    ensures var r := InjectYes(c, tool);
            r != c ==> LacksYes(c) && IndexOf(c, tool) >= 0
                       && r == c[..IndexOf(c, tool) + |tool|] + "-y " + c[IndexOf(c, tool) + |tool|..]
  {
    var r := InjectYes(c, tool);
    if r != c {
      var i := IndexOf(c, tool);
      assert c[i..i + |tool|] == tool;
      assert c[..i] + tool == c[..i + |tool|];
      assert r == c[..i] + (tool + "-y ") + c[i + |tool|..];
    }
  }

  /** Text inserted as "-y " right after a space shows up as " -y ". */
  lemma InsertedAfterSpace(a: string, b: string)
    requires |a| > 0 && a[|a| - 1] == ' '
    ensures Contains(a + "-y " + b, " -y ")
  {
    var r := a + "-y " + b;
    assert r[|a| - 1..|a| + 3] == " -y ";
    OccursContains(r, " -y ", |a| - 1);
  }

  /** After an injection behind a space-terminated tool name the command carries " -y ". */
  lemma InjectedYesIsVisible(c: string, tool: string)
    requires |tool| > 0 && tool[|tool| - 1] == ' '
    ensures InjectYes(c, tool) != c ==> !LacksYes(InjectYes(c, tool))
  {
    var r := InjectYes(c, tool);
    if r != c {
      InjectYesAfterFirst(c, tool);
      var i := IndexOf(c, tool);
      var k := i + |tool|;
      assert c[i..k][|tool| - 1] == c[k - 1];
      InsertedAfterSpace(c[..k], c[k..]);
    }
  }

  /** Each injection step is idempotent. */
  lemma InjectYesIdempotent(c: string, tool: string)
    requires |tool| > 0 && tool[|tool| - 1] == ' '
    ensures InjectYes(InjectYes(c, tool), tool) == InjectYes(c, tool)
  {
    InjectedYesIsVisible(c, tool);
  }

  /** In the Debian branch the apt-get and the apt injections never both fire: -y is added at most once. */
  lemma YesInjectedAtMostOnce(c: string)
    ensures var afterAptGet := InjectYes(c, "apt-get ");
            afterAptGet == c || InjectYes(afterAptGet, "apt ") == afterAptGet
  {
    InjectedYesIsVisible(c, "apt-get ");
  }

  /** The Dpkg step is idempotent: once appended, the suffix is never appended again. */
  lemma AppendDpkgIdempotent(c: string)
    ensures AppendDpkg(AppendDpkg(c)) == AppendDpkg(c)
  {
    var r := AppendDpkg(c);
    if r != c {
      OccursContains(DpkgMarker, DpkgMarker, 0);
      var rest := "::=\"--force-confdef\" " + DpkgMarker + "::=\"--force-confold\"";
      assert r == (c + " ") + DpkgMarker + rest;
      ContainsInfix(c + " ", DpkgMarker, rest, DpkgMarker);
    }
  }

  /** A character the string lacks rules out every pattern containing it. */
  lemma NotContainsByChar(s: string, p: string, k: nat)
    requires k < |p| && p[k] !in s
    ensures !Contains(s, p)
  {
    forall i: nat | i <= |s| - |p|
      ensures !OccursAt(s, p, i)
    {
      if i + |p| <= |s| {
        assert s[i + k] in s;
        assert s[i..i + |p|][k] == s[i + k];
      }
    }
  }

  /** Only the first occurrence satisfies FirstAt, so it is what IndexOf returns. */
  lemma FirstAtIndex(s: string, p: string, i: nat)
    requires FirstAt(s, p, i)
    ensures IndexOf(s, p) == i
  {
    OccursContains(s, p, i);
  }

  /** With no -y anywhere, a command that starts with the tool gets "-y " right after it. */
  lemma InjectAtStart(tool: string, rest: string)
    requires |tool| > 0 && LacksYes(tool + rest)
    ensures InjectYes(tool + rest, tool) == tool + "-y " + rest
  {
    var c := tool + rest;
    assert c[0..|tool|] == tool;
    FirstAtIndex(c, tool, 0);
    assert c[|tool|..] == rest;
  }

  /** "apt-get install nginx" carries no -y flag. */
  lemma AptGetInstallLacksYes(c: string)
    requires c == "apt-get install nginx"
    ensures LacksYes(c)
  {
    NotContainsByChar(c, " -y ", 2);
    assert c[|c| - 1] == 'x';
  }

  /** "apt-get install nginx" is the tool "apt-get " followed by "install nginx". */
  lemma AptGetInstallSplit(c: string)
    requires c == "apt-get install nginx"
    ensures c[..8] == "apt-get " && c[8..] == "install nginx"
  {
  }

  /** Putting "-y " between the tool and the rest spells "apt-get -y install nginx". */
  lemma AptGetYesSpelled(tool: string, rest: string)
    requires tool == "apt-get " && rest == "install nginx"
    ensures tool + "-y " + rest == "apt-get -y install nginx"
  {
  }

  /** The apt-get step on "apt-get install nginx" puts -y right after apt-get. */
  lemma AptGetStepExample(c: string)
    requires c == "apt-get install nginx"
    ensures InjectYes(c, "apt-get ") == "apt-get -y install nginx"
  {
    AptGetInstallLacksYes(c);
    AptGetInstallSplit(c);
    var tool, rest := c[..8], c[8..];
    assert c == tool + rest;
    InjectAtStart(tool, rest);
    AptGetYesSpelled(tool, rest);
  }

  /** The Dpkg step on "apt-get -y install nginx" appends the options. */
  lemma DpkgStepExample(c: string)
    requires c == "apt-get -y install nginx"
    ensures AppendDpkg(c) == c + DpkgOptions
  {
    assert c[11..18] == "install";
    OccursContains(c, "install", 11);
    NotContainsByChar(c, DpkgMarker, 3);
  }

  /**
   * The rewrite the comments promise for "apt-get install nginx": -y after
   * apt-get and the Dpkg options at the end.
   */
  lemma AptGetInstallRewrite(c: string)
    requires c == "apt-get install nginx"
    ensures Rewrite(c) == "apt-get -y install nginx" + DpkgOptions
  {
    assert c[0..7] == "apt-get";
    OccursContains(c, "apt-get", 0);
    AptGetStepExample(c);
    var c1 := InjectYes(c, "apt-get ");
    assert c1[7..11] == " -y ";
    OccursContains(c1, " -y ", 7);
    DpkgStepExample(c1);
  }

  /**
   * As written, the rewrite never reaches the shell: for "apt-get install
   * nginx" the child runs the command unchanged, while the rewrite differs.
   */
  lemma RewriteDiscarded(c: string, shell: string, env: map<string, string>, parent: map<string, string>)
    requires c == "apt-get install nginx"
    ensures AsWrittenInvocation(shell, OtherOS, c, env, parent).args == ["-c", c]
    ensures IntendedInvocation(shell, OtherOS, c, env, parent).args == ["-c", Rewrite(c)]
    ensures Rewrite(c) != c
  {
    AptGetInstallRewrite(c);
    assert |Rewrite(c)| > |c|;
  }

  /** "install apt" has no "apt " in it: its only space comes before "apt". */
  lemma InstallAptLacksAptSpace(c: string)
    requires c == "install apt"
    ensures !Contains(c, "apt ")
  {
    forall i: nat | i <= |c| - 4
      ensures !OccursAt(c, "apt ", i)
    {
      assert c[i..i + 4][3] == c[i + 3];
      assert c[i..i + 4][1] == c[i + 1];
    }
  }

  /** The first pass over "install apt" only appends the Dpkg options. */
  lemma InstallAptFirstPass(c: string)
    requires c == "install apt"
    ensures Rewrite(c) == c + DpkgOptions
  {
    assert c[8..11] == "apt";
    OccursContains(c, "apt", 8);
    NotContainsByChar(c, "apt-get ", 3);
    InstallAptLacksAptSpace(c);
    assert c[0..7] == "install";
    OccursContains(c, "install", 0);
    NotContainsByChar(c, DpkgMarker, 3);
  }

  /** Neither step ever shortens a command. */
  lemma StepsNeverShorten(c: string, tool: string)
    ensures |InjectYes(c, tool)| >= |c| && |AppendDpkg(c)| >= |c|
  {
  }

  /** The appended suffix starts with a space, has no 'y', and does not end in "y". */
  lemma AfterInstallApt(c1: string)
    requires c1 == "install apt" + DpkgOptions
    ensures Contains(c1, "apt ") && LacksYes(c1)
  {
    assert c1[8..12] == "apt ";
    OccursContains(c1, "apt ", 8);
    NotContainsByChar(c1, " -y ", 2);
    assert c1[|c1| - 1] == '"';
  }

  /**
   * The steps are idempotent, but the whole rewrite is not: for "install apt"
   * the appended Dpkg suffix puts a space after "apt", so a second pass injects -y.
   */
  lemma RewriteNotIdempotent(c: string)
    requires c == "install apt"
    ensures Rewrite(Rewrite(c)) != Rewrite(c)
  {
    InstallAptFirstPass(c);
    var c1 := Rewrite(c);
    AfterInstallApt(c1);
    assert c1[8..11] == "apt";
    OccursContains(c1, "apt", 8);
    var d := InjectYes(c1, "apt-get ");
    StepsNeverShorten(c1, "apt-get ");
    if d == c1 {
      assert |InjectYes(d, "apt ")| == |c1| + 3;
    } else {
      StepsNeverShorten(d, "apt ");
    }
    StepsNeverShorten(InjectYes(d, "apt "), "apt ");
  }

  /** The yum and dnf branches only ever inject "-y ": they never set DEBIAN_* and never append Dpkg options. */
  lemma NonDebianRewrite(c: string, env: map<string, string>)
    requires !IsDebian(c)
    ensures |Rewrite(c)| == |c| || |Rewrite(c)| == |c| + 3
    ensures Overlay(env, c) == env["PATH" := StandardPath]
  {
  }

  /** On failure the error message ends with the output that was selected. */
  lemma ErrorEmbedsOutput(o: RunOutcome)
    ensures o.err.Some? <==> ErrorText(o).Some?
    ensures ErrorText(o).Some? ==> HasSuffix(ErrorText(o).value, "\nOutput: " + SelectOutput(o))
  {
    if o.err.Some? {
      var pre := "command failed: " + o.err.value;
      var suf := "\nOutput: " + SelectOutput(o);
      assert ErrorText(o).value == pre + suf;
      assert (pre + suf)[|pre + suf| - |suf|..] == suf;
    }
  }
}
