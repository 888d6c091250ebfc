/*
 * The Linux adapter: the backend chosen once at load time (an injected name,
 * else pactl, else amixer, else "none"), the parser of the tools' volume
 * text, the mute tokens, the command texts, and the per-operation dispatch
 * (injected native function, else the backend's command, else an error).
 */
module LinuxAdapter {
  import opened JsValues
  import opened JsText
  import opened Volume
  import opened Selection
  import opened NativeAddon

  const PACTL := "pactl"
  const AMIXER := "amixer"
  const NONE := "none"

  const NO_BACKEND := "No supported audio backend found. Install pactl (pulseaudio-utils) or amixer (alsa-utils)."
  const PARSE_FAILED := "Failed to parse volume from output: "

  /* ---------------- Backend detection ---------------- */

  /** The probe that tells whether a tool is installed. */
  function ProbeCommand(tool: string): string {
    tool + " --version"
  }

  /** The backend names in priority order, each present when its source says so:
      the injected name when it is set (not empty), then each tool whose probe succeeds. */
  function BackendCandidates(injected: string, probe: string -> bool): seq<Option<string>> {
    [ if injected != "" then Some(injected) else None,
      if probe(ProbeCommand(PACTL)) then Some(PACTL) else None,
      if probe(ProbeCommand(AMIXER)) then Some(AMIXER) else None ]
  }

  /** The load-time detection: an injected backend name wins without probing;
      otherwise pactl is probed, and amixer only when pactl's probe fails; a
      failed probe is not an error. */
  method DetectBackend(injected: string, probe: string -> bool) returns (backend: string, probed: seq<string>)
    ensures backend == FirstSome(BackendCandidates(injected, probe)).GetOr(NONE)
    ensures injected != "" ==> backend == injected && probed == []
    ensures injected == "" ==> probed == if probe(ProbeCommand(PACTL)) then [ProbeCommand(PACTL)]
                                         else [ProbeCommand(PACTL), ProbeCommand(AMIXER)]
  {
    var candidates := BackendCandidates(injected, probe);
    if injected != "" {
      backend, probed := injected, [];
      assert candidates[0] == Some(injected);
      FirstAvailableWins(candidates, 0);
    } else {
      probed := [ProbeCommand(PACTL)];
      if probe(ProbeCommand(PACTL)) {
        backend := PACTL;
        FirstAvailableWins(candidates, 1);
      } else {
        probed := probed + [ProbeCommand(AMIXER)];
        if probe(ProbeCommand(AMIXER)) {
          backend := AMIXER;
          FirstAvailableWins(candidates, 2);
        } else {
          backend := NONE;
        }
      }
    }
  }

  /** The command-line tool a backend name stands for; any other name has none. */
  datatype Tool = Pactl | Amixer

  function ToolOf(backend: string): Option<Tool> {
    if backend == PACTL then Some(Pactl) else if backend == AMIXER then Some(Amixer) else None
  }

  /* ---------------- The volume text parser ---------------- */

  /** The end of the maximal run of digits that starts at i. */
  function DigitRunEnd(s: string, i: nat): (e: nat)
    requires i <= |s|
    decreases |s| - i
    ensures i <= e <= |s|
    ensures forall k :: i <= k < e ==> IsDigit(s[k])
    ensures e == |s| || !IsDigit(s[e])
  {
    if i < |s| && IsDigit(s[i]) then DigitRunEnd(s, i + 1) else i
  }

  /** `/(\d+)%/` matches at position i: a run of digits starts there and the
      first character after the whole run is '%'. (Giving digits back cannot
      help, since the character after a shorter run is a digit.) */
  predicate MatchesAt(s: string, i: nat) {
    i < |s| && IsDigit(s[i]) && DigitRunEnd(s, i) < |s| && s[DigitRunEnd(s, i)] == '%'
  }

  /** The leftmost match at or after position i, as String.prototype.match finds it. */
  function SearchFrom(s: string, i: nat): (m: Option<nat>)
    requires i <= |s|
    decreases |s| - i
    ensures m.Some? ==> i <= m.value < |s| && MatchesAt(s, m.value)
    ensures m.Some? ==> forall k :: i <= k < m.value ==> !MatchesAt(s, k)
    ensures m.None? ==> forall k :: i <= k < |s| ==> !MatchesAt(s, k)
  {
    if i == |s| then None
    else if MatchesAt(s, i) then Some(i)
    else SearchFrom(s, i + 1)
  }

  /** parseVolume: the digits of the first "digits%" in the text, capped at 100;
      without one, the trimmed text read as a number, rounded and clamped;
      text that is no number is an error quoting it. */
  function ParseVolume(output: string): (r: Result<int>)
    ensures r.Ok? ==> IsVolume(r.value)
    ensures r.Err? ==> r.error == Error(PARSE_FAILED + output)
  {
    match SearchFrom(output, 0)
    case Some(i) =>
      Ok(Integral(ClampPercent(Fin(DigitsValue(output[i..DigitRunEnd(output, i)]) as real))))
    case None =>
      var n := ToNumber(Trim(output));
      if n.NaN? then Err(Error(PARSE_FAILED + output))
      else Ok(Integral(ClampPercent(Round(n))))
  }

  /** A '%' right after a digit. */
  predicate PercentAfterDigit(s: string, j: int) {
    0 < j < |s| && s[j] == '%' && IsDigit(s[j - 1])
  }

  /** The start of the run of digits that ends just before j. */
  function RunStart(s: string, j: nat): (k: nat)
    requires j <= |s|
    ensures k <= j
    ensures forall i :: k <= i < j ==> IsDigit(s[i])
    ensures k == 0 || !IsDigit(s[k - 1])
  {
    if j > 0 && IsDigit(s[j - 1]) then RunStart(s, j - 1) else j
  }

  /** The regular expression's match is the whole run of digits before the
      first '%' that follows a digit. */
  lemma MatchIsRunBeforeFirstPercent(s: string, j: nat)
    requires PercentAfterDigit(s, j)
    requires forall j' :: 0 < j' < j ==> !PercentAfterDigit(s, j')
    ensures RunStart(s, j) < j && DigitRunEnd(s, RunStart(s, j)) == j
    ensures SearchFrom(s, 0) == Some(RunStart(s, j))
  {
    var r := RunStart(s, j);
    assert r < j;
    var e := DigitRunEnd(s, r);
    assert e >= j by { assert forall i :: r <= i < j ==> IsDigit(s[i]); }
    assert e <= j by { assert !IsDigit(s[j]); }
    assert MatchesAt(s, r);
    forall k | 0 <= k < r
      ensures !MatchesAt(s, k)
    {
      if IsDigit(s[k]) {
        var ek := DigitRunEnd(s, k);
        assert !IsDigit(s[r - 1]);
        assert ek <= r - 1;
        assert 0 < ek < j;
        assert !PercentAfterDigit(s, ek);
      }
    }
  }

  /** Without a '%' after a digit the regular expression does not match. */
  lemma NoMatchWithoutPercent(s: string)
    requires forall j :: 0 < j < |s| ==> !PercentAfterDigit(s, j)
    ensures SearchFrom(s, 0).None?
  {
    forall k | 0 <= k < |s|
      ensures !MatchesAt(s, k)
    {
      if IsDigit(s[k]) {
        var e := DigitRunEnd(s, k);
        assert e > 0;
        assert e < |s| ==> !PercentAfterDigit(s, e);
      }
    }
  }

  /** parseVolume reads the digits before the first '%' that follows a digit, capped at 100. */
  lemma ParseVolumeReadsPercent(s: string, j: nat)
    requires PercentAfterDigit(s, j)
    requires forall j' :: 0 < j' < j ==> !PercentAfterDigit(s, j')
    ensures AllDigits(s[RunStart(s, j)..j])
    ensures var n := DigitsValue(s[RunStart(s, j)..j]);
            ParseVolume(s) == Ok(if n <= 100 then n else 100)
  {
    MatchIsRunBeforeFirstPercent(s, j);
  }

  /** Without a "digits%" in it, parseVolume reads the trimmed text as a
      number: NaN is an error, anything else is rounded and clamped. */
  lemma ParseVolumeWithoutPercent(s: string)
    requires forall j :: 0 < j < |s| ==> !PercentAfterDigit(s, j)
    ensures ToNumber(Trim(s)).NaN? <==> ParseVolume(s).Err?
    ensures ParseVolume(s).Ok? ==> ParseVolume(s).value == Integral(ClampRound(ToNumber(Trim(s))))
  {
    NoMatchWithoutPercent(s);
  }

  /** In prefix + digits + "%" + suffix, with no '%' in the prefix, the first
      '%' after a digit is the one after the digits. */
  lemma FirstPercentAfterDigits(prefix: string, d: string, suffix: string)
    requires '%' !in prefix
    requires AllDigits(d) && d != []
    ensures var s := prefix + d + "%" + suffix;
      && PercentAfterDigit(s, |prefix| + |d|)
      && forall j' :: 0 < j' < |prefix| + |d| ==> !PercentAfterDigit(s, j')
  {
    var s := prefix + d + "%" + suffix;
    var j := |prefix| + |d|;
    assert s[j] == '%' && s[j - 1] == d[|d| - 1];
    forall j' | 0 < j' < j
      ensures !PercentAfterDigit(s, j')
    {
      if j' < |prefix| {
        assert s[j'] == prefix[j'];
      } else {
        assert s[j'] == d[j' - |prefix|];
      }
    }
  }

  /** A run of digits between k and j, with no digit just before k, is the
      run RunStart finds from j. */
  lemma {:induction false} RunStartOfDigits(s: string, k: nat, j: nat)
    requires k <= j <= |s|
    requires forall i :: k <= i < j ==> IsDigit(s[i])
    requires k == 0 || !IsDigit(s[k - 1])
    ensures RunStart(s, j) == k
    decreases j
  {
    if j > k {
      assert IsDigit(s[j - 1]);
      RunStartOfDigits(s, k, j - 1);
    }
  }

  /** The digit run that ends before the '%' starts right after the prefix,
      since the prefix does not end in a digit. */
  lemma RunStartAfterPrefix(prefix: string, d: string, suffix: string)
    requires prefix == [] || !IsDigit(prefix[|prefix| - 1])
    requires AllDigits(d)
    ensures var s := prefix + d + "%" + suffix;
      RunStart(s, |prefix| + |d|) == |prefix| && s[|prefix|..|prefix| + |d|] == d
  {
    var s := prefix + d + "%" + suffix;
    SliceParts(prefix, d, "%", suffix);
    RunStartAt(s, prefix, d);
  }

  /** In a text that holds `prefix` and then the digits d, the digit run
      ending after d starts right after the prefix. */
  lemma RunStartAt(s: string, prefix: string, d: string)
    requires |prefix| + |d| <= |s|
    requires s[..|prefix|] == prefix && s[|prefix|..|prefix| + |d|] == d
    requires prefix == [] || !IsDigit(prefix[|prefix| - 1])
    requires AllDigits(d)
    ensures RunStart(s, |prefix| + |d|) == |prefix|
  {
    DigitsAfter(s, |prefix|, d);
    if |prefix| > 0 {
      LastOfPrefix(s, prefix);
    }
    RunStartOfDigits(s, |prefix|, |prefix| + |d|);
  }

  /** Digits held at position k of s are digits of s. */
  lemma DigitsAfter(s: string, k: nat, d: string)
    requires k + |d| <= |s| && s[k..k + |d|] == d
    requires AllDigits(d)
    ensures forall i :: k <= i < k + |d| ==> IsDigit(s[i])
  {
    forall i | k <= i < k + |d|
      ensures IsDigit(s[i])
    {
      assert s[i] == d[i - k];
    }
  }

  /** The last character of a prefix of s is a character of s. */
  lemma LastOfPrefix(s: string, prefix: string)
    requires 0 < |prefix| <= |s| && s[..|prefix|] == prefix
    ensures s[|prefix| - 1] == prefix[|prefix| - 1]
  {
  }

  /** The parts of a + b + c + e: a at the start, then b. */
  lemma SliceParts(a: string, b: string, c: string, e: string)
    ensures var s := a + b + c + e;
      && s[..|a|] == a
      && s[|a|..|a| + |b|] == b
  {
  }

  /** The regular expression matches prefix + digits + "%" + suffix right
      after the prefix, and the match is exactly the digits. */
  lemma PercentTextMatch(prefix: string, d: string, suffix: string)
    requires '%' !in prefix
    requires prefix == [] || !IsDigit(prefix[|prefix| - 1])
    requires AllDigits(d) && d != []
    ensures var s := prefix + d + "%" + suffix;
      && SearchFrom(s, 0) == Some(|prefix|)
      && DigitRunEnd(s, |prefix|) == |prefix| + |d|
      && s[|prefix|..|prefix| + |d|] == d
  {
    var s := prefix + d + "%" + suffix;
    FirstPercentAfterDigits(prefix, d, suffix);
    RunStartAfterPrefix(prefix, d, suffix);
    MatchIsRunBeforeFirstPercent(s, |prefix| + |d|);
  }

  /** A percentage written after text holding no '%' and not ending in a digit
      reads back as itself, capped at 100, whatever follows it. */
  lemma ParsePercentText(prefix: string, v: nat, suffix: string)
    requires '%' !in prefix
    requires prefix == [] || !IsDigit(prefix[|prefix| - 1])
    ensures ParseVolume(prefix + NatToString(v) + "%" + suffix) == Ok(if v <= 100 then v else 100)
  {
    var d := NatToString(v);
    var s := prefix + d + "%" + suffix;
    PercentTextMatch(prefix, d, suffix);
    assert s[|prefix|..DigitRunEnd(s, |prefix|)] == d;
    var m := if v <= 100 then v else 100;
    assert ClampPercent(Fin(v as real)) == Fin(m as real);
    assert Integral(Fin(m as real)) == m;
    assert ParseVolume(s) == Ok(m);
  }

  /** Empty command output reads as volume 0, since Number("") is 0. */
  lemma EmptyOutputReadsZero()
    ensures ParseVolume("") == Ok(0)
  {
    NoMatchWithoutPercent("");
    assert Trim("") == "";
    assert ToNumber("") == Fin(0.0);
    assert Round(Fin(0.0)) == Fin(0.0);
  }

  /** Concatenation regrouped around its middle two parts. */
  lemma Regroup(a: string, b: string, c: string, e: string)
    ensures a + b + c + e == a + (b + c) + e
  {
  }

  /** The decimal forms of the percentages in the example outputs. */
  lemma TestPercentages()
    ensures NatToString(100) == "100" && NatToString(50) == "50" && NatToString(61) == "61"
  {
    assert NatToString(1) == "1";
    assert NatToString(10) == "10";
    assert NatToString(5) == "5";
    assert NatToString(6) == "6";
  }

  /** The output of the tests for the sink: 100% reads as 100. The output is a
      parameter fixed by the precondition rather than a literal argument:
      with a literal the solver unfolds the parser on it eagerly and the proof
      runs out of resources. */
  lemma PactlSinkExample(out: string)
    requires out == "Volume: front-left: 65536 / " + "100%" + " / 0.00 dB"
    ensures ParseVolume(out) == Ok(100)
  {
    var p := "Volume: front-left: 65536 / ";
    TestPercentages();
    var d := NatToString(100);
    assert '%' !in p;
    ParsePercentText(p, 100, " / 0.00 dB");
    Regroup(p, d, "%", " / 0.00 dB");
    assert d + "%" == "100%";
  }

  /** The output of the tests for the source: 50% reads as 50. */
  lemma PactlSourceExample(out: string)
    requires out == "Volume: front-left: 32768 / " + "50%" + " / -6.00 dB"
    ensures ParseVolume(out) == Ok(50)
  {
    var p := "Volume: front-left: 32768 / ";
    TestPercentages();
    var d := NatToString(50);
    assert '%' !in p;
    ParsePercentText(p, 50, " / -6.00 dB");
    Regroup(p, d, "%", " / -6.00 dB");
    assert d + "%" == "50%";
  }

  /* ---------------- Mute tokens ---------------- */

  /** pactl get-*-mute output: `/yes|true/i`, which holds exactly when either
      token occurs somewhere in the output, in any case. */
  function PactlReportsMuted(out: string): (muted: bool)
    ensures muted <==> exists k :: OccursIgnoringCaseAt(out, "yes", k) || OccursIgnoringCaseAt(out, "true", k)
  {
    ContainsIgnoringCase(out, "yes") || ContainsIgnoringCase(out, "true")
  }

  /** amixer get output: `/\[off\]|\[mute\]/i`, which holds exactly when either
      token occurs somewhere in the output, in any case. */
  function AmixerReportsMuted(out: string): (muted: bool)
    ensures muted <==> exists k :: OccursIgnoringCaseAt(out, "[off]", k) || OccursIgnoringCaseAt(out, "[mute]", k)
  {
    ContainsIgnoringCase(out, "[off]") || ContainsIgnoringCase(out, "[mute]")
  }

  /** A word cannot occur in a text that lacks, in any case, one of its letters. */
  lemma AbsentLetter(s: string, t: string, i: nat)
    requires i < |t|
    requires forall k :: 0 <= k < |s| ==> LowerChar(s[k]) != t[i]
    ensures !ContainsIgnoringCase(s, t)
  {
    forall k | 0 <= k
      ensures !OccursIgnoringCaseAt(s, t, k)
    {
      if k + |t| <= |s| {
        assert ToLower(s[k..k + |t|])[i] == LowerChar(s[k + i]);
      }
    }
  }

  /** "Mute: yes" reports muted and "Mute: no" does not. */
  lemma PactlMuteExamples()
    ensures PactlReportsMuted("Mute: yes")
    ensures !PactlReportsMuted("Mute: no")
  {
    assert OccursIgnoringCaseAt("Mute: yes", "yes", 6);
    var no := "Mute: no";
    assert forall k :: 0 <= k < |no| ==> LowerChar(no[k]) != 'y' && LowerChar(no[k]) != 'r';
    AbsentLetter(no, "yes", 0);
    AbsentLetter(no, "true", 1);
  }

  /* ---------------- Commands ---------------- */

  /** The program a tool's commands run: the backend name that selects it. */
  function ProgramOf(tool: Tool): (name: string)
    ensures ToolOf(name) == Some(tool)
  {
    if tool == Pactl then PACTL
    else
      assert AMIXER[0] != PACTL[0];
      assert ToolOf(AMIXER) == Some(Amixer) && tool == Amixer;
      AMIXER
  }

  /** The command runs the program of the given tool. */
  predicate Runs(cmd: string, tool: Tool) {
    ProgramOf(tool) + " " <= cmd
  }

  /** Text appended to a command does not change the program it runs. */
  lemma RunsExtended(cmd: string, rest: string, tool: Tool)
    requires Runs(cmd, tool)
    ensures Runs(cmd + rest, tool)
  {
    var p := ProgramOf(tool) + " ";
    assert (cmd + rest)[..|p|] == cmd[..|p|];
  }

  /** A command line of a tool: its program, a space, then the arguments. */
  function Command(tool: Tool, args: string): (cmd: string)
    ensures Runs(cmd, tool)
    ensures cmd[|ProgramOf(tool)| + 1..] == args
  {
    var p := ProgramOf(tool) + " ";
    var cmd := p + args;
    assert cmd[..|p|] == p;
    cmd
  }

  /** The query that reports a device's volume: the default sink or source
      with pactl, the Master or Capture control with amixer. */
  function VolumeQuery(tool: Tool, d: Device): (cmd: string)
    ensures Runs(cmd, tool)
  {
    match (tool, d)
    case (Pactl, Speaker) => Command(Pactl, "get-sink-volume @DEFAULT_SINK@")
    case (Pactl, Mic) => Command(Pactl, "get-source-volume @DEFAULT_SOURCE@")
    case (Amixer, Speaker) => Command(Amixer, "get Master")
    case (Amixer, Mic) => Command(Amixer, "get Capture")
  }

  /** The arguments before the percentage in a set-volume command. */
  function SetVolumeArgs(tool: Tool, d: Device): string {
    match (tool, d)
    case (Pactl, Speaker) => "set-sink-volume @DEFAULT_SINK@ "
    case (Pactl, Mic) => "set-source-volume @DEFAULT_SOURCE@ "
    case (Amixer, Speaker) => "set Master "
    case (Amixer, Mic) => "set Capture "
  }

  /** The text before the percentage in a set-volume command. */
  function SetVolumePrefix(tool: Tool, d: Device): (prefix: string)
    ensures Runs(prefix, tool)
  {
    Command(tool, SetVolumeArgs(tool, d))
  }

  /** The command that sets a device's volume to v percent: it runs the
      tool's program and ends in the percentage. */
  function SetVolumeCommand(tool: Tool, d: Device, v: nat): (cmd: string)
    ensures Runs(cmd, tool)
    ensures cmd[|cmd| - 1] == '%'
  {
    var prefix := SetVolumePrefix(tool, d);
    RunsExtended(prefix, NatToString(v) + "%", tool);
    assert prefix + NatToString(v) + "%" == prefix + (NatToString(v) + "%");
    prefix + NatToString(v) + "%"
  }

  /** The mute and unmute commands. The amixer capture commands are `cap`
      for mute and `uncap` for unmute, as the adapter writes them. */
  function MuteCommand(tool: Tool, d: Device, mute: bool): (cmd: string)
    ensures Runs(cmd, tool)
    ensures tool == Amixer && d == Mic ==> cmd == Command(Amixer, if mute then "set Capture cap" else "set Capture uncap")
  {
    match (tool, d)
    case (Pactl, Speaker) => Command(Pactl, "set-sink-mute @DEFAULT_SINK@ " + (if mute then "1" else "0"))
    case (Pactl, Mic) => Command(Pactl, "set-source-mute @DEFAULT_SOURCE@ " + (if mute then "1" else "0"))
    case (Amixer, Speaker) => Command(Amixer, if mute then "set Master mute" else "set Master unmute")
    case (Amixer, Mic) => Command(Amixer, if mute then "set Capture cap" else "set Capture uncap")
  }

  /** The query that reports a device's mute state. amixer has none of its
      own: the mute state is read from the volume query's output. */
  function MuteQuery(tool: Tool, d: Device): (cmd: string)
    ensures Runs(cmd, tool)
    ensures tool == Amixer ==> cmd == VolumeQuery(Amixer, d)
  {
    match (tool, d)
    case (Pactl, Speaker) => Command(Pactl, "get-sink-mute @DEFAULT_SINK@")
    case (Pactl, Mic) => Command(Pactl, "get-source-mute @DEFAULT_SOURCE@")
    case (Amixer, _) => VolumeQuery(Amixer, d)
  }

  function ReportsMuted(tool: Tool, out: string): bool {
    if tool.Pactl? then PactlReportsMuted(out) else AmixerReportsMuted(out)
  }

  /** The volume a set command carries is read back by parseVolume from the command text. */
  lemma SetCommandReadsBack(tool: Tool, d: Device, v: nat)
    requires IsVolume(v)
    ensures ParseVolume(SetVolumeCommand(tool, d, v)) == Ok(v)
  {
    var p := SetVolumePrefix(tool, d);
    SetVolumePrefixShape(tool, d);
    assert SetVolumeCommand(tool, d, v) == p + NatToString(v) + "%" + "";
    ParsePercentText(p, v, "");
  }

  /** Every set-volume prefix is free of '%' and ends in a space. */
  lemma SetVolumePrefixShape(tool: Tool, d: Device)
    ensures '%' !in SetVolumePrefix(tool, d)
    ensures SetVolumePrefix(tool, d) != [] && SetVolumePrefix(tool, d)[|SetVolumePrefix(tool, d)| - 1] == ' '
  {
    SetVolumeArgsShape(tool, d);
    CommandShape(tool, SetVolumeArgs(tool, d));
  }

  /** The set-volume arguments hold no '%' and end in a space. */
  lemma SetVolumeArgsShape(tool: Tool, d: Device)
    ensures var args := SetVolumeArgs(tool, d);
      '%' !in args && args != [] && args[|args| - 1] == ' '
  {
  }

  /** A command whose arguments hold no '%' and end in a space does too. */
  lemma CommandShape(tool: Tool, args: string)
    requires '%' !in args && args != [] && args[|args| - 1] == ' '
    ensures '%' !in Command(tool, args)
    ensures Command(tool, args)[|Command(tool, args)| - 1] == ' '
  {
    var p := ProgramOf(tool) + " ";
    assert '%' !in p;
    assert Command(tool, args) == p + args;
  }

  /* ---------------- Running a command ---------------- */

  /** runCmd: the command's standard output, or an error naming the command. */
  function RunCmd(shell: string -> Reply, cmd: string): (r: Result<string>)
    ensures r.Ok? <==> shell(cmd).Stdout?
    ensures r.Ok? ==> r.value == shell(cmd).text
    ensures r.Err? ==> r.error == Error("Failed to run command: " + cmd + " -> " + shell(cmd).message)
  {
    match shell(cmd)
    case Stdout(text) => Ok(text)
    case Failed(message) => Err(Error("Failed to run command: " + cmd + " -> " + message))
  }

  /** `get` through the backend's tool: without a tool it fails and runs
      nothing; otherwise it runs the tool's volume query and reads its output
      with parseVolume. */
  function CommandGet(tool: Option<Tool>, d: Device, shell: string -> Reply): (run: Run<int>)
    ensures run.result.Ok? ==> IsVolume(run.result.value)
    ensures tool.None? ==> run == Run([], Err(Error(NO_BACKEND)))
    ensures tool.Some? ==> run.issued == [VolumeQuery(tool.value, d)]
    ensures tool.Some? && shell(VolumeQuery(tool.value, d)).Stdout? ==>
      run.result == ParseVolume(shell(VolumeQuery(tool.value, d)).text)
    ensures tool.Some? && shell(VolumeQuery(tool.value, d)).Failed? ==>
      run.result == Err(RunCmd(shell, VolumeQuery(tool.value, d)).error)
  {
    match tool
    case None => Run([], Err(Error(NO_BACKEND)))
    case Some(t) =>
      var cmd := VolumeQuery(t, d);
      Run([cmd], match RunCmd(shell, cmd) case Ok(out) => ParseVolume(out) case Err(e) => Err(e))
  }

  /** `set` through the backend's tool, for an already clamped percentage:
      without a tool it fails and runs nothing; otherwise it runs the set
      command and succeeds exactly when the command does. */
  function CommandSet(tool: Option<Tool>, d: Device, v: nat, shell: string -> Reply): (run: Run<()>)
    ensures tool.None? ==> run == Run([], Err(Error(NO_BACKEND)))
    ensures tool.Some? ==> run.issued == [SetVolumeCommand(tool.value, d, v)]
    ensures tool.Some? ==> (run.result.Ok? <==> shell(SetVolumeCommand(tool.value, d, v)).Stdout?)
    ensures tool.Some? && run.result.Err? ==> run.result.error == RunCmd(shell, SetVolumeCommand(tool.value, d, v)).error
  {
    match tool
    case None => Run([], Err(Error(NO_BACKEND)))
    case Some(t) =>
      var cmd := SetVolumeCommand(t, d, v);
      Run([cmd], match RunCmd(shell, cmd) case Ok(_) => Ok(()) case Err(e) => Err(e))
  }

  /** `mute` (mute == true) or `unmute` through the backend's tool: without a
      tool it fails and runs nothing; otherwise it runs the mute command and
      succeeds exactly when the command does. */
  function CommandSetMuted(tool: Option<Tool>, d: Device, mute: bool, shell: string -> Reply): (run: Run<()>)
    ensures tool.None? ==> run == Run([], Err(Error(NO_BACKEND)))
    ensures tool.Some? ==> run.issued == [MuteCommand(tool.value, d, mute)]
    ensures tool.Some? ==> (run.result.Ok? <==> shell(MuteCommand(tool.value, d, mute)).Stdout?)
    ensures tool.Some? && run.result.Err? ==> run.result.error == RunCmd(shell, MuteCommand(tool.value, d, mute)).error
  {
    match tool
    case None => Run([], Err(Error(NO_BACKEND)))
    case Some(t) =>
      var cmd := MuteCommand(t, d, mute);
      Run([cmd], match RunCmd(shell, cmd) case Ok(_) => Ok(()) case Err(e) => Err(e))
  }

  /** `isMuted` through the backend's tool: without a tool it fails and runs
      nothing; otherwise it runs the mute query and applies the tool's token
      test to its output. */
  function CommandIsMuted(tool: Option<Tool>, d: Device, shell: string -> Reply): (run: Run<bool>)
    ensures tool.None? ==> run == Run([], Err(Error(NO_BACKEND)))
    ensures tool.Some? ==> run.issued == [MuteQuery(tool.value, d)]
    ensures tool == Some(Pactl) && shell(MuteQuery(Pactl, d)).Stdout? ==>
      run.result == Ok(PactlReportsMuted(shell(MuteQuery(Pactl, d)).text))
    ensures tool == Some(Amixer) && shell(MuteQuery(Amixer, d)).Stdout? ==>
      run.result == Ok(AmixerReportsMuted(shell(MuteQuery(Amixer, d)).text))
    ensures tool.Some? && shell(MuteQuery(tool.value, d)).Failed? ==>
      run.result == Err(RunCmd(shell, MuteQuery(tool.value, d)).error)
  {
    match tool
    case None => Run([], Err(Error(NO_BACKEND)))
    case Some(t) =>
      var cmd := MuteQuery(t, d);
      Run([cmd], match RunCmd(shell, cmd) case Ok(out) => Ok(ReportsMuted(t, out)) case Err(e) => Err(e))
  }

  /** With a backend that is neither pactl nor amixer every command operation
      fails with the same error naming both tools, and runs nothing. */
  lemma NoBackendFailsEverywhere(backend: string, d: Device, v: nat, mute: bool, shell: string -> Reply)
    requires backend != PACTL && backend != AMIXER
    ensures CommandGet(ToolOf(backend), d, shell) == Run([], Err(Error(NO_BACKEND)))
    ensures CommandSet(ToolOf(backend), d, v, shell) == Run([], Err(Error(NO_BACKEND)))
    ensures CommandSetMuted(ToolOf(backend), d, mute, shell) == Run([], Err(Error(NO_BACKEND)))
    ensures CommandIsMuted(ToolOf(backend), d, shell) == Run([], Err(Error(NO_BACKEND)))
  {
  }

  /** With either tool, a `get` whose command succeeds reads the percentage
      its output reports, capped at 100. */
  lemma CommandGetReadsPercent(tool: Tool, d: Device, shell: string -> Reply, prefix: string, v: nat, suffix: string)
    requires '%' !in prefix
    requires prefix == [] || !IsDigit(prefix[|prefix| - 1])
    requires shell(VolumeQuery(tool, d)) == Stdout(prefix + NatToString(v) + "%" + suffix)
    ensures CommandGet(Some(tool), d, shell).result == Ok(if v <= 100 then v else 100)
  {
    ParsePercentText(prefix, v, suffix);
  }

  /** amixer's report line "Mono: Playback 65536 [61%] [on]" reads as 61. As in
      the pactl examples, the output is a parameter fixed by the precondition,
      which keeps the solver from unfolding the parser on a literal argument. */
  lemma AmixerGetExample(d: Device, shell: string -> Reply)
    requires shell(VolumeQuery(Amixer, d)) == Stdout("Mono: Playback 65536 [" + "61%" + "] [on]")
    ensures CommandGet(Some(Amixer), d, shell).result == Ok(61)
  {
    var p := "Mono: Playback 65536 [";
    TestPercentages();
    var n := NatToString(61);
    assert '%' !in p;
    assert n + "%" == "61%";
    Regroup(p, n, "%", "] [on]");
    CommandGetReadsPercent(Amixer, d, shell, p, 61, "] [on]");
  }

  /* ---------------- The adapter ---------------- */

  /** The module state: the backend chosen at load time and the injected
      native object, if any. Both are fixed for the module's lifetime. */
  class LinuxAudio {
    const backend: string
    const native: Option<Addon>

    constructor (injectedBackend: string, probe: string -> bool, injectedNative: Option<Addon>)
      ensures backend == FirstSome(BackendCandidates(injectedBackend, probe)).GetOr(NONE)
      ensures native == injectedNative
    {
      var b, _ := DetectBackend(injectedBackend, probe);
      backend := b;
      native := injectedNative;
    }

    /** The injected native object exports function f, so the operation uses it. */
    predicate Uses(f: NativeFn) {
      native.Some? && f in native.value.offers
    }

    method Get(d: Device, shell: string -> Reply) returns (run: Run<int>)
      ensures Uses(GetVolumeFn(d)) ==> run == Run([], Ok(NormalizeRaw(native.value.State(d).volume)))
      ensures !Uses(GetVolumeFn(d)) ==> run == CommandGet(ToolOf(backend), d, shell)
      ensures run.result.Ok? ==> IsVolume(run.result.value)
    {
      if Uses(GetVolumeFn(d)) {
        var raw := native.value.State(d).volume;
        run := Run([], Ok(NormalizeRaw(raw)));
      } else {
        run := CommandGet(ToolOf(backend), d, shell);
      }
    }

    method Set(d: Device, x: Num, shell: string -> Reply) returns (run: Run<()>)
      modifies Footprint(native)
      ensures !IsFinite(x) ==> run == Run([], Err(TypeError(NOT_A_NUMBER))) && unchanged(Footprint(native))
      ensures IsFinite(x) && Uses(SetVolumeFn(d)) ==>
        && run == Run([], Ok(()))
        && native.value.State(d) == old(native.value.State(d)).(volume := ClampRound(x))
        && native.value.State(d.Other()) == old(native.value.State(d.Other()))
      ensures IsFinite(x) && !Uses(SetVolumeFn(d)) ==>
        run == CommandSet(ToolOf(backend), d, SetValue(x), shell) && unchanged(Footprint(native))
    {
      if !IsFinite(x) {
        run := Run([], Err(TypeError(NOT_A_NUMBER)));
        return;
      }
      var v := SetValue(x);
      if Uses(SetVolumeFn(d)) {
        native.value.SetVolume(d, Fin(v as real));
        run := Run([], Ok(()));
      } else {
        run := CommandSet(ToolOf(backend), d, v, shell);
      }
    }

    method Mute(d: Device, shell: string -> Reply) returns (run: Run<()>)
      modifies Footprint(native)
      ensures Uses(MuteFn(d)) ==>
        && run == Run([], Ok(()))
        && native.value.State(d) == old(native.value.State(d)).(muted := true)
        && native.value.State(d.Other()) == old(native.value.State(d.Other()))
      ensures !Uses(MuteFn(d)) ==> run == CommandSetMuted(ToolOf(backend), d, true, shell) && unchanged(Footprint(native))
    {
      if Uses(MuteFn(d)) {
        native.value.SetMuted(d, true);
        run := Run([], Ok(()));
      } else {
        run := CommandSetMuted(ToolOf(backend), d, true, shell);
      }
    }

    method Unmute(d: Device, shell: string -> Reply) returns (run: Run<()>)
      modifies Footprint(native)
      ensures Uses(UnmuteFn(d)) ==>
        && run == Run([], Ok(()))
        && native.value.State(d) == old(native.value.State(d)).(muted := false)
        && native.value.State(d.Other()) == old(native.value.State(d.Other()))
      ensures !Uses(UnmuteFn(d)) ==> run == CommandSetMuted(ToolOf(backend), d, false, shell) && unchanged(Footprint(native))
    {
      if Uses(UnmuteFn(d)) {
        native.value.SetMuted(d, false);
        run := Run([], Ok(()));
      } else {
        run := CommandSetMuted(ToolOf(backend), d, false, shell);
      }
    }

    method IsMuted(d: Device, shell: string -> Reply) returns (run: Run<bool>)
      ensures Uses(IsMutedFn(d)) ==> run == Run([], Ok(native.value.State(d).muted))
      ensures !Uses(IsMutedFn(d)) ==> run == CommandIsMuted(ToolOf(backend), d, shell)
    {
      if Uses(IsMutedFn(d)) {
        run := Run([], Ok(native.value.State(d).muted));
      } else {
        run := CommandIsMuted(ToolOf(backend), d, shell);
      }
    }
  }
}
