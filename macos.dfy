/*
 * The macOS adapter: the speaker is driven by AppleScript one-liners run
 * through osascript; the microphone goes through the mac_audio addon located
 * once at load time (an injected object, else the top-level build output,
 * else the `bindings` loader), or, without one, fails with a build hint.
 */
module MacAdapter {
  import opened JsValues
  import opened JsText
  import opened Volume
  import opened Selection
  import opened NativeAddon

  const GET_VOLUME := "output volume of (get volume settings)"
  const SET_VOLUME_PREFIX := "set volume output volume "
  const MUTE_SCRIPT := "set volume output muted true"
  const UNMUTE_SCRIPT := "set volume output muted false"
  const GET_MUTED := "output muted of (get volume settings)"

  const GET_FAILED := "Failed to get speaker volume: "
  const PARSE_FAILED := "Failed to parse volume"
  const MUTE_STATE_FAILED := "Failed to get speaker mute state: "

  const BUILD_PATH := "build/Release/mac_audio.node"
  const ADDON_NAME := "mac_audio"
  const MIC_VOLUME_STUB := "Microphone volume control is not implemented on macOS in this build. Build the native mac_audio addon."
  const MIC_MUTE_STUB := "Microphone mute is not implemented on macOS in this build. Build the native mac_audio addon."

  /* ---------------- Speaker: osascript ---------------- */

  /** JSON.stringify of a script line. The lines passed are fixed texts and
      digits, which hold no character JSON escapes, so the quotes are all it adds. */
  function JsonQuote(line: string): string {
    "\"" + line + "\""
  }

  /** The shell command that runs one AppleScript line: osascript with the
      line, between quotes, as its one -e argument. */
  function OsascriptCommand(line: string): (cmd: string)
    ensures |cmd| == |line| + 15
    ensures cmd[..14] == "osascript -e \"" && cmd[|cmd| - 1] == '"'
    ensures cmd[14..|cmd| - 1] == line
  {
    "osascript -e " + JsonQuote(line)
  }

  /** Different script lines give different commands, so the shell is told
      which line to run. */
  lemma OsascriptCommandInjective(a: string, b: string)
    requires OsascriptCommand(a) == OsascriptCommand(b)
    ensures a == b
  {
    var cmd := OsascriptCommand(a);
    assert a == cmd[14..|cmd| - 1];
  }

  /** runOsascript: the trimmed standard output, or the exec error unchanged. */
  function RunOsascript(shell: string -> Reply, line: string): (r: Result<string>)
    ensures shell(OsascriptCommand(line)).Stdout? <==> r.Ok?
    ensures r.Ok? ==> r.value == Trim(shell(OsascriptCommand(line)).text)
    ensures r.Err? ==> r.error == Error(shell(OsascriptCommand(line)).message)
  {
    match shell(OsascriptCommand(line))
    case Stdout(text) => Ok(Trim(text))
    case Failed(message) => Err(Error(message))
  }

  /** The script that sets the output volume to v: the set-volume text
      followed by v in decimal, which parseInt reads back as v. */
  function SetVolumeScript(v: nat): (line: string)
    ensures |SET_VOLUME_PREFIX| < |line| && line[..|SET_VOLUME_PREFIX|] == SET_VOLUME_PREFIX
    ensures ParseInt(line[|SET_VOLUME_PREFIX|..]) == Fin(v as real)
  {
    var digits := NatToString(v);
    ParseIntOfNat(v, []);
    assert digits + [] == digits;
    var line := SET_VOLUME_PREFIX + digits;
    assert line[|SET_VOLUME_PREFIX|..] == digits;
    line
  }

  /** speaker.get: the reply is read with parseInt and clamped to 0..100; a
      reply without a number, like a failed command, is reported under
      "Failed to get speaker volume: ". */
  function SpeakerGet(shell: string -> Reply): (run: Run<int>)
    ensures run.issued == [OsascriptCommand(GET_VOLUME)]
    ensures run.result.Ok? ==> IsVolume(run.result.value)
    ensures run.result.Err? ==> exists m :: run.result.error == Error(GET_FAILED + m)
    ensures shell(OsascriptCommand(GET_VOLUME)).Failed? ==>
      run.result == Err(Error(GET_FAILED + shell(OsascriptCommand(GET_VOLUME)).message))
  {
    var cmd := OsascriptCommand(GET_VOLUME);
    match RunOsascript(shell, GET_VOLUME)
    case Err(e) => Run([cmd], Err(Error(GET_FAILED + e.message)))
    case Ok(out) =>
      var v := ParseInt(out);
      if v.NaN? then Run([cmd], Err(Error(GET_FAILED + PARSE_FAILED)))
      else Run([cmd], Ok(Integral(ClampPercent(v))))
  }

  /** speaker.set: a number that is not finite is refused before anything
      runs; otherwise the rounded, clamped percentage is set, and a failure of
      the command is passed on unchanged. */
  function SpeakerSet(x: Num, shell: string -> Reply): (run: Run<()>)
    ensures !IsFinite(x) ==> run == Run([], Err(TypeError(NOT_A_NUMBER)))
    ensures IsFinite(x) ==> run.issued == [OsascriptCommand(SetVolumeScript(SetValue(x)))]
    ensures IsFinite(x) ==> (run.result.Ok? <==> shell(run.issued[0]).Stdout?)
    ensures IsFinite(x) && run.result.Err? ==> run.result.error == Error(shell(run.issued[0]).message)
  {
    if !IsFinite(x) then Run([], Err(TypeError(NOT_A_NUMBER)))
    else
      var line := SetVolumeScript(SetValue(x));
      Run([OsascriptCommand(line)], match RunOsascript(shell, line) case Ok(_) => Ok(()) case Err(e) => Err(e))
  }

  /** speaker.mute (mute == true) and speaker.unmute: one script, its failure passed on unchanged. */
  function SpeakerSetMuted(mute: bool, shell: string -> Reply): (run: Run<()>)
    ensures run.issued == [OsascriptCommand(if mute then MUTE_SCRIPT else UNMUTE_SCRIPT)]
    ensures run.result.Ok? <==> shell(run.issued[0]).Stdout?
    ensures run.result.Err? ==> run.result.error == Error(shell(run.issued[0]).message)
  {
    var line := if mute then MUTE_SCRIPT else UNMUTE_SCRIPT;
    Run([OsascriptCommand(line)], match RunOsascript(shell, line) case Ok(_) => Ok(()) case Err(e) => Err(e))
  }

  /** The mute reply, trimmed and lower-cased, is "true" or "yes": a muted
      reply is a word of three or four letters starting with t or y in either
      case, and a blank reply is not muted. */
  function MutedReply(out: string): (muted: bool)
    ensures muted ==> |Trim(out)| == 3 || |Trim(out)| == 4
    ensures muted ==> Trim(out)[0] == 't' || Trim(out)[0] == 'T' || Trim(out)[0] == 'y' || Trim(out)[0] == 'Y'
    ensures Trim(out) == [] ==> !muted
  {
    var norm := ToLower(Trim(out));
    assert norm != [] ==> norm[0] == LowerChar(Trim(out)[0]);
    norm == "true" || norm == "yes"
  }

  /** speaker.isMuted: the reply read by MutedReply; a failed command is
      reported under "Failed to get speaker mute state: ". */
  function SpeakerIsMuted(shell: string -> Reply): (run: Run<bool>)
    ensures run.issued == [OsascriptCommand(GET_MUTED)]
    ensures shell(OsascriptCommand(GET_MUTED)).Stdout? ==>
      run.result == Ok(MutedReply(Trim(shell(OsascriptCommand(GET_MUTED)).text)))
    ensures shell(OsascriptCommand(GET_MUTED)).Failed? ==>
      run.result == Err(Error(MUTE_STATE_FAILED + shell(OsascriptCommand(GET_MUTED)).message))
  {
    var cmd := OsascriptCommand(GET_MUTED);
    match RunOsascript(shell, GET_MUTED)
    case Err(e) => Run([cmd], Err(Error(MUTE_STATE_FAILED + e.message)))
    case Ok(out) => Run([cmd], Ok(MutedReply(out)))
  }

  /** A volume reply that is a decimal number framed by white space reads as
      that number, clamped to 100. */
  lemma SpeakerGetReadsNumber(shell: string -> Reply, lead: string, n: nat, tail: string)
    requires forall i :: 0 <= i < |lead| ==> IsWhiteSpace(lead[i])
    requires forall i :: 0 <= i < |tail| ==> IsWhiteSpace(tail[i])
    requires shell(OsascriptCommand(GET_VOLUME)) == Stdout(lead + NatToString(n) + tail)
    ensures SpeakerGet(shell).result == Ok(if n <= 100 then n else 100)
  {
    var s := NatToString(n);
    WhiteSpaceStartsWithoutDigit(tail);
    UnsignedParts(lead, s, tail);
    SpeakerGetReadsInteger(shell, lead, "", s, tail);
  }

  /** White space does not start with a digit. */
  lemma WhiteSpaceStartsWithoutDigit(tail: string)
    requires forall i :: 0 <= i < |tail| ==> IsWhiteSpace(tail[i])
    ensures tail == [] || !IsDigit(tail[0])
  {
    if tail != [] {
      assert IsWhiteSpace(tail[0]);
    }
  }

  /** Text without a sign is the text with an empty sign. */
  lemma UnsignedParts(lead: string, s: string, tail: string)
    ensures lead + "" + s + tail == lead + s + tail
  {
  }

  /** The speaker path has no fraction rule: a volume set is read back as the
      same percentage, 1 included, once the system reports the number that was set. */
  lemma SpeakerSetThenGet(x: Num, setShell: string -> Reply, getShell: string -> Reply)
    requires IsFinite(x)
    requires getShell(OsascriptCommand(GET_VOLUME)) == Stdout(NatToString(SetValue(x)) + "\n")
    ensures SpeakerSet(x, setShell).issued == [OsascriptCommand(SET_VOLUME_PREFIX + NatToString(SetValue(x)))]
    ensures SpeakerGet(getShell).result == Ok(SetValue(x))
  {
    assert IsWhiteSpace("\n"[0]);
    assert [] + NatToString(SetValue(x)) + "\n" == NatToString(SetValue(x)) + "\n";
    SpeakerGetReadsNumber(getShell, [], SetValue(x), "\n");
  }

  /** A reply holding no decimal digit gives the parse error, under the get prefix. */
  lemma SpeakerGetRejectsText(shell: string -> Reply)
    requires shell(OsascriptCommand(GET_VOLUME)).Stdout?
    requires var text := shell(OsascriptCommand(GET_VOLUME)).text;
      forall i :: 0 <= i < |text| ==> !IsDigit(text[i])
    ensures SpeakerGet(shell).result == Err(Error(GET_FAILED + PARSE_FAILED))
  {
    var text := shell(OsascriptCommand(GET_VOLUME)).text;
    ParseIntOfTrimWithoutDigits(text);
    SpeakerGetOfReply(shell, Trim(text));
  }

  /** speaker.get fails on a reply that the command gave exactly when the
      trimmed reply does not lead with an integer, and then with the parse
      error: "x1", "- 5" and "+-5" are all rejected. */
  lemma SpeakerGetFailsExactly(shell: string -> Reply)
    requires shell(OsascriptCommand(GET_VOLUME)).Stdout?
    ensures var out := Trim(shell(OsascriptCommand(GET_VOLUME)).text);
      && (SpeakerGet(shell).result.Err? <==> !LeadsWithInteger(out))
      && (!LeadsWithInteger(out) ==> SpeakerGet(shell).result == Err(Error(GET_FAILED + PARSE_FAILED)))
  {
    var out := Trim(shell(OsascriptCommand(GET_VOLUME)).text);
    ParseIntNaNExactly(out);
    SpeakerGetOfReply(shell, out);
  }

  /** A reply that is an integer, signed or not, after white space reads as
      that integer clamped to 0..100, whatever text follows its digits ("42 dB"
      reads as 42, "-5" as 0). */
  lemma SpeakerGetReadsInteger(shell: string -> Reply, lead: string, sign: string, digits: string, rest: string)
    requires forall i :: 0 <= i < |lead| ==> IsWhiteSpace(lead[i])
    requires sign == "" || sign == "+" || sign == "-"
    requires digits != [] && AllDigits(digits)
    requires rest == [] || !IsDigit(rest[0])
    requires shell(OsascriptCommand(GET_VOLUME)) == Stdout(lead + sign + digits + rest)
    ensures SpeakerGet(shell).result
      == Ok(if sign == "-" then 0 else if DigitsValue(digits) <= 100 then DigitsValue(digits) else 100)
  {
    var n := DigitsValue(digits);
    var x := if sign == "-" then -(n as real) else n as real;
    ParseIntOfTrimSigned(lead, sign, digits, rest);
    ClampSigned(sign == "-", n);
    SpeakerGetOfNumberClamped(shell, x, if sign == "-" then 0 else if n <= 100 then n else 100);
  }

  lemma SpeakerGetOfNumberClamped(shell: string -> Reply, x: real, m: int)
    requires shell(OsascriptCommand(GET_VOLUME)).Stdout?
    requires ParseInt(Trim(shell(OsascriptCommand(GET_VOLUME)).text)) == Fin(x)
    requires Integral(ClampPercent(Fin(x))) == m
    ensures SpeakerGet(shell).result == Ok(m)
  {
    SpeakerGetOfNumber(shell, x);
  }

  /** speaker.get on a reply in which parseInt finds the number x, after trim(). */
  lemma SpeakerGetOfNumber(shell: string -> Reply, x: real)
    requires shell(OsascriptCommand(GET_VOLUME)).Stdout?
    requires ParseInt(Trim(shell(OsascriptCommand(GET_VOLUME)).text)) == Fin(x)
    ensures SpeakerGet(shell).result == Ok(Integral(ClampPercent(Fin(x))))
  {
    assert RunOsascript(shell, GET_VOLUME) == Ok(Trim(shell(OsascriptCommand(GET_VOLUME)).text));
  }

  /** speaker.get on a reply that trims to `out`: the parse error when parseInt
      finds no number in it, otherwise the clamped number. */
  lemma SpeakerGetOfReply(shell: string -> Reply, out: string)
    requires shell(OsascriptCommand(GET_VOLUME)).Stdout?
    requires Trim(shell(OsascriptCommand(GET_VOLUME)).text) == out
    ensures ParseInt(out).NaN? ==> SpeakerGet(shell).result == Err(Error(GET_FAILED + PARSE_FAILED))
    ensures ParseInt(out).Fin? ==> SpeakerGet(shell).result == Ok(Integral(ClampPercent(ParseInt(out))))
  {
    assert RunOsascript(shell, GET_VOLUME) == Ok(out);
  }

  /** The clamped integer of a signed whole number: 0 for a negative one, the
      number capped at 100 otherwise. */
  lemma ClampSigned(negative: bool, n: nat)
    ensures Integral(ClampPercent(Fin(if negative then -(n as real) else n as real)))
      == if negative then 0 else if n <= 100 then n else 100
  {
    var m := if negative then 0 else if n <= 100 then n else 100;
    assert ClampPercent(Fin(if negative then -(n as real) else n as real)) == Fin(m as real);
  }

  /** The mute reply framed by white space is read by its core, in any case. */
  lemma MutedReplyOf(lead: string, core: string, tail: string)
    requires forall i :: 0 <= i < |lead| ==> IsWhiteSpace(lead[i])
    requires forall i :: 0 <= i < |tail| ==> IsWhiteSpace(tail[i])
    requires core == [] || (!IsWhiteSpace(core[0]) && !IsWhiteSpace(core[|core| - 1]))
    ensures MutedReply(lead + core + tail) <==> ToLower(core) == "true" || ToLower(core) == "yes"
  {
    TrimIsCore(lead, core, tail);
  }

  /** A word followed by a line break trims to the word. */
  lemma TrimLine(word: string)
    requires word != [] && !IsWhiteSpace(word[0]) && !IsWhiteSpace(word[|word| - 1])
    ensures Trim(word + "\n") == word
  {
    assert IsWhiteSpace("\n"[0]);
    TrimIsCore([], word, "\n");
    assert [] + word + "\n" == word + "\n";
  }

  /** "true\n" reads as muted. */
  lemma MutedReplyTrue()
    ensures MutedReply("true\n")
  {
    TrimLine("true");
    assert "true" + "\n" == "true\n";
    assert ToLower("true") == "true";
  }

  /** "YES" reads as muted: the case of the reply does not matter. */
  lemma MutedReplyUpperYes()
    ensures MutedReply("YES")
  {
    var yes := "YES";
    TrimKeeps(yes);
    assert ToLower(yes) == "yes" by {
      assert LowerChar('Y') == 'y' && LowerChar('E') == 'e' && LowerChar('S') == 's';
    }
  }

  /** "false\n" does not read as muted. */
  lemma MutedReplyFalse()
    ensures !MutedReply("false\n")
  {
    TrimLine("false");
    assert "false" + "\n" == "false\n";
    assert |ToLower("false")| == 5;
  }

  /** The reply is read the same whether or not it was trimmed before. */
  lemma MutedReplyTrimmed(out: string)
    ensures MutedReply(Trim(out)) == MutedReply(out)
  {
    TrimTwice(out);
  }

  /* ---------------- Microphone: the native addon ---------------- */

  /** The addon candidates in priority order: the injected object, the
      top-level build output, then the `bindings` loader. */
  function AddonCandidates(injected: Option<Addon>, load: string -> Option<Addon>,
                           bindings: string -> Option<Addon>): seq<Option<Addon>>
  {
    [injected, load(BUILD_PATH), bindings(ADDON_NAME)]
  }

  /** The load-time search: an injected object is used as it is; otherwise the
      build output is required, and `bindings` is asked only when that throws;
      when both throw there is no addon. `requested` lists what was loaded. */
  method LoadAddon(injected: Option<Addon>, load: string -> Option<Addon>, bindings: string -> Option<Addon>)
    returns (native: Option<Addon>, requested: seq<string>)
    ensures native == FirstSome(AddonCandidates(injected, load, bindings))
    ensures injected.Some? ==> native == injected && requested == []
    ensures injected.None? ==> requested == if load(BUILD_PATH).Some? then [BUILD_PATH] else [BUILD_PATH, ADDON_NAME]
  {
    var candidates := AddonCandidates(injected, load, bindings);
    if injected.Some? {
      native, requested := injected, [];
      FirstAvailableWins(candidates, 0);
    } else {
      requested := [BUILD_PATH];
      native := load(BUILD_PATH);
      if native.Some? {
        FirstAvailableWins(candidates, 1);
      } else {
        requested := requested + [ADDON_NAME];
        native := bindings(ADDON_NAME);
        if native.Some? {
          FirstAvailableWins(candidates, 2);
        }
      }
    }
  }

  /** The build hint of the stub microphone for an operation. */
  function StubMessage(f: NativeFn): string {
    if f.GetVolumeFn? || f.SetVolumeFn? then MIC_VOLUME_STUB else MIC_MUTE_STUB
  }

  /** The module state: the addon found at load time, fixed for the module's lifetime. */
  class MacAudio {
    const native: Option<Addon>

    constructor (injected: Option<Addon>, load: string -> Option<Addon>, bindings: string -> Option<Addon>)
      ensures native == FirstSome(AddonCandidates(injected, load, bindings))
    {
      var n, _ := LoadAddon(injected, load, bindings);
      native := n;
    }

    /** The error that stops a microphone operation calling f before any
        effect: the stub's build hint without an addon, a TypeError when the
        addon lacks f (it is called without a check). */
    function Guard(f: NativeFn): (r: Result<()>)
      ensures r.Ok? <==> native.Some? && f in native.value.offers
      ensures native.None? ==> r == Err(Error(StubMessage(f)))
      ensures native.Some? && f !in native.value.offers ==> r == Err(NotAFunction(f))
    {
      if native.None? then Err(Error(StubMessage(f)))
      else if f !in native.value.offers then Err(NotAFunction(f))
      else Ok(())
    }

    method MicGet() returns (r: Result<int>)
      ensures Guard(GetVolumeFn(Mic)).Err? ==> r == Err(Guard(GetVolumeFn(Mic)).error)
      ensures Guard(GetVolumeFn(Mic)).Ok? ==> r == Ok(NormalizeRaw(native.value.State(Mic).volume))
    {
      var g := Guard(GetVolumeFn(Mic));
      if g.Err? {
        return Err(g.error);
      }
      r := Ok(NormalizeRaw(native.value.State(Mic).volume));
    }

    /** No finiteness check: NaN is passed on to the addon as NaN. */
    method MicSet(x: Num) returns (r: Result<()>)
      modifies Footprint(native)
      ensures Guard(SetVolumeFn(Mic)).Err? ==> r == Guard(SetVolumeFn(Mic)) && unchanged(Footprint(native))
      ensures Guard(SetVolumeFn(Mic)).Ok? ==>
        && r == Ok(())
        && native.value.State(Mic) == old(native.value.State(Mic)).(volume := ClampRound(x))
        && native.value.State(Speaker) == old(native.value.State(Speaker))
    {
      r := Guard(SetVolumeFn(Mic));
      if r.Ok? {
        native.value.SetVolume(Mic, ClampRound(x));
      }
    }

    method MicMute() returns (r: Result<()>)
      modifies Footprint(native)
      ensures Guard(MuteFn(Mic)).Err? ==> r == Guard(MuteFn(Mic)) && unchanged(Footprint(native))
      ensures Guard(MuteFn(Mic)).Ok? ==>
        && r == Ok(())
        && native.value.State(Mic) == old(native.value.State(Mic)).(muted := true)
        && native.value.State(Speaker) == old(native.value.State(Speaker))
    {
      r := Guard(MuteFn(Mic));
      if r.Ok? {
        native.value.SetMuted(Mic, true);
      }
    }

    method MicUnmute() returns (r: Result<()>)
      modifies Footprint(native)
      ensures Guard(UnmuteFn(Mic)).Err? ==> r == Guard(UnmuteFn(Mic)) && unchanged(Footprint(native))
      ensures Guard(UnmuteFn(Mic)).Ok? ==>
        && r == Ok(())
        && native.value.State(Mic) == old(native.value.State(Mic)).(muted := false)
        && native.value.State(Speaker) == old(native.value.State(Speaker))
    {
      r := Guard(UnmuteFn(Mic));
      if r.Ok? {
        native.value.SetMuted(Mic, false);
      }
    }

    method MicIsMuted() returns (r: Result<bool>)
      ensures Guard(IsMutedFn(Mic)).Err? ==> r == Err(Guard(IsMutedFn(Mic)).error)
      ensures Guard(IsMutedFn(Mic)).Ok? ==> r == Ok(native.value.State(Mic).muted)
    {
      var g := Guard(IsMutedFn(Mic));
      if g.Err? {
        return Err(g.error);
      }
      r := Ok(native.value.State(Mic).muted);
    }
  }

  /** The addon exports every microphone function. */
  predicate MicComplete(native: Option<Addon>) {
    native.Some? && {GetVolumeFn(Mic), SetVolumeFn(Mic), MuteFn(Mic), UnmuteFn(Mic), IsMutedFn(Mic)} <= native.value.offers
  }

  /** `mic.set(x)` then `mic.get()` on an addon that stores what it is given:
      the rounded, clamped value comes back, except that 1 reads as 100 and
      NaN reads as 0. */
  method MicSetThenGet(m: MacAudio, x: Num) returns (v: Result<int>)
    requires MicComplete(m.native)
    modifies m.native.value
    ensures x.NaN? ==> v == Ok(0)
    ensures !x.NaN? ==> v == Ok(if SetValue(x) == 1 then 100 else SetValue(x))
  {
    var _ := m.MicSet(x);
    v := m.MicGet();
    if !x.NaN? {
      Volume.SetThenGet(x);
    }
  }

  /** `mic.mute()` makes `mic.isMuted()` true and `mic.unmute()` makes it false. */
  method MicMuteUnmute(m: MacAudio) returns (afterMute: Result<bool>, afterUnmute: Result<bool>)
    requires MicComplete(m.native)
    modifies m.native.value
    ensures afterMute == Ok(true) && afterUnmute == Ok(false)
    ensures m.native.value.State(Speaker) == old(m.native.value.State(Speaker))
  {
    var _ := m.MicMute();
    afterMute := m.MicIsMuted();
    var _ := m.MicUnmute();
    afterUnmute := m.MicIsMuted();
  }

  /** Without an addon, volume operations fail with the volume hint and mute
      operations with the mute hint. */
  method StubFailsEverywhere(m: MacAudio, x: Num) returns (results: seq<JsError>)
    requires m.native.None?
    ensures results == [Error(MIC_VOLUME_STUB), Error(MIC_VOLUME_STUB),
                        Error(MIC_MUTE_STUB), Error(MIC_MUTE_STUB), Error(MIC_MUTE_STUB)]
  {
    var g := m.MicGet();
    var s := m.MicSet(x);
    var u := m.MicMute();
    var n := m.MicUnmute();
    var i := m.MicIsMuted();
    results := [g.error, s.error, u.error, n.error, i.error];
  }
}
