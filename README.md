# audio-controller: a verified model of the platform adapters

audio-controller gives Node programs one interface for the default speaker
and microphone: `get`, `set`, `mute`, `unmute` and `isMuted`. An entry point
picks one adapter by the host platform:

- **Windows** goes through the `win_audio` addon.
- **macOS** uses osascript for the speaker and the `mac_audio` addon for the
  microphone. Without the addon it uses a stub that fails.
- **Linux** uses an injected native object, else the pactl or amixer command
  line.

Each adapter chooses its backend once, at load time. Each adapter turns
what its backend reports into an integer volume from 0 to 100.

This project models that layer in Dafny and proves its behaviour:

- `js_values.dfy` models the JavaScript numbers the adapters compute with.
  The type has finite reals, NaN and the two infinities. It also has
  `Math.round`, `Math.min`/`Math.max` with NaN propagation, the clamp to
  0..100 and `v || 0`.
- `js_text.dfy` models the string built-ins the adapters call: `trim`,
  ASCII `toLowerCase`, case-insensitive search, `${n}` of a whole number,
  `Number(string)` and `parseInt(string, 10)`.
- `volume.dfy` models the normaliser that every adapter repeats. A raw addon
  reading at most 1 is scaled by 100, NaN reads as 0, and the result is
  rounded and clamped. It also models the round-and-clamp that `set`
  applies.
- `selection.dfy` models one-time backend selection as "first available
  candidate in priority order".
- `native_addon.dfy` models the addon as an object. It exports a fixed set
  of functions and stores the volume and mute state of each device, like the
  test doubles the adapters are tested against.
- `linux.dfy`, `windows.dfy` and `macos.dfy` model the three adapters.
- `dispatch.dfy` models the entry point.

External effects are parameters:

- Each shell command is answered by an oracle `shell: string -> Reply`:
  standard output, or a failure message.
- The `--version` probes are an oracle `string -> bool`.
- `fs.existsSync` is an oracle `string -> bool`.
- `require` and `bindings` are oracles `string -> Option<Addon>`, where
  `None` means the call throws.
- Each operation on the command-line paths returns the commands it ran.
  This lets a contract state "nothing ran before the TypeError".

A raw addon reading of exactly 1 is ambiguous: it could mean 1% or the
fraction 1.0. The code's test `v <= 1` treats it as 1.0 and scales it to
100, and the model follows the code. `Volume.ReadStoredPercent` and
`WindowsAdapter.SetThenGetSequence` state the consequence. The Windows addon
returns whole percentages (native/win-audio/win_audio.cc:126), so a device
set to 1% reads back as 100. The macOS speaker path has no such rule and
reads 1 back as 1 (`MacAdapter.SpeakerSetThenGet`).

## Model

| member | source | states |
|---|---|---|
| JsValues.Round | src/platforms/linux.ts:68 | `Math.round` gives the integer within one half of x (ties upwards); NaN and the infinities are kept |
| JsValues.Min | src/platforms/linux.ts:43 | `Math.min` is NaN when either argument is, else the smaller argument in the extended order |
| JsValues.Max | src/platforms/linux.ts:43 | `Math.max` is NaN when either argument is, else the larger argument in the extended order |
| JsValues.ClampPercent | src/platforms/linux.ts:45 | the clamp to [0,100] keeps a value already in range, sends values below to 0 and above to 100, and keeps NaN |
| JsValues.OrZero | src/platforms/windows.ts:58 | the fallback to 0 after the read turns NaN into 0 and keeps every other number |
| JsText.TrimStart | src/platforms/linux.ts:44 | trimStart removes exactly the leading white space and keeps a suffix |
| JsText.TrimEnd | src/platforms/linux.ts:44 | trimEnd removes exactly the trailing white space and keeps a prefix |
| JsText.Trim | src/platforms/macos.ts:8 | `trim` never lengthens its argument; TrimIsSlice and TrimEnds state what it keeps |
| JsText.TrimIsSlice | src/platforms/linux.ts:44 | `trim` gives one contiguous slice of its argument, with only white space before and after it |
| JsText.TrimEnds | src/platforms/macos.ts:40 | a trimmed text is empty or neither starts nor ends with white space |
| JsText.TrimIsCore | src/platforms/macos.ts:8 | `trim` of a core framed by white space is the core |
| JsText.TrimTwice | src/platforms/macos.ts:40 | `trim` is idempotent, so the second trim in isMuted changes nothing |
| JsText.TrimKeeps | src/platforms/macos.ts:8 | a text that neither starts nor ends with white space is left as it is |
| JsText.TrimStartSkips | src/platforms/macos.ts:15 | trimStart drops the white space before the first other character |
| JsText.TrimEndSkips | src/platforms/macos.ts:8 | trimEnd drops the white space after the last other character |
| JsText.ToLower | src/platforms/macos.ts:40 | toLowerCase keeps the length and lowers each ASCII capital |
| JsText.SearchIgnoringCase | src/platforms/linux.ts:119 | the search is true exactly when the word occurs, ignoring case, at or after the start position |
| JsText.NatToString | src/platforms/linux.ts:74 | `${v}` of a whole number is a non-empty digit string whose value is v, with no leading zero |
| JsText.ToNumber | src/platforms/linux.ts:44 | `Number` of blank text is 0; it is +Infinity exactly when the trimmed text is "Infinity" or "+Infinity", and -Infinity exactly when it is "-Infinity" |
| JsText.ParseInt | src/platforms/macos.ts:15 | `parseInt(s, 10)` is NaN or a whole number; ParseIntNaNExactly and ParseIntOfSigned state which |
| JsText.ParseIntOfNat | src/platforms/macos.ts:15 | parseInt reads a number back from its decimal form when what follows is not a digit |
| JsText.ParseIntWithoutDigits | src/platforms/macos.ts:15-16 | parseInt of a text with no decimal digit is NaN |
| JsText.ParseIntOfSigned | src/platforms/macos.ts:15 | after leading white space and an optional sign, parseInt reads the digits up to the first non-digit, negated after a minus sign |
| JsText.ParseIntFinHasShape | src/platforms/macos.ts:15 | whenever parseInt finds a number, its argument is white space, an optional sign, a run of digits and text not starting with a digit |
| JsText.ParseIntNaNExactly | src/platforms/macos.ts:15-16 | parseInt is NaN exactly when its argument does not lead, after white space and an optional sign, with a decimal digit ("x1", "- 5" and "+-5" give NaN) |
| JsText.ParseIntOfTrimWithoutDigits | src/platforms/macos.ts:8-16 | parseInt of the trimmed reply is NaN when the reply has no decimal digit |
| JsText.ParseIntOfTrimSigned | src/platforms/macos.ts:8-15 | parseInt of the trimmed reply reads its signed leading integer, whatever text follows the digits |
| JsText.ToNumberOfNat | src/platforms/linux.ts:44 | `Number` reads a number back from its decimal form |
| JsText.DigitPrefix | src/platforms/macos.ts:15 | the digit run parseInt reads is the longest run of digits at the start |
| JsText.DigitPrefixOf | src/platforms/macos.ts:15 | the digit run of digits followed by a non-digit is exactly those digits |
| Volume.NormalizeRaw | src/platforms/windows.ts:56-58 | a raw reading becomes a volume in 0..100: a finite value up to 1 is scaled by 100 and rounded; a value in (1,100] is rounded; below 0 gives 0; above 100 or +Infinity gives 100; NaN and -Infinity give 0 |
| Volume.ClampRound | src/platforms/windows.ts:62 | the value `set` passes on is an integer in 0..100 within one half of x when x is in range, 0 or 100 outside, and NaN only for NaN |
| Volume.SetValue | src/platforms/linux.ts:68 | for a number other than NaN, the value passed on is a volume |
| Volume.ReadStoredPercent | src/platforms/windows.ts:57 | a stored integer percentage reads back as itself, except that 1 reads as 100 |
| Volume.SetThenGet | src/platforms/windows.ts:56-63 | `set(x)` then `get()` against an addon that stores what it is given returns the volume that was set, except that 1 comes back as 100 |
| Volume.ClampRoundIdempotent | src/platforms/windows.ts:62 | setting a value already set passes on the same value |
| Volume.ReadExamples | src/platforms/windows.ts:56-58 | 0.42, 0.55 and 0.73 read as 42, 55 and 73, and 77 reads as 77 |
| Volume.SetRoundsExamples | src/platforms/windows.ts:62 | 33.9, 12.3 and 55.7 are set as 34, 12 and 56 |
| Volume.SetClampsExamples | src/platforms/macos.ts:73 | 200 is set as 100 and -5 as 0 |
| Selection.FirstSome | src/platforms/windows.ts:17-46 | the chosen candidate is None exactly when every candidate is unavailable; otherwise it is a candidate with none available before it |
| Selection.FirstAvailableWins | src/platforms/linux.ts:10-23 | an available candidate preceded only by unavailable ones is chosen, whatever follows |
| Selection.FirstSomeAppend | src/platforms/windows.ts:38-46 | a later group of candidates is consulted only when nothing earlier is available |
| NativeAddon.Addon.constructor | src/platforms/windows.ts:17-18 | a new addon exports the given functions and holds the given device states |
| NativeAddon.Addon.SetVolume | src/platforms/windows.ts:63 | setting a device's volume changes only that device's volume |
| NativeAddon.Addon.SetMuted | src/platforms/windows.ts:67 | muting or unmuting a device changes only that device's mute flag |
| LinuxAdapter.DetectBackend | src/platforms/linux.ts:9-24 | the backend is the injected name if set (and nothing is probed); otherwise pactl if its probe succeeds, else amixer if its probe succeeds, else "none"; amixer is probed only after pactl fails |
| LinuxAdapter.DigitRunEnd | src/platforms/linux.ts:42 | the end of the maximal digit run from a position |
| LinuxAdapter.SearchFrom | src/platforms/linux.ts:42 | `match(/(\d+)%/)` finds the leftmost position where a digit run ends at '%', or reports that there is none |
| LinuxAdapter.RunStart | src/platforms/linux.ts:42 | the start of the maximal digit run that ends at a position |
| LinuxAdapter.ParseVolume | src/platforms/linux.ts:41-47 | parseVolume gives a volume in 0..100, or the error "Failed to parse volume from output: " followed by the whole output |
| LinuxAdapter.MatchIsRunBeforeFirstPercent | src/platforms/linux.ts:42 | the regular expression matches the whole digit run before the first '%' that follows a digit |
| LinuxAdapter.NoMatchWithoutPercent | src/platforms/linux.ts:42 | without a '%' after a digit the regular expression does not match |
| LinuxAdapter.ParseVolumeReadsPercent | src/platforms/linux.ts:42-43 | parseVolume gives the digits before the first '%' that follows a digit, capped at 100 |
| LinuxAdapter.ParseVolumeWithoutPercent | src/platforms/linux.ts:44-46 | without "digits%", parseVolume fails exactly when the trimmed text is no number, and otherwise rounds and clamps it |
| LinuxAdapter.ParsePercentText | src/platforms/linux.ts:42-43 | a percentage after text with no '%' and no trailing digit reads back as itself, capped at 100, whatever follows |
| LinuxAdapter.PercentTextMatch | src/platforms/linux.ts:42 | in text + digits + "%" + rest, with no '%' in the text and no digit at its end, the regular expression matches exactly the digits |
| LinuxAdapter.EmptyOutputReadsZero | src/platforms/linux.ts:44-45 | empty output reads as 0 |
| LinuxAdapter.PactlSinkExample | src/platforms/linux.ts:41-43 | "Volume: front-left: 65536 / 100% / 0.00 dB" reads as 100 |
| LinuxAdapter.PactlSourceExample | src/platforms/linux.ts:41-43 | "Volume: front-left: 32768 / 50% / -6.00 dB" reads as 50 |
| LinuxAdapter.PactlReportsMuted | src/platforms/linux.ts:119 | pactl output reports muted exactly when "yes" or "true" occurs somewhere in it, in any case |
| LinuxAdapter.AmixerReportsMuted | src/platforms/linux.ts:123 | amixer output reports muted exactly when "[off]" or "[mute]" occurs somewhere in it, in any case |
| LinuxAdapter.AbsentLetter | src/platforms/linux.ts:119 | a word cannot be found in a text that lacks one of its letters in every case |
| LinuxAdapter.PactlMuteExamples | src/platforms/linux.ts:119 | "Mute: yes" reports muted and "Mute: no" does not |
| LinuxAdapter.ProgramOf | src/platforms/linux.ts:56-62 | the program a tool's commands run is the backend name that selects that tool |
| LinuxAdapter.Command | src/platforms/linux.ts:57 | a command line runs the tool's program, and after one space come exactly the arguments |
| LinuxAdapter.VolumeQuery | src/platforms/linux.ts:57-61 | the volume query runs the backend's own program (pactl get-sink-volume or get-source-volume, amixer get Master or Capture; mic at lines 137-141) |
| LinuxAdapter.SetVolumeCommand | src/platforms/linux.ts:73-79 | the set command runs the backend's own program and ends in '%' (mic at lines 154-158); SetCommandReadsBack states the percentage it carries |
| LinuxAdapter.MuteCommand | src/platforms/linux.ts:169-188 | the mute and unmute commands run the backend's own program; amixer mutes the capture control with `cap` and unmutes it with `uncap` (speaker at lines 88-108) |
| LinuxAdapter.MuteQuery | src/platforms/linux.ts:117-123 | the mute query runs the backend's own program; amixer has none of its own and reuses the volume query (mic at lines 198-202) |
| LinuxAdapter.SetCommandReadsBack | src/platforms/linux.ts:68-78 | the percentage a set-volume command carries reads back through parseVolume as the volume that was set |
| LinuxAdapter.RunCmd | src/platforms/linux.ts:32-39 | runCmd succeeds exactly when the command does, with its standard output; otherwise the error is "Failed to run command: ", the command, " -> " and the failure's message |
| LinuxAdapter.CommandGet | src/platforms/linux.ts:56-64 | without a tool, the no-backend error and nothing run; with one, exactly the volume query runs, its output is read by parseVolume, and a failure carries runCmd's error; a success is a volume in 0..100 |
| LinuxAdapter.CommandSet | src/platforms/linux.ts:73-81 | without a tool, the no-backend error and nothing run; with one, exactly the set command runs, and set succeeds exactly when it does, else fails with runCmd's error (mic at lines 154-160) |
| LinuxAdapter.CommandSetMuted | src/platforms/linux.ts:88-111 | without a tool, the no-backend error and nothing run; with one, exactly the mute or unmute command runs, and the call succeeds exactly when it does, else fails with runCmd's error (mic at lines 169-190) |
| LinuxAdapter.CommandIsMuted | src/platforms/linux.ts:117-125 | without a tool, the no-backend error and nothing run; with one, exactly the mute query runs and its output is read by that tool's token test, or the call fails with runCmd's error (mic at lines 198-205) |
| LinuxAdapter.NoBackendFailsEverywhere | src/platforms/linux.ts:56-125 | with a backend that is neither pactl nor amixer, every command operation fails with the error naming both tools and runs nothing |
| LinuxAdapter.CommandGetReadsPercent | src/platforms/linux.ts:56-62 | with either tool, a successful get reads the percentage the output reports, capped at 100 |
| LinuxAdapter.AmixerGetExample | src/platforms/linux.ts:60-62 | amixer's "Mono: Playback 65536 [61%] [on]" reads as 61 |
| LinuxAdapter.LinuxAudio.constructor | src/platforms/linux.ts:9-29 | the backend is the first available of injected, pactl and amixer, else "none"; the injected native object is kept |
| LinuxAdapter.LinuxAudio.Get | src/platforms/linux.ts:50-65 | an injected getter is used and its reading normalised, running nothing; otherwise the backend's query is run and parsed; a success is always a volume |
| LinuxAdapter.LinuxAudio.Set | src/platforms/linux.ts:66-82 | a non-finite number is refused with TypeError before any effect; otherwise the rounded, clamped value goes to the injected setter (and only its device changes), else to the backend's command |
| LinuxAdapter.LinuxAudio.Mute | src/platforms/linux.ts:83-97 | an injected mute sets only that device's flag; otherwise the backend's mute command runs |
| LinuxAdapter.LinuxAudio.Unmute | src/platforms/linux.ts:98-112 | an injected unmute clears only that device's flag; otherwise the backend's unmute command runs |
| LinuxAdapter.LinuxAudio.IsMuted | src/platforms/linux.ts:113-126 | an injected query gives the device's flag; otherwise the backend's query is read by the mute-token test |
| WindowsAdapter.TryPaths | src/platforms/windows.ts:27-36 | each candidate path gives an addon when it exists and loads |
| WindowsAdapter.AddonPriority | src/platforms/windows.ts:17-46 | the addon is the injected object, else the first path that gives one, else what `bindings` gives |
| WindowsAdapter.SearchPaths | src/platforms/windows.ts:27-36 | the loop finds the first path that exists and loads; the paths it checks are a prefix of the list, and it stops early only at a path that loaded |
| WindowsAdapter.LoadAddon | src/platforms/windows.ts:17-46 | the addon chosen is the first available candidate; an injected object means no path is checked |
| WindowsAdapter.WindowsAudio.constructor | src/platforms/windows.ts:17-47 | the module's addon is the first available of the injected object, the three build paths and `bindings` |
| WindowsAdapter.WindowsAudio.Guard | src/platforms/windows.ts:49-51 | an operation proceeds exactly when an addon is loaded and exports the function; otherwise the "not loaded" error, or the TypeError for a missing function |
| WindowsAdapter.WindowsAudio.Get | src/platforms/windows.ts:54-59 | get fails with the guard's error, or returns the normalised reading of the device; the mic operation at lines 79-103 is the same for the mic |
| WindowsAdapter.WindowsAudio.Set | src/platforms/windows.ts:60-64 | set stores the rounded, clamped value (NaN unchecked) on the device alone, or fails with the guard's error and changes nothing; the mic operation at lines 79-103 is the same for the mic |
| WindowsAdapter.WindowsAudio.Mute | src/platforms/windows.ts:65-68 | mute sets the device's flag alone, or fails with the guard's error and changes nothing; the mic operation at lines 79-103 is the same for the mic |
| WindowsAdapter.WindowsAudio.Unmute | src/platforms/windows.ts:69-72 | unmute clears the device's flag alone, or fails with the guard's error and changes nothing; the mic operation at lines 79-103 is the same for the mic |
| WindowsAdapter.WindowsAudio.IsMuted | src/platforms/windows.ts:73-76 | isMuted gives the device's flag, or fails with the guard's error; the mic operation at lines 79-103 is the same for the mic |
| WindowsAdapter.SetThenGetSequence | src/platforms/windows.ts:56-63 | with a complete addon, set(x) then get() gives the volume set, except that 1 reads as 100 and NaN reads as 0 |
| WindowsAdapter.MuteUnmuteSequence | src/platforms/windows.ts:65-76 | with a complete addon, mute makes isMuted true, unmute makes it false, and the other device is untouched |
| WindowsAdapter.NoAddonFailsEverywhere | src/platforms/windows.ts:49-51 | without an addon all five operations fail with the "not loaded" error |
| MacAdapter.RunOsascript | src/platforms/macos.ts:6-9 | the command's output trimmed, or its error unchanged |
| MacAdapter.OsascriptCommand | src/platforms/macos.ts:8 | the command is `osascript -e` followed by the script line between double quotes |
| MacAdapter.OsascriptCommandInjective | src/platforms/macos.ts:8 | different script lines give different commands |
| MacAdapter.SetVolumeScript | src/platforms/macos.ts:26 | the set script is "set volume output volume " followed by text that parseInt reads back as the volume |
| MacAdapter.SpeakerGet | src/platforms/macos.ts:12-21 | speaker.get runs one script and gives a volume in 0..100, or an error under "Failed to get speaker volume: " that carries a failed command's message |
| MacAdapter.SpeakerSet | src/platforms/macos.ts:23-27 | a non-finite number is refused with TypeError before anything runs; otherwise one script sets the rounded, clamped value, succeeding exactly when the command does and otherwise failing with the command's message unchanged |
| MacAdapter.SpeakerSetMuted | src/platforms/macos.ts:29-35 | mute and unmute run one script each and pass a failure on unchanged |
| MacAdapter.SpeakerIsMuted | src/platforms/macos.ts:37-45 | isMuted reads the trimmed reply, or fails under "Failed to get speaker mute state: " |
| MacAdapter.MutedReply | src/platforms/macos.ts:40-41 | a reply reads as muted only when its trimmed form has three or four letters starting with t or y in either case; a blank reply is not muted; MutedReplyOf states the exact test |
| MacAdapter.SpeakerGetReadsNumber | src/platforms/macos.ts:14-17 | a reply that is a non-negative whole number in decimal, framed by white space, reads as that number, capped at 100 |
| MacAdapter.SpeakerGetReadsInteger | src/platforms/macos.ts:14-17 | a reply of white space, an optional sign, digits and then anything not starting with a digit reads as that integer clamped to 0..100 ("42 dB" is 42, "-5" is 0) |
| MacAdapter.SpeakerSetThenGet | src/platforms/macos.ts:14-26 | the set script carries the rounded, clamped value, and a reply of that value reads back as itself, 1 included |
| MacAdapter.SpeakerGetRejectsText | src/platforms/macos.ts:15-19 | any reply with no decimal digit gives exactly "Failed to get speaker volume: Failed to parse volume" |
| MacAdapter.SpeakerGetFailsExactly | src/platforms/macos.ts:14-19 | when the command succeeds, speaker.get fails exactly when the trimmed reply does not lead with an integer, and then with "Failed to get speaker volume: Failed to parse volume" |
| MacAdapter.MutedReplyOf | src/platforms/macos.ts:40-41 | the reply reports muted exactly when its trimmed core, lower-cased, is "true" or "yes" |
| MacAdapter.TrimLine | src/platforms/macos.ts:8 | a reply ending in a line break trims to its text |
| MacAdapter.MutedReplyTrue | src/platforms/macos.ts:40-41 | "true\n" reports muted |
| MacAdapter.MutedReplyUpperYes | src/platforms/macos.ts:40-41 | "YES" reports muted |
| MacAdapter.MutedReplyFalse | src/platforms/macos.ts:40-41 | "false\n" does not report muted |
| MacAdapter.MutedReplyTrimmed | src/platforms/macos.ts:40 | trimming the reply again does not change the answer |
| MacAdapter.LoadAddon | src/platforms/macos.ts:49-63 | the addon is the injected object, else the build output, else `bindings`, else none; `bindings` is asked only when the build output fails |
| MacAdapter.MacAudio.constructor | src/platforms/macos.ts:49-63 | the module's addon is the first available candidate |
| MacAdapter.MacAudio.Guard | src/platforms/macos.ts:65-101 | a mic operation proceeds exactly when an addon exports its function; without an addon, the volume or mute build hint; with an addon lacking it, the TypeError |
| MacAdapter.MacAudio.MicGet | src/platforms/macos.ts:67-88 | mic.get returns the normalised reading, or fails with the guard's error |
| MacAdapter.MacAudio.MicSet | src/platforms/macos.ts:72-91 | mic.set stores the rounded, clamped value (NaN unchecked) on the mic alone, or fails and changes nothing |
| MacAdapter.MacAudio.MicMute | src/platforms/macos.ts:75-94 | mic.mute sets the mic's flag alone, or fails and changes nothing |
| MacAdapter.MacAudio.MicUnmute | src/platforms/macos.ts:78-97 | mic.unmute clears the mic's flag alone, or fails and changes nothing |
| MacAdapter.MacAudio.MicIsMuted | src/platforms/macos.ts:81-100 | mic.isMuted gives the mic's flag, or fails with the guard's error |
| MacAdapter.MicSetThenGet | src/platforms/macos.ts:67-74 | with a complete addon, set(x) then get() gives the volume set, except that 1 reads as 100 and NaN reads as 0 |
| MacAdapter.MicMuteUnmute | src/platforms/macos.ts:75-83 | with a complete addon, mute makes isMuted true, unmute false, and the speaker state is untouched |
| MacAdapter.StubFailsEverywhere | src/platforms/macos.ts:85-101 | without an addon, get and set fail with the volume hint and the three mute operations with the mute hint |
| Dispatcher.Resolve | src/index.ts:22-46 | a platform with an adapter gets that adapter's speaker and mic; any other platform gets the placeholder for both |
| Dispatcher.Placeholder | src/index.ts:37 | every placeholder operation is rejected with "Not implemented on this platform" |
| Dispatcher.ResolveRouting | src/index.ts:22-34 | exactly "win32", "darwin" and "linux" are served, by the Windows, macOS and Linux adapters, with the speaker and the mic of the same adapter |
| Dispatcher.UnsupportedPlatformRejects | src/index.ts:35-45 | on any other platform, speaker and mic are the same placeholder and every operation is rejected |

## Left out

- Child processes, `require` and the file system are not modelled.
  `execP`, `execSync`, `require`, `createRequire` and `fs.existsSync` are
  oracle parameters. The real exec error text ("Command failed: …") is
  whatever message the oracle gives.
- Promises and `async` are not modelled. Each operation is one sequential
  call. A rejected promise is an `Err` result.
- An addon function that throws is not modelled. Each addon function
  either is missing, which gives a TypeError, or stores and returns the
  device's state.
- The real native addons are not part of this model:
  native/win-audio/win_audio.cc with its COM calls and HRESULT messages,
  and the mac_audio addon.
- Floating-point rounding is not modelled. Numbers are exact reals, so
  IEEE artefacts such as `0.29 * 100` are absent.
- JsText.ToNumber reads only the decimal grammar: white space, a sign,
  `Infinity` and digits with one '.'. Hexadecimal, binary, octal and
  exponent forms read as NaN.
- JsText.ToLower lowers ASCII only. In macOS isMuted its result is only
  compared with "true" and "yes", so full Unicode `toLowerCase` would give
  the same answer. The Linux mute tokens are matched by a regular
  expression with the `i` flag and no `u` flag, which folds case on its
  own. The model's ASCII folding gives the same matches for these ASCII
  tokens.
- MacAdapter.JsonQuote adds quotes but escapes nothing. The script lines it
  quotes hold no character that JSON escapes.
- Arguments that are not numbers are not modelled. The
  `typeof volume !== 'number'` check is covered only for non-finite numbers.
- The platform name is a parameter of Dispatcher.Resolve. Reading it once
  from `os.platform()` and the module-level `await import` are not modelled.
- The LinuxAdapter exec error fallback `|| err` for an error without a
  message is not modelled.
- The empty-stdout fallback `(r && r.stdout) || ''` is not modelled. A
  command's output is always a string.
- scripts/prebuild.cjs, scripts/prebuild.js and src/example.ts are build
  plumbing and a demo driver, so they are not part of this model.
- src/types are not part of this model. Only their function names are
  used, in NativeAddon.FnName.
