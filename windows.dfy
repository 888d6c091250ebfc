/*
 * The Windows adapter: the win_audio addon is located once at load time (an
 * injected object, else the first candidate path that exists and loads, else
 * the `bindings` loader), and every speaker and mic operation goes through it.
 */
module WindowsAdapter {
  import opened JsValues
  import opened Volume
  import opened Selection
  import opened NativeAddon

  /** The build outputs searched, in order, relative to the package root. */
  const CANDIDATE_PATHS := [
    "build/Release/win_audio.node",
    "native/win-audio/build/Release/win_audio.node",
    "native/win-audio/build/Debug/win_audio.node"
  ]

  const ADDON_NAME := "win_audio"
  const NOT_LOADED := "Native win_audio module not loaded. Build with node-gyp (see README)."

  /** Trying one candidate path: the addon it holds when the file exists
      (`present`) and loading it does not throw (`load`). */
  function TryPath(present: string -> bool, load: string -> Option<Addon>, path: string): Option<Addon> {
    if present(path) then load(path) else None
  }

  function TryPaths(present: string -> bool, load: string -> Option<Addon>, paths: seq<string>): (r: seq<Option<Addon>>)
    ensures |r| == |paths|
    ensures forall i :: 0 <= i < |paths| ==> r[i] == TryPath(present, load, paths[i])
  {
    seq(|paths|, i requires 0 <= i < |paths| => TryPath(present, load, paths[i]))
  }

  /** The addon candidates in priority order: the injected object, each path
      in turn, then the `bindings` loader. */
  function AddonCandidates(injected: Option<Addon>, paths: seq<string>, present: string -> bool,
                           load: string -> Option<Addon>, bindings: string -> Option<Addon>): seq<Option<Addon>>
  {
    [injected] + TryPaths(present, load, paths) + [bindings(ADDON_NAME)]
  }

  /** The chosen addon is the first candidate available: the injected object
      if any, else the first path that gives one, else what `bindings` gives. */
  lemma AddonPriority(injected: Option<Addon>, paths: seq<string>, present: string -> bool,
                      load: string -> Option<Addon>, bindings: string -> Option<Addon>)
    ensures var fromPaths := FirstSome(TryPaths(present, load, paths));
      FirstSome(AddonCandidates(injected, paths, present, load, bindings))
        == if injected.Some? then injected else if fromPaths.Some? then fromPaths else bindings(ADDON_NAME)
  {
    var tries := TryPaths(present, load, paths);
    assert AddonCandidates(injected, paths, present, load, bindings) == [injected] + (tries + [bindings(ADDON_NAME)]);
    FirstSomeAppend([injected], tries + [bindings(ADDON_NAME)]);
    FirstSomeAppend(tries, [bindings(ADDON_NAME)]);
  }

  /** The loop over the candidate paths: they are tried in order and the
      search stops at the first that exists and loads; a path that is missing
      or fails to load is passed over. `checked` lists the paths whose
      existence was tested. */
  method SearchPaths(paths: seq<string>, present: string -> bool, load: string -> Option<Addon>)
    returns (found: Option<Addon>, checked: seq<string>)
    ensures found == FirstSome(TryPaths(present, load, paths))
    ensures |checked| <= |paths| && checked == paths[..|checked|]
    ensures |checked| < |paths| ==> |checked| > 0 && found.Some? && found == TryPath(present, load, paths[|checked| - 1])
  {
    var tries := TryPaths(present, load, paths);
    found, checked := None, [];
    var i := 0;
    while i < |paths|
      invariant 0 <= i <= |paths|
      invariant checked == paths[..i]
      invariant found.None?
      invariant forall k :: 0 <= k < i ==> tries[k].None?
      decreases |paths| - i
    {
      checked := checked + [paths[i]];
      if present(paths[i]) {
        var m := load(paths[i]);
        if m.Some? {
          found := m;
          FirstAvailableWins(tries, i);
          return;
        }
      }
      i := i + 1;
    }
  }

  /** The load-time search: an injected object is used as it is and no path is
      looked at; otherwise the paths are searched, and the `bindings` loader is
      asked only when no path gave an addon; when it fails too there is no addon. */
  method LoadAddon(injected: Option<Addon>, paths: seq<string>, present: string -> bool,
                   load: string -> Option<Addon>, bindings: string -> Option<Addon>)
    returns (native: Option<Addon>, checked: seq<string>)
    ensures native == FirstSome(AddonCandidates(injected, paths, present, load, bindings))
    ensures injected.Some? ==> checked == []
    ensures |checked| <= |paths| && checked == paths[..|checked|]
  {
    AddonPriority(injected, paths, present, load, bindings);
    if injected.Some? {
      return injected, [];
    }
    native, checked := SearchPaths(paths, present, load);
    if native.None? {
      native := bindings(ADDON_NAME);
    }
  }

  /** The module state: the addon found at load time, fixed for the module's lifetime. */
  class WindowsAudio {
    const native: Option<Addon>

    constructor (injected: Option<Addon>, present: string -> bool, load: string -> Option<Addon>,
                 bindings: string -> Option<Addon>)
      ensures native == FirstSome(AddonCandidates(injected, CANDIDATE_PATHS, present, load, bindings))
    {
      var n, _ := LoadAddon(injected, CANDIDATE_PATHS, present, load, bindings);
      native := n;
    }

    /** ensureNative() and then the call of f: the error that stops the
        operation before any effect, if any. */
    function Guard(f: NativeFn): (r: Result<()>)
      ensures r.Ok? <==> native.Some? && f in native.value.offers
      ensures native.None? ==> r == Err(Error(NOT_LOADED))
      ensures native.Some? && f !in native.value.offers ==> r == Err(NotAFunction(f))
    {
      if native.None? then Err(Error(NOT_LOADED))
      else if f !in native.value.offers then Err(NotAFunction(f))
      else Ok(())
    }

    method Get(d: Device) returns (r: Result<int>)
      ensures Guard(GetVolumeFn(d)).Err? ==> r == Err(Guard(GetVolumeFn(d)).error)
      ensures Guard(GetVolumeFn(d)).Ok? ==> r == Ok(NormalizeRaw(native.value.State(d).volume))
    {
      var g := Guard(GetVolumeFn(d));
      if g.Err? {
        return Err(g.error);
      }
      r := Ok(NormalizeRaw(native.value.State(d).volume));
    }

    /** No finiteness check: NaN is passed on to the addon as NaN. */
    method Set(d: Device, x: Num) returns (r: Result<()>)
      modifies Footprint(native)
      ensures Guard(SetVolumeFn(d)).Err? ==> r == Guard(SetVolumeFn(d)) && unchanged(Footprint(native))
      ensures Guard(SetVolumeFn(d)).Ok? ==>
        && r == Ok(())
        && native.value.State(d) == old(native.value.State(d)).(volume := ClampRound(x))
        && native.value.State(d.Other()) == old(native.value.State(d.Other()))
    {
      r := Guard(SetVolumeFn(d));
      if r.Ok? {
        native.value.SetVolume(d, ClampRound(x));
      }
    }

    method Mute(d: Device) returns (r: Result<()>)
      modifies Footprint(native)
      ensures Guard(MuteFn(d)).Err? ==> r == Guard(MuteFn(d)) && unchanged(Footprint(native))
      ensures Guard(MuteFn(d)).Ok? ==>
        && r == Ok(())
        && native.value.State(d) == old(native.value.State(d)).(muted := true)
        && native.value.State(d.Other()) == old(native.value.State(d.Other()))
    {
      r := Guard(MuteFn(d));
      if r.Ok? {
        native.value.SetMuted(d, true);
      }
    }

    method Unmute(d: Device) returns (r: Result<()>)
      modifies Footprint(native)
      ensures Guard(UnmuteFn(d)).Err? ==> r == Guard(UnmuteFn(d)) && unchanged(Footprint(native))
      ensures Guard(UnmuteFn(d)).Ok? ==>
        && r == Ok(())
        && native.value.State(d) == old(native.value.State(d)).(muted := false)
        && native.value.State(d.Other()) == old(native.value.State(d.Other()))
    {
      r := Guard(UnmuteFn(d));
      if r.Ok? {
        native.value.SetMuted(d, false);
      }
    }

    method IsMuted(d: Device) returns (r: Result<bool>)
      ensures Guard(IsMutedFn(d)).Err? ==> r == Err(Guard(IsMutedFn(d)).error)
      ensures Guard(IsMutedFn(d)).Ok? ==> r == Ok(native.value.State(d).muted)
    {
      var g := Guard(IsMutedFn(d));
      if g.Err? {
        return Err(g.error);
      }
      r := Ok(native.value.State(d).muted);
    }
  }

  /** The addon exports every function for device d. */
  predicate Complete(native: Option<Addon>, d: Device) {
    native.Some? && {GetVolumeFn(d), SetVolumeFn(d), MuteFn(d), UnmuteFn(d), IsMutedFn(d)} <= native.value.offers
  }

  /** `set(x)` then `get()` on an addon that stores what it is given: the
      rounded, clamped value comes back, except that 1 reads as 100 and NaN,
      which reaches the addon unchecked, reads as 0. */
  method SetThenGetSequence(w: WindowsAudio, d: Device, x: Num) returns (v: Result<int>)
    requires Complete(w.native, d)
    modifies w.native.value
    ensures x.NaN? ==> v == Ok(0)
    ensures !x.NaN? ==> v == Ok(if SetValue(x) == 1 then 100 else SetValue(x))
  {
    var _ := w.Set(d, x);
    v := w.Get(d);
    if !x.NaN? {
      Volume.SetThenGet(x);
    }
  }

  /** `mute()` makes `isMuted()` true and `unmute()` makes it false; the other
      device's state is left as it was. */
  method MuteUnmuteSequence(w: WindowsAudio, d: Device) returns (afterMute: Result<bool>, afterUnmute: Result<bool>)
    requires Complete(w.native, d)
    modifies w.native.value
    ensures afterMute == Ok(true) && afterUnmute == Ok(false)
    ensures w.native.value.State(d.Other()) == old(w.native.value.State(d.Other()))
  {
    var _ := w.Mute(d);
    afterMute := w.IsMuted(d);
    var _ := w.Unmute(d);
    afterUnmute := w.IsMuted(d);
  }

  /** Without an addon every operation fails with the build instruction. */
  method NoAddonFailsEverywhere(w: WindowsAudio, d: Device, x: Num) returns (results: seq<JsError>)
    requires w.native.None?
    ensures results == [Error(NOT_LOADED), Error(NOT_LOADED), Error(NOT_LOADED), Error(NOT_LOADED), Error(NOT_LOADED)]
  {
    var g := w.Get(d);
    var s := w.Set(d, x);
    var m := w.Mute(d);
    var u := w.Unmute(d);
    var i := w.IsMuted(d);
    results := [g.error, s.error, m.error, u.error, i.error];
  }
}
