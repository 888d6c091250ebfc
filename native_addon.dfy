/*
 * The native addon as the adapters consume it: an object exporting, per
 * device, get/set volume, mute, unmute and is-muted functions. The model is an
 * addon that stores faithfully what it is given, like the test doubles of the
 * Windows and macOS adapters; which functions the object exports is fixed
 * when it is created.
 */
module NativeAddon {
  import opened JsValues

  datatype Device = Speaker | Mic {
    function Other(): Device {
      if Speaker? then Mic else Speaker
    }
  }

  /** The functions an addon object may export. */
  datatype NativeFn =
    | GetVolumeFn(device: Device)
    | SetVolumeFn(device: Device)
    | MuteFn(device: Device)
    | UnmuteFn(device: Device)
    | IsMutedFn(device: Device)

  /** The exported name of a function. */
  function FnName(f: NativeFn): string {
    match f
    case GetVolumeFn(Speaker) => "getSpeakerVolume"
    case GetVolumeFn(Mic) => "getMicVolume"
    case SetVolumeFn(Speaker) => "setSpeakerVolume"
    case SetVolumeFn(Mic) => "setMicVolume"
    case MuteFn(Speaker) => "muteSpeaker"
    case MuteFn(Mic) => "muteMic"
    case UnmuteFn(Speaker) => "unmuteSpeaker"
    case UnmuteFn(Mic) => "unmuteMic"
    case IsMutedFn(Speaker) => "isSpeakerMuted"
    case IsMutedFn(Mic) => "isMicMuted"
  }

  /** The TypeError thrown by calling a function the object does not export. */
  function NotAFunction(f: NativeFn): JsError {
    TypeError("native." + FnName(f) + " is not a function")
  }

  /** What the addon holds for one device. */
  datatype DeviceState = DeviceState(volume: Num, muted: bool)

  class Addon {
    /** The functions this object exports. */
    const offers: set<NativeFn>
    var speakerVolume: Num
    var speakerMuted: bool
    var micVolume: Num
    var micMuted: bool

    constructor (offers: set<NativeFn>, speaker: DeviceState, mic: DeviceState)
      ensures this.offers == offers
      ensures State(Speaker) == speaker && State(Mic) == mic
    {
      this.offers := offers;
      speakerVolume, speakerMuted := speaker.volume, speaker.muted;
      micVolume, micMuted := mic.volume, mic.muted;
    }

    function State(d: Device): DeviceState
      reads this
    {
      if d.Speaker? then DeviceState(speakerVolume, speakerMuted) else DeviceState(micVolume, micMuted)
    }

    /** setSpeakerVolume / setMicVolume */
    method SetVolume(d: Device, v: Num)
      modifies this
      ensures State(d) == old(State(d)).(volume := v)
      ensures State(d.Other()) == old(State(d.Other()))
    {
      if d.Speaker? { speakerVolume := v; } else { micVolume := v; }
    }

    /** muteSpeaker / unmuteSpeaker / muteMic / unmuteMic */
    method SetMuted(d: Device, muted: bool)
      modifies this
      ensures State(d) == old(State(d)).(muted := muted)
      ensures State(d.Other()) == old(State(d.Other()))
    {
      if d.Speaker? { speakerMuted := muted; } else { micMuted := muted; }
    }
  }

  /** The objects an operation on an optional addon may change. */
  function Footprint(native: Option<Addon>): set<object> {
    if native.Some? then {native.value} else {}
  }
}
