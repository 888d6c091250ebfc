/*
 * The entry point: the platform name picks, once, which adapter serves the
 * speaker and the microphone; any platform other than Windows, macOS and
 * Linux gets one placeholder device whose every operation is rejected.
 */
module Dispatcher {
  import opened JsValues
  import opened NativeAddon

  const NOT_IMPLEMENTED := "Not implemented on this platform"

  datatype Adapter = WindowsPlatform | MacPlatform | LinuxPlatform

  /** A device control: one device of an adapter, or the placeholder. */
  datatype DeviceControl = Served(adapter: Adapter, device: Device) | NotImplemented

  datatype AudioController = AudioController(speaker: DeviceControl, mic: DeviceControl)

  /** The platform names (as os.platform() reports them) that have an adapter. */
  const ADAPTERS: map<string, Adapter> := map["win32" := WindowsPlatform, "darwin" := MacPlatform, "linux" := LinuxPlatform]

  /** The controller for a platform: the adapter's speaker and mic, else the
      placeholder for both. */
  function Resolve(platform: string): (a: AudioController)
    ensures platform in ADAPTERS ==>
      a.speaker == Served(ADAPTERS[platform], Speaker) && a.mic == Served(ADAPTERS[platform], Mic)
    ensures platform !in ADAPTERS ==> a.speaker == NotImplemented && a.mic == NotImplemented
  {
    if platform == "win32" then AudioController(Served(WindowsPlatform, Speaker), Served(WindowsPlatform, Mic))
    else if platform == "darwin" then AudioController(Served(MacPlatform, Speaker), Served(MacPlatform, Mic))
    else if platform == "linux" then AudioController(Served(LinuxPlatform, Speaker), Served(LinuxPlatform, Mic))
    else AudioController(NotImplemented, NotImplemented)
  }

  /** The operations of a device control. */
  datatype Op = Get | Set(volume: Num) | Mute | Unmute | IsMuted

  /** What an operation of the placeholder gives: a rejection, whatever the operation. */
  function Placeholder(op: Op): (r: Result<()>)
    ensures r.Err? && r.error.Error? && r.error.message == NOT_IMPLEMENTED
  {
    Err(Error(NOT_IMPLEMENTED))
  }

  /** Each platform is served by its own adapter, both devices by the same one;
      the three adapters are reached from exactly those three names. */
  lemma ResolveRouting(platform: string)
    ensures Resolve(platform).speaker.Served? <==> platform == "win32" || platform == "darwin" || platform == "linux"
    ensures Resolve(platform).speaker.Served? ==>
      && Resolve(platform).mic.Served?
      && Resolve(platform).speaker.adapter == Resolve(platform).mic.adapter
      && Resolve(platform).speaker.device == Speaker
      && Resolve(platform).mic.device == Mic
    ensures Resolve(platform).speaker == Served(WindowsPlatform, Speaker) <==> platform == "win32"
    ensures Resolve(platform).speaker == Served(MacPlatform, Speaker) <==> platform == "darwin"
    ensures Resolve(platform).speaker == Served(LinuxPlatform, Speaker) <==> platform == "linux"
  {
    assert platform in ADAPTERS <==> platform == "win32" || platform == "darwin" || platform == "linux";
  }

  /** On any other platform (freebsd, say) the speaker and the mic are the
      same placeholder, and every operation on either is rejected. */
  lemma UnsupportedPlatformRejects(platform: string, op: Op)
    requires platform != "win32" && platform != "darwin" && platform != "linux"
    ensures Resolve(platform).speaker == Resolve(platform).mic == NotImplemented
    ensures Placeholder(op) == Err(Error("Not implemented on this platform"))
  {
    assert platform !in ADAPTERS;
  }
}
