/**
 * The native encoder library as the session sees it through its interop layer: create and
 * destroy an encoder instance, read and write its control parameters, encode one frame, report
 * the library version. Only the boundary is modelled; the codec itself is opaque, so whether an
 * allocation succeeds and how long a packet comes out are left open (chosen nondeterministically).
 */
module OpusNative {
  import opened OpusTypes

  /** The control parameters of the get/set protocol; each has a get request and a set request. */
  datatype CtlParam =
    | Bitrate
    | MaxBandwidth
    | Complexity
    | PacketLossPercentage
    | Signal
    | ForceChannels
    | InbandFec
    | VbrConstraint
    | Dtx

  /** The values one encoder instance holds for its control parameters. */
  type Settings = map<CtlParam, int32>

  ghost predicate Total(s: Settings) {
    forall p: CtlParam :: p in s
  }

  class Engine {
    /** Handles of the instances created and not yet destroyed; 0 is never one of them. */
    var live: set<int>
    var nextHandle: int
    var settings: map<int, Settings>
    /** The parameter values of a freshly created instance. */
    const defaults: Settings
    const version: string

    /** The arguments of every create call, in order. */
    ghost var createLog: seq<(int32, int32, int32)>
    ghost var destroyLog: seq<int>
    /** What the last encode call left in the caller's output buffer. */
    ghost var lastPacket: seq<byte>
    /** The packet length the last encode call reported. */
    ghost var lastLength: int

    ghost predicate Valid()
      reads this
    {
      Total(defaults) && 0 < nextHandle && live == settings.Keys &&
      (forall h :: h in live ==> 0 < h < nextHandle) &&
      (forall h :: h in settings ==> Total(settings[h]))
    }

    constructor (defaults: Settings, version: string)
      requires Total(defaults)
      ensures Valid()
      ensures this.defaults == defaults && this.version == version
      ensures live == {} && settings == map[] && createLog == [] && destroyLog == []
    {
      this.defaults := defaults;
      this.version := version;
      live, nextHandle, settings := {}, 1, map[];
      createLog, destroyLog, lastPacket, lastLength := [], [], [], 0;
    }

    /** `opus_encoder_create`: a fresh nonzero handle, or 0 when nothing could be allocated. */
    method Create(rateHz: int32, channels: int32, application: int32) returns (h: int)
      requires Valid()
      modifies this`live, this`nextHandle, this`settings, this`createLog
      ensures Valid()
      ensures createLog == old(createLog) + [(rateHz, channels, application)] && destroyLog == old(destroyLog)
      ensures h == 0 ==> live == old(live) && settings == old(settings)
      ensures h != 0 ==> h !in old(live) && live == old(live) + {h} && settings == old(settings)[h := defaults]
    {
      var success: bool :| true;
      createLog := createLog + [(rateHz, channels, application)];
      if success {
        h := nextHandle;
        nextHandle := nextHandle + 1;
        live := live + {h};
        settings := settings[h := defaults];
      } else {
        h := 0;
      }
    }

    /** `opus_encoder_destroy`: every call is logged; the instance, if live, is gone afterwards. */
    method Destroy(h: int)
      requires Valid()
      modifies this`live, this`settings, this`destroyLog
      ensures Valid()
      ensures createLog == old(createLog) && destroyLog == old(destroyLog) + [h]
      ensures live == old(live) - {h} && settings == old(settings) - {h}
    {
      destroyLog := destroyLog + [h];
      live := live - {h};
      settings := settings - {h};
    }

    /** `get_opus_encoder_ctl`: the instance's current value of `p`. */
    method GetCtl(h: int, p: CtlParam) returns (r: Result<int32>)
      requires Valid()
      ensures h in live ==> r == Ok(settings[h][p])
      ensures h !in live ==> r == Err(InvalidHandle)
    {
      if h in live {
        r := Ok(settings[h][p]);
      } else {
        r := Err(InvalidHandle);
      }
    }

    /** `set_opus_encoder_ctl`: stores `v` for `p` of instance `h` and changes nothing else. */
    method SetCtl(h: int, p: CtlParam, v: int32) returns (r: Outcome)
      requires Valid()
      modifies this`settings
      ensures Valid()
      ensures h in old(live) ==> r == Pass && settings == old(settings)[h := old(settings)[h][p := v]]
      ensures h !in old(live) ==> r == Fail(InvalidHandle) && settings == old(settings)
    {
      if h in live {
        settings := settings[h := settings[h][p := v]];
        r := Pass;
      } else {
        r := Fail(InvalidHandle);
      }
    }

    /**
     * `opus_encode`: encodes one frame of `frameSize` samples per channel into `out` and
     * reports the packet length, at most `out.Length`; a length of 0 or 1 means nothing needs
     * to be sent (discontinuous transmission). Works alike for integer and float samples.
     */
    method Encode<S>(h: int, pcm: seq<S>, frameSize: int32, out: array<byte>) returns (r: Result<int>)
      requires Valid()
      modifies this`lastPacket, this`lastLength, out
      ensures h in live ==> r.Ok? && 0 <= r.value <= out.Length && lastLength == r.value
      ensures h !in live ==> r == Err(InvalidHandle) && out[..] == old(out[..])
      ensures lastPacket == out[..]
    {
      if h in live {
        var n :| 0 <= n <= out.Length;
        r := Ok(n);
        lastLength := n;
      } else {
        r := Err(InvalidHandle);
      }
      lastPacket := out[..];
    }
  }
}
