/**
 * The encoder session: one native encoder instance, the configuration checked when it is
 * opened, the frame size derived from the sampling rate and the encoder delay, the typed
 * control parameters forwarded to the instance, the encode call's packet hand-out, and a
 * release that reaches the native library at most once.
 */
module POpusCodec {
  import opened OpusTypes
  import opened OpusEnums
  import opened OpusNative

  /** The bitrate value that asks the encoder for the highest rate it can use. */
  const BITRATE_MAX: int32 := -1

  /** Capacity of the reused packet buffer. */
  const RECOMMENDED_MAX_PACKET_SIZE: nat := 4000

  // ---------------------------------------------------------------------------------------
  // Constructor checks

  /** The first argument, in the order the constructor checks them, outside its closed set. */
  function CheckArguments(rateHz: int32, channels: int32, application: int32, delay: int32): (r: Option<Argument>)
    ensures r == None <==>
      IsSupportedSamplingRate(rateHz) && IsSupportedChannels(channels) &&
      IsSupportedApplication(application) && IsSupportedDelay(delay)
    ensures r == Some(SamplingRateArgument) <==> !IsSupportedSamplingRate(rateHz)
    ensures r == Some(ChannelsArgument) <==> IsSupportedSamplingRate(rateHz) && !IsSupportedChannels(channels)
    ensures r == Some(ApplicationArgument) <==>
      IsSupportedSamplingRate(rateHz) && IsSupportedChannels(channels) && !IsSupportedApplication(application)
    ensures r == Some(DelayArgument) <==>
      IsSupportedSamplingRate(rateHz) && IsSupportedChannels(channels) &&
      IsSupportedApplication(application) && !IsSupportedDelay(delay)
  {
    if !IsSupportedSamplingRate(rateHz) then Some(SamplingRateArgument)
    else if !IsSupportedChannels(channels) then Some(ChannelsArgument)
    else if !IsSupportedApplication(application) then Some(ApplicationArgument)
    else if !IsSupportedDelay(delay) then Some(DelayArgument)
    else None
  }

  // ---------------------------------------------------------------------------------------
  // Frame size

  /** Integer division rounding toward zero, as C#'s integer `/` and its decimal-to-int cast do. */
  function DivTowardZero(a: int, b: int): (q: int)
    requires b > 0
  {
    if a >= 0 then a / b else -((-a) / b)
  }

  /**
   * The samples per channel in one frame: the rate in kHz (integer division) times the delay
   * code, halved in decimal arithmetic and cast back to an integer.
   */
  function FrameSize(rateHz: int32, delay: int32): (n: int)
    ensures var product := DivTowardZero(rateHz as int, 1000) * delay as int;
      (0 <= product ==> 0 <= n && 2 * n <= product <= 2 * n + 1) &&
      (product < 0 ==> n <= 0 && 2 * n - 1 <= product <= 2 * n)
  {
    DivTowardZero(DivTowardZero(rateHz as int, 1000) * delay as int, 2)
  }

  /** For a supported rate the halving drops nothing: the frame is `rateHz * delay / 2000` samples. */
  lemma FrameSizeExact(rateHz: int32, delay: int32)
    requires IsSupportedSamplingRate(rateHz)
    ensures 2 * FrameSize(rateHz, delay) == (rateHz as int / 1000) * delay as int
    ensures 2000 * FrameSize(rateHz, delay) == rateHz as int * delay as int
  {
    var d := delay as int;
    if rateHz == 8000 {
      assert FrameSize(rateHz, delay) == DivTowardZero(8 * d, 2) == 4 * d;
    } else if rateHz == 12000 {
      assert FrameSize(rateHz, delay) == DivTowardZero(12 * d, 2) == 6 * d;
    } else if rateHz == 16000 {
      assert FrameSize(rateHz, delay) == DivTowardZero(16 * d, 2) == 8 * d;
    } else if rateHz == 24000 {
      assert FrameSize(rateHz, delay) == DivTowardZero(24 * d, 2) == 12 * d;
    } else {
      assert FrameSize(rateHz, delay) == DivTowardZero(48 * d, 2) == 24 * d;
    }
  }

  /** Every supported rate and delay give a positive frame size that fits in an `int`. */
  lemma SupportedFrameSizeFits(rateHz: int32, delay: int32)
    requires IsSupportedSamplingRate(rateHz) && IsSupportedDelay(delay)
    ensures 20 <= FrameSize(rateHz, delay) <= 2880
    ensures InInt32(FrameSize(rateHz, delay))
  {
    FrameSizeExact(rateHz, delay);
  }

  /** A frame holds exactly the samples of its duration (section 2.1.4 of RFC 6716) at its rate. */
  lemma NamedFrameSizes(rate: SamplingRate, delay: Delay)
    ensures 10000 * FrameSize(rate.Code(), delay.Code()) == rate.Code() as int * delay.TenthsOfMs()
  {
    FrameSizeExact(rate.Code(), delay.Code());
    match delay
    case Delay2dot5ms =>
    case Delay5ms =>
    case Delay10ms =>
    case Delay20ms =>
    case Delay40ms =>
    case Delay60ms =>
  }

  /** The default configuration: 20 ms at 48 kHz is 960 samples per channel. */
  lemma DefaultFrameSize()
    ensures FrameSize(Sampling48000.Code(), Delay20ms.Code()) == 960
  {
  }

  // ---------------------------------------------------------------------------------------
  // Translations between typed parameter values and the engine's integers

  /** A boolean parameter as the engine stores it. */
  function FlagOf(b: bool): (v: int32)
    ensures v == 0 || v == 1
    ensures BoolOfFlag(v) == b
  {
    if b then 1 else 0
  }

  /** A boolean parameter as read back: true only for the value 1. */
  function BoolOfFlag(v: int32): (b: bool)
    ensures b ==> v == 1
    ensures (v == 0 || v == 1) ==> (b <==> v != 0)
  {
    v == 1
  }

  /** "Unconstrained VBR" is the negation of the engine's VBR-constraint flag. */
  function ConstraintFlagOf(unconstrained: bool): (v: int32)
    ensures v == FlagOf(!unconstrained)
    ensures UnconstrainedOfFlag(v) == unconstrained
  {
    if unconstrained then 0 else 1
  }

  /** Unconstrained VBR as read back: true only for the value 0. */
  function UnconstrainedOfFlag(v: int32): (u: bool)
    ensures u ==> v == 0
    ensures (v == 0 || v == 1) ==> u == !BoolOfFlag(v)
  {
    v == 0
  }

  /** On the two values the setters write, reading back inverts writing, with opposite polarities. */
  lemma CanonicalFlags(v: int32)
    requires v == 0 || v == 1
    ensures FlagOf(BoolOfFlag(v)) == v
    ensures ConstraintFlagOf(UnconstrainedOfFlag(v)) == v
    ensures UnconstrainedOfFlag(v) == !BoolOfFlag(v)
  {
  }

  // ---------------------------------------------------------------------------------------
  // Release

  /** The part of a session that release looks at and changes. */
  datatype Lifecycle = Lifecycle(handle: int, disposed: bool)

  /** A state after release, with the handles passed to the engine's destroy on the way. */
  datatype Released = Released(after: Lifecycle, destroyed: seq<int>) {
    /** The handles destroyed, as a set. */
    function Gone(): set<int> {
      set h | h in destroyed
    }
  }

  /** One call of `Dispose(bool)`, from `Dispose()` (true) or from the finalizer (false). */
  function Release(s: Lifecycle, disposing: bool): (r: Released)
    ensures r.after.disposed && |r.destroyed| <= 1
    ensures r.destroyed != [] <==> !s.disposed && s.handle != 0
    ensures r.destroyed != [] ==> r.destroyed == [s.handle] && r.after.handle == 0
    ensures r.destroyed == [] ==> r.after.handle == s.handle
  {
    if s.disposed then Released(s, [])
    else if s.handle != 0 then Released(Lifecycle(0, true), [s.handle])
    else Released(Lifecycle(s.handle, true), [])
  }

  /** A sequence of release calls, in order. */
  function ReleaseAll(s: Lifecycle, calls: seq<bool>): (r: Released)
    ensures calls != [] ==> r.after.disposed
    ensures forall h :: h in r.destroyed ==> h == s.handle && h != 0
    decreases |calls|
  {
    if calls == [] then Released(s, [])
    else
      var first := Release(s, calls[0]);
      var rest := ReleaseAll(first.after, calls[1..]);
      Released(rest.after, first.destroyed + rest.destroyed)
  }

  /** Once released, further calls change nothing and destroy nothing. */
  lemma {:induction false} ReleaseAllDisposed(s: Lifecycle, calls: seq<bool>)
    requires s.disposed
    ensures ReleaseAll(s, calls) == Released(s, [])
    decreases |calls|
  {
    if calls != [] {
      ReleaseAllDisposed(s, calls[1..]);
    }
  }

  /**
   * Any mix of explicit and finalizer releases destroys the handle at most once, and only when
   * it was nonzero and not yet released; afterwards the handle is 0 and the session released.
   */
  lemma {:induction false} ReleaseAtMostOnce(s: Lifecycle, calls: seq<bool>)
    ensures ReleaseAll(s, calls).destroyed ==
      if calls != [] && !s.disposed && s.handle != 0 then [s.handle] else []
    ensures s.disposed || calls == [] ==> ReleaseAll(s, calls).after == s
    ensures !s.disposed && calls != [] ==> ReleaseAll(s, calls).after == Lifecycle(0, true)
  {
    if calls != [] {
      var first := Release(s, calls[0]);
      ReleaseAllDisposed(first.after, calls[1..]);
    }
  }

  /** An object whose construction failed holds the zero handle: releasing it destroys nothing. */
  lemma FailedConstructionOwesNothing(calls: seq<bool>)
    ensures ReleaseAll(Lifecycle(0, false), calls).destroyed == []
  {
    ReleaseAtMostOnce(Lifecycle(0, false), calls);
  }

  // ---------------------------------------------------------------------------------------
  // Packet copy-out

  /** `Buffer.BlockCopy` of the first `dst.Length` bytes of `src` into `dst`. */
  method BlockCopy(src: array<byte>, dst: array<byte>)
    requires src != dst && dst.Length <= src.Length
    modifies dst
    ensures dst[..] == src[..dst.Length]
  {
    var i := 0;
    while i < dst.Length
      invariant 0 <= i <= dst.Length
      invariant dst[..i] == src[..i]
    {
      dst[i] := src[i];
      i := i + 1;
    }
  }

  // ---------------------------------------------------------------------------------------
  // The session

  class OpusEncoder {
    const engine: Engine
    /** The reused target of every encode call. */
    const writePacket: array<byte>
    const version: string
    const inputSamplingRate: int32
    const inputChannels: int32
    var handle: int
    var encoderDelay: int32
    var frameSizePerChannel: int32
    var disposed: bool

    ghost predicate Valid()
      reads this
    {
      writePacket.Length == RECOMMENDED_MAX_PACKET_SIZE &&
      IsSupportedSamplingRate(inputSamplingRate) && IsSupportedChannels(inputChannels) &&
      (disposed ==> handle == 0)
    }

    /** The frame size agrees with the current rate and delay. */
    ghost predicate FrameSizeCurrent()
      reads this
    {
      frameSizePerChannel as int == FrameSize(inputSamplingRate, encoderDelay)
    }

    ghost function State(): Lifecycle
      reads this
    {
      Lifecycle(handle, disposed)
    }

    /** What the engine reports for `p` of this session's instance. */
    ghost function Reported(p: CtlParam): Result<int32>
      reads this, engine
      requires engine.Valid()
    {
      if handle in engine.live then
        assert forall k :: k in engine.settings ==> Total(engine.settings[k]);
        Ok(engine.settings[handle][p])
      else
        Err(InvalidHandle)
    }

    /** The engine's settings are `before` with `v` stored for `p` of this instance, or `r` says why not. */
    ghost predicate Stored(before: map<int, Settings>, p: CtlParam, v: int32, r: Outcome)
      reads this, engine
    {
      if handle in before then
        r == Pass && engine.settings == before[handle := before[handle][p := v]]
      else
        r == Fail(InvalidHandle) && engine.settings == before
    }

    /** The rest of construction once the arguments are checked and the instance exists. */
    constructor Acquired(engine: Engine, rateHz: int32, channels: int32, handle: int, version: string, delay: int32)
      requires IsSupportedSamplingRate(rateHz) && IsSupportedChannels(channels) && IsSupportedDelay(delay)
      ensures Valid() && FrameSizeCurrent() && fresh(writePacket)
      ensures this.engine == engine && this.handle == handle && this.version == version
      ensures inputSamplingRate == rateHz && inputChannels == channels && encoderDelay == delay
      ensures !disposed
    {
      this.engine := engine;
      this.writePacket := new byte[RECOMMENDED_MAX_PACKET_SIZE];
      this.version := version;
      this.inputSamplingRate := rateHz;
      this.inputChannels := channels;
      this.handle := handle;
      this.disposed := false;
      new;
      var r := SetEncoderDelay(delay);
    }

    /**
     * The four-argument constructor: checks every argument before touching the engine, then
     * creates the instance; a zero handle is an allocation failure and leaves nothing to release.
     */
    static method Open(engine: Engine, rateHz: int32, channels: int32, application: int32, delay: int32)
      returns (r: Result<OpusEncoder>)
      requires engine.Valid()
      modifies engine`live, engine`nextHandle, engine`settings, engine`createLog
      ensures engine.Valid()
      ensures CheckArguments(rateHz, channels, application, delay).Some? ==>
        r == Err(OutOfRange(CheckArguments(rateHz, channels, application, delay).value)) && unchanged(engine)
      ensures CheckArguments(rateHz, channels, application, delay).None? ==>
        engine.createLog == old(engine.createLog) + [(rateHz, channels, application)] &&
        (r.Ok? || r.error == AllocFail)
      ensures r.Err? && r.error == AllocFail ==>
        engine.live == old(engine.live) && engine.settings == old(engine.settings)
      ensures r.Ok? ==>
        fresh(r.value) && fresh(r.value.writePacket) && r.value.Valid() && r.value.FrameSizeCurrent() &&
        r.value.engine == engine && r.value.version == engine.version &&
        r.value.inputSamplingRate == rateHz && r.value.inputChannels == channels &&
        r.value.encoderDelay == delay && !r.value.disposed && r.value.handle != 0 &&
        r.value.handle !in old(engine.live) && engine.live == old(engine.live) + {r.value.handle} &&
        engine.settings == old(engine.settings)[r.value.handle := engine.defaults]
    {
      var bad := CheckArguments(rateHz, channels, application, delay);
      if bad.Some? {
        return Err(OutOfRange(bad.value));
      }
      var h := engine.Create(rateHz, channels, application);
      var version := engine.version;
      if h == 0 {
        return Err(AllocFail);
      }
      var e := new OpusEncoder.Acquired(engine, rateHz, channels, h, version, delay);
      r := Ok(e);
    }

    /** The two-argument constructor: general audio, 20 ms. */
    static method OpenDefault(engine: Engine, rateHz: int32, channels: int32) returns (r: Result<OpusEncoder>)
      requires engine.Valid()
      modifies engine`live, engine`nextHandle, engine`settings, engine`createLog
      ensures engine.Valid()
      ensures CheckArguments(rateHz, channels, Audio.Code(), Delay20ms.Code()).Some? ==>
        r == Err(OutOfRange(CheckArguments(rateHz, channels, Audio.Code(), Delay20ms.Code()).value)) && unchanged(engine)
      ensures CheckArguments(rateHz, channels, Audio.Code(), Delay20ms.Code()).None? ==>
        engine.createLog == old(engine.createLog) + [(rateHz, channels, Audio.Code())] &&
        (r.Ok? || r.error == AllocFail)
      ensures r.Err? && r.error == AllocFail ==>
        engine.live == old(engine.live) && engine.settings == old(engine.settings)
      ensures r.Ok? ==>
        fresh(r.value) && fresh(r.value.writePacket) && r.value.Valid() && r.value.FrameSizeCurrent() &&
        r.value.engine == engine && r.value.version == engine.version &&
        r.value.inputSamplingRate == rateHz && r.value.inputChannels == channels &&
        r.value.encoderDelay == Delay20ms.Code() && !r.value.disposed && r.value.handle != 0 &&
        r.value.handle !in old(engine.live) && engine.live == old(engine.live) + {r.value.handle} &&
        engine.settings == old(engine.settings)[r.value.handle := engine.defaults]
    {
      r := Open(engine, rateHz, channels, Audio.Code(), Delay20ms.Code());
    }

    /** The three-argument constructor: 20 ms. */
    static method OpenWithApplication(engine: Engine, rateHz: int32, channels: int32, application: int32)
      returns (r: Result<OpusEncoder>)
      requires engine.Valid()
      modifies engine`live, engine`nextHandle, engine`settings, engine`createLog
      ensures engine.Valid()
      ensures CheckArguments(rateHz, channels, application, Delay20ms.Code()).Some? ==>
        r == Err(OutOfRange(CheckArguments(rateHz, channels, application, Delay20ms.Code()).value)) && unchanged(engine)
      ensures CheckArguments(rateHz, channels, application, Delay20ms.Code()).None? ==>
        engine.createLog == old(engine.createLog) + [(rateHz, channels, application)] &&
        (r.Ok? || r.error == AllocFail)
      ensures r.Err? && r.error == AllocFail ==>
        engine.live == old(engine.live) && engine.settings == old(engine.settings)
      ensures r.Ok? ==>
        fresh(r.value) && fresh(r.value.writePacket) && r.value.Valid() && r.value.FrameSizeCurrent() &&
        r.value.engine == engine && r.value.version == engine.version &&
        r.value.inputSamplingRate == rateHz && r.value.inputChannels == channels &&
        r.value.encoderDelay == Delay20ms.Code() && !r.value.disposed && r.value.handle != 0 &&
        r.value.handle !in old(engine.live) && engine.live == old(engine.live) + {r.value.handle} &&
        engine.settings == old(engine.settings)[r.value.handle := engine.defaults]
    {
      r := Open(engine, rateHz, channels, application, Delay20ms.Code());
    }

    /**
     * The `EncoderDelay` setter. No check of its own: the delay is stored, then the frame size
     * recomputed; a frame size beyond `int` makes the cast throw after the delay was stored.
     */
    method SetEncoderDelay(delay: int32) returns (r: Outcome)
      requires Valid()
      modifies this`encoderDelay, this`frameSizePerChannel
      ensures Valid() && encoderDelay == delay
      ensures r.Pass? <==> InInt32(FrameSize(inputSamplingRate, delay))
      ensures r.Pass? ==> FrameSizeCurrent()
      ensures r.Fail? ==> r.error == Overflow && frameSizePerChannel == old(frameSizePerChannel)
      ensures IsSupportedDelay(delay) ==> r.Pass?
    {
      encoderDelay := delay;
      var n := FrameSize(inputSamplingRate, delay);
      if IsSupportedDelay(delay) {
        SupportedFrameSizeFits(inputSamplingRate, delay);
      }
      if !InInt32(n) {
        return Fail(Overflow);
      }
      frameSizePerChannel := n as int32;
      r := Pass;
    }

    // Integer parameters pass through unchanged.

    method GetBitrate() returns (r: Result<int32>)
      requires engine.Valid()
      ensures r == Reported(Bitrate)
    {
      r := engine.GetCtl(handle, Bitrate);
    }

    method SetBitrate(value: int32) returns (r: Outcome)
      requires engine.Valid()
      modifies engine`settings
      ensures engine.Valid() && Stored(old(engine.settings), Bitrate, value, r)
    {
      r := engine.SetCtl(handle, Bitrate, value);
    }

    method GetExpectedPacketLossPercentage() returns (r: Result<int32>)
      requires engine.Valid()
      ensures r == Reported(PacketLossPercentage)
    {
      r := engine.GetCtl(handle, PacketLossPercentage);
    }

    method SetExpectedPacketLossPercentage(value: int32) returns (r: Outcome)
      requires engine.Valid()
      modifies engine`settings
      ensures engine.Valid() && Stored(old(engine.settings), PacketLossPercentage, value, r)
    {
      r := engine.SetCtl(handle, PacketLossPercentage, value);
    }

    // Enumerated parameters are cast to and from their integer codes, which keeps the code.

    method GetMaxBandwidth() returns (r: Result<int32>)
      requires engine.Valid()
      ensures r == Reported(MaxBandwidth)
    {
      r := engine.GetCtl(handle, MaxBandwidth);
    }

    method SetMaxBandwidth(code: int32) returns (r: Outcome)
      requires engine.Valid()
      modifies engine`settings
      ensures engine.Valid() && Stored(old(engine.settings), MaxBandwidth, code, r)
    {
      r := engine.SetCtl(handle, MaxBandwidth, code);
    }

    method GetComplexity() returns (r: Result<int32>)
      requires engine.Valid()
      ensures r == Reported(Complexity)
    {
      r := engine.GetCtl(handle, Complexity);
    }

    method SetComplexity(code: int32) returns (r: Outcome)
      requires engine.Valid()
      modifies engine`settings
      ensures engine.Valid() && Stored(old(engine.settings), Complexity, code, r)
    {
      r := engine.SetCtl(handle, Complexity, code);
    }

    method GetSignalHint() returns (r: Result<int32>)
      requires engine.Valid()
      ensures r == Reported(Signal)
    {
      r := engine.GetCtl(handle, Signal);
    }

    method SetSignalHint(code: int32) returns (r: Outcome)
      requires engine.Valid()
      modifies engine`settings
      ensures engine.Valid() && Stored(old(engine.settings), Signal, code, r)
    {
      r := engine.SetCtl(handle, Signal, code);
    }

    method GetForceChannels() returns (r: Result<int32>)
      requires engine.Valid()
      ensures r == Reported(ForceChannels)
    {
      r := engine.GetCtl(handle, ForceChannels);
    }

    method SetForceChannels(code: int32) returns (r: Outcome)
      requires engine.Valid()
      modifies engine`settings
      ensures engine.Valid() && Stored(old(engine.settings), ForceChannels, code, r)
    {
      r := engine.SetCtl(handle, ForceChannels, code);
    }

    // Boolean parameters are written as 1/0; unconstrained VBR with the opposite polarity.

    method GetUseInbandFec() returns (r: Result<bool>)
      requires engine.Valid()
      ensures r == Reported(InbandFec).Map(BoolOfFlag)
    {
      var v := engine.GetCtl(handle, InbandFec);
      r := v.Map(BoolOfFlag);
    }

    method SetUseInbandFec(value: bool) returns (r: Outcome)
      requires engine.Valid()
      modifies engine`settings
      ensures engine.Valid() && Stored(old(engine.settings), InbandFec, FlagOf(value), r)
    {
      r := engine.SetCtl(handle, InbandFec, FlagOf(value));
    }

    method GetUseUnconstrainedVbr() returns (r: Result<bool>)
      requires engine.Valid()
      ensures r == Reported(VbrConstraint).Map(UnconstrainedOfFlag)
    {
      var v := engine.GetCtl(handle, VbrConstraint);
      r := v.Map(UnconstrainedOfFlag);
    }

    method SetUseUnconstrainedVbr(value: bool) returns (r: Outcome)
      requires engine.Valid()
      modifies engine`settings
      ensures engine.Valid() && Stored(old(engine.settings), VbrConstraint, ConstraintFlagOf(value), r)
    {
      r := engine.SetCtl(handle, VbrConstraint, ConstraintFlagOf(value));
    }

    method GetDtxEnabled() returns (r: Result<bool>)
      requires engine.Valid()
      ensures r == Reported(Dtx).Map(BoolOfFlag)
    {
      var v := engine.GetCtl(handle, Dtx);
      r := v.Map(BoolOfFlag);
    }

    method SetDtxEnabled(value: bool) returns (r: Outcome)
      requires engine.Valid()
      modifies engine`settings
      ensures engine.Valid() && Stored(old(engine.settings), Dtx, FlagOf(value), r)
    {
      r := engine.SetCtl(handle, Dtx, FlagOf(value));
    }

    /**
     * Both `Encode` overloads: the engine fills the reused buffer and reports a length; a
     * length of at most 1 gives an empty packet, any other a fresh copy of that many bytes.
     */
    method Encode<S>(pcm: seq<S>) returns (r: Result<array<byte>>)
      requires Valid() && engine.Valid()
      modifies writePacket, engine`lastPacket, engine`lastLength
      ensures r.Err? <==> handle !in engine.live
      ensures r.Err? ==> r.error == InvalidHandle && writePacket[..] == old(writePacket[..])
      ensures writePacket[..] == engine.lastPacket
      ensures r.Ok? ==> fresh(r.value) && 0 <= engine.lastLength <= RECOMMENDED_MAX_PACKET_SIZE
      ensures r.Ok? && engine.lastLength <= 1 ==> r.value.Length == 0
      ensures r.Ok? && engine.lastLength > 1 ==>
        r.value.Length == engine.lastLength && r.value[..] == writePacket[..engine.lastLength]
    {
      var result := engine.Encode(handle, pcm, frameSizePerChannel, writePacket);
      if result.Err? {
        return Err(result.error);
      }
      var size := result.value;
      if size <= 1 {
        var empty := new byte[0];
        return Ok(empty);
      }
      var encoded := new byte[size];
      BlockCopy(writePacket, encoded);
      r := Ok(encoded);
    }

    /** `Dispose(bool)`: destroys a nonzero handle unless already released; the flag is not consulted. */
    method DisposeCore(disposing: bool)
      requires Valid() && engine.Valid()
      modifies this`handle, this`disposed, engine`live, engine`settings, engine`destroyLog
      ensures Valid() && engine.Valid()
      ensures State() == Release(old(State()), disposing).after
      ensures engine.destroyLog == old(engine.destroyLog) + Release(old(State()), disposing).destroyed
      ensures engine.live == old(engine.live) - Release(old(State()), disposing).Gone()
      ensures engine.settings == old(engine.settings) - Release(old(State()), disposing).Gone()
    {
      if disposed {
        return;
      }
      if handle != 0 {
        engine.Destroy(handle);
        handle := 0;
      }
      disposed := true;
    }

    /** `Dispose()`: the explicit release. */
    method Dispose()
      requires Valid() && engine.Valid()
      modifies this`handle, this`disposed, engine`live, engine`settings, engine`destroyLog
      ensures Valid() && engine.Valid()
      ensures State() == Release(old(State()), true).after
      ensures engine.destroyLog == old(engine.destroyLog) + Release(old(State()), true).destroyed
      ensures engine.live == old(engine.live) - Release(old(State()), true).Gone()
      ensures engine.settings == old(engine.settings) - Release(old(State()), true).Gone()
    {
      DisposeCore(true);
    }

    /** The finalizer: the safety-net release. */
    method Finalize()
      requires Valid() && engine.Valid()
      modifies this`handle, this`disposed, engine`live, engine`settings, engine`destroyLog
      ensures Valid() && engine.Valid()
      ensures State() == Release(old(State()), false).after
      ensures engine.destroyLog == old(engine.destroyLog) + Release(old(State()), false).destroyed
      ensures engine.live == old(engine.live) - Release(old(State()), false).Gone()
      ensures engine.settings == old(engine.settings) - Release(old(State()), false).Gone()
    {
      DisposeCore(false);
    }
  }
  // ---------------------------------------------------------------------------------------
  // A client of the session, showing what callers can rely on from the contracts alone

  method SessionScenario(engine: Engine)
    requires engine.Valid()
    modifies engine
  {
    var session := OpusEncoder.Open(engine, Sampling48000.Code(), Stereo.Code(), Audio.Code(), Delay20ms.Code());
    if session.Err? {
      assert session.error == AllocFail;
      return;
    }
    var e := session.value;
    DefaultFrameSize();
    assert e.frameSizePerChannel == 960;

    var written := e.SetUseUnconstrainedVbr(true);
    assert written == Pass && engine.settings[e.handle][VbrConstraint] == 0;
    var vbr := e.GetUseUnconstrainedVbr();
    assert vbr == Ok(true);

    written := e.SetBitrate(BITRATE_MAX);
    var bitrate := e.GetBitrate();
    assert bitrate == Ok(BITRATE_MAX);
    vbr := e.GetUseUnconstrainedVbr();
    assert vbr == Ok(true);

    var before := engine.destroyLog;
    var h := e.handle;
    e.Dispose();
    e.Dispose();
    e.Finalize();
    assert engine.destroyLog == before + [h];

    bitrate := e.GetBitrate();
    assert bitrate == Err(InvalidHandle);
  }

  /** A rate outside the named set is refused before the engine is asked for anything. */
  method RejectedRateScenario(engine: Engine)
    requires engine.Valid()
    modifies engine
  {
    var log := engine.createLog;
    var bad := OpusEncoder.OpenDefault(engine, 44100, Mono.Code());
    assert bad == Err(OutOfRange(SamplingRateArgument)) && engine.createLog == log;
  }

  /** Two sessions on one engine: each one's settings and release leave the other's alone. */
  method TwoSessionScenario(engine: Engine)
    requires engine.Valid()
    modifies engine
  {
    var first := OpusEncoder.OpenDefault(engine, Sampling48000.Code(), Stereo.Code());
    if first.Err? {
      return;
    }
    var logged := engine.createLog;
    var second := OpusEncoder.OpenWithApplication(engine, Sampling16000.Code(), Mono.Code(), Voip.Code());
    if second.Err? {
      assert second.error == AllocFail && engine.createLog == logged + [(16000, 1, 2048)];
      return;
    }
    var a, b := first.value, second.value;
    assert a.handle != b.handle && a.handle in engine.live && b.handle in engine.live;
    assert engine.createLog == logged + [(16000, 1, 2048)];

    var written := a.SetBitrate(64000);
    var bitrate := b.GetBitrate();
    assert bitrate == Ok(engine.defaults[Bitrate]);

    a.Dispose();
    assert b.handle in engine.live;
    bitrate := b.GetBitrate();
    assert bitrate == Ok(engine.defaults[Bitrate]);

    var live, settings, log := engine.live, engine.settings, engine.destroyLog;
    a.Dispose();
    assert engine.live == live && engine.settings == settings && engine.destroyLog == log;
  }
}
