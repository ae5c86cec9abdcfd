# OpusEncoder session model

A Dafny model of the `OpusEncoder` class of POpusCodec: a C# session object around one native
Opus encoder instance (RFC 6716). The model covers what the class itself decides:

- the constructor checks each argument (sampling rate, channel count, application type and encoder
  delay) against its closed set, in that order, before the native library is touched, and turns a
  zero handle from the native library into an allocation failure;
- the `EncoderDelay` setter stores the delay and recomputes the frame size per channel as
  `(int)((rate / 1000) * (decimal)delay / 2)`;
- every control parameter is forwarded to the native get/set protocol: integers unchanged, enum
  values as their integer codes, booleans as 1/0, and "unconstrained VBR" with the opposite polarity
  to the engine's VBR-constraint flag;
- `Encode` (for 16-bit and for float samples) hands out an empty packet when the engine reports a
  length of at most 1 (discontinuous transmission), and otherwise a fresh copy of that many bytes of
  the reused 4000-byte buffer;
- `Dispose()` and the finalizer both go through `Dispose(bool)`, which destroys the native
  instance at most once.

Files:

- `types.dfy` (module `OpusTypes`): C#'s `int` and `byte`, the errors, `Option`, `Result`, `Outcome`.
- `enums.dfy` (module `OpusEnums`): the named sampling rates, channel counts, application types and
  delays with their integer codes, and the constructor's membership tests.
- `native.dfy` (module `OpusNative`): class `Engine`, the native library seen through its interop
  layer. It keeps the live handles and each instance's control-parameter values. In ghost state
  it logs create calls (with their arguments) and destroy calls, and records the last packet length
  it reported. Whether an allocation succeeds and how long a packet is are chosen
  nondeterministically.
- `encoder.dfy` (module `POpusCodec`): the frame-size formula, the value translations, the pure
  release model (`Release`, `ReleaseAll`) and class `OpusEncoder`.

Modelling choices:

- A C# enum value is its integer code and can hold codes no member has, which is why the
  constructor checks them. The session therefore takes codes (`int32`). The enum definitions are
  not part of this model; the codes assumed are:
  - sampling rate: the rate in Hz;
  - channels: Mono 1, Stereo 2;
  - application: Voip 2048, Audio 2049, RestrictedLowDelay 2051 (the native library's constants);
  - delay: in half milliseconds, from 2.5 ms = 5 to 60 ms = 120.
  The delay units follow from the field defaults: 20 ms at 48 kHz gives 960 samples (`DefaultFrameSize`).
- A C# constructor that throws becomes the static method `Open`, which returns a `Result`. The
  two- and three-argument constructors are `OpenDefault` and `OpenWithApplication`.
- The C# code never checks `disposed` before a getter, setter or `Encode`. After release the session
  simply passes the zero handle to the engine. The model's engine answers any handle it does not own
  with `InvalidHandle`; the session has no guard of its own.
- The `EncoderDelay` setter has no check. A delay code whose frame size does not fit in an `int`
  makes the decimal-to-int cast throw after the delay has been stored. `SetEncoderDelay` models
  this: it returns `Fail(Overflow)` and leaves the frame size stale. For every named delay it
  succeeds.
- The integer division `rate / 1000` and the decimal-to-int cast both truncate toward zero; the
  model writes this out (`DivTowardZero`) rather than using Dafny's Euclidean division.

In four places the code departs from what a layer like this is usually expected to do; the model follows the code:

- The code has no use-after-release error.
- The code throws `ArgumentOutOfRangeException`, naming the argument.
- Booleans read back as true only for the value 1, not for any nonzero value.
- The application type is passed to the native library but not stored in the session.

## Model

| member | source | states |
|---|---|---|
| `OpusEnums.SupportedSamplingRateIsNamed` | OpusEncoder.cs:188-192 | the sampling-rate check accepts a code exactly when some named rate (8, 12, 16, 24, 48 kHz) has it |
| `OpusEnums.SupportedChannelsIsNamed` | OpusEncoder.cs:196-197 | the channel check accepts exactly the codes of Mono and Stereo |
| `OpusEnums.SupportedApplicationIsNamed` | OpusEncoder.cs:201-203 | the application check accepts exactly the codes of Audio, Voip and RestrictedLowDelay |
| `OpusEnums.SupportedDelayIsNamed` | OpusEncoder.cs:207-212 | the delay check accepts exactly the codes of the six frame durations 2.5 to 60 ms |
| `POpusCodec.CheckArguments` | OpusEncoder.cs:188-215 | no error exactly when all four arguments are in their sets; otherwise the error names the first argument, in check order, that is outside its set |
| `POpusCodec.FrameSize` | OpusEncoder.cs:54 | the frame size is the product of the truncated kHz rate and the delay code, halved and rounded toward zero as the decimal-to-int cast does |
| `POpusCodec.FrameSizeExact` | OpusEncoder.cs:51-55 | for a supported rate the halving truncates nothing: twice the frame size is `(rate/1000) * delay`, and 2000 times it is `rate * delay` |
| `POpusCodec.SupportedFrameSizeFits` | OpusEncoder.cs:54 | for a supported rate and delay the frame size lies in 20..2880 and fits in an `int` |
| `POpusCodec.NamedFrameSizes` | OpusEncoder.cs:54 | the frame size is exactly the number of samples of the frame's duration at its rate |
| `POpusCodec.DefaultFrameSize` | OpusEncoder.cs:13-14 | 20 ms at 48 kHz gives 960 samples per channel, the field defaults |
| `POpusCodec.FlagOf` | OpusEncoder.cs:150 | a boolean is written as 0 or 1, and reading the written value back gives the boolean again |
| `POpusCodec.BoolOfFlag` | OpusEncoder.cs:144-147 | a read-back boolean is true only for the value 1; on the two values written it agrees with a nonzero test |
| `POpusCodec.UnconstrainedOfFlag` | OpusEncoder.cs:156-159 | unconstrained VBR reads back as true only for the value 0; on the two values written it is the opposite of the other boolean reads |
| `POpusCodec.ConstraintFlagOf` | OpusEncoder.cs:154-164 | unconstrained VBR is written as the negated flag (true as 0), and reading back through the `== 0` test gives the boolean again |
| `POpusCodec.CanonicalFlags` | OpusEncoder.cs:142-176 | on 0 and 1, reading then writing gives the value back for both polarities, and the two reads are opposite |
| `POpusCodec.Release` | OpusEncoder.cs:266-277 | one release call leaves the session released; it destroys exactly the session's handle when that is nonzero and not yet released, and nothing otherwise; a destroyed handle becomes 0 |
| `POpusCodec.ReleaseAll` | OpusEncoder.cs:258-282 | after at least one release call the session is released, and every handle destroyed along the way is the session's own nonzero handle |
| `POpusCodec.ReleaseAllDisposed` | OpusEncoder.cs:268-269 | once released, any further release calls change nothing and destroy nothing |
| `POpusCodec.ReleaseAtMostOnce` | OpusEncoder.cs:258-282 | any sequence of `Dispose()` and finalizer calls destroys the handle at most once, only if it was nonzero and not yet released, and leaves the handle 0 and the session released |
| `POpusCodec.FailedConstructionOwesNothing` | OpusEncoder.cs:222-225 | an object whose construction failed holds the zero handle, so releasing it never reaches destroy |
| `POpusCodec.BlockCopy` | OpusEncoder.cs:239 | the destination holds exactly the first `dst.Length` bytes of the source |
| `POpusCodec.OpusEncoder.Acquired` | OpusEncoder.cs:217-227 | rate, channels, handle and version are stored, the delay is set and the frame size agrees with it |
| `POpusCodec.OpusEncoder.Open` | OpusEncoder.cs:186-228 | an argument out of its set gives `OutOfRange` naming the first such argument, with the engine untouched; otherwise exactly one create, logged with the rate, channels and application type passed; a zero handle gives `AllocFail` with the live handles and all settings unchanged; on success the fields equal the arguments, the handle is fresh and nonzero, the live handles grow by exactly that handle, it gets the default parameter values, every other instance's settings are unchanged, and the frame size is current |
| `POpusCodec.OpusEncoder.OpenDefault` | OpusEncoder.cs:178-180 | the whole contract of `Open`, with the Audio application code and the 20 ms delay code in place of those arguments, so the create log records Audio |
| `POpusCodec.OpusEncoder.OpenWithApplication` | OpusEncoder.cs:182-184 | the whole contract of `Open`, with the 20 ms delay code, so the create log records the application type given |
| `POpusCodec.OpusEncoder.SetEncoderDelay` | OpusEncoder.cs:49-60 | the delay is stored and the frame size recomputed from it; an `int` overflow of the cast fails after the delay was stored and leaves the frame size as it was; a named delay never overflows |
| `POpusCodec.OpusEncoder.GetBitrate` | OpusEncoder.cs:72-75 | returns the engine's bitrate value unchanged |
| `POpusCodec.OpusEncoder.SetBitrate` | OpusEncoder.cs:76-79 | stores the value, `BITRATE_MAX` included, unchanged for the bitrate of this instance and nothing else |
| `POpusCodec.OpusEncoder.GetMaxBandwidth` | OpusEncoder.cs:84-87 | returns the engine's integer, which is the enum value's code |
| `POpusCodec.OpusEncoder.SetMaxBandwidth` | OpusEncoder.cs:88-91 | stores the enum value's code for the maximum bandwidth and nothing else |
| `POpusCodec.OpusEncoder.GetComplexity` | OpusEncoder.cs:96-99 | returns the engine's integer as the complexity code |
| `POpusCodec.OpusEncoder.SetComplexity` | OpusEncoder.cs:100-103 | stores the complexity code and nothing else |
| `POpusCodec.OpusEncoder.GetExpectedPacketLossPercentage` | OpusEncoder.cs:108-111 | returns the engine's packet-loss value unchanged |
| `POpusCodec.OpusEncoder.SetExpectedPacketLossPercentage` | OpusEncoder.cs:112-115 | stores the value unchanged for the packet-loss parameter and nothing else |
| `POpusCodec.OpusEncoder.GetSignalHint` | OpusEncoder.cs:120-123 | returns the engine's integer as the signal-hint code |
| `POpusCodec.OpusEncoder.SetSignalHint` | OpusEncoder.cs:124-127 | stores the signal-hint code and nothing else |
| `POpusCodec.OpusEncoder.GetForceChannels` | OpusEncoder.cs:132-135 | returns the engine's integer as the forced-channels code |
| `POpusCodec.OpusEncoder.SetForceChannels` | OpusEncoder.cs:136-139 | stores the forced-channels code and nothing else |
| `POpusCodec.OpusEncoder.GetUseInbandFec` | OpusEncoder.cs:144-147 | true exactly when the engine's in-band FEC value is 1 |
| `POpusCodec.OpusEncoder.SetUseInbandFec` | OpusEncoder.cs:148-151 | stores 1 for true and 0 for false, for in-band FEC only |
| `POpusCodec.OpusEncoder.GetUseUnconstrainedVbr` | OpusEncoder.cs:156-159 | true exactly when the engine's VBR-constraint value is 0 |
| `POpusCodec.OpusEncoder.SetUseUnconstrainedVbr` | OpusEncoder.cs:160-163 | stores 0 for true and 1 for false, for the VBR constraint only |
| `POpusCodec.OpusEncoder.GetDtxEnabled` | OpusEncoder.cs:168-171 | true exactly when the engine's DTX value is 1 |
| `POpusCodec.OpusEncoder.SetDtxEnabled` | OpusEncoder.cs:172-175 | stores 1 for true and 0 for false, for DTX only |
| `POpusCodec.OpusEncoder.Encode` | OpusEncoder.cs:230-256 | the result is tied to the length the engine reported (kept in the engine's ghost state): at most 1 gives an empty packet, a longer one a fresh array of exactly that length equal to the buffer's first bytes; the buffer keeps what the engine wrote; a refused handle is passed on and leaves the buffer as it was |
| `POpusCodec.OpusEncoder.DisposeCore` | OpusEncoder.cs:266-277 | one step of the release model: destroys a nonzero handle only if not yet released, then the handle is 0 and the session released; the engine's live handles and settings lose exactly the destroyed handle and nothing else, and a call on a released session leaves them as they were |
| `POpusCodec.OpusEncoder.Dispose` | OpusEncoder.cs:260-264 | the explicit release is one release step, with the same effect on the engine as `DisposeCore` |
| `POpusCodec.OpusEncoder.Finalize` | OpusEncoder.cs:279-282 | the finalizer is the same release step, with the same effect on the engine |
| `OpusNative.Engine.Create` | OpusEncoder.cs:219 | one create call, logged with its three arguments, returning either 0 with nothing allocated or a fresh handle with default parameter values |
| `OpusNative.Engine.Destroy` | OpusEncoder.cs:273 | the call is logged and the instance is no longer live |
| `OpusNative.Engine.GetCtl` | OpusEncoder.cs:74 | a live instance reports its stored value; any other handle is refused |
| `OpusNative.Engine.SetCtl` | OpusEncoder.cs:78 | a live instance stores the value for that one parameter; any other handle is refused and nothing changes |
| `OpusNative.Engine.Encode` | OpusEncoder.cs:232 | a live instance reports a length between 0 and the buffer's capacity, and the engine records that length; any other handle is refused and the buffer is untouched |
| `OpusNative.Engine.constructor` | OpusEncoder.cs:10 | a fresh engine has no live instances, no settings and empty create and destroy logs, so the zero handle of an unconstructed session is never live |

## Left out

- The native interop layer (`Wrapper`) and the native library are not part of this model. `Engine`
  stands for them: it stores what it is given and reports it back, and its faults are limited to
  refusing a handle it does not own.
- The engine's negative status codes are not modelled. These include the rejection of an
  out-of-range parameter write and of a wrong PCM length, which the interop layer raises as
  exceptions.
- The Opus bitstream encoding itself (RFC 6716) is left out. `Engine.Encode` leaves the packet bytes
  unconstrained.
- `Engine.Encode` ignores its sample and frame-size arguments. Samples are an opaque sequence; no
  float arithmetic is modelled.
- Finalizer timing and `GC.SuppressFinalize` are garbage-collector behaviour and are left out. The
  model only states that both release paths go through the same `Dispose(bool)` step.
- The content of the `Version` string is opaque engine data; the session only stores it.
- The field initializers (48 kHz, stereo, 20 ms, 960) are not modelled as state, because every
  constructor that returns overwrites them. They are checked for consistency in `DefaultFrameSize`.
