/**
 * The closed value sets the encoder's constructor checks against. A C# enum value is its
 * integer code and may hold a code no member has, so the session takes codes (`int32`);
 * the datatypes below are the named members and `Code()` is the integer each stands for.
 */
module OpusEnums {
  import opened OpusTypes

  datatype SamplingRate = Sampling08000 | Sampling12000 | Sampling16000 | Sampling24000 | Sampling48000 {
    /** The code is the rate in Hz. */
    function Code(): int32 {
      match this
      case Sampling08000 => 8000
      case Sampling12000 => 12000
      case Sampling16000 => 16000
      case Sampling24000 => 24000
      case Sampling48000 => 48000
    }
  }

  datatype Channels = Mono | Stereo {
    function Code(): int32 {
      match this
      case Mono => 1
      case Stereo => 2
    }
  }

  /** Codes as in the native library's application constants. */
  datatype ApplicationType = Voip | Audio | RestrictedLowDelay {
    function Code(): int32 {
      match this
      case Voip => 2048
      case Audio => 2049
      case RestrictedLowDelay => 2051
    }
  }

  /** The frame durations of section 2.1.4 of RFC 6716; the code counts half milliseconds. */
  datatype Delay = Delay2dot5ms | Delay5ms | Delay10ms | Delay20ms | Delay40ms | Delay60ms {
    function Code(): int32 {
      match this
      case Delay2dot5ms => 5
      case Delay5ms => 10
      case Delay10ms => 20
      case Delay20ms => 40
      case Delay40ms => 80
      case Delay60ms => 120
    }

    /** The duration in tenths of a millisecond, independent of the code. */
    function TenthsOfMs(): nat {
      match this
      case Delay2dot5ms => 25
      case Delay5ms => 50
      case Delay10ms => 100
      case Delay20ms => 200
      case Delay40ms => 400
      case Delay60ms => 600
    }
  }

  // The constructor's membership tests, written as the chains of comparisons it performs.

  predicate IsSupportedSamplingRate(hz: int32) {
    hz == Sampling08000.Code() || hz == Sampling12000.Code() || hz == Sampling16000.Code()
    || hz == Sampling24000.Code() || hz == Sampling48000.Code()
  }

  predicate IsSupportedChannels(n: int32) {
    n == Mono.Code() || n == Stereo.Code()
  }

  predicate IsSupportedApplication(a: int32) {
    a == Audio.Code() || a == RestrictedLowDelay.Code() || a == Voip.Code()
  }

  predicate IsSupportedDelay(d: int32) {
    d == Delay10ms.Code() || d == Delay20ms.Code() || d == Delay2dot5ms.Code()
    || d == Delay40ms.Code() || d == Delay5ms.Code() || d == Delay60ms.Code()
  }

  // Each test accepts exactly the codes of the named members.

  lemma SupportedSamplingRateIsNamed(hz: int32)
    ensures IsSupportedSamplingRate(hz) <==> exists r: SamplingRate :: r.Code() == hz
  {
    if IsSupportedSamplingRate(hz) {
      var r :=
        if hz == 8000 then Sampling08000 else if hz == 12000 then Sampling12000
        else if hz == 16000 then Sampling16000 else if hz == 24000 then Sampling24000
        else Sampling48000;
      assert r.Code() == hz;
    }
    if exists r: SamplingRate :: r.Code() == hz {
      var r: SamplingRate :| r.Code() == hz;
      match r
      case Sampling08000 =>
      case Sampling12000 =>
      case Sampling16000 =>
      case Sampling24000 =>
      case Sampling48000 =>
    }
  }

  lemma SupportedChannelsIsNamed(n: int32)
    ensures IsSupportedChannels(n) <==> exists c: Channels :: c.Code() == n
  {
    if IsSupportedChannels(n) {
      var c := if n == 1 then Mono else Stereo;
      assert c.Code() == n;
    }
    if exists c: Channels :: c.Code() == n {
      var c: Channels :| c.Code() == n;
      match c
      case Mono =>
      case Stereo =>
    }
  }

  lemma SupportedApplicationIsNamed(a: int32)
    ensures IsSupportedApplication(a) <==> exists t: ApplicationType :: t.Code() == a
  {
    if IsSupportedApplication(a) {
      var t := if a == 2048 then Voip else if a == 2049 then Audio else RestrictedLowDelay;
      assert t.Code() == a;
    }
    if exists t: ApplicationType :: t.Code() == a {
      var t: ApplicationType :| t.Code() == a;
      match t
      case Voip =>
      case Audio =>
      case RestrictedLowDelay =>
    }
  }

  lemma SupportedDelayIsNamed(d: int32)
    ensures IsSupportedDelay(d) <==> exists e: Delay :: e.Code() == d
  {
    if IsSupportedDelay(d) {
      var e :=
        if d == 5 then Delay2dot5ms else if d == 10 then Delay5ms else if d == 20 then Delay10ms
        else if d == 40 then Delay20ms else if d == 80 then Delay40ms else Delay60ms;
      assert e.Code() == d;
    }
    if exists e: Delay :: e.Code() == d {
      var e: Delay :| e.Code() == d;
      match e
      case Delay2dot5ms =>
      case Delay5ms =>
      case Delay10ms =>
      case Delay20ms =>
      case Delay40ms =>
      case Delay60ms =>
    }
  }
}
