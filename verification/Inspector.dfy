/** The transport component's settings: the clamps the editor applies, and what
    they are worth to a server that rotates its certificate. */
module Inspector {
  import BrowserSession
  import opened JsNumbers
  import opened Settings
  import opened Certificate

  const MAX_CERTIFICATE_VALIDITY_MINUTES := 14 * 24 * 60
  const MAX_CHANNELS := 256

  /** The latest rotation the clamps allow, in minutes. */
  function LatestRotation(validityMinutes: int): (r: int)
    requires 1 <= validityMinutes <= MAX_CERTIFICATE_VALIDITY_MINUTES
    ensures 1 <= r <= MAX_CERTIFICATE_VALIDITY_MINUTES
  {
    var r := validityMinutes * 3 / 4;
    if r < 1 then 1 else r
  }

  function ValidityMinutes(x: int): (r: int) { Nearest(x, 1, MAX_CERTIFICATE_VALIDITY_MINUTES) }

  function RotationMinutes(validity: int, x: int): (r: int) { Nearest(x, 0, LatestRotation(ValidityMinutes(validity))) }

  const INT_MAX := 0x7FFF_FFFF

  class WebTransportTransport {
    var reliableMaxMessageSize: Int32
    var unreliableMaxMessageSize: Int32
    var reliableBatchThreshold: Int32
    var connectTimeoutMs: Int32
    var handshakeTimeoutMs: Int32
    var maxReceivesPerTick: Int32
    var maxConnections: Int32
    var certificateValidityMinutes: Int32
    var certificateRotationMinutes: Int32
    var channels: seq<bool>      // whether each channel is reliable

    // The snapshot of `ApplySettings`, as far as the server's certificate goes.
    var certificateValiditySeconds: Int32
    var certificateRotationSeconds: Int32

    constructor () {
      reliableMaxMessageSize, unreliableMaxMessageSize, reliableBatchThreshold := 64 * 1024, 1024, 8 * 1024;
      connectTimeoutMs, handshakeTimeoutMs, maxReceivesPerTick, maxConnections := 10000, 10000, 10000, 0;
      certificateValidityMinutes, certificateRotationMinutes := MAX_CERTIFICATE_VALIDITY_MINUTES, 8 * 24 * 60;
      certificateValiditySeconds, certificateRotationSeconds := 14 * 24 * 60 * 60, 8 * 24 * 60 * 60;
      channels := [true, false];
    }

    /** Every setting becomes the nearest one that is allowed; the batch threshold
        and the rotation answer to the size and the validity already clamped. */
    method OnValidate()
      modifies this
      ensures reliableMaxMessageSize == Nearest(old(reliableMaxMessageSize), 1024, INT_MAX)
      ensures unreliableMaxMessageSize == Nearest(old(unreliableMaxMessageSize), 64, INT_MAX)
      ensures reliableBatchThreshold == Nearest(old(reliableBatchThreshold), 512, reliableMaxMessageSize)
      ensures connectTimeoutMs == Nearest(old(connectTimeoutMs), 1000, INT_MAX)
      ensures handshakeTimeoutMs == Nearest(old(handshakeTimeoutMs), 1000, INT_MAX)
      ensures maxReceivesPerTick == Nearest(old(maxReceivesPerTick), 1, INT_MAX)
      ensures maxConnections == Nearest(old(maxConnections), 0, INT_MAX)
      ensures certificateValidityMinutes == ValidityMinutes(old(certificateValidityMinutes))
      ensures certificateRotationMinutes ==
              RotationMinutes(old(certificateValidityMinutes), old(certificateRotationMinutes))
      ensures channels == old(channels)[..Nearest(|old(channels)|, 0, MAX_CHANNELS)]
      ensures certificateValiditySeconds == old(certificateValiditySeconds)
      ensures certificateRotationSeconds == old(certificateRotationSeconds)
    {
      ValidateSizes();
      ValidateTimes();
      ValidateCertificate();
      if |channels| > MAX_CHANNELS { channels := channels[..MAX_CHANNELS]; }
    }

    method ValidateSizes()
      modifies `reliableMaxMessageSize, `unreliableMaxMessageSize, `reliableBatchThreshold
      ensures reliableMaxMessageSize == Nearest(old(reliableMaxMessageSize), 1024, INT_MAX)
      ensures unreliableMaxMessageSize == Nearest(old(unreliableMaxMessageSize), 64, INT_MAX)
      ensures reliableBatchThreshold == Nearest(old(reliableBatchThreshold), 512, reliableMaxMessageSize)
    {
      if reliableMaxMessageSize < 1024 { reliableMaxMessageSize := 1024; }
      if unreliableMaxMessageSize < 64 { unreliableMaxMessageSize := 64; }
      if reliableBatchThreshold < 512 { reliableBatchThreshold := 512; }
      if reliableBatchThreshold > reliableMaxMessageSize { reliableBatchThreshold := reliableMaxMessageSize; }
    }

    method ValidateTimes()
      modifies `connectTimeoutMs, `handshakeTimeoutMs, `maxReceivesPerTick, `maxConnections
      ensures connectTimeoutMs == Nearest(old(connectTimeoutMs), 1000, INT_MAX)
      ensures handshakeTimeoutMs == Nearest(old(handshakeTimeoutMs), 1000, INT_MAX)
      ensures maxReceivesPerTick == Nearest(old(maxReceivesPerTick), 1, INT_MAX)
      ensures maxConnections == Nearest(old(maxConnections), 0, INT_MAX)
    {
      if connectTimeoutMs < 1000 { connectTimeoutMs := 1000; }
      if handshakeTimeoutMs < 1000 { handshakeTimeoutMs := 1000; }
      if maxReceivesPerTick < 1 { maxReceivesPerTick := 1; }
      if maxConnections < 0 { maxConnections := 0; }
    }

    method ValidateCertificate()
      modifies `certificateValidityMinutes, `certificateRotationMinutes
      ensures certificateValidityMinutes == ValidityMinutes(old(certificateValidityMinutes))
      ensures certificateRotationMinutes ==
              RotationMinutes(old(certificateValidityMinutes), old(certificateRotationMinutes))
    {
      if certificateValidityMinutes < 1 { certificateValidityMinutes := 1; }
      if certificateValidityMinutes > MAX_CERTIFICATE_VALIDITY_MINUTES {
        certificateValidityMinutes := MAX_CERTIFICATE_VALIDITY_MINUTES;
      }
      if certificateRotationMinutes < 0 { certificateRotationMinutes := 0; }
      var latestRotation := certificateValidityMinutes * 3 / 4;
      if latestRotation < 1 { latestRotation := 1; }
      if certificateRotationMinutes > latestRotation { certificateRotationMinutes := latestRotation; }
    }

    method ApplySettings()
      modifies `certificateValiditySeconds, `certificateRotationSeconds
      ensures certificateValiditySeconds == ToInt32(certificateValidityMinutes * 60)
      ensures certificateRotationSeconds == ToInt32(certificateRotationMinutes * 60)
    {
      certificateValiditySeconds := ToInt32(certificateValidityMinutes * 60);
      certificateRotationSeconds := ToInt32(certificateRotationMinutes * 60);
    }

    /** The certificate settings `WTServer.Start` gives the native server. */
    function ServerConfig(): (r: (nat, nat))
      reads this
    {
      (BrowserSession.Max(60, certificateValiditySeconds), BrowserSession.Max(0, certificateRotationSeconds))
    }
  }

  /** What the native server is asked for after validating and applying settings. */
  method StartServer(transport: WebTransportTransport) returns (requested: nat, interval: nat)
    modifies transport
    ensures requested == 60 * ValidityMinutes(old(transport.certificateValidityMinutes))
    ensures interval == 60 * RotationMinutes(old(transport.certificateValidityMinutes),
                old(transport.certificateRotationMinutes))
  {
    transport.OnValidate();
    transport.ApplySettings();
    WrapsOnce(transport.certificateValidityMinutes * 60);
    WrapsOnce(transport.certificateRotationMinutes * 60);
    var config := transport.ServerConfig();
    return config.0, config.1;
  }

  /** The lifetime of a certificate asked for in validated minutes. */
  lemma LifetimeOfMinutes(minutes: nat)
    requires 1 <= minutes <= MAX_CERTIFICATE_VALIDITY_MINUTES
    ensures Lifetime(60 * minutes) == if minutes >= 240 then 60 * minutes - 3600 else 45 * minutes
  {
  }

  /** Continuity: with rotation on, attempts that succeed keep a valid certificate
      served at all times, exactly when the validity is two minutes or more. */
  lemma RotationIsContinuousExactly(validity: int, rotation: int)
    ensures
      var v, r := ValidityMinutes(validity), RotationMinutes(validity, rotation);
      r > 0 ==> (Survives(0, 60 * v, 60 * r) <==> v >= 2)
  {
    var v, r := ValidityMinutes(validity), RotationMinutes(validity, rotation);
    LifetimeOfMinutes(v);
    SurvivesExactly(0, 60 * v, 60 * r);
  }

  /** The clamp is meant to leave a failed rotation room for another attempt. With
      rotation on, it does so exactly when twice the rotation fits. */
  lemma FailedRotationHasRoomExactly(validity: int, rotation: int)
    ensures
      var v, r := ValidityMinutes(validity), RotationMinutes(validity, rotation);
      r > 0 ==> (Survives(1, 60 * v, 60 * r) <==> if v >= 240 then 2 * r + 60 <= v else 8 * r <= 3 * v)
  {
    var v, r := ValidityMinutes(validity), RotationMinutes(validity, rotation);
    LifetimeOfMinutes(v);
    SurvivesExactly(1, 60 * v, 60 * r);
  }

  /** With rotation off, the first certificate is served for good, and is valid
      exactly as long as it lasts. */
  lemma WithoutRotationItExpires(validity: int, time: nat)
    ensures
      var v := ValidityMinutes(validity);
      ValidAt(MadeAt([], 0), 60 * v, time) <==> time <= if v >= 240 then 60 * v - 3600 else 45 * v
  {
    LifetimeOfMinutes(ValidityMinutes(validity));
  }

  /** At the default settings, which the clamps leave alone, one failed rotation
      leaves the server with an expired certificate for the last two days and an
      hour before the next attempt. */
  lemma DefaultsHaveNoRoom(time: nat)
    requires 14 * 86400 - 3600 < time <= 16 * 86400
    ensures ValidityMinutes(14 * 24 * 60) == 14 * 24 * 60 && RotationMinutes(14 * 24 * 60, 8 * 24 * 60) == 8 * 24 * 60
    ensures NeverMoreFailures([BuildFails], 1)
    ensures !ValidAt(MadeAt([BuildFails], 8 * 86400), 14 * 86400, time)
    ensures !AlwaysValid([BuildFails], 14 * 86400, 8 * 86400)
  {
    var attempts, interval := [BuildFails], 8 * 86400;
    assert attempts[..0] == [] && attempts[..1] == attempts;
    assert MadeAt(attempts, interval) == 0;
    assert !ValidAt(MadeAt(attempts[..1], interval), 14 * 86400, 16 * 86400);
    assert 1 * interval <= 16 * 86400 <= (1 + 1) * interval;
  }
}
