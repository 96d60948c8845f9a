/** The life of the server's self signed certificate: its validity window, and
    the loop that replaces it on a running server.

    Times are whole seconds since the server started. A certificate is valid up
    to and including its last second (section 4.1.2.5 of RFC 5280), and up to and
    including the second of an attempt the previous certificate may be served. */
module Certificate {
  import opened Framing
  import opened Options

  const MAX_VALIDITY := 14 * 24 * 60 * 60
  const MAX_BACKDATE := 60 * 60

  function Nearest(x: int, lo: int, hi: int): (r: int)
    requires lo <= hi
    ensures lo <= r <= hi && (lo <= x <= hi ==> r == x)
  {
    if x < lo then lo else if x > hi then hi else x
  }

  /** The validity in force for a requested one, in seconds. */
  function Validity(requested: nat): (r: nat) { Nearest(requested, 60, MAX_VALIDITY) }

  function Backdate(validity: nat): (r: nat) { Nearest(validity / 4, 0, MAX_BACKDATE) }

  /** How long a certificate is still valid when it has just been made. */
  function Lifetime(requested: nat): (r: nat) { Validity(requested) - Backdate(Validity(requested)) }

  predicate ValidAt(madeAt: int, requested: nat, time: int) {
    var notBefore := madeAt - Backdate(Validity(requested));
    notBefore <= time <= notBefore + Validity(requested)
  }

  /** How one attempt to rotate ends. */
  datatype Attempt = BuildFails | ConfigFails | InstallFails | Installed(hash: Option<seq<byte>>)

  /** When the certificate served after these attempts was made: the attempts are
      one interval apart, whether or not they succeed. */
  function MadeAt(attempts: seq<Attempt>, interval: nat): (r: nat) {
    if attempts == [] then 0
    else if attempts[|attempts| - 1].Installed? then |attempts| * interval
    else MadeAt(attempts[..|attempts| - 1], interval)
  }

  /** The hash served, given the one of the first certificate. */
  function ServedHash(first: Option<seq<byte>>, attempts: seq<Attempt>): (r: Option<seq<byte>>) {
    if attempts == [] then first
    else
      var last := attempts[|attempts| - 1];
      if last.Installed? then last.hash else ServedHash(first, attempts[..|attempts| - 1])
  }

  function OrEmpty(hash: Option<seq<byte>>): (r: seq<byte>) { if hash.Some? then hash.value else [] }

  /** The CertificateRotated events, by their hashes. */
  function RotationsTold(attempts: seq<Attempt>): (r: seq<seq<byte>>) {
    if attempts == [] then []
    else
      var last := attempts[|attempts| - 1];
      RotationsTold(attempts[..|attempts| - 1]) + if last.Installed? then [OrEmpty(last.hash)] else []
  }

  /** The part of the server the rotation task works on. */
  class Rotation {
    const interval: nat
    var clock: nat
    var madeAt: nat
    var certificateHash: Option<seq<byte>>
    var announced: seq<seq<byte>>

    constructor (interval: nat, first: Option<seq<byte>>)
      ensures this.interval == interval && clock == 0 && madeAt == 0
      ensures certificateHash == first && announced == []
    {
      this.interval := interval;
      clock, madeAt, certificateHash, announced := 0, 0, first, [];
    }

    /** Runs until shutdown, which comes after the given attempts. */
    method RotationLoop(attempts: seq<Attempt>)
      requires clock == 0 && madeAt == 0 && announced == []
      modifies this
      ensures clock == |attempts| * interval && madeAt == MadeAt(attempts, interval)
      ensures certificateHash == ServedHash(old(certificateHash), attempts)
      ensures announced == RotationsTold(attempts)
    {
      var n := 0;
      while n < |attempts|
        invariant n <= |attempts| && clock == n * interval
        invariant madeAt == MadeAt(attempts[..n], interval)
        invariant certificateHash == ServedHash(old(certificateHash), attempts[..n])
        invariant announced == RotationsTold(attempts[..n])
      {
        var attempt := attempts[n];
        assert attempts[..n + 1][..n] == attempts[..n];
        n := n + 1;
        clock := clock + interval;
        if !attempt.Installed? {
          continue;
        }
        madeAt := clock;
        certificateHash := attempt.hash;
        announced := announced + [OrEmpty(attempt.hash)];
      }
      assert attempts[..n] == attempts;
    }
  }

  /** What the game was told last is what the server serves. */
  lemma {:induction false} AnnouncedIsServed(first: Option<seq<byte>>, attempts: seq<Attempt>)
    ensures var told, served := RotationsTold(attempts), ServedHash(first, attempts);
            if told == [] then served == first else told[|told| - 1] == OrEmpty(served)
    decreases |attempts|
  {
    if attempts != [] {
      AnnouncedIsServed(first, attempts[..|attempts| - 1]);
    }
  }

  // -------------------------------------------------------------------------
  // Continuity
  // -------------------------------------------------------------------------

  /** The failures since the last success. */
  function FailuresInARow(attempts: seq<Attempt>): (n: nat)
    ensures n <= |attempts|
  {
    if attempts == [] || attempts[|attempts| - 1].Installed? then 0
    else 1 + FailuresInARow(attempts[..|attempts| - 1])
  }

  /** Whatever certificate may be served is valid, from the start until an
      interval after the last attempt. */
  ghost predicate AlwaysValid(attempts: seq<Attempt>, requested: nat, interval: nat) {
    forall n, time :: 0 <= n <= |attempts| && n * interval <= time <= (n + 1) * interval ==>
      ValidAt(MadeAt(attempts[..n], interval), requested, time)
  }

  ghost predicate NeverMoreFailures(attempts: seq<Attempt>, k: nat) {
    forall n :: 0 <= n <= |attempts| ==> FailuresInARow(attempts[..n]) <= k
  }

  /** No run with at most `k` failures in a row ever serves an invalid certificate. */
  ghost predicate Survives(k: nat, requested: nat, interval: nat) {
    forall attempts :: NeverMoreFailures(attempts, k) ==> AlwaysValid(attempts, requested, interval)
  }

  lemma {:induction false} MadeBeforeTheFailures(attempts: seq<Attempt>, interval: nat)
    ensures MadeAt(attempts, interval) == (|attempts| - FailuresInARow(attempts)) * interval
    decreases |attempts|
  {
    if attempts != [] && !attempts[|attempts| - 1].Installed? {
      MadeBeforeTheFailures(attempts[..|attempts| - 1], interval);
    }
  }

  /** After `f` failures in a row the certificate is `f + 1` intervals old by the
      next attempt. */
  lemma AgeAtNextAttempt(n: nat, f: nat, k: nat, interval: nat)
    requires f <= n && f <= k
    ensures (n + 1) * interval - (n - f) * interval <= (k + 1) * interval
    ensures (n - f) * interval <= n * interval
  {
    assert (n + 1) * interval - (n - f) * interval == (f + 1) * interval;
    assert (k + 1) * interval - (f + 1) * interval == (k - f) * interval;
    assert n * interval - (n - f) * interval == f * interval;
  }

  lemma EnoughLifetime(attempts: seq<Attempt>, k: nat, requested: nat, interval: nat)
    requires (k + 1) * interval <= Lifetime(requested) && NeverMoreFailures(attempts, k)
    ensures AlwaysValid(attempts, requested, interval)
  {
    forall n, time | 0 <= n <= |attempts| && n * interval <= time <= (n + 1) * interval
      ensures ValidAt(MadeAt(attempts[..n], interval), requested, time)
    {
      MadeBeforeTheFailures(attempts[..n], interval);
      AgeAtNextAttempt(n, FailuresInARow(attempts[..n]), k, interval);
    }
  }

  function Failing(k: nat): (attempts: seq<Attempt>)
    ensures |attempts| == k && forall i :: 0 <= i < k ==> attempts[i] == BuildFails
  {
    seq(k, i => BuildFails)
  }

  lemma TooLittleLifetime(k: nat, requested: nat, interval: nat)
    requires (k + 1) * interval > Lifetime(requested)
    ensures NeverMoreFailures(Failing(k), k) && !AlwaysValid(Failing(k), requested, interval)
  {
    var attempts := Failing(k);
    MadeBeforeTheFailures(attempts, interval);
    AllFailures(attempts);
    assert attempts[..k] == attempts;
    assert k * interval <= (k + 1) * interval;
    assert !ValidAt(MadeAt(attempts[..k], interval), requested, (k + 1) * interval);
  }

  lemma {:induction false} AllFailures(attempts: seq<Attempt>)
    requires forall i :: 0 <= i < |attempts| ==> attempts[i] == BuildFails
    ensures FailuresInARow(attempts) == |attempts|
    decreases |attempts|
  {
    if attempts != [] {
      AllFailures(attempts[..|attempts| - 1]);
    }
  }

  /** For every requested validity and every interval: `k` failures in a row are
      survived exactly when `k + 1` intervals fit in what is left of the validity
      after back-dating. */
  lemma SurvivesExactly(k: nat, requested: nat, interval: nat)
    ensures Survives(k, requested, interval) <==> (k + 1) * interval <= Lifetime(requested)
  {
    if (k + 1) * interval <= Lifetime(requested) {
      forall attempts | NeverMoreFailures(attempts, k)
        ensures AlwaysValid(attempts, requested, interval)
      {
        EnoughLifetime(attempts, k, requested, interval);
      }
    } else {
      TooLittleLifetime(k, requested, interval);
    }
  }
}
