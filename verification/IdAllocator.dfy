/** `allocate_id`: connection ids from a counter that wraps inside the positive
    range of a signed 32 bit integer, skipping the ids still in use. */
module IdAllocator {

  const MAX_ID := 0x7FFF_FFFF

  function Successor(current: nat): (r: nat) { if current >= MAX_ID then 1 else current + 1 }

  predicate IsId(id: nat) { 1 <= id <= MAX_ID }

  /** The id found at the `k`-th probe of a counter standing at `start`. */
  function Probe(start: nat, k: nat): (id: nat)
    requires IsId(start)
    ensures IsId(id)
  {
    if k == 0 then start else Successor(Probe(start, k - 1))
  }

  /** Within one lap of the counter, a probe is a plain sum or one lap less. */
  lemma {:induction false} ProbeWithinLap(start: nat, k: nat)
    requires IsId(start) && k <= MAX_ID
    ensures Probe(start, k) == if start + k <= MAX_ID then start + k else start + k - MAX_ID
  {
    if k > 0 {
      ProbeWithinLap(start, k - 1);
    }
  }

  lemma {:induction false} ProbeOnwards(start: nat, i: nat, j: nat)
    requires IsId(start)
    ensures Probe(start, i + j) == Probe(Probe(start, i), j)
  {
    if j > 0 {
      ProbeOnwards(start, i, j - 1);
    }
  }

  lemma NextProbesDiffer(id: nat, d: nat)
    requires IsId(id) && 0 < d < MAX_ID
    ensures Probe(id, d) != id
  {
    ProbeWithinLap(id, d);
  }

  /** Probes less than a lap apart find different ids. */
  lemma ProbesDiffer(start: nat, i: nat, d: nat)
    requires IsId(start) && 0 < d < MAX_ID
    ensures Probe(start, i) != Probe(start, i + d)
  {
    ProbeOnwards(start, i, d);
    NextProbesDiffer(Probe(start, i), d);
  }

  /** The ids found by the first `k` probes. */
  ghost function Probed(start: nat, k: nat): (r: set<nat>)
    requires IsId(start)
  {
    if k == 0 then {} else Probed(start, k - 1) + {Probe(start, k - 1)}
  }

  lemma {:induction false} ProbedMembers(start: nat, k: nat, id: nat)
    requires IsId(start)
    ensures id in Probed(start, k) <==> exists i :: 0 <= i < k && Probe(start, i) == id
  {
    if k > 0 {
      ProbedMembers(start, k - 1, id);
      assert Probe(start, k - 1) == id || id !in {Probe(start, k - 1)};
    }
  }

  /** Within one lap of the counter no id comes up twice. */
  lemma {:induction false} ProbesAreDistinct(start: nat, k: nat)
    requires IsId(start) && k <= MAX_ID
    ensures |Probed(start, k)| == k
  {
    if k > 0 {
      ProbesAreDistinct(start, k - 1);
      var id := Probe(start, k - 1);
      ProbedMembers(start, k - 1, id);
      if id in Probed(start, k - 1) {
        var i :| 0 <= i < k - 1 && Probe(start, i) == id;
        ProbesDiffer(start, i, k - 1 - i);
      }
    }
  }

  lemma SubsetSize<T>(a: set<T>, b: set<T>)
    requires a <= b
    ensures |a| <= |b|
  {
    assert b == a + (b - a);
  }

  class ServerContext<Handle> {
    var nextId: nat
    var connections: map<nat, Handle>

    ghost predicate Valid()
      reads this
    {
      IsId(nextId)
    }

    constructor ()
      ensures Valid() && nextId == 1 && connections == map[]
    {
      nextId, connections := 1, map[];
    }

    /** Returns the first id, in counter order, that no connection uses, after
        at most one probe more than there are connections. */
    method AllocateId() returns (id: nat, ghost probes: nat)
      requires Valid() && |connections| < MAX_ID
      modifies this`nextId
      ensures Valid() && IsId(id) && id !in connections
      ensures probes <= |connections|
      ensures id == Probe(old(nextId), probes) && nextId == Successor(id)
      ensures Probed(old(nextId), probes) <= connections.Keys
    {
      probes := 0;
      ghost var start := nextId;
      while true
        invariant Valid() && nextId == Probe(start, probes)
        invariant Probed(start, probes) <= connections.Keys && probes <= |connections|
        decreases |connections| - probes
      {
        id := nextId;
        nextId := Successor(nextId);
        if id !in connections {
          return;
        }
        TakenProbe(start, probes, connections.Keys);
        probes := probes + 1;
      }
    }
  }

  /** A probe that finds a used id leaves the counter one further, and the ids
      found so far are still no more than the ids used. */
  lemma TakenProbe(start: nat, k: nat, used: set<nat>)
    requires IsId(start) && k <= |used| < MAX_ID && Probed(start, k) <= used && Probe(start, k) in used
    ensures Probe(start, k + 1) == Successor(Probe(start, k))
    ensures Probed(start, k + 1) <= used && k + 1 <= |used|
  {
    ProbesAreDistinct(start, k + 1);
    SubsetSize(Probed(start, k + 1), used);
  }

  lemma {:induction false} BoundedSize(ids: set<nat>, n: nat)
    requires forall id :: id in ids ==> 1 <= id <= n
    ensures |ids| <= n
  {
    if n == 0 {
      assert ids == {};
    } else {
      BoundedSize(ids - {n}, n - 1);
    }
  }

  lemma FreeIdWhenNotFull(start: nat, used: set<nat>)
    requires IsId(start) && |used| < MAX_ID
    ensures exists k :: 0 <= k <= |used| && Probe(start, k) !in used
  {
    var probed := Probed(start, |used| + 1);
    ProbesAreDistinct(start, |used| + 1);
    if probed <= used {
      SubsetSize(probed, used);
    }
    var id :| id in probed && id !in used;
    ProbedMembers(start, |used| + 1, id);
  }

  lemma NotFullWhenFreeId(start: nat, used: set<nat>, k: nat)
    requires IsId(start) && (forall id :: id in used ==> IsId(id)) && Probe(start, k) !in used
    ensures |used| < MAX_ID
  {
    BoundedSize(used + {Probe(start, k)}, MAX_ID);
  }

  /** The probing loop has an end exactly when fewer than 2^31 - 1 connections
      are registered. */
  lemma AllocationEndsExactly(start: nat, used: set<nat>)
    requires IsId(start) && forall id :: id in used ==> IsId(id)
    ensures (exists k: nat :: Probe(start, k) !in used) <==> |used| < MAX_ID
  {
    if |used| < MAX_ID {
      FreeIdWhenNotFull(start, used);
    } else {
      forall k: nat
        ensures Probe(start, k) in used
      {
        if Probe(start, k) !in used {
          NotFullWhenFreeId(start, used, k);
        }
      }
    }
  }
}
