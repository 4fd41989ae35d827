/** Two round-robin allocators: the pool of IO channels of the metadata client, which grows before it
rotates, and the sandboxes of the batch executor. */
module Rotation {
  import opened Basics
  import opened RoundRobin

  /** The pool grows by one channel per request until it has `size` of them, then rotates. A request
      whose allocation fails is not counted: it gets the first channel, or none. */
  class ChannelPool {
    const size: nat
    var pool: seq<nat>
    var requests: nat
    ghost var counted: seq<nat>         // the channels given to the counted requests, in order

    /** The k-th counted request, from the first on, got channel k modulo the size. */
    ghost predicate Valid()
      reads this
    {
      && 0 < size && |pool| <= size && |counted| == requests
      && (|pool| < size ==> requests == |pool|)
      && (forall k :: 0 <= k < requests ==> Slotted(counted[k], k))
    }

    ghost predicate Slotted(channel: nat, k: nat)
      requires 0 < size
      reads this
    {
      k % size < |pool| && channel == pool[k % size]
    }

    constructor (size: nat)
      requires 0 < size
      ensures Valid() && pool == [] && requests == 0 && this.size == size
    {
      this.size := size;
      pool, requests, counted := [], 0, [];
    }

    /** driver is what the driver factory gives, if it is asked. */
    method GetChannel(driver: Option<nat>) returns (channel: Option<nat>)
      requires Valid()
      modifies this
      ensures Valid()
      ensures pool == if |old(pool)| < size && driver.Some? then old(pool) + [driver.value]
                      else old(pool)
      ensures |old(pool)| < size && driver.None? ==>
                && counted == old(counted)
                && channel == if old(pool) == [] then None else Some(old(pool)[0])
      ensures |old(pool)| == size || driver.Some? ==>
                && old(requests) % size < |pool|
                && channel == Some(pool[old(requests) % size])
                && counted == old(counted) + [channel.value]
    {
      if |pool| < size {
        if driver.Some? {
          ghost var k := requests;
          DivModOf(0, size, k);
          pool := pool + [driver.value];
          requests := requests + 1;
          counted := counted + [driver.value];
          return driver;
        }
        if |pool| > 0 {
          return Some(pool[0]);
        }
        return None;
      }
      channel := Some(pool[requests % |pool|]);
      counted := counted + [channel.value];
      requests := requests + 1;
    }
  }

  const FIRST_SANDBOX: nat := 3

  /** The sandbox of the k-th request, counted from 1. */
  function SandboxOf(k: nat, count: nat): (w: nat)
    requires 0 < count
    ensures w < count
  {
    (FIRST_SANDBOX + k) % count
  }

  class Sandboxes {
    const count: nat
    var lastUsed: nat
    ghost var requests: nat

    ghost predicate Valid()
      reads this
    {
      0 < count
      && lastUsed == if requests == 0 then FIRST_SANDBOX else SandboxOf(requests, count)
    }

    constructor (count: nat)
      requires 0 < count
      ensures Valid() && requests == 0 && this.count == count
    {
      this.count := count;
      lastUsed, requests := FIRST_SANDBOX, 0;
    }

    method GetNextSandboxToUse() returns (sandbox: nat)
      requires Valid()
      modifies this
      ensures Valid() && requests == old(requests) + 1
      ensures sandbox == SandboxOf(requests, count)
    {
      NextSlot(FIRST_SANDBOX + requests, count);
      lastUsed := lastUsed + 1;
      lastUsed := lastUsed % count;
      requests := requests + 1;
      sandbox := lastUsed;
    }
  }

  /** Of any `count` consecutive sandbox requests exactly one, the k-th, gets sandbox w. */
  lemma EverySandboxOnce(start: nat, w: nat, count: nat) returns (k: nat)
    requires w < count
    ensures start <= k < start + count && SandboxOf(k, count) == w
    ensures forall j :: start <= j < start + count && SandboxOf(j, count) == w ==> j == k
  {
    var i := WindowUsesEachOnce(FIRST_SANDBOX + start, w, count);
    k := i - FIRST_SANDBOX;
    forall j | start <= j < start + count && SandboxOf(j, count) == w ensures j == k {
      var j' := FIRST_SANDBOX + j;
      assert j' % count == w;
    }
  }
}
