/** The allocator of local ports: a cyclic search from a random start. */
module Ports {
  import opened Wrappers

  const FIRST := 1000
  const LAST := 65535
  const COUNT := LAST - FIRST + 1

  type Protocol = nat

  predicate InRange(port: nat) {
    FIRST <= port <= LAST
  }

  /** The next candidate: one higher in 16 bits, but never below the range. */
  function Following(port: nat): (next: nat)
    requires InRange(port)
    ensures InRange(next)
  {
    var p := (port + 1) % 65536;
    if p < FIRST then FIRST else p
  }

  /** The first free port among `n` candidates starting with `port`. */
  function Search(taken: set<nat>, port: nat, n: nat): Option<nat>
    requires InRange(port)
    decreases n
  {
    if n == 0 then None
    else if port !in taken then Some(port)
    else Search(taken, Following(port), n - 1)
  }

  // ---------------------------------------------------------------- the order of the search

  /** How many steps lead from `start` to `port`. */
  function Distance(start: nat, port: nat): nat
    requires InRange(start) && InRange(port)
  {
    if port >= start then port - start else COUNT - (start - port)
  }

  /** One step brings every other port one step closer. */
  lemma FollowingIsCloser(start: nat, port: nat)
    requires InRange(start) && InRange(port) && start != port
    ensures Distance(Following(start), port) == Distance(start, port) - 1
  {
  }

  /** The search finds the closest free port among its candidates, if there is one. */
  lemma {:induction false} SearchFindsClosest(taken: set<nat>, start: nat, n: nat)
    requires InRange(start) && n <= COUNT
    ensures match Search(taken, start, n)
            case Some(p) =>
              && InRange(p) && p !in taken && Distance(start, p) < n
              && forall q :: InRange(q) && Distance(start, q) < Distance(start, p) ==> q in taken
            case None =>
              forall q :: InRange(q) && Distance(start, q) < n ==> q in taken
    decreases n
  {
    if n > 0 && start in taken {
      var next := Following(start);
      SearchFindsClosest(taken, next, n - 1);
      forall q | InRange(q) && q != start
        ensures Distance(next, q) == Distance(start, q) - 1
      {
        FollowingIsCloser(start, q);
      }
      assert forall q :: InRange(q) && q == start ==> q in taken;
    }
  }

  /** From any start, the search fails exactly when every port of the range is taken. */
  lemma SearchIsExhaustive(taken: set<nat>, start: nat)
    requires InRange(start)
    ensures Search(taken, start, COUNT).None? <==> forall p :: InRange(p) ==> p in taken
  {
    SearchFindsClosest(taken, start, COUNT);
  }

  // ---------------------------------------------------------------- the allocator in memory

  class Allocator {
    var taken: map<Protocol, set<nat>>

    constructor ()
      ensures forall p :: Taken(p) == {}
    {
      taken := map[];
    }

    function Taken(protocol: Protocol): set<nat>
      reads this
    {
      if protocol in taken then taken[protocol] else {}
    }

    /** Allocate a free port; `start` is the random first candidate. */
    method Next(protocol: Protocol, start: nat) returns (port: Option<nat>)
      requires InRange(start)
      modifies this
      ensures port == Search(old(Taken(protocol)), start, COUNT)
      ensures port.Some? ==> Taken(protocol) == old(Taken(protocol)) + {port.value}
      ensures port.None? ==> Taken(protocol) == old(Taken(protocol))
      ensures forall q :: q != protocol ==> Taken(q) == old(Taken(q))
    {
      var current := Taken(protocol);
      taken := taken[protocol := current];
      var candidate := start;
      var num := COUNT;
      while num > 0
        invariant 0 <= num <= COUNT && InRange(candidate)
        invariant Search(current, candidate, num) == Search(current, start, COUNT)
        invariant taken == old(taken)[protocol := current]
      {
        if candidate !in current {
          taken := taken[protocol := current + {candidate}];
          return Some(candidate);
        }
        candidate := Following(candidate);
        num := num - 1;
      }
      return None;
    }

    method Reserve(protocol: Protocol, port: nat) returns (ok: bool)
      modifies this
      ensures ok <==> port !in old(Taken(protocol))
      ensures Taken(protocol) == old(Taken(protocol)) + {port}
      ensures forall q :: q != protocol ==> Taken(q) == old(Taken(q))
    {
      var current := Taken(protocol);
      ok := port !in current;
      taken := taken[protocol := current + {port}];
    }

    method Free(protocol: Protocol, port: nat)
      modifies this
      ensures Taken(protocol) == old(Taken(protocol)) - {port}
      ensures forall q :: q != protocol ==> Taken(q) == old(Taken(q))
    {
      taken := taken[protocol := Taken(protocol) - {port}];
    }
  }
}
