/** The consumer-dispatch primitives every queue actor shares (ramqp-broker/src/dispatch.rs). */
module Dispatch {
  import opened Collections

  type Bytes = seq<bv8>

  const U32_MAX: nat := 0xFFFF_FFFF

  function Min(a: nat, b: nat): nat { if a <= b then a else b }

  function SatSub(a: nat, b: nat): nat { if b <= a then a - b else 0 }

  /** One consumer: where to deliver, its link identity and its current demand. */
  datatype Subscriber = Subscriber(
    id: nat, conn: nat, channel: nat, handle: nat, gen: nat, demand: nat, drainPending: bool)

  /** A demand grant is an increment, saturating at the width of a u32. */
  function Grant(s: Subscriber, credit: nat, drain: bool): Subscriber {
    s.(demand := Min(s.demand + credit, U32_MAX), drainPending := drain)
  }

  /** The position reached after `i` steps round a ring of `n` places from `rr`. */
  function Ring(rr: nat, i: nat, n: nat): (r: nat)
    requires 0 < n
    ensures r < n
  {
    (rr + i) % n
  }

  predicate NoDemand(subs: seq<Subscriber>) {
    forall i :: 0 <= i < |subs| ==> subs[i].demand == 0
  }

  function PickFrom(subs: seq<Subscriber>, rr: nat, i: nat): (r: Option<nat>)
    requires i <= |subs|
    ensures r.Some? ==> r.value < |subs| && subs[r.value].demand > 0
    ensures r.Some? ==> exists d: nat {:trigger Ring(rr, d, |subs|)} ::
      i <= d < |subs| && Ring(rr, d, |subs|) == r.value &&
      forall e: nat {:trigger Ring(rr, e, |subs|)} :: i <= e < d ==> subs[Ring(rr, e, |subs|)].demand == 0
    ensures r.None? ==> forall e: nat {:trigger Ring(rr, e, |subs|)} ::
      i <= e < |subs| ==> subs[Ring(rr, e, |subs|)].demand == 0
    decreases |subs| - i
  {
    if i == |subs| then None
    else if subs[Ring(rr, i, |subs|)].demand > 0 then Some(Ring(rr, i, |subs|))
    else PickFrom(subs, rr, i + 1)
  }

  /** Round robin: the first subscriber with demand, scanning once round from `rr`. */
  function PickReady(subs: seq<Subscriber>, rr: nat): Option<nat> {
    PickFrom(subs, rr, 0)
  }

  /** Steps round the ring of `n` places from `rr` to `j`. */
  function Distance(rr: nat, j: nat, n: nat): (d: nat)
    requires j < n
    ensures d < n
  {
    var b := rr % n;
    if b <= j then j - b else j + n - b
  }

  lemma AtLeastOnce(d: int, n: nat)
    requires 1 <= d
    ensures n <= d * n
  {
  }

  lemma ModOf(a: nat, q: int, n: nat)
    requires 0 < n && a < n
    ensures (q * n + a) % n == a
  {
    var x := q * n + a;
    var d := q - x / n;
    assert d * n == x % n - a;
    if 1 <= d {
      AtLeastOnce(d, n);
      assert false;
    } else if d <= -1 {
      AtLeastOnce(-d, n);
      assert false;
    }
  }

  lemma RingReduce(rr: nat, d: nat, n: nat)
    requires d < n
    ensures Ring(rr, d, n) == if rr % n + d < n then rr % n + d else rr % n + d - n
  {
    var b, q := rr % n, rr / n;
    assert rr == q * n + b;
    if b + d < n {
      ModOf(b + d, q, n);
    } else {
      ModOf(b + d - n, q + 1, n);
      assert rr + d == (q + 1) * n + (b + d - n);
    }
  }

  lemma RingAt(rr: nat, j: nat, d: nat, n: nat)
    requires j < n && d < n
    ensures Ring(rr, d, n) == j <==> d == Distance(rr, j, n)
  {
    RingReduce(rr, d, n);
  }

  /** The pick is exact: nothing is returned only when nobody wants work, and nobody who wants work is nearer. */
  lemma PickReadyIsNearest(subs: seq<Subscriber>, rr: nat)
    ensures PickReady(subs, rr).None? <==> NoDemand(subs)
    ensures var r := PickReady(subs, rr);
            r.Some? ==> r.value < |subs| && subs[r.value].demand > 0 &&
                        forall j :: 0 <= j < |subs| && subs[j].demand > 0 ==>
                                      Distance(rr, r.value, |subs|) <= Distance(rr, j, |subs|)
  {
    var r, n := PickReady(subs, rr), |subs|;
    forall j | 0 <= j < n
      ensures Ring(rr, Distance(rr, j, n), n) == j
    {
      RingAt(rr, j, Distance(rr, j, n), n);
    }
    if r.Some? {
      var d: nat :| d < n && Ring(rr, d, n) == r.value &&
                    forall e: nat {:trigger Ring(rr, e, n)} :: e < d ==> subs[Ring(rr, e, n)].demand == 0;
      RingAt(rr, r.value, d, n);
    } else {
      forall j | 0 <= j < n ensures subs[j].demand == 0 {
        assert subs[Ring(rr, Distance(rr, j, n), n)].demand == 0;
      }
    }
  }

  /** Where the ring stands after serving place `k`. */
  function After(k: nat, n: nat): (r: nat)
    requires k < n
    ensures r == (k + 1) % n
  {
    if k + 1 < n then assert (k + 1) % n == k + 1 by { ModOf(k + 1, 0, n); } k + 1
    else assert (k + 1) % n == 0 by { ModOf(0, 1, n); } 0
  }

  /** Right after serving `i`, everyone else is nearer than `i`. */
  lemma ServedGoesLast(i: nat, j: nat, n: nat)
    requires i < n && j < n && i != j
    ensures Distance(After(i, n), j, n) < Distance(After(i, n), i, n)
  {
    ModOf(After(i, n), 0, n);
  }

  lemma PassingKeepsOrder(b: nat, i: nat, j: nat, k: nat, n: nat)
    requires b < n && i < n && j < n && k < n
    requires Distance(b, k, n) < Distance(b, j, n) < Distance(b, i, n)
    ensures k != i
    ensures Distance(After(k, n), j, n) < Distance(After(k, n), i, n)
  {
    ModOf(b, 0, n);
    ModOf(After(k, n), 0, n);
  }

  /**
   * While `j` has standing demand and is nearer than `i`, serving anyone but `j` neither
   * serves `i` nor costs `j` its place before `i`.
   */
  lemma WaitingKeepsItsPlace(subs: seq<Subscriber>, rr: nat, i: nat, j: nat, k: nat)
    requires i < |subs| && j < |subs| && k != j
    requires PickReady(subs, rr) == Some(k)
    requires subs[j].demand > 0
    requires Distance(rr, j, |subs|) < Distance(rr, i, |subs|)
    ensures k != i && k < |subs|
    ensures Distance(After(k, |subs|), j, |subs|) < Distance(After(k, |subs|), i, |subs|)
  {
    var n := |subs|;
    PickReadyIsNearest(subs, rr);
    var b := rr % n;
    ModOf(b, 0, n);
    assert forall x :: 0 <= x < n ==> Distance(rr, x, n) == Distance(b, x, n);
    PassingKeepsOrder(b, i, j, k, n);
  }

  /** A drain keeps only the demand met by the dispatch that has just run. */
  function Drained(s: Subscriber): Subscriber {
    if s.drainPending then s.(demand := 0, drainPending := false) else s
  }

  function CompleteDrains(subs: seq<Subscriber>): seq<Subscriber> {
    seq(|subs|, i requires 0 <= i < |subs| => Drained(subs[i]))
  }
}
