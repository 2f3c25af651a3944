/**
 * A consumer link on a proxied queue (ramqp-broker/src/connection.rs:752-787, 1424-1459 and proxy.rs): the
 * connection grants the proxy only what a flow adds to the demand it has already handed out, and takes one off
 * for each delivery it passes on. Together the two never grant the proxy more than a u32 holds.
 */
module ProxyLink {
  import opened Collections
  import opened Dispatch
  import opened Proxy

  /** The demand handed out on the link, the grants on their way to the proxy, and the deliveries on their way back. */
  datatype Duo = Duo(granted: nat, mail: seq<nat>, back: nat, q: Proxy)

  datatype Move =
    | Flow(credit: nat)
    | TakeGrant
    | Deliver
    | Other(step: Step)

  /** The proxy's grants to this subscriber are the ones on their way; a flow's credit is a u32. */
  predicate Can(s: Duo, key: nat, move: Move) {
    match move
    case Flow(credit) => credit <= U32_MAX
    case TakeGrant => s.q.open && s.mail != []
    case Deliver => s.back > 0
    case Other(step) => Enabled(s.q, step) && !(step.Demand? && step.key == key)
  }

  function After(s: Duo, key: nat, move: Move): Duo
    requires Can(s, key, move)
  {
    match move
    case Flow(credit) =>
      var delta := SatSub(credit, s.granted);
      s.(granted := if credit >= s.granted then credit else s.granted,
         mail := if delta > 0 then s.mail + [delta] else s.mail)
    case TakeGrant => s.(mail := s.mail[1..], q := Next(s.q, Demand(key, s.mail[0])))
    case Deliver => s.(back := s.back - 1, granted := SatSub(s.granted, 1))
    case Other(step) =>
      s.(q := Next(s.q, step), back := if step.Forward? && step.key == key && step.ok then s.back + 1 else s.back)
  }

  /** The connection's side, from when the subscription is answered. */
  ghost predicate IsRun(ss: seq<Duo>, moves: seq<Move>, key: nat) {
    && |ss| == |moves| + 1
    && ss[0].granted == 0 && ss[0].mail == [] && ss[0].back == 0
    && Inv(ss[0].q) && CreditOk(ss[0].q, key) && key <= ss[0].q.nextKey
    && (key in ss[0].q.subs ==> ss[0].q.subs[key].outstanding == 0)
    && forall i :: 0 <= i < |moves| ==> Can(ss[i], key, moves[i]) && ss[i + 1] == After(ss[i], key, moves[i])
  }

  /** While the subscriber is there, what the link handed out is on its way, outstanding, or on its way back. */
  ghost predicate Conserved(s: Duo, key: nat) {
    && s.granted <= U32_MAX && s.back <= s.granted && key <= s.q.nextKey
    && (key in s.q.subs ==> s.granted == SumSeq(s.mail, Itself) + s.q.subs[key].outstanding + s.back)
  }

  ghost predicate Good(s: Duo, key: nat) {
    Inv(s.q) && CreditOk(s.q, key) && Conserved(s, key)
  }

  /** What a proxy step does to one subscriber's outstanding credit. */
  lemma OutstandingAfter(q: Proxy, step: Step, key: nat)
    requires Enabled(q, step) && Inv(q) && CreditOk(q, key) && !(step.Demand? && step.key == key)
    requires key <= q.nextKey
    ensures var t := Next(q, step);
            && key <= t.nextKey && (key in t.subs ==> key in q.subs)
            && (step.Forward? && step.key == key && step.ok ==> key in t.subs)
            && (key in t.subs ==>
                  t.subs[key].outstanding + (if step.Forward? && step.key == key && step.ok then 1 else 0) ==
                  q.subs[key].outstanding)
  {
    hide AllPubs, Done, Rebound, Attempted;
    match step
    case Subscribe(ok, rebindOk) =>
      ReboundHas(q.(nextKey := q.nextKey + 1, subs := q.subs[q.nextKey + 1 := Sub(0, 0, [])]), rebindOk);
    case Forward(line, ok) => ForwardedCredit(q, line, ok, key);
    case LeaderGone(rebindOk) => ReboundHas(q, rebindOk);
    case PubDone(tag, rebindOk) => DoneSubs(q, tag, rebindOk);
    case Publish => PublishedSubs(q);
    case _ =>
  }

  lemma TakeGrantGood(s: Duo, key: nat)
    requires Good(s, key) && Can(s, key, TakeGrant)
    ensures FitsCredit(s.q, key, s.mail[0]) && Good(After(s, key, TakeGrant), key)
  {
    hide AllPubs, Bound, CreditOk;
    assert SumSeq(s.mail, Itself) == s.mail[0] + SumSeq(s.mail[1..], Itself);
    DemandedKeepsIff(s.q, key, s.mail[0]);
    NextKeeps(s.q, Demand(key, s.mail[0]));
  }

  lemma FlowGood(s: Duo, key: nat, credit: nat)
    requires Good(s, key) && Can(s, key, Flow(credit))
    ensures Good(After(s, key, Flow(credit)), key)
  {
    hide Inv, CreditOk;
    SumSeqConcat(s.mail, [SatSub(credit, s.granted)], Itself);
    assert SumSeq([SatSub(credit, s.granted)], Itself) == SatSub(credit, s.granted);
  }

  lemma OtherGood(s: Duo, key: nat, step: Step)
    requires Good(s, key) && Can(s, key, Other(step))
    ensures Good(After(s, key, Other(step)), key)
  {
    hide Next, Bound, AllPubs, CreditOk;
    OutstandingAfter(s.q, step, key);
    NextKeeps(s.q, step);
    NextCredit(s.q, step, key);
  }

  lemma AfterGood(s: Duo, key: nat, move: Move)
    requires Good(s, key) && Can(s, key, move)
    ensures Good(After(s, key, move), key)
  {
    hide Inv, CreditOk, Next;
    match move
    case Flow(credit) => FlowGood(s, key, credit);
    case TakeGrant => TakeGrantGood(s, key);
    case Deliver =>
    case Other(step) => OtherGood(s, key, step);
  }

  lemma {:induction false} EveryRunGood(ss: seq<Duo>, moves: seq<Move>, key: nat, n: nat)
    requires IsRun(ss, moves, key) && n < |ss|
    ensures Good(ss[n], key)
  {
    hide Inv, CreditOk, After, Can;
    if n > 0 {
      EveryRunGood(ss, moves, key, n - 1);
      AfterGood(ss[n - 1], key, moves[n - 1]);
    }
  }

  /**
   * On a proxied queue the link's credit is conserved, with no condition on the flows: every grant fits, so what
   * the peer was granted is exactly what was forwarded plus what is outstanding, through any leader changes.
   */
  lemma ProxiedCreditIsConserved(ss: seq<Duo>, moves: seq<Move>, key: nat, n: nat)
    requires IsRun(ss, moves, key) && n < |ss| && key in ss[n].q.subs
    ensures var s, sub := ss[n], ss[n].q.subs[key];
            && s.granted == SumSeq(s.mail, Itself) + sub.outstanding + s.back && s.granted <= U32_MAX
            && sub.granted == |sub.forwarded| + sub.outstanding
            && (s.q.open && s.mail != [] ==> FitsCredit(s.q, key, s.mail[0]))
  {
    hide IsRun, Inv;
    EveryRunGood(ss, moves, key, n);
    if ss[n].q.open && ss[n].mail != [] { TakeGrantGood(ss[n], key); }
  }
}
