/**
 * The proxy of a remotely led queue (ramqp-broker/src/proxy.rs): subscribers' credit carried across leader
 * changes, and publishes retried until each has one answer. Downstream, a `Line` per bound subscriber holds
 * the demand on its way to the leader, the demand the leader still owes, and the deliveries on their way
 * back; a rebind drops every line and opens new ones. Drains are not part of this model.
 *
 * A `Sub` also records, as history, the credit granted and the messages forwarded; `Pubs` records the
 * attempt or the answer behind each publish, how often each was sent, and which had an accepted attempt.
 */
module Proxy {
  import opened Collections
  import opened Dispatch

  const PUBLISH_ATTEMPTS: nat := 3

  datatype Sub = Sub(outstanding: nat, granted: nat, forwarded: seq<nat>)

  datatype Line = Line(mail: seq<nat>, demand: nat, events: seq<nat>)

  datatype Fate = Accepted | Rejected | Retry

  datatype Attempt = Attempt(token: nat, n: nat, epoch: nat, fate: Option<Fate>)

  datatype Pubs = Pubs(
    flying: map<nat, Attempt>, nextTag: nat, tokens: nat,
    waiting: map<nat, nat>, answers: map<nat, bool>, tries: map<nat, nat>, accepted: set<nat>)

  datatype Proxy = Proxy(
    subs: map<nat, Sub>, lines: map<nat, Line>, bound: bool, epoch: nat, nextKey: nat, open: bool, p: Pubs)

  const NEW_PUBS := Pubs(map[], 0, 0, map[], map[], map[], {})

  // ---------------------------------------------------------------- binding

  /** A line just opened, with the outstanding demand re-armed. */
  function Opened(outstanding: nat): Line {
    Line(if outstanding > 0 then [outstanding] else [], 0, [])
  }

  /** Tear down, find a leader, bind every subscriber again; or fail to. */
  function Rebound(q: Proxy, ok: bool): Proxy {
    q.(bound := ok, epoch := q.epoch + 1,
       lines := if ok then map key | key in q.subs :: Opened(q.subs[key].outstanding) else map[])
  }

  function Closing(q: Proxy, ok: bool): Proxy {
    Rebound(q, ok).(open := ok)
  }

  const START := Proxy(map[], map[], true, 1, 0, true, NEW_PUBS)

  // ---------------------------------------------------------------- subscribers

  function Subscribed(q: Proxy, ok: bool, rebindOk: bool): Proxy {
    var key := q.nextKey + 1;
    var r := q.(nextKey := key, subs := q.subs[key := Sub(0, 0, [])]);
    if q.bound && ok then r.(lines := q.lines[key := Line([], 0, [])]) else Closing(r, rebindOk)
  }

  function Demanded(q: Proxy, key: nat, credit: nat): Proxy {
    if key !in q.subs then q else
      var s := q.subs[key];
      q.(subs := q.subs[key := s.(outstanding := Min(s.outstanding + credit, U32_MAX), granted := s.granted + credit)],
         lines := if key in q.lines
                  then q.lines[key := q.lines[key].(mail := q.lines[key].mail + [credit])] else q.lines)
  }

  function Unsubscribed(q: Proxy, key: nat): Proxy {
    q.(subs := q.subs - {key}, lines := q.lines - {key})
  }

  /** The leader takes in a grant. */
  function TakesGrant(q: Proxy, key: nat): Proxy
    requires key in q.lines && q.lines[key].mail != []
  {
    var l := q.lines[key];
    q.(lines := q.lines[key := l.(mail := l.mail[1..], demand := Min(l.demand + l.mail[0], U32_MAX))])
  }

  /** The leader sends a message against demand. */
  function Sends(q: Proxy, key: nat, msg: nat): Proxy
    requires key in q.lines && q.lines[key].demand > 0
  {
    var l := q.lines[key];
    q.(lines := q.lines[key := l.(demand := l.demand - 1, events := l.events + [msg])])
  }

  /** The next delivery is handed to the subscriber's connection; `ok` is whether that is still there. */
  function Forwarded(q: Proxy, key: nat, ok: bool): Proxy
    requires key in q.lines && q.lines[key].events != [] && key in q.subs
  {
    var l, s := q.lines[key], q.subs[key];
    if !ok then Unsubscribed(q, key) else
      q.(lines := q.lines[key := l.(events := l.events[1..])],
         subs := q.subs[key := s.(outstanding := SatSub(s.outstanding, 1), forwarded := s.forwarded + [l.events[0]])])
  }

  // ---------------------------------------------------------------- publishes

  function Answered(p: Pubs, token: nat, yes: bool): Pubs {
    p.(waiting := p.waiting - {token}, answers := p.answers[token := yes])
  }

  /** How often a publish has been sent. */
  function SentOf(tries: map<nat, nat>, token: nat): nat {
    if token in tries then tries[token] else 0
  }

  function Flown(p: Pubs, token: nat, n: nat, epoch: nat): Pubs {
    p.(flying := p.flying[p.nextTag := Attempt(token, n, epoch, None)], nextTag := p.nextTag + 1,
       waiting := p.waiting[token := p.nextTag], tries := p.tries[token := SentOf(p.tries, token) + 1])
  }

  /** One attempt is sent to whoever leads, or the publish is refused when nobody does. */
  function Attempted(q: Proxy, token: nat, n: nat): Proxy {
    q.(p := if q.bound then Flown(q.p, token, n, q.epoch) else Answered(q.p, token, false))
  }

  function Published(q: Proxy): Proxy {
    Attempted(q.(p := q.p.(tokens := q.p.tokens + 1)), q.p.tokens, 0)
  }

  function Fated(q: Proxy, tag: nat, fate: Fate): Proxy
    requires tag in q.p.flying
  {
    var a := q.p.flying[tag];
    q.(p := q.p.(flying := q.p.flying[tag := a.(fate := Some(fate))],
                 accepted := if fate.Accepted? then q.p.accepted + {a.token} else q.p.accepted))
  }

  /** An attempt's fate reaches the proxy. */
  function Done(q: Proxy, tag: nat, rebindOk: bool): Proxy
    requires tag in q.p.flying && q.p.flying[tag].fate.Some?
  {
    var a := q.p.flying[tag];
    var q1 := q.(p := q.p.(flying := q.p.flying - {tag}));
    match a.fate.value
    case Accepted => q1.(p := Answered(q1.p, a.token, true))
    case Rejected => q1.(p := Answered(q1.p, a.token, false))
    case Retry =>
      if a.n + 1 >= PUBLISH_ATTEMPTS then q1.(p := Answered(q1.p, a.token, false))
      else
        var q2 := if a.epoch == q.epoch then Rebound(q1, rebindOk) else q1;
        if a.epoch == q.epoch && !rebindOk then q2.(p := Answered(q2.p, a.token, false))
        else Attempted(q2, a.token, a.n + 1)
  }

  // ---------------------------------------------------------------- steps

  datatype Step =
    | Subscribe(ok: bool, rebindOk: bool)
    | Demand(key: nat, credit: nat)
    | Unsubscribe(key: nat)
    | LeaderTakes(key: nat)
    | LeaderSends(key: nat, msg: nat)
    | Forward(key: nat, ok: bool)
    | LeaderGone(rebindOk: bool)
    | Publish
    | Outcome(tag: nat, fate: Fate)
    | PubDone(tag: nat, rebindOk: bool)

  predicate Enabled(q: Proxy, step: Step) {
    && q.open
    && match step
       case Subscribe(_, _) => true
       case Demand(_, _) => true
       case Unsubscribe(_) => true
       case LeaderTakes(key) => key in q.lines && q.lines[key].mail != []
       case LeaderSends(key, _) => key in q.lines && q.lines[key].demand > 0
       case Forward(key, _) => key in q.lines && q.lines[key].events != [] && key in q.subs
       case LeaderGone(_) => true
       case Publish => true
       case Outcome(tag, _) => tag in q.p.flying && q.p.flying[tag].fate.None?
       case PubDone(tag, _) => tag in q.p.flying && q.p.flying[tag].fate.Some?
  }

  function Next(q: Proxy, step: Step): Proxy
    requires Enabled(q, step)
  {
    match step
    case Subscribe(ok, rebindOk) => Subscribed(q, ok, rebindOk)
    case Demand(key, credit) => Demanded(q, key, credit)
    case Unsubscribe(key) => Unsubscribed(q, key)
    case LeaderTakes(key) => TakesGrant(q, key)
    case LeaderSends(key, msg) => Sends(q, key, msg)
    case Forward(key, ok) => Forwarded(q, key, ok)
    case LeaderGone(rebindOk) => Closing(q, rebindOk)
    case Publish => Published(q)
    case Outcome(tag, fate) => Fated(q, tag, fate)
    case PubDone(tag, rebindOk) => Done(q, tag, rebindOk)
  }

  ghost predicate IsRun(qs: seq<Proxy>, steps: seq<Step>) {
    && |qs| == |steps| + 1 && qs[0] == START
    && forall i :: 0 <= i < |steps| ==> Enabled(qs[i], steps[i]) && qs[i + 1] == Next(qs[i], steps[i])
  }

  // ---------------------------------------------------------------- invariant

  ghost predicate CreditKept(s: Sub) {
    s.granted == |s.forwarded| + s.outstanding && s.outstanding <= U32_MAX
  }

  function Itself(n: nat): nat { n }

  /** What is outstanding is on its way to the leader, owed by it, or on its way back. */
  ghost predicate OnTheLine(s: Sub, l: Line) {
    s.outstanding == SumSeq(l.mail, Itself) + l.demand + |l.events|
  }

  /** The credit of one subscriber is exact. */
  ghost predicate CreditOk(q: Proxy, key: nat) {
    && (key in q.subs ==> CreditKept(q.subs[key]))
    && (key in q.lines ==> key in q.subs && OnTheLine(q.subs[key], q.lines[key]))
  }

  /** Each publish is waiting on one attempt or has been answered, never both. */
  ghost predicate PubsOk(p: Pubs) {
    && (forall t :: t in p.waiting ==>
          t < p.tokens && t !in p.answers && p.waiting[t] in p.flying && p.flying[p.waiting[t]].token == t)
    && (forall t :: t in p.answers ==> t < p.tokens)
    && (forall t :: 0 <= t < p.tokens ==> t in p.waiting || t in p.answers)
    && (forall tag :: tag in p.flying ==>
          tag < p.nextTag && p.flying[tag].token in p.waiting && p.waiting[p.flying[tag].token] == tag)
  }

  /** An attempt's index says how often its publish was sent before. */
  ghost predicate TriesOk(p: Pubs) {
    && (forall t :: t in p.tries ==> t < p.tokens && p.tries[t] <= PUBLISH_ATTEMPTS)
    && (forall tag :: tag in p.flying ==> SentOf(p.tries, p.flying[tag].token) == p.flying[tag].n + 1)
  }

  ghost predicate Honest(p: Pubs) {
    && (forall t :: t in p.answers && p.answers[t] ==> t in p.accepted)
    && (forall tag :: tag in p.flying && p.flying[tag].fate == Some(Accepted) ==> p.flying[tag].token in p.accepted)
  }

  ghost predicate AllPubs(p: Pubs) { PubsOk(p) && TriesOk(p) && Honest(p) }

  ghost predicate Bound(q: Proxy) {
    && (if q.bound then q.lines.Keys == q.subs.Keys else q.lines == map[])
    && (forall key :: key in q.subs ==> key <= q.nextKey)
  }

  ghost predicate Inv(q: Proxy) {
    AllPubs(q.p) && Bound(q)
  }

  // ---------------------------------------------------------------- credit

  predicate FitsCredit(q: Proxy, key: nat, credit: nat) {
    key in q.subs ==> q.subs[key].outstanding + credit <= U32_MAX
  }

  lemma ReboundCredit(q: Proxy, ok: bool, key: nat)
    requires key in q.subs ==> CreditKept(q.subs[key])
    ensures CreditOk(Rebound(q, ok), key)
  {
    if key in q.subs { assert SumSeq([q.subs[key].outstanding], Itself) == q.subs[key].outstanding; }
  }

  lemma SubscribedCredit(q: Proxy, ok: bool, rebindOk: bool, key: nat)
    requires Bound(q) && CreditOk(q, key)
    ensures CreditOk(Subscribed(q, ok, rebindOk), key)
  {
    hide Rebound;
    ReboundCredit(q.(nextKey := q.nextKey + 1, subs := q.subs[q.nextKey + 1 := Sub(0, 0, [])]), rebindOk, key);
  }

  /** A grant that takes the outstanding credit past its width saturates it, and then the sum is lost. */
  lemma DemandedKeepsIff(q: Proxy, key: nat, credit: nat)
    requires CreditOk(q, key)
    ensures CreditOk(Demanded(q, key, credit), key) <==> FitsCredit(q, key, credit)
  {
    if key in q.lines {
      SumSeqConcat(q.lines[key].mail, [credit], Itself);
      assert SumSeq([credit], Itself) == credit;
    }
  }

  /** Two grants in a row, of all a u32 holds and of one more: what is outstanding stays at the first. */
  lemma GrantsSaturate()
    ensures var q := Demanded(Subscribed(START, true, true), 1, U32_MAX);
            var r := Demanded(q, 1, 1);
            && CreditOk(q, 1) && 1 in r.subs
            && r.subs[1].outstanding == U32_MAX && r.subs[1].granted == U32_MAX + 1
  {
    SubscribedCredit(START, true, true, 1);
    DemandedKeepsIff(Subscribed(START, true, true), 1, U32_MAX);
  }

  lemma TakesGrantCredit(q: Proxy, line: nat, key: nat)
    requires Enabled(q, LeaderTakes(line)) && CreditOk(q, key)
    ensures CreditOk(TakesGrant(q, line), key)
  {
    var l := q.lines[line];
    assert SumSeq(l.mail, Itself) == l.mail[0] + SumSeq(l.mail[1..], Itself);
  }

  /** The outstanding count never runs below the deliveries still to come, so its saturation never shows. */
  lemma ForwardedCredit(q: Proxy, line: nat, ok: bool, key: nat)
    requires Enabled(q, Forward(line, ok)) && CreditOk(q, key)
    ensures CreditOk(Forwarded(q, line, ok), key) && (line == key ==> q.subs[key].outstanding > 0)
  {
  }

  lemma DoneSubs(q: Proxy, tag: nat, rebindOk: bool)
    requires tag in q.p.flying && q.p.flying[tag].fate.Some?
    ensures var r := Done(q, tag, rebindOk);
            && r.subs == q.subs && r.nextKey == q.nextKey
            && ((r.lines == q.lines && r.bound == q.bound) ||
                (r.lines == Rebound(q, rebindOk).lines && r.bound == rebindOk))
  {
    hide Flown, Answered;
  }

  /** Every step keeps a subscriber's credit exact, but a grant to it that does not fit. */
  lemma NextCredit(q: Proxy, step: Step, key: nat)
    requires Bound(q) && CreditOk(q, key) && Enabled(q, step)
    requires step.Demand? && step.key == key ==> FitsCredit(q, key, step.credit)
    ensures CreditOk(Next(q, step), key)
  {
    hide Done, Rebound, Attempted, Subscribed, SumSeq;
    match step
    case Subscribe(ok, rebindOk) => SubscribedCredit(q, ok, rebindOk, key);
    case Demand(k, credit) => if k == key { DemandedKeepsIff(q, key, credit); }
    case LeaderTakes(line) => TakesGrantCredit(q, line, key);
    case Forward(line, ok) => ForwardedCredit(q, line, ok, key);
    case LeaderGone(rebindOk) => ReboundCredit(q, rebindOk, key);
    case PubDone(tag, rebindOk) =>
      DoneSubs(q, tag, rebindOk);
      ReboundCredit(q, rebindOk, key);
      ReboundKeepsSubs(q, rebindOk);
    case Publish => PublishedSubs(q);
    case _ =>
  }

  lemma ReboundKeepsSubs(q: Proxy, ok: bool)
    ensures Rebound(q, ok).subs == q.subs && Rebound(q, ok).p == q.p
  {
  }

  lemma PublishedSubs(q: Proxy)
    ensures Published(q).subs == q.subs && Published(q).lines == q.lines
    ensures Published(q).bound == q.bound && Published(q).nextKey == q.nextKey
  {
  }

  // ---------------------------------------------------------------- binding

  lemma ReboundBinds(q: Proxy, ok: bool)
    requires forall key :: key in q.subs ==> key <= q.nextKey
    ensures Bound(Rebound(q, ok)) && Bound(Closing(q, ok))
  {
  }

  lemma NextBinds(q: Proxy, step: Step)
    requires Bound(q) && Enabled(q, step)
    ensures Bound(Next(q, step))
  {
    hide Done, Rebound, Attempted, Opened;
    match step
    case Subscribe(ok, rebindOk) =>
      ReboundBinds(q.(nextKey := q.nextKey + 1, subs := q.subs[q.nextKey + 1 := Sub(0, 0, [])]), rebindOk);
    case LeaderGone(rebindOk) => ReboundBinds(q, rebindOk);
    case PubDone(tag, rebindOk) =>
      DoneSubs(q, tag, rebindOk);
      ReboundBinds(q, rebindOk);
      ReboundHas(q, rebindOk);
    case Publish => PublishedSubs(q);
    case _ =>
  }

  lemma ReboundHas(q: Proxy, ok: bool)
    ensures var r := Rebound(q, ok); r.subs == q.subs && r.bound == ok && r.nextKey == q.nextKey
  {
  }

  // ---------------------------------------------------------------- publishes

  /** A publish with no attempt in flight is about to be tried again, or answered. */
  ghost predicate Loose(p: Pubs, token: nat) {
    && token < p.tokens && token !in p.answers && token !in p.waiting && TriesOk(p) && Honest(p)
    && (forall t :: t in p.waiting ==>
          t < p.tokens && t !in p.answers && p.waiting[t] in p.flying && p.flying[p.waiting[t]].token == t)
    && (forall t :: t in p.answers ==> t < p.tokens)
    && (forall t :: 0 <= t < p.tokens && t != token ==> t in p.waiting || t in p.answers)
    && (forall tag :: tag in p.flying ==>
          tag < p.nextTag && p.flying[tag].token in p.waiting && p.waiting[p.flying[tag].token] == tag)
  }

  lemma FlownPubs(p: Pubs, token: nat, n: nat, epoch: nat)
    requires Loose(p, token)
    ensures PubsOk(Flown(p, token, n, epoch))
  {
    hide TriesOk, Honest;
    assert p.nextTag !in p.flying;
  }

  lemma FlownTries(p: Pubs, token: nat, n: nat, epoch: nat)
    requires Loose(p, token) && n == SentOf(p.tries, token) < PUBLISH_ATTEMPTS
    ensures TriesOk(Flown(p, token, n, epoch)) && Honest(Flown(p, token, n, epoch))
  {
    assert forall tag :: tag in p.flying ==> p.flying[tag].token != token;
  }

  lemma FlownKeeps(p: Pubs, token: nat, n: nat, epoch: nat)
    requires Loose(p, token) && n == SentOf(p.tries, token) < PUBLISH_ATTEMPTS
    ensures AllPubs(Flown(p, token, n, epoch))
  {
    hide Loose, PubsOk, TriesOk, Honest, Flown;
    FlownPubs(p, token, n, epoch);
    FlownTries(p, token, n, epoch);
  }

  lemma AnsweredKeeps(p: Pubs, token: nat, yes: bool)
    requires Loose(p, token) && (yes ==> token in p.accepted)
    ensures AllPubs(Answered(p, token, yes))
  {
  }

  lemma AttemptedKeeps(q: Proxy, token: nat, n: nat)
    requires Loose(q.p, token) && n == SentOf(q.p.tries, token) < PUBLISH_ATTEMPTS
    ensures AllPubs(Attempted(q, token, n).p)
  {
    hide Loose, AllPubs;
    if q.bound { FlownKeeps(q.p, token, n, q.epoch); } else { AnsweredKeeps(q.p, token, false); }
  }

  lemma TakenUp(p: Pubs, tag: nat)
    requires AllPubs(p) && tag in p.flying
    ensures Loose(p.(flying := p.flying - {tag}, waiting := p.waiting - {p.flying[tag].token}), p.flying[tag].token)
    ensures SentOf(p.tries, p.flying[tag].token) == p.flying[tag].n + 1 <= PUBLISH_ATTEMPTS
    ensures p.flying[tag].fate == Some(Accepted) ==> p.flying[tag].token in p.accepted
  {
  }

  lemma NewToken(p: Pubs)
    requires AllPubs(p)
    ensures Loose(p.(tokens := p.tokens + 1), p.tokens) && SentOf(p.tries, p.tokens) == 0
  {
  }

  lemma PublishedPubs(q: Proxy)
    requires AllPubs(q.p)
    ensures AllPubs(Published(q).p)
  {
    hide AllPubs, Loose, Flown, Answered;
    NewToken(q.p);
    AttemptedKeeps(q.(p := q.p.(tokens := q.p.tokens + 1)), q.p.tokens, 0);
  }

  lemma FatedPubs(q: Proxy, tag: nat, fate: Fate)
    requires AllPubs(q.p) && Enabled(q, Outcome(tag, fate))
    ensures AllPubs(Fated(q, tag, fate).p)
  {
  }

  lemma AgainSame(p: Pubs, token: nat, n: nat, epoch: nat, yes: bool)
    requires token in p.waiting
    ensures Flown(p, token, n, epoch) == Flown(p.(waiting := p.waiting - {token}), token, n, epoch)
    ensures Answered(p, token, yes) == Answered(p.(waiting := p.waiting - {token}), token, yes)
  {
    assert p.waiting[token := p.nextTag] == (p.waiting - {token})[token := p.nextTag];
    assert p.waiting - {token} == (p.waiting - {token}) - {token};
  }

  /** What a finished attempt leaves of the publishes. */
  lemma DoneIs(q: Proxy, tag: nat, rebindOk: bool)
    requires tag in q.p.flying && q.p.flying[tag].fate.Some?
    ensures var a, p1, r := q.p.flying[tag], q.p.(flying := q.p.flying - {tag}), Done(q, tag, rebindOk).p;
            || (r == Answered(p1, a.token, true) && a.fate == Some(Accepted))
            || r == Answered(p1, a.token, false)
            || (a.n + 1 < PUBLISH_ATTEMPTS &&
                (r == Flown(p1, a.token, a.n + 1, q.epoch) || r == Flown(p1, a.token, a.n + 1, q.epoch + 1)))
  {
    hide Flown, Answered;
  }

  lemma DonePubs(q: Proxy, tag: nat, rebindOk: bool)
    requires AllPubs(q.p) && tag in q.p.flying && q.p.flying[tag].fate.Some?
    ensures AllPubs(Done(q, tag, rebindOk).p)
  {
    hide AllPubs, Loose, Flown, Answered, Done;
    DoneIs(q, tag, rebindOk);
    var a := q.p.flying[tag];
    var p1 := q.p.(flying := q.p.flying - {tag});
    TakenUp(q.p, tag);
    WaitingOn(q.p, tag);
    var p2 := p1.(waiting := p1.waiting - {a.token});
    AgainSame(p1, a.token, a.n + 1, q.epoch, false);
    AgainSame(p1, a.token, a.n + 1, q.epoch + 1, true);
    AnsweredKeeps(p2, a.token, false);
    if a.fate == Some(Accepted) { AnsweredKeeps(p2, a.token, true); }
    if a.n + 1 < PUBLISH_ATTEMPTS {
      FlownKeeps(p2, a.token, a.n + 1, q.epoch);
      FlownKeeps(p2, a.token, a.n + 1, q.epoch + 1);
    }
  }

  lemma WaitingOn(p: Pubs, tag: nat)
    requires AllPubs(p) && tag in p.flying
    ensures p.flying[tag].token in p.waiting
  {
  }

  lemma NextKeeps(q: Proxy, step: Step)
    requires Inv(q) && Enabled(q, step)
    ensures Inv(Next(q, step))
  {
    hide AllPubs, Bound, Done, Attempted, Rebound;
    NextBinds(q, step);
    match step
    case Publish => PublishedPubs(q);
    case Outcome(tag, fate) => FatedPubs(q, tag, fate);
    case PubDone(tag, rebindOk) => DonePubs(q, tag, rebindOk);
    case Subscribe(ok, rebindOk) =>
      ReboundKeepsSubs(q.(nextKey := q.nextKey + 1, subs := q.subs[q.nextKey + 1 := Sub(0, 0, [])]), rebindOk);
    case LeaderGone(rebindOk) => ReboundKeepsSubs(q, rebindOk);
    case _ =>
  }

  lemma {:induction false} EveryRunKeeps(qs: seq<Proxy>, steps: seq<Step>, n: nat)
    requires IsRun(qs, steps) && n < |qs|
    ensures Inv(qs[n])
  {
    hide Inv, Next, Enabled;
    if n == 0 {
      StartKeeps();
    } else {
      EveryRunKeeps(qs, steps, n - 1);
      NextKeeps(qs[n - 1], steps[n - 1]);
    }
  }

  lemma StartKeeps()
    ensures Inv(START) && forall key :: CreditOk(START, key)
  {
  }

  // ---------------------------------------------------------------- what it means

  /** No grant to this subscriber takes what is outstanding past a u32. */
  ghost predicate GrantsFit(qs: seq<Proxy>, steps: seq<Step>, key: nat)
    requires |qs| == |steps| + 1
  {
    forall i :: 0 <= i < |steps| && steps[i].Demand? && steps[i].key == key ==> FitsCredit(qs[i], key, steps[i].credit)
  }

  lemma {:induction false} EveryRunCredit(qs: seq<Proxy>, steps: seq<Step>, n: nat, key: nat)
    requires IsRun(qs, steps) && GrantsFit(qs, steps, key) && n < |qs|
    ensures CreditOk(qs[n], key)
  {
    hide Inv, Next, Enabled, FitsCredit, CreditOk, Bound;
    if n == 0 {
      StartKeeps();
    } else {
      EveryRunCredit(qs, steps, n - 1, key);
      EveryRunKeeps(qs, steps, n - 1);
      InvBinds(qs[n - 1]);
      NextCredit(qs[n - 1], steps[n - 1], key);
    }
  }

  lemma InvBinds(q: Proxy)
    requires Inv(q)
    ensures Bound(q)
  {
  }

  /**
   * Across any leader changes, what was forwarded to a subscriber plus what is outstanding is what was granted,
   * whatever other subscribers are granted.
   */
  lemma CreditSurvivesFailover(qs: seq<Proxy>, steps: seq<Step>, n: nat, key: nat)
    requires IsRun(qs, steps) && GrantsFit(qs, steps, key) && n < |qs| && key in qs[n].subs
    ensures qs[n].subs[key].granted == |qs[n].subs[key].forwarded| + qs[n].subs[key].outstanding
  {
    hide IsRun, GrantsFit;
    EveryRunCredit(qs, steps, n, key);
  }

  /**
   * At every moment a publish is either waiting on exactly one attempt or answered, and was sent at most three
   * times.
   */
  lemma OneAnswerPerPublish(qs: seq<Proxy>, steps: seq<Step>, n: nat, t: nat)
    requires IsRun(qs, steps) && n < |qs| && t < qs[n].p.tokens
    ensures var p := qs[n].p;
            && (t in p.answers <==> !exists tag :: tag in p.flying && p.flying[tag].token == t)
            && (forall a, b :: a in p.flying && b in p.flying && p.flying[a].token == t && p.flying[b].token == t ==>
                  a == b)
            && SentOf(p.tries, t) <= PUBLISH_ATTEMPTS
            && (t in p.answers && p.answers[t] ==> t in p.accepted)
  {
    hide IsRun;
    EveryRunKeeps(qs, steps, n);
    var p := qs[n].p;
    if t in p.waiting { assert p.flying[p.waiting[t]].token == t; }
  }

  lemma AttemptedAnswers(q: Proxy, token: nat, n: nat, t: nat)
    requires t in q.p.answers && t != token
    ensures t in Attempted(q, token, n).p.answers && Attempted(q, token, n).p.answers[t] == q.p.answers[t]
  {
  }

  lemma DoneAnswers(q: Proxy, tag: nat, rebindOk: bool, t: nat)
    requires tag in q.p.flying && q.p.flying[tag].fate.Some? && t in q.p.answers && t != q.p.flying[tag].token
    ensures t in Done(q, tag, rebindOk).p.answers && Done(q, tag, rebindOk).p.answers[t] == q.p.answers[t]
  {
    hide Done;
    DoneIs(q, tag, rebindOk);
  }

  /** An answer, once given, stands. */
  lemma {:induction false} AnswersStand(qs: seq<Proxy>, steps: seq<Step>, m: nat, n: nat, t: nat)
    requires IsRun(qs, steps) && m <= n < |qs| && t in qs[m].p.answers
    ensures t in qs[n].p.answers && qs[n].p.answers[t] == qs[m].p.answers[t]
    decreases n - m
  {
    hide Inv, Next, Enabled;
    if m < n {
      AnswersStand(qs, steps, m, n - 1, t);
      EveryRunKeeps(qs, steps, n - 1);
      NextAnswers(qs[n - 1], steps[n - 1], t);
    }
  }

  lemma NextAnswers(q: Proxy, step: Step, t: nat)
    requires Inv(q) && Enabled(q, step) && t in q.p.answers
    ensures t in Next(q, step).p.answers && Next(q, step).p.answers[t] == q.p.answers[t]
  {
    hide TriesOk, Honest, Done, Attempted, Rebound;
    match step
    case Publish => AttemptedAnswers(q.(p := q.p.(tokens := q.p.tokens + 1)), q.p.tokens, 0, t);
    case PubDone(tag, rebindOk) => DoneAnswers(q, tag, rebindOk, t);
    case Subscribe(ok, rebindOk) =>
      ReboundKeepsSubs(q.(nextKey := q.nextKey + 1, subs := q.subs[q.nextKey + 1 := Sub(0, 0, [])]), rebindOk);
    case LeaderGone(rebindOk) => ReboundKeepsSubs(q, rebindOk);
    case _ =>
  }
}
