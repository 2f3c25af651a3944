/**
 * The proxy as it runs (ramqp-broker/src/proxy.rs:203-348, 436-465, 575-732): its subscribers, downstream
 * lines and flying publishes updated in place, the rebind loop over subscribers, and the retry of publishes.
 */
module ProxyActor {
  import opened Collections
  import opened Dispatch
  import opened Proxy

  class Actor {
    var subs: map<nat, Sub>
    /** The downstream binding, one line per bound subscriber. */
    var lines: map<nat, Line>
    var bound: bool
    var epoch: nat
    var nextKey: nat
    var open: bool
    var p: Pubs

    ghost function State(): Proxy
      reads this
    {
      Proxy(subs, lines, bound, epoch, nextKey, open, p)
    }

    ghost predicate Valid()
      reads this
    {
      Inv(State())
    }

    constructor ()
      ensures State() == START && Valid()
    {
      subs, lines, bound, epoch, nextKey, open, p := map[], map[], true, 1, 0, true, NEW_PUBS;
      StartKeeps();
    }

    /** Drop every line, then bind each subscriber to the new leader and re-arm what it is still owed. */
    method Rebind(ok: bool)
      modifies this
      ensures State() == Rebound(old(State()), ok)
    {
      lines, bound := map[], false;
      epoch := epoch + 1;
      if ok {
        lines := BindAll(subs);
        bound := true;
      }
    }

    method BindAll(subs: map<nat, Sub>) returns (bound: map<nat, Line>)
      ensures bound == map key | key in subs :: Opened(subs[key].outstanding)
    {
      bound := map[];
      var todo := subs.Keys;
      while todo != {}
        invariant todo <= subs.Keys
        invariant bound == map key | key in subs && key !in todo :: Opened(subs[key].outstanding)
        decreases todo
      {
        var key :| key in todo;
        var mail := if subs[key].outstanding > 0 then [subs[key].outstanding] else [];
        bound := bound[key := Line(mail, 0, [])];
        todo := todo - {key};
      }
    }

    method OnSubscribe(ok: bool, rebindOk: bool) returns (key: nat)
      requires Valid() && open
      modifies this
      ensures Valid() && State() == Subscribed(old(State()), ok, rebindOk) && key == nextKey
    {
      hide Inv;
      NextKeeps(State(), Subscribe(ok, rebindOk));
      nextKey := nextKey + 1;
      key := nextKey;
      subs := subs[key := Sub(0, 0, [])];
      if bound && ok {
        lines := lines[key := Line([], 0, [])];
      } else {
        Rebind(rebindOk);
        open := rebindOk;
      }
    }

    /** A grant saturates at the width of a u32, and exact credit stays exact just when it does not. */
    method OnDemand(key: nat, credit: nat)
      requires Valid() && open
      modifies this
      ensures Valid() && State() == Demanded(old(State()), key, credit)
      ensures old(CreditOk(State(), key)) ==> (CreditOk(State(), key) <==> FitsCredit(old(State()), key, credit))
    {
      hide Inv, CreditOk;
      NextKeeps(State(), Demand(key, credit));
      if CreditOk(State(), key) { DemandedKeepsIff(State(), key, credit); }
      if key !in subs { return; }
      var record := subs[key];
      var left := Min(record.outstanding + credit, U32_MAX);
      subs := subs[key := record.(outstanding := left, granted := record.granted + credit)];
      if key in lines { lines := lines[key := lines[key].(mail := lines[key].mail + [credit])]; }
    }

    /** Hand a delivery to its subscriber; while its credit is exact there is always demand outstanding for it. */
    method ForwardDelivery(key: nat, ok: bool)
      requires Valid() && open && key in lines && lines[key].events != [] && key in subs
      modifies this
      ensures Valid() && State() == Forwarded(old(State()), key, ok)
      ensures old(CreditOk(State(), key)) ==> CreditOk(State(), key) && old(subs)[key].outstanding > 0
    {
      hide Inv, CreditOk;
      NextKeeps(State(), Forward(key, ok));
      if CreditOk(State(), key) { ForwardedCredit(State(), key, ok, key); }
      var msg := lines[key].events[0];
      if ok {
        lines := lines[key := lines[key].(events := lines[key].events[1..])];
        var s := subs[key];
        subs := subs[key := s.(outstanding := SatSub(s.outstanding, 1), forwarded := s.forwarded + [msg])];
      } else {
        subs, lines := subs - {key}, lines - {key};
      }
    }

    method Answer(token: nat, yes: bool)
      modifies `p
      ensures p == Answered(old(p), token, yes)
    {
      p := p.(waiting := p.waiting - {token}, answers := p.answers[token := yes]);
    }

    /** Forward one publish downstream, or refuse it while unbound. */
    method TryPublish(token: nat, n: nat)
      modifies `p
      ensures State() == Attempted(old(State()), token, n)
    {
      if bound {
        p := p.(flying := p.flying[p.nextTag := Attempt(token, n, epoch, None)], nextTag := p.nextTag + 1,
                waiting := p.waiting[token := p.nextTag],
                tries := p.tries[token := (if token in p.tries then p.tries[token] else 0) + 1]);
      } else {
        Answer(token, false);
      }
    }

    method OnPublish() returns (token: nat)
      requires Valid() && open
      modifies this
      ensures Valid() && State() == Published(old(State())) && token == old(p.tokens)
    {
      hide Inv;
      NextKeeps(State(), Publish);
      token := p.tokens;
      p := p.(tokens := p.tokens + 1);
      TryPublish(token, 0);
    }

    /** An attempt's fate: answer the producer, or rebind if its binding is still the current one and try again. */
    method OnPubDone(tag: nat, rebindOk: bool)
      requires Valid() && open && tag in p.flying && p.flying[tag].fate.Some?
      modifies this
      ensures Valid() && State() == Done(old(State()), tag, rebindOk)
    {
      hide Inv, Answered, Flown, Rebound;
      NextKeeps(State(), PubDone(tag, rebindOk));
      var a := p.flying[tag];
      p := p.(flying := p.flying - {tag});
      match a.fate.value
      case Accepted => Answer(a.token, true);
      case Rejected => Answer(a.token, false);
      case Retry =>
        if a.n + 1 >= PUBLISH_ATTEMPTS {
          Answer(a.token, false);
          return;
        }
        if a.epoch == epoch {
          Rebind(rebindOk);
          if !rebindOk {
            Answer(a.token, false);
            return;
          }
        }
        TryPublish(a.token, a.n + 1);
    }
  }
}
