/**
 * When the depth of a quorum queue passes its bound (ramqp-broker/src/quorum.rs:219-231, 268-290, 326-335): a
 * removal that the log fails puts its message back, whatever was published in the meantime; and a reserved
 * publish is never refused, also where no slot is held for it.
 */
module QuorumDepth {
  import opened Collections
  import opened Dispatch
  import opened TransientQueue
  import G = QueueGroup
  import opened Quorum
  import opened QuorumSafety
  import opened QuorumRuns

  /** The message a failed removal puts back, and whatever is ready beside it, is still within its time to live. */
  predicate StaysFresh(q: Leader, p: Policy, step: Step)
    requires ComesBack(q, step)
  {
    !IsExpired(q, p, Least(q.ready + {q.proposals[step.tag].kind.id}), step.now)
  }

  lemma ComesBackNew(q: Leader, p: Policy, step: Step)
    requires Ok(q, p) && ComesBack(q, step)
    ensures q.proposals[step.tag].kind.id !in q.ready
  {
    hide Owned, Ids, WithinLimit, Confirming, Asking, Answering, Counters, Tags;
    assert Leaving(q.proposals[step.tag]);
  }

  lemma BackInLoad(q: Leader, p: Policy, step: Step)
    requires Ok(q, p) && ComesBack(q, step)
    ensures var r := Completed(q, step.tag);
            && r.ready == q.ready + {q.proposals[step.tag].kind.id} && r.applied == q.applied
            && Load(r) == Load(q) + 1
  {
    hide Ok;
    ComesBackNew(q, p, step);
  }

  /** One expired head makes up for the message that came back. */
  lemma ExpiredLoad(q: Leader, p: Policy, now: nat)
    requires q.ready != {} && IsExpired(q, p, Least(q.ready), now)
    ensures Load(ExpireHead(q, p, now)) < Load(q)
  {
    var r := RemoveReady(q, Least(q.ready));
    ExpireTellsNothing(r, p, now);
    CardSub(ExpireHead(r, p, now).ready, r.ready);
    assert Load(ExpireHead(r, p, now)) <= Load(r);
  }

  lemma ServedLoad(q: Leader, p: Policy, now: nat, ok: nat -> bool)
    requires Ok(q, p) && q.ready != {}
    ensures IsExpired(q, p, Least(q.ready), now) ==> Load(AndServe(q, p, now, ok)) < Load(q)
    ensures !IsExpired(q, p, Least(q.ready), now) ==> Load(AndServe(q, p, now, ok)) == Load(q)
  {
    hide Ok, ServeAll, IsExpired, Load;
    ExpireOk(q, p, now);
    ServeAllLoad(ExpireHead(q, p, now), p, ok, 0);
    if IsExpired(q, p, Least(q.ready), now) { ExpiredLoad(q, p, now); }
  }

  /** Nothing ready, or nothing at the head past its time to live. */
  predicate HeadFresh(q: Leader, p: Policy, now: nat) {
    q.ready == {} || !IsExpired(q, p, Least(q.ready), now)
  }

  /**
   * What takes the depth past its bound: a failed removal that completes at the bound, or a reserved publish for
   * which there is no slot, and nothing at the head expires to make up for it.
   */
  predicate Passes(q: Leader, p: Policy, step: Step) {
    || (ComesBack(q, step) && Load(q) >= p.maxLen && StaysFresh(q, p, step))
    || (SqueezesIn(q, p, step) && HeadFresh(q, p, step.now))
  }

  lemma QuietLoad(q: Leader, p: Policy, now: nat, ok: nat -> bool)
    requires Ok(q, p) && q.ready == {}
    ensures Load(AndServe(q, p, now, ok)) == Load(q)
  {
    hide Ok, ServeAll, Load;
    ServeAllLoad(q, p, ok, 0);
  }

  lemma SqueezedLoad(q: Leader, p: Policy, step: Step)
    requires Ok(q, p) && SqueezesIn(q, p, step)
    ensures Load(Next(q, p, step)) > Top(q, p) <==> HeadFresh(q, p, step.now)
  {
    hide Ok, AndServe, Mail;
    var m := Mail(q, p, step.msg, step.resident, step.ms);
    PlacedWhenOk(q, p, q);
    MailLoad(q, p, step.msg, step.resident, step.ms);
    MailOk(q, p, step.msg, step.resident, step.ms);
    if m.ready == {} { QuietLoad(m, p, step.now, step.ok); } else { ServedLoad(m, p, step.now, step.ok); }
  }

  /** On every queue, under every policy: a step takes the depth past its bound, or further past it, exactly so. */
  lemma DepthPassesIff(q: Leader, p: Policy, step: Step)
    requires Ok(q, p) && Enabled(q, step)
    ensures Load(Next(q, p, step)) > Top(q, p) <==> Passes(q, p, step)
  {
    hide Ok, Load, AndServe, Completed, Mail, Commits, Fails, NoSlot, HeadFresh;
    NextLoad(q, p, step);
    if ComesBack(q, step) {
      BackInLoad(q, p, step);
      CompletedOk(q, p, step.tag);
      ServedLoad(Completed(q, step.tag), p, step.now, step.ok);
    } else if SqueezesIn(q, p, step) {
      SqueezedLoad(q, p, step);
    }
  }

  ghost function Passings(qs: seq<Leader>, p: Policy, steps: seq<Step>, n: nat): nat
    requires n <= |steps| && n < |qs|
  {
    if n == 0 then 0 else Passings(qs, p, steps, n - 1) + Truth(Passes(qs[n - 1], p, steps[n - 1]))
  }

  /** In every term the depth is at most the bound, or what the term began with, and one for each such step. */
  lemma {:induction false} DepthBounded(qs: seq<Leader>, p: Policy, steps: seq<Step>, n: nat)
    requires IsTerm(qs, p, steps) && n < |qs|
    requires forall id :: id in qs[0].applied.messages ==> 1 <= id <= qs[0].applied.nextMsgId
    ensures Load(qs[n]) <= Top(qs[0], p) + Passings(qs, p, steps, n)
  {
    hide Ok, Next, Enabled, Passes, Load;
    if n > 0 {
      DepthBounded(qs, p, steps, n - 1);
      EveryTermOk(qs, p, steps, n - 1);
      NextLoad(qs[n - 1], p, steps[n - 1]);
      DepthPassesIff(qs[n - 1], p, steps[n - 1]);
    }
  }

  /** And wherever it is past that, such a step took it there, right from the bound. */
  lemma {:induction false} PastTheBoundSince(qs: seq<Leader>, p: Policy, steps: seq<Step>, n: nat)
    requires IsTerm(qs, p, steps) && n < |qs| && Load(qs[n]) > Top(qs[0], p)
    requires forall id :: id in qs[0].applied.messages ==> 1 <= id <= qs[0].applied.nextMsgId
    ensures exists m ::
              && 0 <= m < n && Passes(qs[m], p, steps[m])
              && Load(qs[m]) == Top(qs[0], p) && Load(qs[m + 1]) == Load(qs[m]) + 1
  {
    hide Ok, Next, Enabled, Passes, Load;
    if n > 0 {
      EveryTermOk(qs, p, steps, n - 1);
      if Load(qs[n - 1]) > Top(qs[0], p) {
        PastTheBoundSince(qs, p, steps, n - 1);
      } else {
        DepthPassesIff(qs[n - 1], p, steps[n - 1]);
        NextLoad(qs[n - 1], p, steps[n - 1]);
        assert Passes(qs[n - 1], p, steps[n - 1]);
        PassesAtTheBound(qs[n - 1], p, steps[n - 1]);
      }
    }
  }

  lemma PassesAtTheBound(q: Leader, p: Policy, step: Step)
    requires Passes(q, p, step)
    ensures Load(q) >= p.maxLen
  {
  }

  // ---------------------------------------------------------------- a term that passes it

  const BOUND_ONE := Policy(None, 1, None, false, None)

  const ONE_MESSAGE := G.Plain(1, map[1 := G.PlainMessage([], 0, 0)])

  const SENT_ONE := [Delivery(1, 0, 0, 0, 0, 1, [])]

  function Served(demand: nat): seq<Subscriber> { [Subscriber(1, 0, 0, 0, 0, demand, false)] }

  /** The states of the term: one message ready, subscribed, delivered, acknowledged, another published, and so on. */
  function PassingStates(): seq<Leader> {
    var removal, publish := Proposal(Rem(1, true), Waiting), Proposal(Enq([], 0, 0), Waiting);
    var out := Leader(ONE_MESSAGE, {}, map[1 := 1], Served(0), map[], map[], 0, 0, 0, 1, 0, 0, 0,
                      NO_HISTORY.(sent := SENT_ONE));
    var acked := out.(inflight := map[], proposals := map[0 := removal], nextTag := 1,
                      h := out.h.(removing := map[1 := 0]));
    var published := acked.(proposals := map[0 := removal, 1 := publish], nextTag := 2, pending := 1, tokens := 1,
                            h := acked.h.(asking := map[0 := 1]));
    [ Begin(ONE_MESSAGE),
      Begin(ONE_MESSAGE).(subs := Served(0), nextSubId := 1),
      out,
      acked,
      published,
      published.(proposals := map[0 := removal.(status := Failed), 1 := publish]),
      published.(proposals := map[1 := publish], ready := {1}, h := published.h.(removing := map[])) ]
  }

  function PassingSteps(): seq<Step> {
    var ok := (i: nat) => true;
    [ Receive(Subscribe(0, 0, 0, 0), 0, 0, 0, ok),
      Receive(Demand(1, 1, false), 0, 0, 0, ok),
      Receive(Settle(1, 1, Ack), 0, 0, 0, ok),
      Receive(Publish([]), 0, 0, 0, ok),
      LogFails(0),
      Complete(0, 0, ok) ]
  }

  lemma PassingStart(p: Policy)
    requires p.ttlMs.None?
    ensures var qs, steps := PassingStates(), PassingSteps();
            qs[1] == Next(qs[0], p, steps[0])
  {
    assert NoDemand(Served(0));
    PickReadyIsNearest(Served(0), 0);
  }

  lemma PassingDelivers(p: Policy)
    requires p.ttlMs.None?
    ensures var qs, steps := PassingStates(), PassingSteps();
            qs[2] == Next(qs[1], p, steps[1])
  {
    var q := PassingStates()[1].(subs := Served(1));
    assert Grant(Served(0)[0], 1, false) == Served(1)[0];
    assert PassingStates()[1].subs[0 := Served(1)[0]] == Served(1);
    assert Mail(PassingStates()[1], p, Demand(1, 1, false), 0, 0) == q;
    PickReadyIsNearest(Served(1), 0);
    assert q.ready == {1};
    assert Least(q.ready) == 1;
    assert Served(1)[0 := Served(0)[0]] == Served(0);
    assert Serve(q, true) == PassingStates()[2];
    assert CompleteDrains(Served(0)) == Served(0);
  }

  lemma NothingToServe(q: Leader, p: Policy, now: nat, ok: nat -> bool)
    requires q.ready == {} && q.subs == Served(0)
    ensures AndServe(q, p, now, ok) == q
  {
    assert CompleteDrains(Served(0)) == Served(0);
  }

  lemma PassingAcks()
    ensures var qs, steps := PassingStates(), PassingSteps();
            qs[3] == Next(qs[2], BOUND_ONE, steps[2])
  {
    hide AndServe;
    var q := PassingStates()[2];
    assert q.inflight - {1} == map[] && q.failures - {1} == map[];
    assert Mail(q, BOUND_ONE, Settle(1, 1, Ack), 0, 0) == PassingStates()[3];
    NothingToServe(PassingStates()[3], BOUND_ONE, 0, PassingSteps()[2].ok);
  }

  lemma PassingPublishes()
    ensures var qs, steps := PassingStates(), PassingSteps();
            qs[4] == Next(qs[3], BOUND_ONE, steps[3])
  {
    hide AndServe;
    assert Mail(PassingStates()[3], BOUND_ONE, Publish([]), 0, 0) == PassingStates()[4];
    NothingToServe(PassingStates()[4], BOUND_ONE, 0, PassingSteps()[3].ok);
  }

  lemma PassingFails()
    ensures var qs, steps := PassingStates(), PassingSteps();
            && Enabled(qs[4], steps[4]) && qs[5] == Next(qs[4], BOUND_ONE, steps[4])
            && Enabled(qs[5], steps[5]) && qs[6] == Next(qs[5], BOUND_ONE, steps[5])
  {
    var q := PassingStates()[5];
    assert q.proposals - {0} == PassingStates()[6].proposals;
    assert q.h.removing - {1} == map[] && q.ready + {1} == {1};
    assert NoDemand(Served(0));
    PickReadyIsNearest(Served(0), 0);
  }

  /** The bound is passed: deliver, acknowledge, publish, and the removal fails. Two messages on a queue of one. */
  lemma DepthPassesItsBound()
    ensures IsTerm(PassingStates(), BOUND_ONE, PassingSteps())
    ensures Load(PassingStates()[0]) == 1 && Load(PassingStates()[6]) == 2 > BOUND_ONE.maxLen
  {
    hide Next;
    PassingStart(BOUND_ONE);
    PassingDelivers(BOUND_ONE);
    PassingAcks();
    PassingPublishes();
    PassingFails();
    assert PassingStates()[0].ready == {1};
  }

  // ---------------------------------------------------------------- reserved publishes that find no slot

  function Reserved(q: Leader): Leader {
    q.(proposals := map[0 := Proposal(Enq([], 0, 0), Waiting)], nextTag := 1, pending := 1, tokens := 1,
       h := q.h.(asking := map[0 := 0]))
  }

  function ReservedStep(): Step {
    Receive(PublishReserved([]), 0, 0, 0, (i: nat) => true)
  }

  /**
   * A new leader holds no slots, so a reserved publish sent again after a failover has none: two messages on a
   * queue of one.
   */
  lemma ReservedAfterFailoverPasses()
    ensures IsTerm([Begin(ONE_MESSAGE), Reserved(Begin(ONE_MESSAGE))], BOUND_ONE, [ReservedStep()])
    ensures Load(Begin(ONE_MESSAGE)) == 1 && Load(Reserved(Begin(ONE_MESSAGE))) == 2 > BOUND_ONE.maxLen
  {
    var q := Begin(ONE_MESSAGE);
    assert q.ready == {1};
    PickReadyIsNearest([], 0);
    assert Mail(q, BOUND_ONE, PublishReserved([]), 0, 0) == Reserved(q);
  }

  const DROP_ONE := Policy(None, 1, None, true, None)

  function DropHeadStates(): seq<Leader> {
    PassingStates()[..3] + [PassingStates()[2], Reserved(PassingStates()[2])]
  }

  function DropHeadSteps(): seq<Step> {
    PassingSteps()[..2] + [Receive(Reserve(1), 0, 0, 0, (i: nat) => true), ReservedStep()]
  }

  lemma DropHeadReserves()
    ensures var qs, steps := DropHeadStates(), DropHeadSteps();
            qs[3] == Next(qs[2], DROP_ONE, steps[2]) && qs[4] == Next(qs[3], DROP_ONE, steps[3])
  {
    hide AndServe;
    var q := PassingStates()[2];
    assert Mail(q, DROP_ONE, Reserve(1), 0, 0) == q;
    assert Mail(q, DROP_ONE, PublishReserved([]), 0, 0) == Reserved(q);
    NothingToServe(q, DROP_ONE, 0, DropHeadSteps()[2].ok);
    NothingToServe(Reserved(q), DROP_ONE, 0, DropHeadSteps()[3].ok);
  }

  /**
   * A drop-head queue of one, its message in flight: a reservation is granted and holds nothing, and its publish
   * passes the bound.
   */
  lemma DropHeadReservationPasses()
    ensures IsTerm(DropHeadStates(), DROP_ONE, DropHeadSteps())
    ensures Load(DropHeadStates()[0]) == 1 && Load(DropHeadStates()[4]) == 2 > DROP_ONE.maxLen
  {
    hide Next;
    PassingStart(DROP_ONE);
    PassingDelivers(DROP_ONE);
    DropHeadReserves();
    assert PassingStates()[0].ready == {1};
    var qs, steps := DropHeadStates(), DropHeadSteps();
    forall i | 0 <= i < 4 ensures qs[i + 1] == Next(qs[i], DROP_ONE, steps[i]) {
      assert i == 0 || i == 1 || i == 2 || i == 3;
    }
  }

  // ---------------------------------------------------------------- a refusal that displaces

  const DROPPING := Policy(None, 1, Some(0), true, None)

  /** A publish too large for the byte bound is refused, and the message it displaced is gone all the same. */
  lemma RefusedPublishDisplaces()
    ensures var q := Begin(ONE_MESSAGE);
            var r := Publishes(q, DROPPING, [0], false, 0, 0);
            && QuorumRuns.Refuses(q, DROPPING, 1, 0) && q.ready == {1}
            && r.h.answers == map[0 := None] && r.ready == {} && r.h.removing == map[1 := 0]
  {
    var q := Begin(ONE_MESSAGE);
    assert q.ready == {1};
    assert Least(q.ready) == 1;
  }
}
