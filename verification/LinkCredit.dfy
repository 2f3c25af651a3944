/**
 * One connection and the queues its links are bound to (ramqp-broker/src/connection.rs with
 * ramqp-broker/src/queue.rs): link credit reconciled over FIFO channels in both directions, across
 * detach, session end and reuse of `(channel, handle)`. Other connections and producers are traffic
 * that may do anything to their own subscriptions. No drains on this connection.
 */
module LinkCredit {
  import opened Collections
  import opened Dispatch
  import opened TransientQueue
  import opened QueueSafety
  import opened QueueRuns
  import opened Subscriptions

  /** This connection, among those the queues know. */
  const ME: nat := 0

  datatype Key = Key(channel: nat, handle: nat)

  datatype Binding = Consumer(queue: nat, sub: nat, epoch: nat, granted: nat) | Other

  /** An attach in progress: the connection waits for the queue to assign a subscriber id. */
  datatype Attaching =
    | Idle
    | Waiting(key: Key, queue: nat, epoch: nat)
    | Replied(key: Key, queue: nat, epoch: nat, sub: nat)

  /** A delivery handed to the peer and not settled yet. */
  datatype Token = Token(queue: nat, sub: nat, msgId: nat)

  datatype Conn = Conn(
    sessions: set<nat>, bindings: map<Key, Binding>, nextGen: nat, attaching: Attaching, pending: multiset<Token>)

  /** A `Deliver` on its way to the connection; `queue` is who sent it, which the connection cannot see. */
  datatype Cmd = Cmd(queue: nat, d: Delivery)

  datatype Home = Home(queue: nat, sub: nat, key: Key)

  /** `home` and `gens` are history: which subscription each generation was issued for, both ways round. */
  datatype Sys = Sys(
    queues: map<nat, Queue>, mail: map<nat, seq<Message>>, cmds: seq<Cmd>, conn: Conn,
    home: map<nat, Home>, gens: map<(nat, nat), nat>)

  // ---------------------------------------------------------------- the connection's moves

  function Post(s: Sys, queue: nat, msg: Message): Sys {
    if queue in s.mail then s.(mail := s.mail[queue := s.mail[queue] + [msg]]) else s
  }

  /** Session end and detach remove bindings one by one; nothing else happens meanwhile. */
  predicate Releasing(c: Conn) {
    exists k :: k in c.bindings && k.channel !in c.sessions
  }

  predicate Busy(c: Conn) {
    c.attaching != Idle || Releasing(c)
  }

  function Unbind(s: Sys, key: Key): Sys
    requires key in s.conn.bindings
  {
    var t := s.(conn := s.conn.(bindings := s.conn.bindings - {key}));
    match s.conn.bindings[key]
    case Consumer(queue, sub, _, _) => Post(t, queue, Unsubscribe(sub))
    case Other => t
  }

  function StartAttach(s: Sys, key: Key, queue: nat): Sys {
    var epoch := s.conn.nextGen;
    Post(s.(conn := s.conn.(nextGen := epoch + 1, attaching := Waiting(key, queue, epoch))),
         queue, Subscribe(ME, key.channel, key.handle, epoch))
  }

  function FinishAttach(s: Sys): Sys
    requires s.conn.attaching.Replied?
  {
    var a := s.conn.attaching;
    s.(conn := s.conn.(attaching := Idle, bindings := s.conn.bindings[a.key := Consumer(a.queue, a.sub, a.epoch, 0)]))
  }

  /** A flow restates the peer's absolute credit; only what exceeds the demand already handed out is forwarded. */
  function Credit(s: Sys, key: Key, credit: nat): Sys {
    if key in s.conn.bindings && s.conn.bindings[key].Consumer? then
      var b := s.conn.bindings[key];
      var delta := SatSub(credit, b.granted);
      var most := if credit >= b.granted then credit else b.granted;
      var t := s.(conn := s.conn.(bindings := s.conn.bindings[key := b.(granted := most)]));
      if delta > 0 then Post(t, b.queue, Demand(b.sub, delta, false)) else t
    else s
  }

  /** The binding at the delivery's key is the live one it was issued for. */
  predicate Routes(c: Conn, d: Delivery) {
    var k := Key(d.channel, d.handle);
    k in c.bindings && c.bindings[k].Consumer? && c.bindings[k].epoch == d.gen
  }

  /** Take the next command: account it against the demand handed out and pass it on, or drop it. */
  function Command(s: Sys): Sys
    requires s.cmds != []
  {
    var d, t := s.cmds[0].d, s.(cmds := s.cmds[1..]);
    if Routes(s.conn, d) then
      var k := Key(d.channel, d.handle);
      var b := s.conn.bindings[k];
      t.(conn := s.conn.(
           bindings := s.conn.bindings[k := b.(granted := SatSub(b.granted, 1))],
           pending := s.conn.pending + multiset{Token(b.queue, b.sub, d.msgId)}))
    else t
  }

  /** The peer (or a discharged transaction, or a dying link) settles a delivery. */
  function Resolve(s: Sys, x: Token, outcome: Outcome): Sys {
    if x in s.conn.pending then
      Post(s.(conn := s.conn.(pending := s.conn.pending - multiset{x})), x.queue, Settle(x.sub, x.msgId, outcome))
    else s
  }

  // ---------------------------------------------------------------- the queues' moves

  /** What the rest of the broker may send: anything, about subscriptions that are not this connection's. */
  predicate EnvMay(s: Sys, queue: nat, msg: Message) {
    queue in s.queues &&
    match msg
    case Subscribe(conn, _, _, _) => conn != ME
    case Demand(sub, _, _) => sub <= s.queues[queue].nextSubId && (queue, sub) !in s.gens
    case Settle(sub, _, _) => sub <= s.queues[queue].nextSubId && (queue, sub) !in s.gens
    case Unsubscribe(sub) => sub <= s.queues[queue].nextSubId && (queue, sub) !in s.gens
    case _ => true
  }

  /** The queue takes its next message; a subscription of this connection is answered with its id. */
  function Receive(s: Sys, p: Policy, queue: nat, stamp: nat): Sys
    requires queue in s.queues && queue in s.mail && s.mail[queue] != []
  {
    var q, msg := s.queues[queue], s.mail[queue][0];
    var t := s.(queues := s.queues[queue := Arm(q, p, msg, stamp)], mail := s.mail[queue := s.mail[queue][1..]]);
    if msg.Subscribe? && msg.conn == ME then
      var k, sub := Key(msg.channel, msg.handle), q.nextSubId + 1;
      t.(home := s.home[msg.gen := Home(queue, sub, k)],
         gens := s.gens[(queue, sub) := msg.gen],
         conn := s.conn.(attaching := Replied(k, queue, msg.gen, sub)))
    else t
  }

  /** Sends to this connection always succeed: it is alive. */
  predicate MayTurn(q: Queue, t: Turn) {
    !t.ArmTurn? && (t == SendTurn(false) && CanDispatch(q) ==> Target(q).conn != ME)
  }

  function QueueTurn(s: Sys, p: Policy, queue: nat, t: Turn): Sys
    requires queue in s.queues && MayTurn(s.queues[queue], t)
  {
    var q := s.queues[queue];
    var r := Take(q, p, t);
    var u := s.(queues := s.queues[queue := r]);
    if t == SendTurn(true) && CanDispatch(q) && Target(q).conn == ME then
      var x := Target(q);
      u.(cmds := s.cmds + [Cmd(queue,
                               Delivery(x.id, x.conn, x.channel, x.handle, x.gen, q.ready[0].id, q.ready[0].body))])
    else u
  }

  datatype Step =
    | SBegin(channel: nat)
    | SEnd(channel: nat)
    | SRelease(key: Key)
    | SAttach(key: Key, queue: nat)
    | SAttachOther(key: Key)
    | SBound
    | SCredit(key: Key, credit: nat)
    | SDetach(key: Key)
    | SCommand
    | SResolve(token: Token, outcome: Outcome)
    | SPost(queue: nat, msg: Message)
    | SReceive(queue: nat, stamp: nat)
    | STurn(queue: nat, turn: Turn)

  function Next(s: Sys, ps: map<nat, Policy>, step: Step): Sys {
    var c := s.conn;
    match step
    case SBegin(ch) => if Busy(c) then s else s.(conn := c.(sessions := c.sessions + {ch}))
    case SEnd(ch) => if Busy(c) then s else s.(conn := c.(sessions := c.sessions - {ch}))
    case SRelease(key) => if key in c.bindings && key.channel !in c.sessions then Unbind(s, key) else s
    case SAttach(key, queue) =>
      if Busy(c) || key.channel !in c.sessions || key in c.bindings || queue !in s.mail then s
      else StartAttach(s, key, queue)
    case SAttachOther(key) =>
      if Busy(c) || key.channel !in c.sessions || key in c.bindings then s
      else s.(conn := c.(nextGen := c.nextGen + 1, bindings := c.bindings[key := Other]))
    case SBound => if c.attaching.Replied? then FinishAttach(s) else s
    case SCredit(key, credit) => if Busy(c) || credit > U32_MAX then s else Credit(s, key, credit)
    case SDetach(key) => if Busy(c) || key !in c.bindings then s else Unbind(s, key)
    case SCommand => if Busy(c) || s.cmds == [] then s else Command(s)
    case SResolve(token, outcome) => Resolve(s, token, outcome)
    case SPost(queue, msg) => if EnvMay(s, queue, msg) then Post(s, queue, msg) else s
    case SReceive(queue, stamp) =>
      if queue in s.queues && queue in s.mail && queue in ps && s.mail[queue] != []
      then Receive(s, ps[queue], queue, stamp) else s
    case STurn(queue, turn) =>
      if queue in s.queues && queue in ps && MayTurn(s.queues[queue], turn)
      then QueueTurn(s, ps[queue], queue, turn) else s
  }

  ghost function Start(names: set<nat>): Sys {
    Sys(map n | n in names :: EMPTY, map n | n in names :: [], [],
        Conn({}, map[], 0, Idle, multiset{}), map[], map[])
  }

  ghost function Run(ps: map<nat, Policy>, steps: seq<Step>): Sys {
    if steps == [] then Start(ps.Keys) else Next(Run(ps, steps[..|steps| - 1]), ps, steps[|steps| - 1])
  }

  // ---------------------------------------------------------------- what is in the channels

  function DemandIn(mail: seq<Message>, sub: nat): nat {
    if mail == [] then 0
    else (if mail[0].Demand? && mail[0].sub == sub then mail[0].credit else 0) + DemandIn(mail[1..], sub)
  }

  predicate HasUnsub(mail: seq<Message>, sub: nat) {
    mail != [] && (mail[0] == Unsubscribe(sub) || HasUnsub(mail[1..], sub))
  }

  predicate HasSettle(mail: seq<Message>, sub: nat, id: nat) {
    mail != [] && ((mail[0].Settle? && mail[0].sub == sub && mail[0].msgId == id) || HasSettle(mail[1..], sub, id))
  }

  function InFlight(cmds: seq<Cmd>, queue: nat, sub: nat): nat {
    if cmds == [] then 0
    else (if cmds[0].queue == queue && cmds[0].d.sub == sub then 1 else 0) + InFlight(cmds[1..], queue, sub)
  }

  predicate HasCmd(cmds: seq<Cmd>, queue: nat, sub: nat, id: nat) {
    cmds != [] &&
    ((cmds[0].queue == queue && cmds[0].d.sub == sub && cmds[0].d.msgId == id) || HasCmd(cmds[1..], queue, sub, id))
  }

  lemma {:induction false} MailAppend(mail: seq<Message>, msg: Message, sub: nat, id: nat)
    ensures DemandIn(mail + [msg], sub) ==
            DemandIn(mail, sub) + (if msg.Demand? && msg.sub == sub then msg.credit else 0)
    ensures HasUnsub(mail + [msg], sub) <==> HasUnsub(mail, sub) || msg == Unsubscribe(sub)
    ensures HasSettle(mail + [msg], sub, id) <==>
            HasSettle(mail, sub, id) || (msg.Settle? && msg.sub == sub && msg.msgId == id)
  {
    if mail != [] {
      assert (mail + [msg])[1..] == mail[1..] + [msg];
      MailAppend(mail[1..], msg, sub, id);
    } else {
      assert mail + [msg] == [msg];
    }
  }

  lemma {:induction false} CmdAppend(cmds: seq<Cmd>, c: Cmd, queue: nat, sub: nat, id: nat)
    ensures InFlight(cmds + [c], queue, sub) ==
            InFlight(cmds, queue, sub) + (if c.queue == queue && c.d.sub == sub then 1 else 0)
    ensures HasCmd(cmds + [c], queue, sub, id) <==>
            HasCmd(cmds, queue, sub, id) || (c.queue == queue && c.d.sub == sub && c.d.msgId == id)
  {
    if cmds != [] {
      assert (cmds + [c])[1..] == cmds[1..] + [c];
      CmdAppend(cmds[1..], c, queue, sub, id);
    } else {
      assert cmds + [c] == [c];
    }
  }

  // ---------------------------------------------------------------- invariant

  /** The demand this connection has handed out for generation `g`, while it is bound or being bound. */
  ghost function Granted(c: Conn, g: nat, key: Key): Option<nat> {
    if key in c.bindings && c.bindings[key].Consumer? && c.bindings[key].epoch == g then Some(c.bindings[key].granted)
    else if c.attaching.Replied? && c.attaching.epoch == g then Some(0)
    else None
  }

  /**
   * One subscription seen from both ends. While bound, the demand handed out is exactly what is still in the
   * mailbox, plus what the queue holds, plus the deliveries on their way back. Once unbound, the queue either
   * has already forgotten it or is about to.
   */
  ghost predicate LinkView(g: nat, h: Home, r: Option<Subscriber>, leaving: bool, owed: nat, inflight: nat,
                           granted: Option<nat>)
  {
    && (r.Some? ==>
          && r.value.conn == ME && Key(r.value.channel, r.value.handle) == h.key && r.value.gen == g
          && !r.value.drainPending)
    && (granted.Some? ==> r.Some? && !leaving && granted.value == owed + r.value.demand + inflight <= U32_MAX)
    && (granted.None? ==> r.Some? ==> leaving)
  }

  ghost predicate LinkOk(s: Sys, g: nat)
    requires g in s.home && s.home[g].queue in s.queues && s.home[g].queue in s.mail
  {
    var h := s.home[g];
    LinkView(g, h, Rec(s.queues[h.queue].subs, h.sub), HasUnsub(s.mail[h.queue], h.sub),
             DemandIn(s.mail[h.queue], h.sub), InFlight(s.cmds, h.queue, h.sub), Granted(s.conn, g, h.key))
  }

  ghost predicate HomesOk(s: Sys) {
    && (forall g :: g in s.home ==>
          && g < s.conn.nextGen && s.home[g].queue in s.queues
          && s.home[g].sub <= s.queues[s.home[g].queue].nextSubId
          && (s.home[g].queue, s.home[g].sub) in s.gens && s.gens[(s.home[g].queue, s.home[g].sub)] == g)
    && (forall x :: x in s.gens ==>
          s.gens[x] in s.home && s.home[s.gens[x]].queue == x.0 && s.home[s.gens[x]].sub == x.1)
  }

  ghost predicate ConnOk(s: Sys) {
    && (forall k :: k in s.conn.bindings && s.conn.bindings[k].Consumer? ==>
          var b := s.conn.bindings[k]; b.epoch in s.home && s.home[b.epoch] == Home(b.queue, b.sub, k))
    && (forall x :: x in s.conn.pending ==> (x.queue, x.sub) in s.gens)
    && match s.conn.attaching
       case Idle => true
       case Waiting(k, queue, e) => e < s.conn.nextGen && e !in s.home && k !in s.conn.bindings
       case Replied(k, queue, e, sub) => e in s.home && s.home[e] == Home(queue, sub, k) && k !in s.conn.bindings
  }

  ghost predicate QueueOk(s: Sys, queue: nat)
    requires queue in s.queues
  {
    var q := s.queues[queue];
    && Core(q) && Owned(q)
    && forall sub: nat :: Rec(q.subs, sub).Some? ==> (Rec(q.subs, sub).value.conn == ME <==> (queue, sub) in s.gens)
  }

  predicate IsMine(msg: Message) {
    msg.Subscribe? && msg.conn == ME
  }

  ghost predicate MsgOk(s: Sys, queue: nat, msg: Message)
    requires queue in s.queues
  {
    match msg
    case Subscribe(conn, ch, h, g) => conn == ME ==> s.conn.attaching == Waiting(Key(ch, h), queue, g)
    case Demand(sub, _, drain) => sub <= s.queues[queue].nextSubId && ((queue, sub) in s.gens ==> !drain)
    case Settle(sub, _, _) => sub <= s.queues[queue].nextSubId
    case Unsubscribe(sub) => sub <= s.queues[queue].nextSubId
    case _ => true
  }

  ghost predicate MailOk(s: Sys, queue: nat)
    requires queue in s.queues && queue in s.mail
  {
    && (forall i :: 0 <= i < |s.mail[queue]| ==> MsgOk(s, queue, s.mail[queue][i]))
    && (forall i, j :: 0 <= i < j < |s.mail[queue]| && IsMine(s.mail[queue][i]) ==> !IsMine(s.mail[queue][j]))
  }

  ghost predicate CmdsOk(s: Sys) {
    forall i :: 0 <= i < |s.cmds| ==>
      var d := s.cmds[i].d;
      d.gen in s.home && s.home[d.gen] == Home(s.cmds[i].queue, d.sub, Key(d.channel, d.handle))
  }

  /** A dispatched message is always on its way somewhere: to the peer, with the peer, or back. */
  ghost predicate AccountedFor(s: Sys, queue: nat, sub: nat, id: nat)
    requires queue in s.mail
  {
    || HasCmd(s.cmds, queue, sub, id)
    || Token(queue, sub, id) in s.conn.pending
    || HasSettle(s.mail[queue], sub, id)
    || HasUnsub(s.mail[queue], sub)
  }

  ghost predicate Accounted(s: Sys, queue: nat)
    requires queue in s.queues && queue in s.mail
  {
    forall id :: id in s.queues[queue].unacked && (queue, s.queues[queue].unacked[id].owner) in s.gens ==>
      AccountedFor(s, queue, s.queues[queue].unacked[id].owner, id)
  }

  ghost predicate Shape(s: Sys, ps: map<nat, Policy>) {
    s.queues.Keys == s.mail.Keys == ps.Keys && HomesOk(s) && ConnOk(s) && CmdsOk(s)
  }

  ghost predicate LinksOk(s: Sys) {
    HomesOk(s) && s.queues.Keys == s.mail.Keys && forall g :: g in s.home ==> LinkOk(s, g)
  }

  ghost predicate QueuesOk(s: Sys) {
    forall queue :: queue in s.queues ==> QueueOk(s, queue)
  }

  ghost predicate MailsOk(s: Sys) {
    s.queues.Keys == s.mail.Keys && forall queue :: queue in s.queues ==> MailOk(s, queue)
  }

  ghost predicate AllAccounted(s: Sys) {
    s.queues.Keys == s.mail.Keys && forall queue :: queue in s.queues ==> Accounted(s, queue)
  }

  ghost predicate Inv(s: Sys, ps: map<nat, Policy>) {
    Shape(s, ps) && LinksOk(s) && QueuesOk(s) && MailsOk(s) && AllAccounted(s)
  }

  lemma LinkAt(s: Sys, g: nat)
    requires LinksOk(s) && g in s.home
    ensures s.home[g].queue in s.queues && s.home[g].queue in s.mail && LinkOk(s, g)
  {
    hide LinkOk;
  }

  lemma QueueAt(s: Sys, queue: nat)
    requires QueuesOk(s) && queue in s.queues
    ensures Core(s.queues[queue]) && Owned(s.queues[queue])
  {
    hide Core, Owned;
  }

  lemma TagAt(s: Sys, queue: nat, sub: nat)
    requires QueuesOk(s) && queue in s.queues && Rec(s.queues[queue].subs, sub).Some?
    ensures Rec(s.queues[queue].subs, sub).value.conn == ME <==> (queue, sub) in s.gens
  {
    hide Core, Owned;
    assert QueueOk(s, queue);
  }

  lemma AccountedAt(s: Sys, queue: nat, id: nat)
    requires AllAccounted(s) && queue in s.queues
    requires id in s.queues[queue].unacked && (queue, s.queues[queue].unacked[id].owner) in s.gens
    ensures queue in s.mail && AccountedFor(s, queue, s.queues[queue].unacked[id].owner, id)
  {
    assert Accounted(s, queue);
  }

  /** Whoever holds a message is subscribed. */
  lemma OwnerAt(s: Sys, queue: nat, id: nat)
    requires QueuesOk(s) && queue in s.queues && id in s.queues[queue].unacked
    ensures Rec(s.queues[queue].subs, s.queues[queue].unacked[id].owner).Some?
  {
    hide Core, QueuesOk;
    QueueAt(s, queue);
  }

  // ---------------------------------------------------------------- the connection's moves keep it

  /** A connection move: the queues and the history stay, at most one message is posted. */
  ghost predicate ConnMove(s: Sys, t: Sys, queue: nat, msg: Option<Message>) {
    && t.queues == s.queues && t.home == s.home && t.gens == s.gens
    && (msg.None? ==> t.mail == s.mail)
    && (msg.Some? ==> queue in s.mail && t.mail == s.mail[queue := s.mail[queue] + [msg.value]])
  }

  lemma MailMove(s: Sys, t: Sys, queue: nat, msg: Option<Message>)
    requires MailsOk(s) && ConnMove(s, t, queue, msg)
    requires t.conn.attaching == s.conn.attaching || !s.conn.attaching.Waiting?
    requires msg.Some? ==> queue in t.queues && MsgOk(t, queue, msg.value) &&
                           (IsMine(msg.value) ==> s.conn.attaching == Idle)
    ensures MailsOk(t)
  {
    forall q | q in t.queues ensures MailOk(t, q) {
      assert MailOk(s, q);
      forall i | 0 <= i < |t.mail[q]| ensures MsgOk(t, q, t.mail[q][i]) {
        if i < |s.mail[q]| {
          assert MsgOk(s, q, s.mail[q][i]);
        }
      }
      forall i, j | 0 <= i < j < |t.mail[q]| && IsMine(t.mail[q][i]) ensures !IsMine(t.mail[q][j]) {
        assert MsgOk(s, q, s.mail[q][i]);
      }
    }
  }

  lemma AccountedMove(s: Sys, t: Sys, queue: nat, msg: Option<Message>)
    requires AllAccounted(s) && ConnMove(s, t, queue, msg) && t.cmds == s.cmds
    requires forall x :: x in s.conn.pending ==>
               x in t.conn.pending ||
               (msg.Some? && msg.value.Settle? && x == Token(queue, msg.value.sub, msg.value.msgId))
    ensures AllAccounted(t)
  {
    forall q | q in t.queues ensures Accounted(t, q) {
      assert Accounted(s, q);
      forall id | id in t.queues[q].unacked && (q, t.queues[q].unacked[id].owner) in t.gens
        ensures AccountedFor(t, q, t.queues[q].unacked[id].owner, id)
      {
        var o := t.queues[q].unacked[id].owner;
        assert AccountedFor(s, q, o, id);
        if msg.Some? && q == queue {
          MailAppend(s.mail[q], msg.value, o, id);
        }
      }
    }
  }

  lemma QueuesMove(s: Sys, t: Sys, queue: nat, msg: Option<Message>)
    requires QueuesOk(s) && ConnMove(s, t, queue, msg)
    ensures QueuesOk(t)
  {
    hide Core, Owned;
    forall q | q in t.queues ensures QueueOk(t, q) {
      assert QueueOk(s, q);
    }
  }

  /** The link a posted message is about. */
  predicate About(msg: Option<Message>, sub: nat) {
    msg.Some? && (msg.value.Demand? || msg.value.Unsubscribe?) && msg.value.sub == sub
  }

  /** A link whose demand and mailbox are not concerned stays as it is. */
  lemma LinkMove(s: Sys, t: Sys, queue: nat, msg: Option<Message>, g: nat)
    requires LinksOk(s) && ConnMove(s, t, queue, msg) && g in s.home && t.cmds == s.cmds
    requires Granted(t.conn, g, s.home[g].key) == Granted(s.conn, g, s.home[g].key)
    requires queue == s.home[g].queue ==> !About(msg, s.home[g].sub)
    ensures s.home[g].queue in t.mail && LinkOk(t, g)
  {
    hide LinkView, Granted;
    assert LinkOk(s, g);
    var h := s.home[g];
    if msg.Some? && queue == h.queue {
      MailAppend(s.mail[queue], msg.value, h.sub, 0);
    }
  }

  /** A move that concerns no link. */
  lemma LinksMove(s: Sys, t: Sys, queue: nat, msg: Option<Message>)
    requires LinksOk(s) && ConnMove(s, t, queue, msg) && t.cmds == s.cmds && HomesOk(t)
    requires forall g :: g in s.home ==> Granted(t.conn, g, s.home[g].key) == Granted(s.conn, g, s.home[g].key)
    requires forall g :: g in s.home && queue == s.home[g].queue ==> !About(msg, s.home[g].sub)
    ensures LinksOk(t)
  {
    forall g | g in t.home ensures LinkOk(t, g) { LinkMove(s, t, queue, msg, g); }
  }

  lemma ShapeMove(s: Sys, t: Sys, ps: map<nat, Policy>, queue: nat, msg: Option<Message>)
    requires Shape(s, ps) && ConnMove(s, t, queue, msg) && t.cmds == s.cmds && s.conn.nextGen <= t.conn.nextGen
    requires ConnOk(t)
    ensures Shape(t, ps)
  {
    hide ConnOk;
  }

  /** A move of the connection that concerns no link and loses no unsettled delivery. */
  lemma PlainMove(s: Sys, t: Sys, ps: map<nat, Policy>, queue: nat, msg: Option<Message>)
    requires Inv(s, ps) && ConnMove(s, t, queue, msg) && t.cmds == s.cmds && s.conn.nextGen <= t.conn.nextGen
    requires ConnOk(t)
    requires t.conn.attaching == s.conn.attaching || !s.conn.attaching.Waiting?
    requires msg.Some? ==> queue in t.queues && MsgOk(t, queue, msg.value) &&
                           (IsMine(msg.value) ==> s.conn.attaching == Idle)
    requires forall x :: x in s.conn.pending ==>
               x in t.conn.pending ||
               (msg.Some? && msg.value.Settle? && x == Token(queue, msg.value.sub, msg.value.msgId))
    requires forall g :: g in s.home ==> Granted(t.conn, g, s.home[g].key) == Granted(s.conn, g, s.home[g].key)
    requires forall g :: g in s.home && queue == s.home[g].queue ==> !About(msg, s.home[g].sub)
    ensures Inv(t, ps)
  {
    hide QueuesOk, MailsOk, AllAccounted, LinksOk, ConnOk, CmdsOk, Granted;
    ShapeMove(s, t, ps, queue, msg);
    MailMove(s, t, queue, msg);
    AccountedMove(s, t, queue, msg);
    QueuesMove(s, t, queue, msg);
    LinksMove(s, t, queue, msg);
  }

  lemma SessionsKeep(s: Sys, t: Sys, ps: map<nat, Policy>, sessions: set<nat>)
    requires Inv(s, ps) && t == s.(conn := s.conn.(sessions := sessions))
    ensures Inv(t, ps)
  {
    hide QueuesOk, MailsOk, AllAccounted, LinksOk, CmdsOk, HomesOk;
    PlainMove(s, t, ps, 0, None);
  }

  lemma OtherKeeps(s: Sys, t: Sys, ps: map<nat, Policy>, key: Key)
    requires Inv(s, ps) && key !in s.conn.bindings && s.conn.attaching == Idle
    requires t == s.(conn := s.conn.(nextGen := s.conn.nextGen + 1, bindings := s.conn.bindings[key := Other]))
    ensures Inv(t, ps)
  {
    hide QueuesOk, MailsOk, AllAccounted, LinksOk, CmdsOk, HomesOk;
    PlainMove(s, t, ps, 0, None);
  }

  lemma AttachKeeps(s: Sys, ps: map<nat, Policy>, key: Key, queue: nat)
    requires Inv(s, ps) && key !in s.conn.bindings && s.conn.attaching == Idle && queue in s.mail
    ensures Inv(StartAttach(s, key, queue), ps)
  {
    hide QueuesOk, MailsOk, AllAccounted, LinksOk, CmdsOk;
    PlainMove(s, StartAttach(s, key, queue), ps, queue,
              Some(Subscribe(ME, key.channel, key.handle, s.conn.nextGen)));
  }

  lemma BoundGranted(s: Sys, g: nat)
    requires ConnOk(s) && s.conn.attaching.Replied? && g in s.home
    ensures Granted(FinishAttach(s).conn, g, s.home[g].key) == Granted(s.conn, g, s.home[g].key)
  {
  }

  lemma BoundKeeps(s: Sys, ps: map<nat, Policy>)
    requires Inv(s, ps) && s.conn.attaching.Replied?
    ensures Inv(FinishAttach(s), ps)
  {
    hide QueuesOk, MailsOk, AllAccounted, LinksOk, CmdsOk, HomesOk, Granted;
    var t := FinishAttach(s);
    forall g | g in s.home ensures Granted(t.conn, g, s.home[g].key) == Granted(s.conn, g, s.home[g].key) {
      BoundGranted(s, g);
    }
    PlainMove(s, t, ps, 0, None);
  }

  /** Two generations never share a subscription. */
  lemma HomesDiffer(s: Sys, g: nat, f: nat)
    requires HomesOk(s) && g in s.home && f in s.home && g != f
    ensures (s.home[g].queue, s.home[g].sub) != (s.home[f].queue, s.home[f].sub)
  {
  }

  lemma UnbindLink(s: Sys, ps: map<nat, Policy>, key: Key)
    requires Shape(s, ps) && LinksOk(s) && key in s.conn.bindings && s.conn.bindings[key].Consumer?
    ensures LinkOk(Unbind(s, key), s.conn.bindings[key].epoch)
  {
    hide LinksOk, HomesOk, CmdsOk;
    var b := s.conn.bindings[key];
    LinkAt(s, b.epoch);
    MailAppend(s.mail[b.queue], Unsubscribe(b.sub), b.sub, 0);
  }

  lemma UnbindLinks(s: Sys, ps: map<nat, Policy>, key: Key)
    requires Shape(s, ps) && LinksOk(s) && key in s.conn.bindings && s.conn.bindings[key].Consumer?
    ensures LinksOk(Unbind(s, key))
  {
    hide LinkOk, CmdsOk;
    var t, b := Unbind(s, key), s.conn.bindings[key];
    UnbindLink(s, ps, key);
    forall g | g in t.home ensures LinkOk(t, g) {
      if g != b.epoch {
        HomesDiffer(s, g, b.epoch);
        LinkMove(s, t, b.queue, Some(Unsubscribe(b.sub)), g);
      }
    }
  }

  lemma UnbindShape(s: Sys, ps: map<nat, Policy>, key: Key)
    requires Shape(s, ps) && key in s.conn.bindings
    ensures Shape(Unbind(s, key), ps)
  {
    hide CmdsOk;
    var b := s.conn.bindings[key];
    UnbindConn(s, key);
    if b.Consumer? {
      ShapeMove(s, Unbind(s, key), ps, b.queue, Some(Unsubscribe(b.sub)));
    } else {
      ShapeMove(s, Unbind(s, key), ps, 0, None);
    }
  }

  lemma UnbindConn(s: Sys, key: Key)
    requires ConnOk(s) && key in s.conn.bindings
    ensures ConnOk(Unbind(s, key))
  {
  }

  lemma UnbindOther(s: Sys, ps: map<nat, Policy>, key: Key)
    requires Inv(s, ps) && key in s.conn.bindings && s.conn.bindings[key].Other?
    ensures Inv(Unbind(s, key), ps)
  {
    hide QueuesOk, MailsOk, AllAccounted, LinksOk, CmdsOk, HomesOk;
    PlainMove(s, Unbind(s, key), ps, 0, None);
  }

  lemma UnbindKeeps(s: Sys, ps: map<nat, Policy>, key: Key)
    requires Inv(s, ps) && key in s.conn.bindings
    ensures Inv(Unbind(s, key), ps)
  {
    hide QueuesOk, MailsOk, AllAccounted, LinksOk, CmdsOk;
    var t, b := Unbind(s, key), s.conn.bindings[key];
    if b.Consumer? {
      var msg := Some(Unsubscribe(b.sub));
      UnbindShape(s, ps, key);
      MailMove(s, t, b.queue, msg);
      AccountedMove(s, t, b.queue, msg);
      QueuesMove(s, t, b.queue, msg);
      UnbindLinks(s, ps, key);
    } else {
      UnbindOther(s, ps, key);
    }
  }

  lemma CreditLink(s: Sys, ps: map<nat, Policy>, key: Key, credit: nat)
    requires Shape(s, ps) && LinksOk(s)
    requires credit <= U32_MAX && key in s.conn.bindings && s.conn.bindings[key].Consumer?
    ensures LinkOk(Credit(s, key, credit), s.conn.bindings[key].epoch)
  {
    hide LinksOk, HomesOk, CmdsOk;
    var b := s.conn.bindings[key];
    LinkAt(s, b.epoch);
    MailAppend(s.mail[b.queue], Demand(b.sub, SatSub(credit, b.granted), false), b.sub, 0);
  }

  lemma CreditLinks(s: Sys, ps: map<nat, Policy>, key: Key, credit: nat)
    requires Shape(s, ps) && LinksOk(s)
    requires credit <= U32_MAX && key in s.conn.bindings && s.conn.bindings[key].Consumer?
    ensures LinksOk(Credit(s, key, credit))
  {
    hide LinkOk, CmdsOk;
    var t, b := Credit(s, key, credit), s.conn.bindings[key];
    var delta := SatSub(credit, b.granted);
    var msg := if delta > 0 then Some(Demand(b.sub, delta, false)) else None;
    CreditLink(s, ps, key, credit);
    forall g | g in t.home ensures LinkOk(t, g) {
      if g != b.epoch {
        HomesDiffer(s, g, b.epoch);
        LinkMove(s, t, b.queue, msg, g);
      }
    }
  }

  lemma CreditShape(s: Sys, ps: map<nat, Policy>, key: Key, credit: nat)
    requires Shape(s, ps) && key in s.conn.bindings && s.conn.bindings[key].Consumer?
    ensures Shape(Credit(s, key, credit), ps)
  {
  }

  lemma CreditKeeps(s: Sys, ps: map<nat, Policy>, key: Key, credit: nat)
    requires Inv(s, ps) && credit <= U32_MAX && key in s.conn.bindings && s.conn.bindings[key].Consumer?
    ensures Inv(Credit(s, key, credit), ps)
  {
    hide QueuesOk, MailsOk, AllAccounted, LinksOk, CmdsOk;
    var t, b := Credit(s, key, credit), s.conn.bindings[key];
    var delta := SatSub(credit, b.granted);
    var msg := if delta > 0 then Some(Demand(b.sub, delta, false)) else None;
    CreditShape(s, ps, key, credit);
    MailMove(s, t, b.queue, msg);
    AccountedMove(s, t, b.queue, msg);
    QueuesMove(s, t, b.queue, msg);
    CreditLinks(s, ps, key, credit);
  }

  lemma ResolveKeeps(s: Sys, ps: map<nat, Policy>, x: Token, outcome: Outcome)
    requires Inv(s, ps) && x in s.conn.pending
    ensures Inv(Resolve(s, x, outcome), ps)
  {
    hide QueuesOk, MailsOk, AllAccounted, LinksOk, CmdsOk, Granted;
    var t := Resolve(s, x, outcome);
    assert forall g: nat, k: Key :: Granted(t.conn, g, k) == Granted(s.conn, g, k) by {
      forall g: nat, k: Key ensures Granted(t.conn, g, k) == Granted(s.conn, g, k) {
        SameGranted(s.conn, t.conn, g, k);
      }
    }
    PlainMove(s, t, ps, x.queue, Some(Settle(x.sub, x.msgId, outcome)));
  }

  lemma SameGranted(c: Conn, d: Conn, g: nat, k: Key)
    requires c.bindings == d.bindings && c.attaching == d.attaching
    ensures Granted(c, g, k) == Granted(d, g, k)
  {
  }

  lemma PostKeeps(s: Sys, ps: map<nat, Policy>, queue: nat, msg: Message)
    requires Inv(s, ps) && EnvMay(s, queue, msg)
    ensures Inv(Post(s, queue, msg), ps)
  {
    hide QueuesOk, MailsOk, AllAccounted, LinksOk, CmdsOk, Granted;
    PlainMove(s, Post(s, queue, msg), ps, queue, Some(msg));
  }

  // ---------------------------------------------------------------- the connection takes a delivery

  /** The delivery at the head is routed exactly to the binding its subscription belongs to. */
  lemma RoutedToItsOwn(s: Sys, ps: map<nat, Policy>)
    requires Inv(s, ps) && s.cmds != [] && Routes(s.conn, s.cmds[0].d)
    ensures var d := s.cmds[0].d;
            var b := s.conn.bindings[Key(d.channel, d.handle)];
            b.queue == s.cmds[0].queue && b.sub == d.sub
  {
    hide LinksOk, QueuesOk, MailsOk, AllAccounted;
  }

  /** A dropped delivery belongs to a subscription that is gone or whose Unsubscribe is under way. */
  lemma DroppedIsLeaving(s: Sys, ps: map<nat, Policy>)
    requires Inv(s, ps) && s.cmds != [] && !Routes(s.conn, s.cmds[0].d)
    ensures s.cmds[0].queue in s.queues && s.cmds[0].queue in s.mail
    ensures Granted(s.conn, s.cmds[0].d.gen, Key(s.cmds[0].d.channel, s.cmds[0].d.handle)).None?
    ensures Rec(s.queues[s.cmds[0].queue].subs, s.cmds[0].d.sub).None? ||
            HasUnsub(s.mail[s.cmds[0].queue], s.cmds[0].d.sub)
  {
    hide LinksOk, QueuesOk, MailsOk, AllAccounted;
    LinkAt(s, s.cmds[0].d.gen);
    assert InFlight(s.cmds, s.cmds[0].queue, s.cmds[0].d.sub) >= 1;
  }

  lemma CommandLink(s: Sys, ps: map<nat, Policy>, g: nat)
    requires Inv(s, ps) && s.cmds != [] && g in s.home
    ensures s.home[g].queue in s.queues && s.home[g].queue in s.mail && LinkOk(Command(s), g)
  {
    hide LinksOk, QueuesOk, MailsOk, AllAccounted;
    var x := s.cmds[0];
    LinkAt(s, g);
    if g == x.d.gen {
      if Routes(s.conn, x.d) { RoutedToItsOwn(s, ps); } else { DroppedIsLeaving(s, ps); }
    } else {
      HomesDiffer(s, g, x.d.gen);
    }
  }

  lemma CommandLinks(s: Sys, ps: map<nat, Policy>)
    requires Inv(s, ps) && s.cmds != []
    ensures LinksOk(Command(s))
  {
    hide LinkOk, QueuesOk, MailsOk, AllAccounted;
    forall g | g in s.home ensures LinkOk(Command(s), g) { CommandLink(s, ps, g); }
  }

  lemma CommandAccounted(s: Sys, ps: map<nat, Policy>)
    requires Inv(s, ps) && s.cmds != []
    ensures AllAccounted(Command(s))
  {
    hide LinksOk, MailsOk, QueuesOk, ConnOk, HomesOk, CmdsOk;
    var t := Command(s);
    var x := s.cmds[0];
    if Routes(s.conn, x.d) { RoutedToItsOwn(s, ps); } else { DroppedIsLeaving(s, ps); }
    forall q | q in t.queues ensures Accounted(t, q) {
      forall id | id in t.queues[q].unacked && (q, t.queues[q].unacked[id].owner) in t.gens
        ensures AccountedFor(t, q, t.queues[q].unacked[id].owner, id)
      {
        AccountedAt(s, q, id);
        OwnerAt(s, q, id);
      }
    }
  }

  lemma CommandShape(s: Sys, ps: map<nat, Policy>)
    requires Inv(s, ps) && s.cmds != []
    ensures Shape(Command(s), ps)
  {
    hide LinksOk, QueuesOk, MailsOk, AllAccounted, HomesOk, CmdsOk;
    if Routes(s.conn, s.cmds[0].d) { RoutedToItsOwn(s, ps); }
    CommandHistory(s);
  }

  lemma CommandHistory(s: Sys)
    requires HomesOk(s) && CmdsOk(s) && s.cmds != []
    ensures HomesOk(Command(s)) && CmdsOk(Command(s))
  {
  }

  lemma CommandKeeps(s: Sys, ps: map<nat, Policy>)
    requires Inv(s, ps) && s.cmds != []
    ensures Inv(Command(s), ps)
  {
    hide LinksOk, QueuesOk, MailsOk, AllAccounted, Shape;
    CommandLinks(s, ps);
    CommandAccounted(s, ps);
    CommandShape(s, ps);
    MailMove(s, Command(s), 0, None);
    QueuesMove(s, Command(s), 0, None);
  }

  // ---------------------------------------------------------------- a queue's turn

  /** A queue changes and may send one delivery; mailboxes, connection and history stay. */
  lemma TurnElsewhere(s: Sys, t: Sys, queue: nat, cmd: Option<Cmd>, g: nat)
    requires LinksOk(s) && g in s.home && s.home[g].queue != queue
    requires t.home == s.home && t.mail == s.mail && t.conn == s.conn && queue in s.queues
    requires forall x :: x in s.queues && x != queue ==> x in t.queues && t.queues[x] == s.queues[x]
    requires t.cmds == if cmd.Some? then s.cmds + [cmd.value] else s.cmds
    requires cmd.Some? ==> cmd.value.queue == queue
    ensures s.home[g].queue in t.queues && s.home[g].queue in t.mail && LinkOk(t, g)
  {
    hide LinkView, Granted, LinksOk;
    LinkAt(s, g);
    var h := s.home[g];
    if cmd.Some? { CmdAppend(s.cmds, cmd.value, h.queue, h.sub, 0); }
  }

  /** The delivery a turn sends to this connection, if any. */
  ghost function SentToMe(q: Queue, queue: nat, t: Turn): Option<Cmd> {
    if t == SendTurn(true) && CanDispatch(q) && Target(q).conn == ME then
      var x := Target(q);
      Some(Cmd(queue, Delivery(x.id, x.conn, x.channel, x.handle, x.gen, q.ready[0].id, q.ready[0].body)))
    else None
  }

  /** What a turn does to one subscription of this connection. */
  lemma TurnRec(q: Queue, p: Policy, queue: nat, t: Turn, sub: nat)
    requires Owned(q) && MayTurn(q, t)
    ensures var r, b := Rec(Take(q, p, t).subs, sub), Rec(q.subs, sub);
            && (b.None? ==> r.None?)
            && (r.Some? ==> b.Some? && r.value.conn == b.value.conn)
            && (b.Some? && b.value.conn == ME && !b.value.drainPending ==>
                  if SentToMe(q, queue, t).Some? && Target(q).id == sub then
                    b == Some(Target(q)) && b.value.demand > 0 && r == Some(b.value.(demand := b.value.demand - 1))
                  else r == b)
  {
    hide Owned, DispatchOne;
    if t.SendTurn? && CanDispatch(q) {
      if t.ok { SendRec(q, sub); } else { FailedSendRec(q, sub); }
    } else {
      MildRec(q, p, t, sub);
    }
  }

  /** What a turn does to the dispatched messages: only a send adds one. */
  lemma TurnUnacked(q: Queue, p: Policy, t: Turn)
    requires Owned(q) && !t.ArmTurn?
    ensures var r := Take(q, p, t);
            && r.nextSubId == q.nextSubId
            && forall id :: id in r.unacked ==>
                 (id in q.unacked && r.unacked[id] == q.unacked[id]) ||
                 (t == SendTurn(true) && CanDispatch(q) && id == q.ready[0].id && r.unacked[id].owner == Target(q).id)
  {
    hide Owned, DispatchOne;
    if t.SendTurn? && CanDispatch(q) {
      if t.ok { SendRec(q, 0); } else { FailedSendRec(q, 0); }
    } else {
      MildRec(q, p, t, 0);
    }
  }

  lemma TurnLink(s: Sys, ps: map<nat, Policy>, queue: nat, t: Turn, g: nat)
    requires Inv(s, ps) && queue in s.queues && MayTurn(s.queues[queue], t) && g in s.home
    ensures s.home[g].queue in s.queues && s.home[g].queue in s.mail && LinkOk(QueueTurn(s, ps[queue], queue, t), g)
  {
    hide LinksOk, QueuesOk, MailsOk, AllAccounted, Take, Core, Owned, HomesOk, ConnOk, CmdsOk, Granted, CanDispatch,
         Target;
    var u := QueueTurn(s, ps[queue], queue, t);
    var q, h := s.queues[queue], s.home[g];
    LinkAt(s, g);
    QueueAt(s, queue);
    var c := SentToMe(q, queue, t);
    if h.queue != queue {
      TurnElsewhere(s, u, queue, c, g);
    } else {
      TurnRec(q, ps[queue], queue, t, h.sub);
      if c.Some? { CmdAppend(s.cmds, c.value, queue, h.sub, 0); }
    }
  }

  lemma TurnQueue(s: Sys, ps: map<nat, Policy>, queue: nat, t: Turn)
    requires QueuesOk(s) && queue in s.queues && queue in ps && MayTurn(s.queues[queue], t)
    ensures QueuesOk(QueueTurn(s, ps[queue], queue, t))
  {
    hide Core, Owned, Take, CanDispatch, Target;
    var u := QueueTurn(s, ps[queue], queue, t);
    var q := s.queues[queue];
    QueueAt(s, queue);
    TurnKeeps(q, ps[queue], t);
    forall sub: nat | Rec(u.queues[queue].subs, sub).Some?
      ensures Rec(u.queues[queue].subs, sub).value.conn == ME <==> (queue, sub) in u.gens
    {
      TurnRec(q, ps[queue], queue, t, sub);
      TagAt(s, queue, sub);
    }
    assert QueueOk(u, queue);
    forall x | x in u.queues && x != queue ensures QueueOk(u, x) {
      assert QueueOk(s, x);
    }
  }

  lemma TurnAccounted(s: Sys, ps: map<nat, Policy>, queue: nat, t: Turn)
    requires Inv(s, ps) && queue in s.queues && MayTurn(s.queues[queue], t)
    ensures AllAccounted(QueueTurn(s, ps[queue], queue, t))
  {
    hide LinksOk, QueuesOk, MailsOk, Take, Core, Owned, HomesOk, ConnOk, CmdsOk, CanDispatch;
    var u := QueueTurn(s, ps[queue], queue, t);
    var q, c := s.queues[queue], SentToMe(s.queues[queue], queue, t);
    QueueAt(s, queue);
    TurnUnacked(q, ps[queue], t);
    forall x | x in u.queues ensures Accounted(u, x) {
      forall id | id in u.queues[x].unacked && (x, u.queues[x].unacked[id].owner) in u.gens
        ensures AccountedFor(u, x, u.queues[x].unacked[id].owner, id)
      {
        var o := u.queues[x].unacked[id].owner;
        if c.Some? { CmdAppend(s.cmds, c.value, x, o, id); }
        if id in s.queues[x].unacked && u.queues[x].unacked[id] == s.queues[x].unacked[id] {
          AccountedAt(s, x, id);
        } else {
          TargetTag(s, queue);
        }
      }
    }
  }

  lemma TargetTag(s: Sys, queue: nat)
    requires QueuesOk(s) && queue in s.queues && CanDispatch(s.queues[queue])
    ensures var x := Target(s.queues[queue]);
            Rec(s.queues[queue].subs, x.id) == Some(x) && (x.conn == ME <==> (queue, x.id) in s.gens)
  {
    hide Core, Owned, DispatchOne;
    QueueAt(s, queue);
    SendRec(s.queues[queue], 0);
    TagAt(s, queue, Target(s.queues[queue]).id);
  }

  lemma TurnMails(s: Sys, ps: map<nat, Policy>, queue: nat, t: Turn)
    requires MailsOk(s) && QueuesOk(s) && queue in s.queues && queue in ps && MayTurn(s.queues[queue], t)
    ensures MailsOk(QueueTurn(s, ps[queue], queue, t))
    ensures QueueTurn(s, ps[queue], queue, t).queues[queue].nextSubId == s.queues[queue].nextSubId
  {
    hide QueuesOk, Take, Owned, Core, CanDispatch, Target;
    var u := QueueTurn(s, ps[queue], queue, t);
    QueueAt(s, queue);
    TurnUnacked(s.queues[queue], ps[queue], t);
    forall x | x in u.queues ensures MailOk(u, x) {
      assert MailOk(s, x);
      forall i | 0 <= i < |u.mail[x]| ensures MsgOk(u, x, u.mail[x][i]) {
        assert MsgOk(s, x, s.mail[x][i]);
      }
    }
  }

  lemma TurnCmd(s: Sys, ps: map<nat, Policy>, queue: nat, t: Turn)
    requires Inv(s, ps) && queue in s.queues && SentToMe(s.queues[queue], queue, t).Some?
    ensures var d := SentToMe(s.queues[queue], queue, t).value.d;
            d.gen in s.home && s.home[d.gen] == Home(queue, d.sub, Key(d.channel, d.handle))
  {
    hide LinksOk, QueuesOk, AllAccounted, MailsOk, CmdsOk, ConnOk, CanDispatch;
    TargetTag(s, queue);
    LinkAt(s, s.gens[(queue, Target(s.queues[queue]).id)]);
  }

  /** The history does not notice a turn that creates no subscriber. */
  lemma HomesStay(s: Sys, t: Sys)
    requires HomesOk(s) && t.home == s.home && t.gens == s.gens && t.conn == s.conn
    requires forall x :: x in s.queues ==> x in t.queues && s.queues[x].nextSubId <= t.queues[x].nextSubId
    ensures HomesOk(t)
  {
  }

  lemma ConnStays(s: Sys, t: Sys)
    requires ConnOk(s) && t.home == s.home && t.gens == s.gens && t.conn == s.conn
    ensures ConnOk(t)
    ensures CmdsOk(s) && t.cmds == s.cmds ==> CmdsOk(t)
  {
  }

  lemma CmdsGrow(s: Sys, t: Sys, c: Cmd)
    requires CmdsOk(s) && t.home == s.home && t.cmds == s.cmds + [c]
    requires c.d.gen in s.home && s.home[c.d.gen] == Home(c.queue, c.d.sub, Key(c.d.channel, c.d.handle))
    ensures CmdsOk(t)
  {
  }

  lemma TurnShape(s: Sys, ps: map<nat, Policy>, queue: nat, t: Turn)
    requires Inv(s, ps) && queue in s.queues && MayTurn(s.queues[queue], t)
    ensures Shape(QueueTurn(s, ps[queue], queue, t), ps)
  {
    hide LinksOk, QueuesOk, AllAccounted, MailsOk, Take, CanDispatch, Target, HomesOk, ConnOk, CmdsOk;
    var u, c := QueueTurn(s, ps[queue], queue, t), SentToMe(s.queues[queue], queue, t);
    TurnMails(s, ps, queue, t);
    HomesStay(s, u);
    ConnStays(s, u);
    if c.Some? {
      TurnCmd(s, ps, queue, t);
      CmdsGrow(s, u, c.value);
    }
  }

  lemma TurnSysKeeps(s: Sys, ps: map<nat, Policy>, queue: nat, t: Turn)
    requires Inv(s, ps) && queue in s.queues && MayTurn(s.queues[queue], t)
    ensures Inv(QueueTurn(s, ps[queue], queue, t), ps)
  {
    hide LinkOk, QueuesOk, AllAccounted, MailsOk, Take, ConnOk, CmdsOk;
    var u := QueueTurn(s, ps[queue], queue, t);
    forall g | g in s.home ensures LinkOk(u, g) { TurnLink(s, ps, queue, t, g); }
    TurnQueue(s, ps, queue, t);
    TurnAccounted(s, ps, queue, t);
    TurnMails(s, ps, queue, t);
    TurnShape(s, ps, queue, t);
  }

  // ---------------------------------------------------------------- a queue takes a message

  /** Nothing in the mailbox is about a subscriber that does not exist yet. */
  lemma {:induction false} FreshMail(s: Sys, queue: nat, mail: seq<Message>, sub: nat)
    requires queue in s.queues && s.queues[queue].nextSubId < sub
    requires forall i :: 0 <= i < |mail| ==> MsgOk(s, queue, mail[i])
    ensures DemandIn(mail, sub) == 0 && !HasUnsub(mail, sub)
    decreases |mail|
  {
    if mail != [] {
      assert MsgOk(s, queue, mail[0]);
      FreshMail(s, queue, mail[1..], sub);
    }
  }

  lemma {:induction false} FreshCmds(s: Sys, cmds: seq<Cmd>, queue: nat, sub: nat)
    requires forall i :: 0 <= i < |cmds| ==> cmds[i].queue == queue ==> cmds[i].d.sub != sub
    ensures InFlight(cmds, queue, sub) == 0
    decreases |cmds|
  {
    if cmds != [] {
      FreshCmds(s, cmds[1..], queue, sub);
    }
  }

  lemma FirstMessage(s: Sys, queue: nat)
    requires MailsOk(s) && queue in s.queues && s.mail[queue] != []
    ensures MsgOk(s, queue, s.mail[queue][0])
  {
    assert MailOk(s, queue);
  }

  /** The subscription just made: no demand, nothing in flight, nothing said about it. */
  lemma NewLink(s: Sys, ps: map<nat, Policy>, queue: nat, stamp: nat)
    requires Inv(s, ps) && queue in s.queues && s.mail[queue] != [] && IsMine(s.mail[queue][0])
    ensures LinkOk(Receive(s, ps[queue], queue, stamp), s.mail[queue][0].gen)
  {
    hide LinksOk, QueuesOk, AllAccounted, Arm, Core, Owned, ConnOk;
    var q, msg := s.queues[queue], s.mail[queue][0];
    QueueAt(s, queue);
    ArmRec(q, ps[queue], msg, stamp, q.nextSubId + 1);
    assert MailOk(s, queue);
    FreshMail(s, queue, s.mail[queue][1..], q.nextSubId + 1);
    FreshCmds(s, s.cmds, queue, q.nextSubId + 1);
    BoundIsKnown(s, ps, queue, Key(msg.channel, msg.handle), msg.gen);
  }

  lemma BoundIsKnown(s: Sys, ps: map<nat, Policy>, queue: nat, key: Key, g: nat)
    requires Inv(s, ps) && s.conn.attaching == Waiting(key, queue, g)
    ensures key !in s.conn.bindings && g !in s.home && g < s.conn.nextGen
  {
    hide LinksOk, QueuesOk, MailsOk, AllAccounted;
  }

  lemma ReceiveElsewhere(s: Sys, ps: map<nat, Policy>, queue: nat, stamp: nat, g: nat)
    requires Inv(s, ps) && queue in s.queues && s.mail[queue] != [] && g in s.home && s.home[g].queue != queue
    ensures var t := Receive(s, ps[queue], queue, stamp);
            g in t.home && t.home[g].queue in t.queues && t.home[g].queue in t.mail && LinkOk(t, g)
  {
    hide LinksOk, QueuesOk, MailsOk, AllAccounted, Arm, LinkView, ConnOk, CmdsOk, HomesOk;
    var msg := s.mail[queue][0];
    LinkAt(s, g);
    FirstMessage(s, queue);
    if IsMine(msg) { BoundIsKnown(s, ps, queue, Key(msg.channel, msg.handle), msg.gen); }
  }

  lemma ReceiveLink(s: Sys, ps: map<nat, Policy>, queue: nat, stamp: nat, g: nat)
    requires Inv(s, ps) && queue in s.queues && s.mail[queue] != [] && g in s.home && s.home[g].queue == queue
    ensures var t := Receive(s, ps[queue], queue, stamp); g in t.home && t.home[g] == s.home[g] && LinkOk(t, g)
  {
    hide LinksOk, QueuesOk, MailsOk, AllAccounted, Arm, ConnOk, CmdsOk, Core, Owned, Rec;
    var q, msg := s.queues[queue], s.mail[queue][0];
    LinkAt(s, g);
    QueueAt(s, queue);
    FirstMessage(s, queue);
    ArmRec(q, ps[queue], msg, stamp, s.home[g].sub);
    if IsMine(msg) { BoundIsKnown(s, ps, queue, Key(msg.channel, msg.handle), msg.gen); }
  }

  /** Recording a new generation for a new subscriber keeps the two histories inverse. */
  lemma HomesGrow(s: Sys, t: Sys, queue: nat, g: nat, key: Key)
    requires HomesOk(s) && queue in s.queues && g !in s.home && g < s.conn.nextGen <= t.conn.nextGen
    requires var sub := s.queues[queue].nextSubId + 1;
             t.home == s.home[g := Home(queue, sub, key)] && t.gens == s.gens[(queue, sub) := g]
    requires forall x :: x in s.queues ==> x in t.queues && s.queues[x].nextSubId <= t.queues[x].nextSubId
    requires t.queues[queue].nextSubId == s.queues[queue].nextSubId + 1
    ensures HomesOk(t)
  {
    var novel := (queue, s.queues[queue].nextSubId + 1);
    forall x | x in s.gens ensures x != novel && s.gens[x] != g {
      assert s.gens[x] in s.home;
    }
    forall f | f in s.home ensures t.home[f] == s.home[f] && (s.home[f].queue, s.home[f].sub) != novel {}
  }

  lemma ReceiveHomes(s: Sys, ps: map<nat, Policy>, queue: nat, stamp: nat)
    requires Inv(s, ps) && queue in s.queues && s.mail[queue] != []
    ensures HomesOk(Receive(s, ps[queue], queue, stamp))
  {
    hide LinksOk, QueuesOk, MailsOk, AllAccounted, Arm, Core, Owned, ConnOk, CmdsOk, Rec;
    var msg, t := s.mail[queue][0], Receive(s, ps[queue], queue, stamp);
    QueueAt(s, queue);
    FirstMessage(s, queue);
    ArmRec(s.queues[queue], ps[queue], msg, stamp, 0);
    if IsMine(msg) {
      var k := Key(msg.channel, msg.handle);
      BoundIsKnown(s, ps, queue, k, msg.gen);
      HomesGrow(s, t, queue, msg.gen, k);
    }
  }

  lemma ReceiveShape(s: Sys, ps: map<nat, Policy>, queue: nat, stamp: nat)
    requires Inv(s, ps) && queue in s.queues && s.mail[queue] != []
    ensures Shape(Receive(s, ps[queue], queue, stamp), ps)
  {
    hide LinksOk, QueuesOk, MailsOk, AllAccounted, Arm, HomesOk;
    var msg := s.mail[queue][0];
    ReceiveHomes(s, ps, queue, stamp);
    FirstMessage(s, queue);
    if IsMine(msg) { BoundIsKnown(s, ps, queue, Key(msg.channel, msg.handle), msg.gen); }
  }

  lemma ReceiveQueues(s: Sys, ps: map<nat, Policy>, queue: nat, stamp: nat)
    requires Inv(s, ps) && queue in s.queues && s.mail[queue] != []
    ensures QueuesOk(Receive(s, ps[queue], queue, stamp))
  {
    hide LinksOk, MailsOk, AllAccounted, Arm, Core, Owned, ConnOk, CmdsOk, Rec;
    var t := Receive(s, ps[queue], queue, stamp);
    var q, msg := s.queues[queue], s.mail[queue][0];
    QueueAt(s, queue);
    ArmKeeps(q, ps[queue], msg, stamp);
    forall sub: nat | Rec(t.queues[queue].subs, sub).Some?
      ensures Rec(t.queues[queue].subs, sub).value.conn == ME <==> (queue, sub) in t.gens
    {
      ArmRec(q, ps[queue], msg, stamp, sub);
      if Rec(q.subs, sub).Some? { TagAt(s, queue, sub); SubIssued(q, sub); }
    }
    assert QueueOk(t, queue);
    forall x | x in t.queues && x != queue ensures QueueOk(t, x) {
      assert QueueOk(s, x);
    }
  }

  lemma SubIssued(q: Queue, sub: nat)
    requires Owned(q) && Rec(q.subs, sub).Some?
    ensures sub <= q.nextSubId
  {
    var i := IndexOf(q.subs, sub);
  }

  /** A message already in a mailbox stays in order while a queue takes another one. */
  lemma MsgKept(s: Sys, t: Sys, queue: nat, x: nat, msg: Message, m: Message)
    requires x in s.queues && x in t.queues && queue in s.queues && MsgOk(s, x, m) && MsgOk(s, queue, msg)
    requires s.queues[x].nextSubId <= t.queues[x].nextSubId
    requires if IsMine(msg) then t.gens == s.gens[(queue, s.queues[queue].nextSubId + 1) := msg.gen]
             else t.gens == s.gens && t.conn.attaching == s.conn.attaching
    requires IsMine(msg) && x == queue ==> !IsMine(m)
    ensures MsgOk(t, x, m)
  {
  }

  /** Dropping messages from the front keeps at most one subscription of this connection in a mailbox. */
  lemma TailUnique(mail: seq<Message>, k: nat)
    requires k <= |mail| && forall i, j :: 0 <= i < j < |mail| && IsMine(mail[i]) ==> !IsMine(mail[j])
    ensures var t := mail[k..]; forall i, j :: 0 <= i < j < |t| && IsMine(t[i]) ==> !IsMine(t[j])
  {
    hide IsMine;
  }

  lemma TailMail(s: Sys, t: Sys, queue: nat, x: nat, k: nat)
    requires queue in s.queues && queue in s.mail && s.mail[queue] != [] && MailOk(s, queue)
    requires x in s.queues && x in s.mail && x in t.queues && x in t.mail && MailOk(s, x)
    requires k == (if x == queue then 1 else 0) && t.mail[x] == s.mail[x][k..]
    requires s.queues[x].nextSubId <= t.queues[x].nextSubId
    requires if IsMine(s.mail[queue][0])
             then t.gens == s.gens[(queue, s.queues[queue].nextSubId + 1) := s.mail[queue][0].gen]
             else t.gens == s.gens && t.conn.attaching == s.conn.attaching
    ensures MailOk(t, x)
  {
    hide MsgOk, IsMine;
    TailUnique(s.mail[x], k);
    forall i | 0 <= i < |t.mail[x]| ensures MsgOk(t, x, t.mail[x][i]) {
      var m := s.mail[x][i + k];
      assert t.mail[x][i] == m;
      assert IsMine(s.mail[queue][0]) && x == queue ==> !IsMine(m);
      MsgKept(s, t, queue, x, s.mail[queue][0], m);
    }
  }

  lemma ReceiveMails(s: Sys, ps: map<nat, Policy>, queue: nat, stamp: nat)
    requires Inv(s, ps) && queue in s.queues && s.mail[queue] != []
    ensures MailsOk(Receive(s, ps[queue], queue, stamp))
  {
    hide LinksOk, QueuesOk, AllAccounted, Arm, Core, Owned, ConnOk, CmdsOk, HomesOk, MailOk, Rec;
    var t := Receive(s, ps[queue], queue, stamp);
    QueueAt(s, queue);
    ArmRec(s.queues[queue], ps[queue], s.mail[queue][0], stamp, 0);
    forall x | x in t.queues ensures MailOk(t, x) {
      assert MailOk(s, x);
      TailMail(s, t, queue, x, if x == queue then 1 else 0);
    }
  }

  lemma ReceiveAccounted(s: Sys, ps: map<nat, Policy>, queue: nat, stamp: nat)
    requires Inv(s, ps) && queue in s.queues && s.mail[queue] != []
    ensures AllAccounted(Receive(s, ps[queue], queue, stamp))
  {
    hide LinksOk, QueuesOk, MailsOk, Arm, Core, Owned, ConnOk, CmdsOk, HomesOk, Rec;
    var t := Receive(s, ps[queue], queue, stamp);
    var q, msg := s.queues[queue], s.mail[queue][0];
    QueueAt(s, queue);
    ArmRec(q, ps[queue], msg, stamp, 0);
    forall x | x in t.queues ensures Accounted(t, x) {
      forall id | id in t.queues[x].unacked && (x, t.queues[x].unacked[id].owner) in t.gens
        ensures AccountedFor(t, x, t.queues[x].unacked[id].owner, id)
      {
        var o := t.queues[x].unacked[id].owner;
        QueueAt(s, x);
        OwnerAt(s, x, id);
        SubIssued(s.queues[x], o);
        assert (x, o) in s.gens;
        AccountedAt(s, x, id);
      }
    }
  }

  lemma ReceiveKeeps(s: Sys, ps: map<nat, Policy>, queue: nat, stamp: nat)
    requires Inv(s, ps) && queue in s.queues && s.mail[queue] != []
    ensures Inv(Receive(s, ps[queue], queue, stamp), ps)
  {
    hide LinkOk, QueuesOk, MailsOk, AllAccounted, Arm, ConnOk, CmdsOk;
    var t := Receive(s, ps[queue], queue, stamp);
    ReceiveShape(s, ps, queue, stamp);
    ReceiveQueues(s, ps, queue, stamp);
    ReceiveMails(s, ps, queue, stamp);
    ReceiveAccounted(s, ps, queue, stamp);
    forall g | g in t.home ensures LinkOk(t, g) {
      if g in s.home {
        if s.home[g].queue == queue {
          ReceiveLink(s, ps, queue, stamp, g);
        } else {
          ReceiveElsewhere(s, ps, queue, stamp, g);
        }
      } else {
        NewLink(s, ps, queue, stamp);
      }
    }
  }

  // ---------------------------------------------------------------- whole runs

  lemma NextKeeps(s: Sys, ps: map<nat, Policy>, step: Step)
    requires Inv(s, ps)
    ensures Inv(Next(s, ps, step), ps)
  {
    hide LinksOk, QueuesOk, MailsOk, AllAccounted, ConnOk, CmdsOk, HomesOk;
    match step
    case SBegin(ch) =>
      SessionsKeep(s, s.(conn := s.conn.(sessions := s.conn.sessions + {ch})), ps, s.conn.sessions + {ch});
    case SEnd(ch) =>
      SessionsKeep(s, s.(conn := s.conn.(sessions := s.conn.sessions - {ch})), ps, s.conn.sessions - {ch});
    case SRelease(key) => if key in s.conn.bindings { UnbindKeeps(s, ps, key); }
    case SAttach(key, queue) =>
      if !Busy(s.conn) && key !in s.conn.bindings && queue in s.mail { AttachKeeps(s, ps, key, queue); }
    case SAttachOther(key) =>
      if !Busy(s.conn) && key !in s.conn.bindings {
        var c := s.conn.(nextGen := s.conn.nextGen + 1, bindings := s.conn.bindings[key := Other]);
        OtherKeeps(s, s.(conn := c), ps, key);
      }
    case SBound => if s.conn.attaching.Replied? { BoundKeeps(s, ps); }
    case SCredit(key, credit) =>
      if credit <= U32_MAX && key in s.conn.bindings && s.conn.bindings[key].Consumer? {
        CreditKeeps(s, ps, key, credit);
      }
    case SDetach(key) => if key in s.conn.bindings { UnbindKeeps(s, ps, key); }
    case SCommand => if s.cmds != [] { CommandKeeps(s, ps); }
    case SResolve(token, outcome) => if token in s.conn.pending { ResolveKeeps(s, ps, token, outcome); }
    case SPost(queue, msg) => if EnvMay(s, queue, msg) { PostKeeps(s, ps, queue, msg); }
    case SReceive(queue, stamp) => if queue in s.queues && s.mail[queue] != [] { ReceiveKeeps(s, ps, queue, stamp); }
    case STurn(queue, turn) =>
      if queue in s.queues && MayTurn(s.queues[queue], turn) { TurnSysKeeps(s, ps, queue, turn); }
  }

  lemma EmptyOk()
    ensures Core(EMPTY) && Owned(EMPTY)
  {
  }

  lemma StartOk(ps: map<nat, Policy>)
    ensures Inv(Start(ps.Keys), ps)
  {
    hide Core, Owned;
    EmptyOk();
    var s := Start(ps.Keys);
    forall queue | queue in s.queues ensures QueueOk(s, queue) {
      assert s.queues[queue] == EMPTY;
    }
  }

  lemma {:induction false} EveryRunKeeps(ps: map<nat, Policy>, steps: seq<Step>)
    ensures Inv(Run(ps, steps), ps)
    decreases |steps|
  {
    hide Inv;
    if steps == [] {
      StartOk(ps);
    } else {
      EveryRunKeeps(ps, steps[..|steps| - 1]);
      NextKeeps(Run(ps, steps[..|steps| - 1]), ps, steps[|steps| - 1]);
    }
  }

  // ---------------------------------------------------------------- the theorems

  /**
   * Credit is conserved: at every moment of every run, the demand handed out on a bound consumer link is the
   * demand still in the mailbox, plus the demand the queue holds, plus the deliveries on their way back, and
   * fits a u32 (so no saturating addition or subtraction ever bites).
   */
  lemma CreditIsConserved(ps: map<nat, Policy>, steps: seq<Step>, key: Key)
    requires var c := Run(ps, steps).conn; key in c.bindings && c.bindings[key].Consumer?
    ensures var s := Run(ps, steps);
            var b := s.conn.bindings[key];
            && b.queue in s.queues && b.queue in s.mail
            && Rec(s.queues[b.queue].subs, b.sub).Some?
            && b.granted == DemandIn(s.mail[b.queue], b.sub) + Rec(s.queues[b.queue].subs, b.sub).value.demand +
                            InFlight(s.cmds, b.queue, b.sub)
            && b.granted <= U32_MAX
  {
    hide LinksOk, QueuesOk, MailsOk, AllAccounted, Run;
    EveryRunKeeps(ps, steps);
    LinkAt(Run(ps, steps), Run(ps, steps).conn.bindings[key].epoch);
  }

  /**
   * A flow arms exactly up to the restated credit: afterwards the demand at large is the larger of the credit
   * and what was already handed out, so restating a flow adds nothing.
   */
  lemma RestatedFlowAddsNothing(ps: map<nat, Policy>, steps: seq<Step>, key: Key, credit: nat)
    requires var c := Run(ps, steps).conn; key in c.bindings && c.bindings[key].Consumer? && credit <= U32_MAX
    ensures var s := Run(ps, steps);
            var b := s.conn.bindings[key];
            var t := Credit(s, key, credit);
            && b.queue in t.mail && b.queue in s.queues && Rec(s.queues[b.queue].subs, b.sub).Some?
            && DemandIn(t.mail[b.queue], b.sub) + Rec(s.queues[b.queue].subs, b.sub).value.demand +
               InFlight(s.cmds, b.queue, b.sub) == (if credit >= b.granted then credit else b.granted)
            && Credit(t, key, credit) == t
  {
    hide Run;
    var s := Run(ps, steps);
    var b := s.conn.bindings[key];
    CreditIsConserved(ps, steps, key);
    MailAppend(s.mail[b.queue], Demand(b.sub, SatSub(credit, b.granted), false), b.sub, 0);
  }

  /**
   * However handles are reused, a delivery reaches the peer only on the link whose subscription it was issued
   * for; a delivery that is dropped belongs to a subscription the queue has forgotten or is about to.
   */
  lemma DeliveriesAreNeverMisrouted(ps: map<nat, Policy>, steps: seq<Step>)
    requires Run(ps, steps).cmds != []
    ensures var s := Run(ps, steps);
            var d, queue := s.cmds[0].d, s.cmds[0].queue;
            && queue in s.queues && queue in s.mail
            && if Routes(s.conn, d) then
                 var b := s.conn.bindings[Key(d.channel, d.handle)]; b.queue == queue && b.sub == d.sub
               else Rec(s.queues[queue].subs, d.sub).None? || HasUnsub(s.mail[queue], d.sub)
  {
    hide LinksOk, QueuesOk, MailsOk, AllAccounted, Run;
    var s := Run(ps, steps);
    EveryRunKeeps(ps, steps);
    if Routes(s.conn, s.cmds[0].d) { RoutedToItsOwn(s, ps); } else { DroppedIsLeaving(s, ps); }
  }

  /**
   * Nothing is stranded: a message dispatched to this connection is on its way to it, unsettled with the peer,
   * on its way back as a settle, or about to be requeued. So once the channels are empty and the peer holds
   * nothing, the connection owns no message.
   */
  lemma NothingIsStranded(ps: map<nat, Policy>, steps: seq<Step>, queue: nat, id: nat)
    requires var s := Run(ps, steps);
             queue in s.queues && id in s.queues[queue].unacked &&
             Rec(s.queues[queue].subs, s.queues[queue].unacked[id].owner).Some? &&
             Rec(s.queues[queue].subs, s.queues[queue].unacked[id].owner).value.conn == ME
    ensures var s := Run(ps, steps);
            var o := s.queues[queue].unacked[id].owner;
            && queue in s.mail
            && (|| HasCmd(s.cmds, queue, o, id)
                || Token(queue, o, id) in s.conn.pending
                || HasSettle(s.mail[queue], o, id)
                || HasUnsub(s.mail[queue], o))
  {
    hide LinksOk, QueuesOk, MailsOk, AllAccounted, Run;
    var s := Run(ps, steps);
    EveryRunKeeps(ps, steps);
    TagAt(s, queue, s.queues[queue].unacked[id].owner);
    AccountedAt(s, queue, id);
  }
}
