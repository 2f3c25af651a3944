/**
 * The connection's side of its links as it runs (ramqp-broker/src/connection.rs:752-787, 1424-1464 and
 * 1566-1578): bindings, granted credit and pending settlements updated in place, messages posted to queues.
 * Every method is the corresponding move of the system: its new state, and what it posted.
 */
module LinkActor {
  import opened Dispatch
  import opened TransientQueue
  import opened LinkCredit

  datatype Letter = Letter(queue: nat, msg: Message)

  /** The letters put in the queues' mailboxes, in order. */
  ghost function Posted(s: Sys, letters: seq<Letter>): Sys {
    if letters == [] then s
    else var l := letters[|letters| - 1]; Post(Posted(s, letters[..|letters| - 1]), l.queue, l.msg)
  }

  lemma PostedOne(s: Sys, l: Letter)
    ensures Posted(s, [l]) == Post(s, l.queue, l.msg) && Posted(s, []) == s
  {
    assert [l][..0] == [];
  }

  /** Posting does not touch the connection. */
  lemma {:induction false} PostedConn(s: Sys, c: Conn, ls: seq<Letter>)
    ensures Posted(s.(conn := c), ls) == Posted(s, ls).(conn := c)
    ensures Posted(s, ls).conn == s.conn
  {
    if ls != [] { PostedConn(s, c, ls[..|ls| - 1]); }
  }

  /** Bindings released one after another, as `SRelease` steps do. */
  ghost function ReleaseAll(s: Sys, keys: seq<Key>): Sys {
    if keys == [] then s else
      var t := ReleaseAll(s, keys[..|keys| - 1]);
      var key := keys[|keys| - 1];
      if key in t.conn.bindings then Unbind(t, key) else t
  }

  lemma ReleaseSnoc(s: Sys, keys: seq<Key>, key: Key)
    ensures var t := ReleaseAll(s, keys);
            ReleaseAll(s, keys + [key]) == if key in t.conn.bindings then Unbind(t, key) else t
  {
    assert (keys + [key])[..|keys|] == keys;
  }

  class Connection {
    var sessions: set<nat>
    var bindings: map<Key, Binding>
    var nextGen: nat
    var attaching: Attaching
    var settlements: multiset<Token>

    ghost function State(): Conn
      reads this
    {
      Conn(sessions, bindings, nextGen, attaching, settlements)
    }

    constructor ()
      ensures State() == Conn({}, map[], 0, Idle, multiset{})
    {
      sessions, bindings, nextGen, attaching, settlements := {}, map[], 0, Idle, multiset{};
    }

    /** A delivery from a queue: account it and pass it on, or drop it if its binding is gone. */
    method HandleDeliver(d: Delivery, ghost s: Sys)
      requires s.conn == State() && s.cmds != [] && s.cmds[0].d == d
      modifies this
      ensures Command(s) == s.(cmds := s.cmds[1..], conn := State())
    {
      var key := Key(d.channel, d.handle);
      if key !in bindings || !bindings[key].Consumer? || bindings[key].epoch != d.gen { return; }
      var b := bindings[key];
      bindings := bindings[key := b.(granted := SatSub(b.granted, 1))];
      settlements := settlements + multiset{Token(b.queue, b.sub, d.msgId)};
    }

    /** A flow: forward only what exceeds the demand already handed out. */
    method OnCredit(key: Key, credit: nat, ghost s: Sys) returns (posted: seq<Letter>)
      requires s.conn == State()
      modifies this
      ensures Credit(s, key, credit) == Posted(s.(conn := State()), posted)
      ensures old(key in bindings && bindings[key].Consumer? && bindings[key].granted == credit) ==> posted == []
    {
      hide Posted, Post;
      PostedOne(s, Letter(0, Stats));
      if key !in bindings || !bindings[key].Consumer? { return []; }
      var b := bindings[key];
      var delta := SatSub(credit, b.granted);
      bindings := bindings[key := b.(granted := if credit >= b.granted then credit else b.granted)];
      PostedOne(s.(conn := State()), Letter(b.queue, Demand(b.sub, delta, false)));
      posted := if delta > 0 then [Letter(b.queue, Demand(b.sub, delta, false))] else [];
    }

    /** A detach: the binding goes, and a consumer's queue is told. */
    method OnDetached(key: Key, ghost s: Sys) returns (posted: seq<Letter>)
      requires s.conn == State() && key in bindings
      modifies this
      ensures Unbind(s, key) == Posted(s.(conn := State()), posted)
      ensures State() == old(State()).(bindings := old(bindings) - {key})
    {
      hide Posted, Post;
      var b := bindings[key];
      bindings := bindings - {key};
      PostedOne(s.(conn := State()), Letter(0, Stats));
      match b
      case Consumer(queue, sub, _, _) =>
        PostedOne(s.(conn := State()), Letter(queue, Unsubscribe(sub)));
        posted := [Letter(queue, Unsubscribe(sub))];
      case Other => posted := [];
    }

    /** The end of a session: every binding on its channel is released. */
    method ReleaseSession(channel: nat, ghost s: Sys) returns (posted: seq<Letter>, ghost order: seq<Key>)
      requires s.conn == State()
      modifies this
      ensures bindings == map k | k in old(bindings) && k.channel != channel :: old(bindings)[k]
      ensures forall k :: k in order <==> k in old(bindings) && k.channel == channel
      ensures ReleaseAll(s, order) == Posted(s.(conn := State()), posted)
    {
      hide Posted, Post, Unbind, ReleaseAll;
      var todo := set k | k in bindings && k.channel == channel;
      ghost var all := todo;
      posted, order := [], [];
      PostedOne(s, Letter(0, Stats));
      NothingReleased(s);
      while todo != {}
        invariant todo <= all <= old(bindings).Keys
        invariant State() == old(State()).(bindings := old(bindings) - (all - todo))
        invariant forall k :: k in order <==> k in all && k !in todo
        invariant ReleaseAll(s, order) == Posted(s.(conn := State()), posted)
        decreases todo
      {
        var key :| key in todo;
        ghost var t := ReleaseAll(s, order);
        PostedConn(s, State(), posted);
        ReleaseSnoc(s, order, key);
        ghost var before := posted;
        var more := OnDetached(key, t);
        PostedConn(s, State(), before);
        JoinPosts(s, State(), before, more, t);
        posted := posted + more;
        order := order + [key];
        todo := todo - {key};
        assert old(bindings) - (all - todo) == (old(bindings) - (all - todo - {key})) - {key};
      }
    }
  }

  lemma NothingReleased(s: Sys)
    ensures ReleaseAll(s, []) == s
  {
  }

  lemma {:induction false} PostedConcat(s: Sys, a: seq<Letter>, b: seq<Letter>)
    ensures Posted(s, a + b) == Posted(Posted(s, a), b)
  {
    if b == [] {
      assert a + b == a;
    } else {
      assert (a + b)[..|a + b| - 1] == a + b[..|b| - 1];
      PostedConcat(s, a, b[..|b| - 1]);
    }
  }

  lemma JoinPosts(s: Sys, c: Conn, a: seq<Letter>, b: seq<Letter>, t: Sys)
    requires t.(conn := c) == Posted(s.(conn := c), a)
    ensures Posted(t.(conn := c), b) == Posted(s.(conn := c), a + b)
  {
    PostedConcat(s.(conn := c), a, b);
  }
}
