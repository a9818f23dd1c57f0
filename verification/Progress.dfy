/** What the network can always still bring about: safety in Connection.dfy is not
    bought by a conversation that gets stuck. */
module Progress {
  import opened Rings
  import opened Tcp
  import opened Network
  import opened Protocol
  import opened Connection

  /** The outstanding request and its response, as first sent. */
  function RequestOf(cc: Config, p: Pair): Segment {
    Segment(p.c.sk.sndUna, p.c.sk.rcvNxt, PUSH_ACK, cc.dataLen)
  }

  function ResponseOf(sc: Config, p: Pair): Segment {
    Segment(p.s.sk.sndUna, p.s.sk.rcvNxt, ResponseFlags(View(p.s.sk)), sc.dataLen)
  }

  lemma ChecksOut(cfg: Config, now: nat, st: St, g: Segment)
    requires g.ack == st.sk.sndNxt && g.seqno == st.sk.rcvNxt && st.sk.state != Closed
    ensures CheckSequence(cfg, now, st, g).1
  {
  }

  /** A client with a request under way on a connection the server has not given up. */
  ghost predicate Asking(p: Pair) {
    p.joined && !p.cFin && p.c.sk.state == Established && p.c.sk.sndUna < p.c.sk.sndNxt
  }

  lemma RequestServed(cc: Config, sc: Config, p: Pair, env: Env)
    requires Good(cc, sc, p) && Asking(p) && p.s.sk.rcvNxt == p.c.sk.sndUna && p.s.sk.state != Closed
    ensures var q := Step(cc, sc, p, ToServer(RequestOf(cc, p), env));
            && Good(cc, sc, q) && Asking(q) && q.s.sk.rcvNxt == q.c.sk.sndNxt && q.received == p.received && q.c == p.c
            && q.s.sk.state != Closed && ResponseOf(sc, q) in q.s2c
            && forall c2s, s2c :: RequestOf(cc, p) in c2s ==>
                 var o := Step(cc, sc, p.(c2s := c2s, s2c := s2c), ToServer(RequestOf(cc, p), env));
                 ResponseOf(sc, q) in o.s2c && o == q.(c2s := o.c2s, s2c := o.s2c)
  {
    var g := RequestOf(cc, p);
    Servable(cc, sc, p);
    ChecksOut(sc, env.now, p.s, g);
    hide CheckSequence, ServerData, Good, Protocol.Inv;
    ServerServes(cc, sc, p, g, env.now);
    ServesAsking(cc, sc, p, env);
    forall c2s, s2c | g in c2s ensures
      var o, q := Step(cc, sc, p.(c2s := c2s, s2c := s2c), ToServer(g, env)), Step(cc, sc, p, ToServer(g, env));
      ResponseOf(sc, q) in o.s2c && o == q.(c2s := o.c2s, s2c := o.s2c)
    {
      ServesElsewhere(cc, sc, p, env, c2s, s2c);
    }
  }

  lemma Servable(cc: Config, sc: Config, p: Pair)
    requires Good(cc, sc, p) && Asking(p) && p.s.sk.rcvNxt == p.c.sk.sndUna
    ensures var g := RequestOf(cc, p);
            g in p.c2s && g.ack == p.s.sk.sndNxt && g.seqno == p.s.sk.rcvNxt && g.len > 0
                && p.c.sk.sndNxt == p.c.sk.sndUna + cc.dataLen
  {
  }

  /** What the step leaves of the conversation. */
  lemma ServesAsking(cc: Config, sc: Config, p: Pair, env: Env)
    requires Asking(p) && p.s.sk.rcvNxt == p.c.sk.sndUna && p.c.sk.sndNxt == p.c.sk.sndUna + cc.dataLen
    requires RequestOf(cc, p) in p.c2s
    requires var g := RequestOf(cc, p);
             && Abs(ServerTurn(p, ServerData(sc, env.now, p.s, g), g.seqno)) == SServe(SizesOf(cc, sc), Abs(p), g)
             && ServerData(sc, env.now, p.s, g).sent == [Again(sc.dataLen, View(ServerData(sc, env.now, p.s, g).sk))]
    ensures var g := RequestOf(cc, p);
            var q := Step(cc, sc, p, ToServer(g, env));
            && q == ServerTurn(p, ServerData(sc, env.now, p.s, g), g.seqno)
            && Asking(q) && q.s.sk.rcvNxt == q.c.sk.sndNxt && q.received == p.received && q.c == p.c
            && q.s.sk.state != Closed
            && Carried(ServerData(sc, env.now, p.s, g).sent) == {ResponseOf(sc, q)}
  {
    hide ServerData, ServerSyn;
    var g := RequestOf(cc, p);
    var q := Step(cc, sc, p, ToServer(g, env));
    assert View(q.s.sk) == SServe(SizesOf(cc, sc), Abs(p), g).s;
    Turn1([], ResponseOf(sc, q));
  }

  /** On another network the same step does the same. */
  lemma ServesElsewhere(cc: Config, sc: Config, p: Pair, env: Env, c2s: set<Segment>, s2c: set<Segment>)
    requires var g := RequestOf(cc, p);
             && g in p.c2s && g in c2s
             && Carried(ServerData(sc, env.now, p.s, g).sent) == {ResponseOf(sc, Step(cc, sc, p, ToServer(g, env)))}
    ensures var g := RequestOf(cc, p);
            var o, q := Step(cc, sc, p.(c2s := c2s, s2c := s2c), ToServer(g, env)), Step(cc, sc, p, ToServer(g, env));
            ResponseOf(sc, q) in o.s2c && o == q.(c2s := o.c2s, s2c := o.s2c)
  {
    hide ServerData, ServerSyn;
  }

  lemma ResponseTaken(cc: Config, sc: Config, p: Pair, env: Env)
    requires Good(cc, sc, p) && Asking(p) && p.s.sk.rcvNxt == p.c.sk.sndNxt
    ensures var q := Step(cc, sc, p, ToClient(ResponseOf(sc, p), env));
            Good(cc, sc, q) && q.received == p.received + [p.s.sk.sndUna]
  {
    var g := ResponseOf(sc, p);
    assert g in p.s2c && g.ack == p.c.sk.sndNxt && g.seqno == p.c.sk.rcvNxt;
    hide Protocol.Inv, CheckSequence;
    ChecksOut(cc, env.now, p.c, g);
    ClientTakes(cc, sc, p, g, env);
  }

  lemma Expects(cc: Config, sc: Config, p: Pair)
    requires Good(cc, sc, p) && p.joined
    ensures p.s.sk.rcvNxt == p.c.sk.sndUna || p.s.sk.rcvNxt == p.c.sk.sndNxt
  {
  }

  lemma RunsOne(cc: Config, sc: Config, p: Pair, e: Event)
    ensures Run(cc, sc, p, [e]) == Step(cc, sc, p, e)
  {
    assert Run(cc, sc, Step(cc, sc, p, e), []) == Step(cc, sc, p, e);
  }

  lemma RunsTwo(cc: Config, sc: Config, p: Pair, e: Event, e1: Event)
    ensures Run(cc, sc, p, [e, e1]) == Step(cc, sc, Step(cc, sc, p, e), e1)
  {
    assert [e, e1][1..] == [e1];
    RunsOne(cc, sc, Step(cc, sc, p, e), e1);
  }

  lemma CompletesTaken(cc: Config, sc: Config, q: Pair, env: Env) returns (e: Event)
    requires Good(cc, sc, q) && Asking(q) && q.s.sk.rcvNxt == q.c.sk.sndNxt
    ensures e.ToClient? && |Step(cc, sc, q, e).received| == |q.received| + 1
  {
    e := ToClient(ResponseOf(sc, q), env);
    ResponseTaken(cc, sc, q, env);
  }

  lemma CompletesOpen(cc: Config, sc: Config, q: Pair, env: Env) returns (e: Event, e1: Event)
    requires Good(cc, sc, q) && Asking(q) && q.s.sk.rcvNxt == q.c.sk.sndUna && q.s.sk.state != Closed
    ensures e.ToServer? && e1.ToClient? && |Step(cc, sc, Step(cc, sc, q, e), e1).received| == |q.received| + 1
  {
    hide Good, Step;
    e := ToServer(RequestOf(cc, q), env);
    RequestServed(cc, sc, q, env);
    e1 := CompletesTaken(cc, sc, Step(cc, sc, q, e), env);
  }

  lemma CanComplete(cc: Config, sc: Config, q: Pair, env: Env) returns (more: seq<Event>)
    requires Good(cc, sc, q) && Asking(q) && (q.s.sk.state != Closed || q.s.sk.rcvNxt == q.c.sk.sndNxt)
    ensures |more| <= 2 && (forall e :: e in more ==> e.ToServer? || e.ToClient?)
    ensures |Run(cc, sc, q, more).received| == |q.received| + 1
  {
    assert q.joined;
    Expects(cc, sc, q);
    hide *;
    if q.s.sk.rcvNxt == q.c.sk.sndNxt {
      var e := CompletesTaken(cc, sc, q, env);
      RunsOne(cc, sc, q, e);
      more := [e];
    } else {
      var e, e1 := CompletesOpen(cc, sc, q, env);
      RunsTwo(cc, sc, q, e, e1);
      more := [e, e1];
    }
  }

  /** In every reachable state with a request under way that the server can still take
      or has taken, delivering at most two segments completes the exchange. */
  lemma NeverStuck(cc: Config, sc: Config, p: Pair, es: seq<Event>, env: Env) returns (more: seq<Event>)
    requires Init(cc, sc, p)
    requires var q := Run(cc, sc, p, es); Asking(q) && (q.s.sk.state != Closed || q.s.sk.rcvNxt == q.c.sk.sndNxt)
    ensures |more| <= 2 && (forall e :: e in more ==> e.ToServer? || e.ToClient?)
    ensures var q := Run(cc, sc, p, es); |Run(cc, sc, q, more).received| == |q.received| + 1
  {
    RunKeeps(cc, sc, p, es);
    hide Run, Good;
    more := CanComplete(cc, sc, Run(cc, sc, p, es), env);
  }

  // ---------------------------------------------------------------- from the start

  lemma LaunchFields(cfg: Config, now: nat, st: St)
    requires Plain(cfg) && st.sk.state == Closed
    ensures var r := Launch(cfg, now, st); r.sk.requests == 0 && r.sk.laddr == st.sk.laddr
  {
    hide Place;
  }

  lemma SynAckFields(cfg: Config, now: nat, st: St, g: Segment)
    ensures var r := ClientSynAck(cfg, now, st, g); r.sk.requests == st.sk.requests && r.sk.laddr == st.sk.laddr
  {
    hide Place;
  }

  lemma Launches(cc: Config, sc: Config, p: Pair, env: Env)
    requires Init(cc, sc, p)
    ensures var q := Step(cc, sc, p, LaunchClient(env));
            && Good(cc, sc, q) && q.c.sk.state == SynSent && q.s.sk.state == Closed && !q.greeted
            && Segment(p.c.sk.sndNxt + 1, 0, SYN, 0) in q.c2s && q.received == [] && !q.cFin
            && q.c.sk.requests == 0 && q.c.sk.keepalive == cc.keepalive && q.c.sk.laddr == p.c.sk.laddr
  {
    LaunchFields(cc, env.now, p.c);
    hide Launch;
    ClientLaunchTurn(cc, sc, p, env.now);
    var q := Step(cc, sc, p, LaunchClient(env));
    assert View(q.c.sk) == Abs(q).c && View(q.s.sk) == Abs(p).s && q.c2s == Abs(q).c2s;
  }

  lemma Greeted(cc: Config, sc: Config, p: Pair, g: Segment, env: Env)
    requires Good(cc, sc, p) && !p.greeted && g in p.c2s && g.flags == SYN && p.s.sk.state == Closed
    ensures var q := Step(cc, sc, p, ToServer(g, env));
            && Good(cc, sc, q) && q.c == p.c && q.s.sk.state == SynReceived
            && Segment(p.s.sk.sndNxt + 1, g.seqno + 1, SYN_ACK, 0) in q.s2c && q.received == p.received
            && q.cFin == p.cFin
  {
    hide ServerSyn, Protocol.Inv;
    ServerSynTurn(cc, sc, p, g, env.now);
    var q := Step(cc, sc, p, ToServer(g, env));
    assert View(q.s.sk) == Abs(q).s && q.s2c == Abs(q).s2c;
  }

  lemma Joined(cc: Config, sc: Config, p: Pair, g: Segment, env: Env)
    requires Good(cc, sc, p) && g in p.s2c && g.flags == SYN_ACK && p.c.sk.state == SynSent
    ensures var q := Step(cc, sc, p, ToClient(g, env));
            && Good(cc, sc, q) && Abs(q) == CJoin(SizesOf(cc, sc), Abs(p), g)
            && q.c.sk.requests == p.c.sk.requests && q.c.sk.laddr == p.c.sk.laddr
  {
    SynAckFields(cc, env.now, p.c, g);
    hide ClientSynAck, Protocol.Inv;
    ClientSynAckTurn(cc, sc, p, g, env.now);
  }

  /** The SYN reaches the server. */
  lemma CanGreet(cc: Config, sc: Config, p: Pair, env: Env) returns (a: Event, b: Event, synAck: Segment)
    requires Init(cc, sc, p)
    ensures a.LaunchClient? && b.ToServer?
    ensures var q := Step(cc, sc, Step(cc, sc, p, a), b);
            && q.c.sk.requests == 0 && q.c.sk.keepalive == cc.keepalive && q.c.sk.laddr == p.c.sk.laddr
            && Good(cc, sc, q) && synAck in q.s2c && synAck.flags == SYN_ACK
            && q.c.sk.state == SynSent && q.s.sk.state == SynReceived && q.received == [] && !q.cFin
  {
    var syn := Segment(p.c.sk.sndNxt + 1, 0, SYN, 0);
    a, b := LaunchClient(env), ToServer(syn, env);
    Launches(cc, sc, p, env);
    hide Step, Good, Init;
    var p1 := Step(cc, sc, p, a);
    synAck := Segment(p1.s.sk.sndNxt + 1, syn.seqno + 1, SYN_ACK, 0);
    Greeted(cc, sc, p1, syn, env);
  }

  /** Three events lead from the start to a request under way. */
  lemma CanOpen(cc: Config, sc: Config, p: Pair, env: Env) returns (es: seq<Event>)
    requires Init(cc, sc, p)
    ensures |es| == 3 && es[0].LaunchClient? && es[1].ToServer? && es[2].ToClient?
    ensures var q := Run(cc, sc, p, es);
            && Good(cc, sc, q) && Asking(q) && q.s.sk.state == SynReceived && q.received == []
            && q.s.sk.rcvNxt == q.c.sk.sndUna
            && q.c.sk.requests == 0 && q.c.sk.keepalive == cc.keepalive && q.c.sk.laddr == p.c.sk.laddr
  {
    var a, b, g := CanGreet(cc, sc, p, env);
    assert cc.dataLen > 0;
    hide Step, Good, Run, Init;
    var p2 := Step(cc, sc, Step(cc, sc, p, a), b);
    var c := ToClient(g, env);
    Joined(cc, sc, p2, g, env);
    RunsThree(cc, sc, p, a, b, c);
    es := [a, b, c];
    var q := Step(cc, sc, p2, c);
    assert View(q.c.sk) == Abs(q).c && View(q.s.sk) == Abs(p2).s;
  }

  lemma RunsThree(cc: Config, sc: Config, p: Pair, a: Event, b: Event, c: Event)
    ensures Run(cc, sc, p, [a, b, c]) == Step(cc, sc, Step(cc, sc, Step(cc, sc, p, a), b), c)
  {
    assert [a, b, c][1..] == [b, c];
    RunsTwo(cc, sc, Step(cc, sc, p, a), b, c);
  }
}
