/** A client with keepalive asks again and again: while it waits it is on the keepalive ring,
    the expiry brings the next request, and the run comes to as many responses as allowed. */
module Requests {
  import opened Rings
  import opened Tcp
  import opened Network
  import opened Invariants
  import opened Protocol
  import opened Connection
  import opened Progress
  import opened Closing

  // ---------------------------------------------------------------- waiting on the ring

  predicate Idle(k: Sock) { k.state == Established && k.keepalive && k.sndUna == k.sndNxt }

  /** An idle client is on the ring that wakes it. */
  predicate Waits(k: Sock) { Idle(k) ==> k.ring == Keepalive }

  lemma RetransmitWaits(cfg: Config, now: nat, st: St)
    requires Plain(cfg) && (Waits(st.sk) || st.sk.sndUna != st.sk.sndNxt)
    ensures Waits(DoRetransmit(cfg, now, st).sk)
  {
    hide Reply, Place;
    if st.sk.sndNxt != st.sk.sndUna {
      var st1 := st.(sk := st.sk.(retrans := (st.sk.retrans + 1) % 8));
      ReplyOnly(cfg, now, st1, st1.sk.flags);
      ReplyNumbers(cfg, now, st1, st1.sk.flags);
    }
  }

  lemma ReplyNumbers(cfg: Config, now: nat, st: St, f: Flags)
    ensures var r := Reply(cfg, now, st, f).sk;
            && (st.sk.sndUna != st.sk.sndNxt ==> r.sndNxt == st.sk.sndNxt) && r.sndUna == st.sk.sndUna
            && r.requests == st.sk.requests && r.keepalive == st.sk.keepalive && r.state == st.sk.state
            && (f in {ACK, NONE} && !cfg.server && cfg.arith == Unbounded ==> r == st.sk.(flags := f))
  {
    hide Place, Accurate, WireFlags;
  }

  /** A response that is taken leaves a client with keepalive on the ring. */
  lemma TakeWaits(cfg: Config, env: Env, st: St, g: Segment)
    requires Plain(cfg) && !cfg.server && cfg.interval > 0 && st.sk.state == Established && st.sk.sndUna == st.sk.sndNxt
    requires (st.sk.keepalive ==> !g.flags.fin) && g.len > 0
    ensures var (st1, tx) := ClientTake(cfg, env, st, g, NoHttp);
            Waits((if tx.fin && cfg.fastClose then Close(Reply(cfg, env.now, st1, RST_ACK))
                   else ClientFinish(cfg, env.now, st1, g.flags, tx)).sk)
  {
    hide Place, Accurate;
    if st.sk.keepalive {
      var st1 := ClientTake(cfg, env, st, g, NoHttp).0;
      assert st1.sk.ring == Keepalive;
      ReplyNumbers(cfg, env.now, st1, ACK);
      hide Reply;
    } else {
      hide Reply, ProcessFin;
      FinishTakesLeave(cfg, env.now, st.(stats := st.stats.(rsp := st.stats.rsp + 1)), g.flags);
      ReplyNumbers(cfg, env.now, st.(stats := st.stats.(rsp := st.stats.rsp + 1)), RST_ACK);
    }
  }

  lemma FinishTakesLeave(cfg: Config, now: nat, st: St, rx: Flags)
    requires st.sk.state == Established
    ensures ClientFinish(cfg, now, st, rx, FIN_ACK).sk.state == if rx.fin then LastAck else FinWait1
  {
    hide Place, Accurate;
  }

  lemma ClientDataWaits(cc: Config, sc: Config, p: Pair, g: Segment, env: Env)
    requires Good(cc, sc, p) && cc.interval > 0 && Waits(p.c.sk) && g in p.s2c && !g.flags.syn && g.flags.ack
    ensures Waits(ClientData(cc, env, p.c, g, NoHttp).sk)
  {
    NotEnabled(cc, sc, p, g);
    if p.c.sk.state == Established && Expected(p.c.sk, g) { TakesOnly(cc, sc, p, g); }
    ClientChecks(cc, sc, p, g, env);
    Plainly(cc, sc, p);
    hide Good, CheckSequence, ClientTake, ClientFinish, Reply, Place;
    var (st1, ok) := CheckSequence(cc, env.now, p.c, g);
    if ok {
      if st1.sk.state == Established {
        TakeWaits(cc, env, st1, g);
      } else {
        LateIsNotIdle(cc, env.now, st1, g.flags);
      }
    }
  }

  lemma Plainly(cc: Config, sc: Config, p: Pair)
    requires Good(cc, sc, p)
    ensures Plain(cc) && !cc.server && p.c.pool == []
  {
  }

  lemma TakesOnly(cc: Config, sc: Config, p: Pair, g: Segment)
    requires Good(cc, sc, p) && g in p.s2c && p.c.sk.state == Established && Expected(p.c.sk, g)
    ensures g.len > 0 && (p.c.sk.keepalive ==> !g.flags.fin) && p.c.sk.sndUna != p.c.sk.sndNxt
  {
    OnlyResponse(SizesOf(cc, sc), Abs(p), g);
  }

  lemma ClientChecks(cc: Config, sc: Config, p: Pair, g: Segment, env: Env)
    requires Good(cc, sc, p) && Waits(p.c.sk) && g in p.s2c && !g.flags.syn && g.flags.ack && !g.flags.rst
    requires !Crossing(p.c.sk, g)
    ensures var (r, ok) := CheckSequence(cc, env.now, p.c, g);
            && (!ok ==> Waits(r.sk))
            && (ok ==> Expected(p.c.sk, g) && r.sk.state == p.c.sk.state && r.sk.sndUna == r.sk.sndNxt
                       && r.sk.keepalive == p.c.sk.keepalive && r.sk.requests == p.c.sk.requests)
  {
    RetransmitWaits(cc, env.now, p.c);
    hide DoRetransmit, Place, Protocol.Inv;
  }

  lemma LateIsNotIdle(cfg: Config, now: nat, st: St, rx: Flags)
    requires st.sk.state !in {Established, SynSent, SynReceived}
    ensures ClientFinish(cfg, now, st, rx, NONE).sk.state != Established
  {
    hide Reply, Place, ProcessFin;
    LateFin(st, rx);
    var (st1, f) := ProcessFin(st, rx, NONE);
    ReplyNumbers(cfg, now, st1, f);
    ReplyNumbers(cfg, now, st, NONE);
  }

  lemma LateFin(st: St, rx: Flags)
    requires st.sk.state != Established
    ensures ProcessFin(st, rx, NONE).0.sk.state != Established
  {
    hide Place;
  }

  lemma ClientStepWaits(cc: Config, sc: Config, p: Pair, e: Event)
    requires Good(cc, sc, p) && cc.interval > 0 && Waits(p.c.sk)
    ensures Waits(Step(cc, sc, p, e).c.sk)
  {
    hide Good, Server, Client, Launch, RetransmitExpiry, KeepaliveExpiry, TimeoutExpiry;
    Plainly(cc, sc, p);
    match e {
      case LaunchClient(env) => LaunchWaits(cc, sc, p, env);
      case ToClient(g, env) => if g in p.s2c { ToClientWaits(cc, sc, p, g, env); }
      case ClientRetransmit(env) => if p.c.sk.ring == Retransmit { RetransmitExpiryWaits(cc, env.now, p.c); }
      case ClientKeepalive(env) => if p.c.sk.ring == Keepalive { ExpiryWaits(cc, env, p.c); }
      case _ =>
    }
  }

  lemma LaunchWaits(cc: Config, sc: Config, p: Pair, env: Env)
    requires Waits(p.c.sk) && Plain(cc)
    ensures Waits(Launch(cc, env.now, p.c).sk)
  {
    hide Place, Accurate;
  }

  lemma RetransmitExpiryWaits(cfg: Config, now: nat, st: St)
    requires Plain(cfg) && Waits(st.sk) && st.sk.ring == Retransmit
    ensures Waits(RetransmitExpiry(cfg, now, st).sk)
  {
    hide DoRetransmit, Place;
    RetransmitWaits(cfg, now, Move(st, NoRing));
  }

  lemma ToClientWaits(cc: Config, sc: Config, p: Pair, g: Segment, env: Env)
    requires Good(cc, sc, p) && cc.interval > 0 && Waits(p.c.sk) && g in p.s2c
    ensures Waits(Client(cc, env, p.c, g, NoHttp).sk)
  {
    NotEnabled(cc, sc, p, g);
    hide Good, ClientSynAck, ClientData;
    if g.flags.syn {
      SynAckWaits(cc, sc, p, g, env.now);
    } else if g.flags.ack {
      ClientDataWaits(cc, sc, p, g, env);
    }
  }

  lemma SynAckWaits(cc: Config, sc: Config, p: Pair, g: Segment, now: nat)
    requires Good(cc, sc, p) && Waits(p.c.sk) && g in p.s2c && g.flags.syn
    ensures g.flags == SYN_ACK && Waits(ClientSynAck(cc, now, p.c, g).sk)
  {
    assert g.flags == SYN_ACK && cc.dataLen > 0 && cc.arith == Unbounded && !cc.server;
    hide Good, Place, Accurate;
    ReplyNumbers(cc, now, p.c, ACK);
  }

  lemma ExpiryWaits(cfg: Config, env: Env, st: St)
    requires Plain(cfg) && !cfg.server && st.pool == []
    ensures !Idle(KeepaliveExpiry(cfg, env, st).sk)
  {
    hide Place, Accurate;
  }

  lemma {:induction false} RunWaits(cc: Config, sc: Config, p: Pair, es: seq<Event>)
    requires Good(cc, sc, p) && cc.interval > 0 && Waits(p.c.sk)
    ensures Waits(Run(cc, sc, p, es).c.sk)
    decreases |es|
  {
    if es != [] {
      StepKeeps(cc, sc, p, es[0]);
      ClientStepWaits(cc, sc, p, es[0]);
      hide Step, Good, Waits;
      RunWaits(cc, sc, Step(cc, sc, p, es[0]), es[1..]);
    }
  }

  /** In every run of a client with an interval: whenever it is established, with keepalive and
      nothing outstanding, it is on the keepalive ring. */
  lemma IdleWaits(cc: Config, sc: Config, p: Pair, es: seq<Event>)
    requires Init(cc, sc, p) && cc.interval > 0
    ensures Waits(Run(cc, sc, p, es).c.sk)
  {
    hide Run, Good;
    InitGood(cc, sc, p);
    RunWaits(cc, sc, p, es);
  }

  lemma InitGood(cc: Config, sc: Config, p: Pair)
    requires Init(cc, sc, p)
    ensures Good(cc, sc, p) && Waits(p.c.sk)
  {
  }

  // ---------------------------------------------------------------- the next request

  /** The expiry inside the duration of the run sends the next request; afterwards it sends a FIN. */
  lemma ExpiryAsks(cc: Config, sc: Config, p: Pair, env: Env)
    requires Good(cc, sc, p) && Idle(p.c.sk) && p.c.sk.ring == Keepalive
    ensures var q := Step(cc, sc, p, ClientKeepalive(env));
            && Good(cc, sc, q) && q.s == p.s && q.received == p.received
            && (env.inDuration ==>
                  && Asking(q) && q.c.sk.sndUna == p.c.sk.sndNxt
                  && |q.issued| == |p.issued| + 1 && q.issued[|p.issued|] == q.c.sk.sndUna
                  && RequestOf(cc, q) in q.c2s)
            && (!env.inDuration ==> q.cFin && q.c.sk.state == FinWait1 && FinOf(q) in q.c2s)
  {
    hide KeepaliveExpiry, Good, Protocol.Inv;
    Launched(cc, sc, p);
    ClientKeepaliveTurn(cc, sc, p, env);
    var q := Step(cc, sc, p, ClientKeepalive(env));
    assert View(q.c.sk) == Abs(q).c && q.c2s == Abs(q).c2s && q.issued == Abs(q).issued && q.cFin == Abs(q).cFin;
  }

  /** With interval zero the response that is taken inside the duration brings the next request with
      it; afterwards it brings a FIN. */
  lemma TakingAsks(cc: Config, sc: Config, p: Pair, env: Env)
    requires Good(cc, sc, p) && Asking(p) && p.s.sk.rcvNxt == p.c.sk.sndNxt && p.c.sk.keepalive && cc.interval == 0
    ensures var q := Step(cc, sc, p, ToClient(ResponseOf(sc, p), env));
            && Good(cc, sc, q) && q.s == p.s && q.received == p.received + [p.s.sk.sndUna]
            && (env.inDuration ==>
                  && Asking(q) && q.c.sk.sndUna == p.c.sk.sndNxt
                  && |q.issued| == |p.issued| + 1 && q.issued[|p.issued|] == q.c.sk.sndUna
                  && RequestOf(cc, q) in q.c2s)
            && (!env.inDuration ==> q.cFin && q.c.sk.state == FinWait2 && q.issued == p.issued && FinOf(q) in q.c2s)
  {
    var g := ResponseOf(sc, p);
    hide Good, Protocol.Inv, CheckSequence, ClientData;
    Due(cc, sc, p);
    ChecksOut(cc, env.now, p.c, g);
    ClientTakes(cc, sc, p, g, env);
    var q := Step(cc, sc, p, ToClient(g, env));
    assert View(q.c.sk) == Abs(q).c && q.c2s == Abs(q).c2s && q.issued == Abs(q).issued && q.cFin == Abs(q).cFin;
  }

  /** The response of a server with keepalive that has taken the request is on the network. */
  lemma Due(cc: Config, sc: Config, p: Pair)
    requires Good(cc, sc, p) && Asking(p) && p.s.sk.rcvNxt == p.c.sk.sndNxt && p.c.sk.keepalive
    ensures var g := ResponseOf(sc, p);
            && g in p.s2c && Expected(p.c.sk, g) && g.len > 0 && !g.flags.fin && !g.flags.syn && g.flags.ack
            && !g.flags.rst
    ensures p.c.sk.sndNxt !in p.issued && cc.dataLen > 0 && p.c.pool == [] && Plain(cc) && !cc.server
  {
  }

  lemma Launched(cc: Config, sc: Config, p: Pair)
    requires Good(cc, sc, p) && p.c.sk.state == Established
    ensures p.launched && p.joined && !p.cFin && cc.dataLen > 0
    ensures p.c.sk.sndUna == p.c.sk.sndNxt ==> p.c.sk.sndUna !in p.issued
  {
  }

  // ---------------------------------------------------------------- as many responses as allowed

  /** How many requests a client makes in all: the first one and those its keepalive allows. */
  predicate Allowed(cc: Config, n: nat) {
    if !cc.keepalive then n <= 1 else cc.maxRequests > 0 ==> n <= cc.maxRequests + 1
  }

  /** The client waits for response `n`, which the server has not been asked for yet. */
  ghost predicate AsksFor(cc: Config, sc: Config, q: Pair, n: nat) {
    && Good(cc, sc, q) && Asking(q) && q.s.sk.rcvNxt == q.c.sk.sndUna && q.s.sk.state != Closed
    && n > 0 && |q.received| == n - 1
    && (cc.keepalive && cc.maxRequests > 0 ==>
        q.c.sk.requests == n - 1 && (q.c.sk.keepalive <==> n - 1 < cc.maxRequests))
    && (cc.keepalive && cc.maxRequests == 0 ==> q.c.sk.keepalive)
  }

  /** What taking the response leaves of the counters. */
  lemma TakeCounts(cfg: Config, env: Env, st: St, g: Segment)
    requires Plain(cfg) && !cfg.server && cfg.interval > 0 && st.sk.state == Established && st.sk.keepalive
    requires Expected(st.sk, g) && g.len > 0 && !g.flags.fin
    ensures var r := ClientData(cfg, env, st, g, NoHttp).sk;
            r.requests == st.sk.requests && r.keepalive && r.state == Established && r.sndUna == r.sndNxt
  {
    Accepts(cfg, env.now, st, g);
    TakenCounters(cfg, env.now, st, g);
    hide CheckSequence, Reply, Place, Accurate;
    var st1 := CheckSequence(cfg, env.now, st, g).0;
    var st2 := ClientTake(cfg, env, st1, g, NoHttp).0;
    ReplyNumbers(cfg, env.now, st2, ACK);
  }

  lemma TakenCounters(cfg: Config, now: nat, st: St, g: Segment)
    requires Expected(st.sk, g)
    ensures var r := CheckSequence(cfg, now, st, g).0.sk; r.requests == st.sk.requests && r.keepalive == st.sk.keepalive
  {
    hide Place, Accurate;
  }

  lemma ExpiryCounts(cfg: Config, env: Env, st: St)
    requires Plain(cfg) && !cfg.server && Idle(st.sk) && env.inDuration
    ensures var r := KeepaliveExpiry(cfg, env, st).sk;
            && r.requests == (st.sk.requests + 1) % 0x8000
            && (r.keepalive <==> cfg.maxRequests == 0 || r.requests < cfg.maxRequests)
  {
    hide Reply, Place, Accurate;
    var st1 := Move(st, NoRing);
    ReplyNumbers(cfg, env.now, st1.(sk := st1.sk.(requests := (st.sk.requests + 1) % 0x8000)), PUSH_ACK);
  }

  /** The same of a response that brings the next request. */
  lemma AtOnceCounts(cfg: Config, env: Env, st: St, g: Segment)
    requires Plain(cfg) && !cfg.server && cfg.interval == 0 && st.sk.state == Established && st.sk.keepalive
    requires Expected(st.sk, g) && g.len > 0 && !g.flags.fin && env.inDuration
    ensures var r := ClientData(cfg, env, st, g, NoHttp).sk;
            && r.requests == (st.sk.requests + 1) % 0x8000
            && (r.keepalive <==> cfg.maxRequests == 0 || r.requests < cfg.maxRequests)
  {
    hide CheckSequence, SendKeepaliveRequest, ClientFinish, ClientData;
    TakenCounters(cfg, env.now, st, g);
    var st1 := CheckSequence(cfg, env.now, st, g).0;
    var st2 := st1.(stats := st1.stats.(rsp := st1.stats.rsp + 1));
    AtOnceIs(cfg, env, st, g, st1);
    RequestCounts(cfg, env, st2);
    FinishCounts(cfg, env.now, SendKeepaliveRequest(cfg, env, st2), g.flags, ACK);
  }

  lemma AtOnceIs(cfg: Config, env: Env, st: St, g: Segment, st1: St)
    requires !cfg.http && cfg.interval == 0 && st.sk.state == Established && st.sk.keepalive
    requires Expected(st.sk, g) && g.len > 0 && st1 == CheckSequence(cfg, env.now, st, g).0
    ensures var st2 := st1.(stats := st1.stats.(rsp := st1.stats.rsp + 1));
            var st3 := SendKeepaliveRequest(cfg, env, st2);
            ClientData(cfg, env, st, g, NoHttp) == ClientFinish(cfg, env.now, st3, g.flags, ACK)
  {
    hide CheckSequence, SendKeepaliveRequest, ClientFinish, ClientTake, Reply, Close;
    Accepts(cfg, env.now, st, g);
    TakenCounters(cfg, env.now, st, g);
    TakesAtOnce(cfg, env, st1, g);
  }

  lemma TakesAtOnce(cfg: Config, env: Env, st: St, g: Segment)
    requires !cfg.http && cfg.interval == 0 && st.sk.keepalive
    ensures var st2 := st.(stats := st.stats.(rsp := st.stats.rsp + 1));
            ClientTake(cfg, env, st, g, NoHttp) == (SendKeepaliveRequest(cfg, env, st2), ACK)
  {
    hide SendKeepaliveRequest, StartKeepalive, HttpData;
  }

  /** The request is served, and its response taken with the next request in its wake. */
  lemma AnswersAtOnce(cc: Config, sc: Config, q: Pair, n: nat, env: Env) returns (es: seq<Event>)
    requires AsksFor(cc, sc, q, n) && cc.interval == 0 && env.inDuration && cc.maxRequests <= 0x7fff
    ensures var r := Run(cc, sc, q, es);
            && |r.received| == n
            && (cc.keepalive && (cc.maxRequests > 0 ==> n <= cc.maxRequests) ==> AsksFor(cc, sc, r, n + 1))
  {
    hide Step, Good, Run, ClientData;
    var e := ToServer(RequestOf(cc, q), env);
    RequestServed(cc, sc, q, env);
    var q1 := Step(cc, sc, q, e);
    var e1 := ToClient(ResponseOf(sc, q1), env);
    ResponseTaken(cc, sc, q1, env);
    if q.c.sk.keepalive {
      TakingAsks(cc, sc, q1, env);
      Due(cc, sc, q1);
      AtOnceCounts(cc, env, q1.c, ResponseOf(sc, q1));
      TakingStep(cc, sc, q1, ResponseOf(sc, q1), env);
    }
    es := [e, e1];
    RunsTwo(cc, sc, q, e, e1);
  }

  lemma TakingStep(cc: Config, sc: Config, q: Pair, g: Segment, env: Env)
    requires g in q.s2c && !g.flags.syn && !g.flags.rst && g.flags.ack
    ensures Step(cc, sc, q, ToClient(g, env)).c.sk == ClientData(cc, env, q.c, g, NoHttp).sk
  {
    hide ClientData;
  }

  /** The request is served and its response taken. */
  lemma Answers(cc: Config, sc: Config, q: Pair, n: nat, env: Env) returns (es: seq<Event>)
    requires AsksFor(cc, sc, q, n) && cc.interval > 0 && Waits(q.c.sk)
    ensures |es| == 2
    ensures var r := Run(cc, sc, q, es);
            && Good(cc, sc, r) && |r.received| == n && Waits(r.c.sk) && r.s.sk.state != Closed
            && (q.c.sk.keepalive ==> Idle(r.c.sk) && r.c.sk.requests == q.c.sk.requests)
  {
    hide Step, Good, Run;
    var e := ToServer(RequestOf(cc, q), env);
    RequestServed(cc, sc, q, env);
    var q1 := Step(cc, sc, q, e);
    var e1 := ToClient(ResponseOf(sc, q1), env);
    ResponseTaken(cc, sc, q1, env);
    if q.c.sk.keepalive { StillIdle(cc, sc, q1, env); }
    ClientStepWaits(cc, sc, q, e);
    ClientStepWaits(cc, sc, q1, e1);
    OtherStays(cc, sc, q1, e1);
    es := [e, e1];
    RunsTwo(cc, sc, q, e, e1);
  }

  lemma OtherStays(cc: Config, sc: Config, p: Pair, e: Event)
    ensures e.ToClient? || e.ClientKeepalive? ==> Step(cc, sc, p, e).s == p.s
  {
    hide Client, KeepaliveExpiry;
  }

  lemma StillIdle(cc: Config, sc: Config, p: Pair, env: Env)
    requires Good(cc, sc, p) && Asking(p) && p.s.sk.rcvNxt == p.c.sk.sndNxt && p.c.sk.keepalive && cc.interval > 0
    ensures var k := Step(cc, sc, p, ToClient(ResponseOf(sc, p), env)).c.sk;
            Idle(k) && k.requests == p.c.sk.requests
  {
    var g := ResponseOf(sc, p);
    assert g in p.s2c && Expected(p.c.sk, g) && g.len > 0;
    TakesOnly(cc, sc, p, g);
    Plainly(cc, sc, p);
    TakeCounts(cc, env, p.c, g);
    hide ClientData, Good;
  }

  /** And the next one is asked for. */
  lemma AsksOn(cc: Config, sc: Config, q: Pair, n: nat, env: Env)
    requires Good(cc, sc, q) && Idle(q.c.sk) && Waits(q.c.sk) && |q.received| == n && q.s.sk.state != Closed
    requires env.inDuration && cc.keepalive
    requires cc.maxRequests > 0 ==> q.c.sk.requests == n - 1 < cc.maxRequests <= 0x7fff && n < cc.maxRequests + 1
    requires n > 0
    ensures AsksFor(cc, sc, Step(cc, sc, q, ClientKeepalive(env)), n + 1)
  {
    hide KeepaliveExpiry, Good, Step;
    ExpiryAsks(cc, sc, q, env);
    Plainly(cc, sc, q);
    ExpiryCounts(cc, env, q.c);
    ExpiryStep(cc, sc, q, env);
    Idly(cc, sc, q);
  }

  lemma ExpiryStep(cc: Config, sc: Config, q: Pair, env: Env)
    requires q.c.sk.ring == Keepalive
    ensures Step(cc, sc, q, ClientKeepalive(env)).c.sk == KeepaliveExpiry(cc, env, q.c).sk
  {
    hide KeepaliveExpiry;
  }

  lemma Idly(cc: Config, sc: Config, q: Pair)
    requires Good(cc, sc, q) && Idle(q.c.sk)
    ensures q.s.sk.rcvNxt == q.c.sk.sndNxt
  {
  }

  lemma {:induction false} RunsOn(cc: Config, sc: Config, p: Pair, a: seq<Event>, b: seq<Event>)
    ensures Run(cc, sc, p, a + b) == Run(cc, sc, Run(cc, sc, p, a), b)
    decreases |a|
  {
    hide Step;
    if a == [] {
      assert a + b == b;
    } else {
      assert (a + b)[1..] == a[1..] + b;
      RunsOn(cc, sc, Step(cc, sc, p, a[0]), a[1..], b);
    }
  }

  /** The client can be brought to ask for response `n`. */
  lemma {:induction false} CanAskFor(cc: Config, sc: Config, p: Pair, n: nat, now: nat) returns (es: seq<Event>)
    requires Init(cc, sc, p) && n > 0 && Allowed(cc, n) && cc.maxRequests <= 0x7fff
    ensures AsksFor(cc, sc, Run(cc, sc, p, es), n) && (cc.interval > 0 ==> Waits(Run(cc, sc, p, es).c.sk))
    decreases n
  {
    var env := Env(now, true);
    InitGood(cc, sc, p);
    if n == 1 {
      es := CanOpen(cc, sc, p, env);
      hide Run, Good, Init;
      if cc.interval > 0 { RunWaits(cc, sc, p, es); }
    } else if cc.interval == 0 {
      hide Step, Run, Good, Init, Waits;
      var a := CanAskFor(cc, sc, p, n - 1, now);
      var b := AnswersAtOnce(cc, sc, Run(cc, sc, p, a), n - 1, env);
      es := a + b;
      RunsOn(cc, sc, p, a, b);
    } else {
      hide Step, Run, Good, Init, Waits;
      var a := CanAskFor(cc, sc, p, n - 1, now);
      var q := Run(cc, sc, p, a);
      var b := Answers(cc, sc, q, n - 1, env);
      var q1 := Run(cc, sc, q, b);
      AsksOn(cc, sc, q1, n - 1, env);
      var e := ClientKeepalive(env);
      es := a + b + [e];
      RunsOn(cc, sc, p, a, b);
      RunsOn(cc, sc, p, a + b, [e]);
      RunsOne(cc, sc, q1, e);
      RunWaits(cc, sc, p, es);
    }
  }

  /** For every number of responses the settings allow, some run comes to exactly that many. */
  lemma ReachesAll(cc: Config, sc: Config, p: Pair, n: nat, now: nat) returns (es: seq<Event>)
    requires Init(cc, sc, p) && Allowed(cc, n) && cc.maxRequests <= 0x7fff
    ensures |Run(cc, sc, p, es).received| == n
  {
    if n == 0 {
      es := [];
    } else {
      var a := CanAskFor(cc, sc, p, n, now);
      hide Step, Run, Good, Init;
      var b;
      if cc.interval == 0 {
        b := AnswersAtOnce(cc, sc, Run(cc, sc, p, a), n, Env(now, true));
      } else {
        b := Answers(cc, sc, Run(cc, sc, p, a), n, Env(now, true));
      }
      es := a + b;
      RunsOn(cc, sc, p, a, b);
    }
  }

  // ---------------------------------------------------------------- and no more

  /** What a turn does to the counter: nothing, and then nothing new is outstanding but a FIN;
      or it is one request more, of a client with keepalive. */
  predicate Counts(cfg: Config, st: St, r: St) {
    || (&& r.sk.requests == st.sk.requests && (r.sk.keepalive ==> st.sk.keepalive)
        && (r.sk.sndUna != r.sk.sndNxt ==>
              || r.sk.state in {FinWait1, FinWait2, LastAck}
              || (st.sk.sndUna != st.sk.sndNxt && r.stats.rsp == st.stats.rsp)))
    || (&& st.sk.keepalive && r.sk.requests == (st.sk.requests + 1) % 0x8000
        && (r.sk.keepalive <==> cfg.maxRequests == 0 || r.sk.requests < cfg.maxRequests))
  }

  lemma RetransmitCounts(cfg: Config, now: nat, st: St)
    requires Plain(cfg) && !cfg.server
    ensures Counts(cfg, st, DoRetransmit(cfg, now, st)) && DoRetransmit(cfg, now, st).stats.rsp == st.stats.rsp
  {
    hide Reply, Place;
    if st.sk.sndNxt != st.sk.sndUna {
      var st1 := st.(sk := st.sk.(retrans := (st.sk.retrans + 1) % 8));
      ReplyNumbers(cfg, now, st1, st1.sk.flags);
      ReplyStats(cfg, now, st1, st1.sk.flags);
    }
  }

  lemma ReplyStats(cfg: Config, now: nat, st: St, f: Flags)
    requires !cfg.server
    ensures Reply(cfg, now, st, f).stats.rsp == st.stats.rsp
  {
    hide Place, Accurate, WireFlags, Advance;
  }

  lemma RequestCounts(cfg: Config, env: Env, st: St)
    requires Plain(cfg) && !cfg.server && st.sk.keepalive
    ensures var r := SendKeepaliveRequest(cfg, env, st);
            && (env.inDuration ==>
                  && r.sk.requests == (st.sk.requests + 1) % 0x8000 && r.sk.state == st.sk.state
                  && (r.sk.keepalive <==> cfg.maxRequests == 0 || r.sk.requests < cfg.maxRequests))
            && (!env.inDuration ==>
                  r.sk.requests == st.sk.requests && !r.sk.keepalive && r.sk.state == FinWait1)
  {
    hide Reply;
    ReplyNumbers(cfg, env.now, st.(sk := st.sk.(requests := (st.sk.requests + 1) % 0x8000)), PUSH_ACK);
    ReplyNumbers(cfg, env.now, st.(sk := st.sk.(state := FinWait1)), FIN_ACK);
  }

  /** The end of a turn touches neither, and leaves outstanding what was, or a FIN. */
  lemma FinishCounts(cfg: Config, now: nat, st: St, rx: Flags, tx: Flags)
    requires Plain(cfg) && !cfg.server && tx in {NONE, ACK, FIN_ACK} && (tx == FIN_ACK ==> st.sk.state == Established)
    ensures var r := ClientFinish(cfg, now, st, rx, tx);
            && r.sk.requests == st.sk.requests && r.sk.keepalive == st.sk.keepalive
            && (r.sk.sndUna != r.sk.sndNxt ==>
                  st.sk.sndUna != st.sk.sndNxt || r.sk.state in {FinWait1, FinWait2, LastAck})
            && (st.sk.state == FinWait1 && tx == ACK && !rx.fin ==> r.sk.state == FinWait2)
  {
    FinCounts(st, rx, tx);
    hide Reply, Place, ProcessFin;
    var (st1, f) := if Rank(st.sk.state) > Rank(Established) || rx.fin || tx.fin then ProcessFin(st, rx, tx)
        else (st, tx);
    ReplyNumbers(cfg, now, st1, f);
    if f in {ACK, NONE} { AckMoves(cfg, now, st1, f); }
  }

  lemma AckMoves(cfg: Config, now: nat, st: St, f: Flags)
    requires f in {ACK, NONE} && cfg.arith == Unbounded
    ensures Reply(cfg, now, st, f).sk.sndNxt == st.sk.sndNxt
  {
    hide Place, Accurate, WireFlags;
  }

  lemma FinCounts(st: St, rx: Flags, tx: Flags)
    requires tx in {NONE, ACK, FIN_ACK} && (tx == FIN_ACK ==> st.sk.state == Established)
    ensures var (r, f) := ProcessFin(st, rx, tx);
            && r.sk.requests == st.sk.requests && r.sk.keepalive == st.sk.keepalive
            && r.sk.sndUna == st.sk.sndUna && r.sk.sndNxt == st.sk.sndNxt
            && (f in {ACK, NONE} || r.sk.state in {FinWait1, LastAck})
            && (st.sk.state == FinWait1 && !rx.fin ==> r.sk.state == FinWait2 && f == tx)
            && (st.sk.state == Established && !rx.fin && !tx.fin ==> r == st && f == tx)
  {
    hide Place;
  }

  lemma ClientDataCounts(cfg: Config, env: Env, st: St, g: Segment)
    requires Plain(cfg) && !cfg.server && !Crossing(st.sk, g) && g.flags.ack && !g.flags.syn && !g.flags.rst
    requires Expected(st.sk, g) && st.sk.state == Established && st.sk.keepalive ==> !g.flags.fin
    ensures Counts(cfg, st, ClientData(cfg, env, st, g, NoHttp))
  {
    hide CheckSequence, ClientTake, ClientFinish, Reply, Place, Close, Counts;
    CheckCounts(cfg, env.now, st, g);
    var (st1, ok) := CheckSequence(cfg, env.now, st, g);
    if ok {
      if st1.sk.state == Established && g.len > 0 {
        TakenCounts(cfg, env, st1, g);
      } else {
        FinishIsQuiet(cfg, env.now, st1, g.flags);
      }
      CountsThen(cfg, st, st1, ClientData(cfg, env, st, g, NoHttp));
    }
  }

  lemma FinishIsQuiet(cfg: Config, now: nat, st: St, rx: Flags)
    requires Plain(cfg) && !cfg.server && st.sk.sndUna == st.sk.sndNxt
    ensures Counts(cfg, st, ClientFinish(cfg, now, st, rx, NONE))
  {
    hide ClientFinish;
    FinishCounts(cfg, now, st, rx, NONE);
  }

  lemma CountsThen(cfg: Config, st: St, st1: St, r: St)
    requires Counts(cfg, st1, r) && st1.sk.sndUna == st1.sk.sndNxt
    requires st1.sk.requests == st.sk.requests && st1.sk.keepalive == st.sk.keepalive
    ensures Counts(cfg, st, r)
  {
  }

  lemma CheckCounts(cfg: Config, now: nat, st: St, g: Segment)
    requires Plain(cfg) && !cfg.server && !Crossing(st.sk, g)
    ensures var (r, ok) := CheckSequence(cfg, now, st, g);
            && (!ok ==> Counts(cfg, st, r))
            && (ok ==> g.ack == st.sk.sndNxt && g.seqno == st.sk.rcvNxt && r.sk.state == st.sk.state
                       && r.sk.sndUna == r.sk.sndNxt && r.sk.requests == st.sk.requests
                       && r.sk.keepalive == st.sk.keepalive)
  {
    RetransmitCounts(cfg, now, st);
    hide DoRetransmit, Place;
  }

  lemma TakenCounts(cfg: Config, env: Env, st: St, g: Segment)
    requires Plain(cfg) && !cfg.server && st.sk.state == Established && st.sk.sndUna == st.sk.sndNxt
    requires st.sk.keepalive ==> !g.flags.fin
    ensures var (st1, tx) := ClientTake(cfg, env, st, g, NoHttp);
            Counts(cfg, st, if tx.fin && cfg.fastClose then Close(Reply(cfg, env.now, st1, RST_ACK))
                            else ClientFinish(cfg, env.now, st1, g.flags, tx))
  {
    hide Reply, Place, ClientFinish, SendKeepaliveRequest, Accurate;
    var st0 := st.(stats := st.stats.(rsp := st.stats.rsp + 1));
    var (st1, tx) := ClientTake(cfg, env, st, g, NoHttp);
    if !st.sk.keepalive {
      ResetNumbers(cfg, env.now, st1);
    } else if cfg.interval == 0 {
      RequestCounts(cfg, env, st0);
    }
    FinishCounts(cfg, env.now, st1, g.flags, tx);
  }

  lemma ResetNumbers(cfg: Config, now: nat, st: St)
    requires Plain(cfg) && st.sk.sndUna == st.sk.sndNxt
    ensures var r := Close(Reply(cfg, now, st, RST_ACK)).sk;
            r.requests == st.sk.requests && r.keepalive == st.sk.keepalive && r.sndUna == r.sndNxt
  {
    hide Place, Accurate;
  }

  lemma KeepaliveCounts(cfg: Config, env: Env, st: St)
    requires Plain(cfg) && !cfg.server
    ensures Counts(cfg, st, KeepaliveExpiry(cfg, env, st))
  {
    hide Reply, Place, SendKeepaliveRequest;
    var st1 := Move(st, NoRing);
    ReplyNumbers(cfg, env.now, st1.(sk := st1.sk.(state := FinWait1)), FIN_ACK);
    if st1.sk.keepalive { RequestCounts(cfg, env, st1); }
  }

  /** The most requests a client can make. */
  function Most(cc: Config): nat { if cc.keepalive then cc.maxRequests + 1 else 1 }

  /** Every request but the first is counted, and none is sent beyond the limit. */
  ghost predicate Counted(cc: Config, q: Pair) {
    var k := q.c.sk;
    && (k.keepalive ==> cc.keepalive)
    && (if q.joined then |q.issued| <= k.requests + 1 else q.issued == [] && (q.launched ==> k.requests == 0))
    && (q.launched && !cc.keepalive ==> k.requests == 0)
    && (q.launched && cc.keepalive ==> k.requests <= cc.maxRequests && (k.keepalive ==> k.requests < cc.maxRequests))
  }

  /** A turn of a client that is connected, or not yet. */
  lemma TurnCounted(cc: Config, sc: Config, p: Pair, q: Pair, r: St, n: int)
    requires Good(cc, sc, p) && Good(cc, sc, q) && Counted(cc, p) && q == ClientTurn(p, r, n) && Counts(cc, p.c, r)
    requires (cc.keepalive ==> 0 < cc.maxRequests <= 0x7fff) && p.joined
    ensures Counted(cc, q)
  {
    hide Good, DataLog;
    Lengths(cc, sc, p);
    Lengths(cc, sc, q);
  }

  /** How many requests there are: one more than responses taken while one is under way. */
  lemma Lengths(cc: Config, sc: Config, p: Pair)
    requires Good(cc, sc, p) && p.joined
    ensures |p.issued| == |p.received| + (if !p.cFin && p.c.sk.sndUna < p.c.sk.sndNxt then 1 else 0)
    ensures p.c.sk.state in {FinWait1, FinWait2, LastAck} ==> p.cFin
    ensures p.c.sk.sndUna <= p.c.sk.sndNxt && |p.received| == p.c.stats.rsp && p.launched
    ensures |p.received| <= |p.accepted| <= |p.issued|
  {
  }

  lemma SynAckCounted(cc: Config, sc: Config, p: Pair, g: Segment, env: Env)
    requires Good(cc, sc, p) && Counted(cc, p) && g in p.s2c && g.flags.syn
    ensures Counted(cc, Step(cc, sc, p, ToClient(g, env)))
  {
    var q := Step(cc, sc, p, ToClient(g, env));
    StepKeeps(cc, sc, p, ToClient(g, env));
    SynAckCounters(cc, env.now, p.c, g);
    Handshaken(cc, sc, p);
    Handshaken(cc, sc, q);
    if p.joined { Lengths(cc, sc, p); Lengths(cc, sc, q); }
    hide Good, ClientSynAck, ClientData;
  }

  lemma SynAckCounters(cfg: Config, now: nat, st: St, g: Segment)
    requires !cfg.server
    ensures var r := ClientSynAck(cfg, now, st, g);
            && r.sk.requests == st.sk.requests && r.sk.keepalive == st.sk.keepalive && r.stats.rsp == st.stats.rsp
            && (st.sk.sndUna != st.sk.sndNxt && st.sk.state != SynSent ==> r.sk.sndNxt == st.sk.sndNxt)
  {
    hide Reply;
    ReplyNumbers(cfg, now, st, ACK);
    ReplyStats(cfg, now, st, ACK);
    var st1 := st.(sk := st.sk.(rcvNxt := Add(cfg.arith, g.seqno, 1), sndUna := g.ack, state := Established));
    ReplyNumbers(cfg, now, st1, PUSH_ACK);
    ReplyStats(cfg, now, st1, PUSH_ACK);
  }

  lemma Handshaken(cc: Config, sc: Config, p: Pair)
    requires Good(cc, sc, p)
    ensures !cc.server && (!p.joined ==> p.issued == []) && (p.joined ==> |p.issued| <= |p.received| + 1)
    ensures !p.joined ==> p.received == [] && p.c.sk.state in {SynSent, Closed} && p.c.stats.rsp == 0
    ensures p.joined ==> p.launched && p.c.sk.state != SynSent
    ensures forall g :: g in p.s2c && !p.joined ==> g.flags == SYN_ACK
    ensures forall g :: g in p.s2c && g.flags.syn ==> g.flags == SYN_ACK
    ensures forall g :: g in p.s2c ==> !g.flags.rst
  {
  }

  lemma LaunchCounted(cc: Config, sc: Config, p: Pair, env: Env)
    requires Good(cc, sc, p) && Counted(cc, p) && !p.launched && (cc.keepalive ==> 0 < cc.maxRequests <= 0x7fff)
    ensures Counted(cc, Step(cc, sc, p, LaunchClient(env)))
  {
    NotYet(cc, sc, p);
    Plainly(cc, sc, p);
    var q := Step(cc, sc, p, LaunchClient(env));
    StepKeeps(cc, sc, p, LaunchClient(env));
    Handshaken(cc, sc, q);
    Unjoined(cc, sc, p);
    hide Good, Place, Accurate;
  }

  lemma Unjoined(cc: Config, sc: Config, p: Pair)
    requires Good(cc, sc, p) && !p.launched
    ensures !p.joined
  {
  }

  lemma RetransmitQuiet(cfg: Config, now: nat, st: St)
    ensures cfg.sendWindow == 0 ==>
              var r := RetransmitExpiry(cfg, now, st).sk; r.requests == st.sk.requests && r.keepalive == st.sk.keepalive
  {
    hide Reply, Place;
    var st1 := Move(st, NoRing);
    var st2 := st1.(sk := st1.sk.(retrans := (st.sk.retrans + 1) % 8));
    ReplyNumbers(cfg, now, st2, st2.sk.flags);
  }

  lemma TimerOnRing(cc: Config, sc: Config, p: Pair)
    requires Good(cc, sc, p)
    ensures p.c.sk.ring != NoRing ==> p.launched
    ensures p.c.sk.ring == Keepalive ==> p.joined
  {
  }

  lemma ToClientCounted(cc: Config, sc: Config, p: Pair, g: Segment, env: Env)
    requires Good(cc, sc, p) && Counted(cc, p) && (cc.keepalive ==> 0 < cc.maxRequests <= 0x7fff) && g in p.s2c
    ensures Counted(cc, Step(cc, sc, p, ToClient(g, env)))
  {
    Handshaken(cc, sc, p);
    if g.flags.syn {
      SynAckCounted(cc, sc, p, g, env);
    } else {
      NotEnabled(cc, sc, p, g);
      Plainly(cc, sc, p);
      StepKeeps(cc, sc, p, ToClient(g, env));
      if g.flags.ack { ClientDataCounts(cc, env, p.c, g); }
      hide Good, ClientData, ClientSynAck, Counted;
      TurnCounted(cc, sc, p, Step(cc, sc, p, ToClient(g, env)), Client(cc, env, p.c, g, NoHttp), g.seqno);
    }
  }

  lemma RetransmitCounted(cc: Config, sc: Config, p: Pair, env: Env)
    requires Good(cc, sc, p) && Counted(cc, p) && (cc.keepalive ==> 0 < cc.maxRequests <= 0x7fff)
    requires p.c.sk.ring == Retransmit
    ensures Counted(cc, Step(cc, sc, p, ClientRetransmit(env)))
  {
    var q := Step(cc, sc, p, ClientRetransmit(env));
    StepKeeps(cc, sc, p, ClientRetransmit(env));
    Plainly(cc, sc, p);
    TimerOnRing(cc, sc, p);
    Handshaken(cc, sc, q);
    RetransmitQuiet(cc, env.now, p.c);
    RetransmitCounts(cc, env.now, Move(p.c, NoRing));
    hide Good, DoRetransmit, Place;
    if p.joined {
      TurnCounted(cc, sc, p, q, RetransmitExpiry(cc, env.now, p.c), 0);
    } else {
      StaysUnjoined(cc, sc, p, env);
    }
  }

  lemma StaysUnjoined(cc: Config, sc: Config, p: Pair, env: Env)
    requires Good(cc, sc, p) && !p.joined && p.launched
    ensures RetransmitExpiry(cc, env.now, p.c).sk.state in {SynSent, Closed}
  {
    Handshaken(cc, sc, p);
    hide Good, Place, Accurate, WireFlags, Advance;
  }

  lemma KeepaliveCounted(cc: Config, sc: Config, p: Pair, env: Env)
    requires Good(cc, sc, p) && Counted(cc, p) && (cc.keepalive ==> 0 < cc.maxRequests <= 0x7fff)
    requires p.c.sk.ring == Keepalive
    ensures Counted(cc, Step(cc, sc, p, ClientKeepalive(env)))
  {
    var q := Step(cc, sc, p, ClientKeepalive(env));
    StepKeeps(cc, sc, p, ClientKeepalive(env));
    Plainly(cc, sc, p);
    TimerOnRing(cc, sc, p);
    KeepaliveCounts(cc, env, p.c);
    hide Good, KeepaliveExpiry, Counted;
    TurnCounted(cc, sc, p, q, KeepaliveExpiry(cc, env, p.c), 0);
  }

  lemma StepCounted(cc: Config, sc: Config, p: Pair, e: Event)
    requires Good(cc, sc, p) && Counted(cc, p) && (cc.keepalive ==> 0 < cc.maxRequests <= 0x7fff)
    ensures Counted(cc, Step(cc, sc, p, e))
  {
    hide Good, Server, Client, Launch, RetransmitExpiry, KeepaliveExpiry, TimeoutExpiry;
    match e {
      case LaunchClient(env) => if !p.launched { LaunchCounted(cc, sc, p, env); }
      case ToClient(g, env) => if g in p.s2c { ToClientCounted(cc, sc, p, g, env); }
      case ClientRetransmit(env) => if p.c.sk.ring == Retransmit { RetransmitCounted(cc, sc, p, env); }
      case ClientKeepalive(env) => if p.c.sk.ring == Keepalive { KeepaliveCounted(cc, sc, p, env); }
      case _ =>
    }
  }

  lemma {:induction false} RunCounted(cc: Config, sc: Config, p: Pair, es: seq<Event>)
    requires Good(cc, sc, p) && Counted(cc, p) && (cc.keepalive ==> 0 < cc.maxRequests <= 0x7fff)
    ensures Counted(cc, Run(cc, sc, p, es))
    decreases |es|
  {
    if es != [] {
      StepKeeps(cc, sc, p, es[0]);
      StepCounted(cc, sc, p, es[0]);
      hide Step, Good, Counted;
      RunCounted(cc, sc, Step(cc, sc, p, es[0]), es[1..]);
    }
  }

  /** In no run does a client make more requests than its settings allow: one without
      keepalive, and one more than the limit with one. `ReachesAll` reaches them all. */
  lemma NoMoreThanAllowed(cc: Config, sc: Config, p: Pair, es: seq<Event>)
    requires Init(cc, sc, p) && (cc.keepalive ==> 0 < cc.maxRequests <= 0x7fff)
    ensures |Run(cc, sc, p, es).issued| <= Most(cc)
  {
    InitGood(cc, sc, p);
    RunCounted(cc, sc, p, es);
    RunKeeps(cc, sc, p, es);
    Handshaken(cc, sc, Run(cc, sc, p, es));
    hide Run, Good;
  }
}
