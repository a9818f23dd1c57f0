/** How a connection is opened: which SYNs a server answers, which SYN-ACKs a client takes, how
    the opening survives a network that loses everything, and what a SYN flood sends. */
module Handshake {
  import opened Rings
  import opened Tcp
  import opened Network
  import opened Invariants
  import opened Protocol
  import opened Connection
  import opened Progress
  import opened Recovery

  // ---------------------------------------------------------------- SYNs at the server

  /** The same SYN again and again, at these clock readings. */
  function Syns(cfg: Config, st: St, g: Segment, nows: seq<nat>): St
    decreases |nows|
  {
    if nows == [] then st else Syns(cfg, Server(cfg, nows[0], st, g), g, nows[1..])
  }

  /** Each time is more than a second after the one before. */
  predicate Spaced(second: nat, last: nat, times: seq<nat>)
    decreases |times|
  {
    times != [] ==> last + second < times[0] && Spaced(second, times[0], times[1..])
  }

  function LastOf(last: nat, times: seq<nat>): nat { if times == [] then last else times[|times| - 1] }

  function SynAckOf(k: Sock): Segment { Segment(k.sndUna, k.rcvNxt, SYN_ACK, 0) }

  /** Once opened, a stop-and-wait server answers repeated SYNs with the same SYN-ACK, at clock
      readings more than a second apart, and leaves no SYN unanswered that came more than a second
      after its last answer. */
  lemma {:induction false} SynAcksAreSpaced(cfg: Config, st: St, g: Segment, nows: seq<nat>) returns (times: seq<nat>)
    requires cfg.server && cfg.sendWindow == 0 && st.pool == [] && g.flags == SYN
    requires st.sk.state == SynReceived && st.sk.sndUna != st.sk.sndNxt
    ensures var r := Syns(cfg, st, g, nows);
            && r.sent == st.sent + seq(|times|, _ => SynAckOf(st.sk))
            && Spaced(cfg.second, st.sk.timer, times) && (forall t :: t in times ==> t in nows)
            && r.sk.timer == LastOf(st.sk.timer, times)
            && (nows != [] ==> nows[|nows| - 1] <= r.sk.timer + cfg.second)
            && r.sk.state == SynReceived && r.sk.sndUna == st.sk.sndUna && r.sk.sndNxt == st.sk.sndNxt
            && (times != [] || st.sk.ring == Retransmit ==> r.sk.ring == Retransmit)
    decreases |nows|
  {
    hide Server;
    times := [];
    if nows != [] {
      var r := Server(cfg, nows[0], st, g);
      SynAgain(cfg, nows[0], st, g);
      times := SynAcksAreSpaced(cfg, r, g, nows[1..]);
      if nows[0] > st.sk.timer + cfg.second { times := [nows[0]] + times; }
    }
  }

  lemma SynAgain(cfg: Config, now: nat, st: St, g: Segment)
    requires cfg.server && cfg.sendWindow == 0 && st.pool == [] && g.flags == SYN
    requires st.sk.state == SynReceived && st.sk.sndUna != st.sk.sndNxt
    ensures var r := Server(cfg, now, st, g);
            if st.sk.timer + cfg.second < now then
              && r.sent == st.sent + [SynAckOf(st.sk)] && r.pool == [] && r.sk.ring == Retransmit
              && r.sk == st.sk.(flags := SYN_ACK, timer := now, ring := Retransmit)
            else r == st
  {
    hide Place;
  }

  /** A SYN opens a closed socket with a number of its own, and every other open socket drops it. */
  lemma SynOpensOrDrops(cfg: Config, now: nat, st: St, g: Segment)
    requires cfg.server && cfg.sendWindow == 0 && st.pool == [] && g.flags == SYN
    ensures var r := Server(cfg, now, st, g);
            var first := Add(cfg.arith, st.sk.sndNxt, 1);
            && (st.sk.state in {Closed, TimeWait} ==>
                  && r.sent == st.sent + [Segment(first, Add(cfg.arith, g.seqno, 1), SYN_ACK, 0)]
                  && r.sk.state == SynReceived && r.sk.sndUna == first && r.sk.sndNxt == Add(cfg.arith, first, 1)
                  && r.sk.retrans == r.sk.requests == 0 && r.sk.timer == now && r.sk.ring == Retransmit
                  && r.stats == CountOpen(st.stats))
            && (st.sk.state !in {Closed, TimeWait, SynReceived} ==> r == st)
  {
    hide Place;
  }

  // ---------------------------------------------------------------- SYN-ACKs at the client

  /** A waiting client is opened by a SYN-ACK exactly when it acknowledges the client's SYN. The
      same SYN-ACK again is answered, with a bare acknowledgement, only where the pool had no
      packet for the request. */
  lemma SynAckTwice(cfg: Config, env: Env, st: St, g: Segment)
    requires !cfg.server && cfg.arith == Unbounded && cfg.dataLen > 0 && cfg.sendWindow == 0
    requires st.sk.state == SynSent && g.flags == SYN_ACK && |st.pool| <= 1
    ensures var r := Client(cfg, env, st, g, NoHttp);
            var q := Client(cfg, env, r, g, NoHttp);
            var granted := st.pool == [] || st.pool[0];
            && (r.sk.state == Established <==> g.ack == st.sk.sndNxt) && (r != st <==> g.ack == st.sk.sndNxt)
            && (g.ack == st.sk.sndNxt ==>
                  && r.sk.rcvNxt == g.seqno + 1 && r.sk.sndUna == g.ack
                  && r.sk.sndNxt == g.ack + (if granted then cfg.dataLen else 0)
                  && r.sent == st.sent + (if granted then [Segment(g.ack, g.seqno + 1, PUSH_ACK, cfg.dataLen)] else [])
                  && q.sent == r.sent + (if granted then [] else [Segment(g.ack, g.seqno + 1, ACK, 0)]))
  {
    hide Place, Accurate;
  }

  // ---------------------------------------------------------------- loss while opening

  /** The network has lost everything while the client waits for its SYN-ACK. While the side whose
      turn it is may still repeat its segment, one expiry and its deliveries open the connection. */
  lemma OpensAfterLoss(cc: Config, sc: Config, p: Pair, es: seq<Event>, env: Env) returns (more: seq<Event>)
    requires Init(cc, sc, p) && p.c.sk.laddr != 0 && p.s.sk.laddr != 0
    requires var q := Run(cc, sc, p, es);
             && q.c.sk.state == SynSent
             && if q.greeted then q.s.sk.state != Closed && q.s.sk.retrans < 3 else q.c.sk.retrans < 3
    ensures |more| <= 3 && more != [] && (more[0].ClientRetransmit? || more[0].ServerRetransmit?)
    ensures forall e :: e in more[1..] ==> e.ToServer? || e.ToClient?
    ensures var q := Run(cc, sc, p, es);
            var r := Run(cc, sc, q.(c2s := {}, s2c := {}), more);
            && r.c.sk.state == Established && r.c.sk.sndNxt == r.c.sk.sndUna + cc.dataLen
            && r.s.sk.state == SynReceived && r.s.sk.rcvNxt == r.c.sk.sndUna
  {
    hide Run, Step, Init, Armed, Good, NoneLoses, NoneLate, AlwaysArmed;
    AtTheStart(cc, sc, p);
    RunKeeps(cc, sc, p, es);
    OutstandingIsArmed(cc, sc, p, es);
    var q := Run(cc, sc, p, es);
    UnjoinedNeverLoses(cc, sc, p, es);
    var o := q.(c2s := {}, s2c := {});
    if q.greeted {
      var a, b := OpensGreeted(cc, sc, q, o, env);
      RunsTwo(cc, sc, o, a, b);
      more := [a, b];
    } else {
      var a, b, c := OpensUngreeted(cc, sc, q, o, env);
      RunsThree(cc, sc, o, a, b, c);
      more := [a, b, c];
    }
  }

  lemma AtTheStart(cc: Config, sc: Config, p: Pair)
    requires Init(cc, sc, p)
    ensures Good(cc, sc, p)
  {
  }

  /** A client that still waits for its SYN-ACK has taken no response, and so lost nothing. */
  lemma {:induction false} UnjoinedNeverLoses(cc: Config, sc: Config, p: Pair, es: seq<Event>)
    requires Good(cc, sc, p) && Run(cc, sc, p, es).c.sk.state == SynSent
    ensures NoneLoses(cc, sc, p, es) && !p.joined
    decreases |es|
  {
    if es != [] {
      var q := Step(cc, sc, p, es[0]);
      StepKeeps(cc, sc, p, es[0]);
      UnjoinedNeverLoses(cc, sc, q, es[1..]);
      StaysJoined(cc, sc, p, es[0]);
      hide Step;
    }
  }

  lemma StaysJoined(cc: Config, sc: Config, p: Pair, e: Event)
    ensures p.joined ==> Step(cc, sc, p, e).joined
  {
    hide Launch, Client, Server, RetransmitExpiry, KeepaliveExpiry, TimeoutExpiry;
  }

  /** The server has greeted: its timer brings the SYN-ACK again. */
  lemma OpensGreeted(cc: Config, sc: Config, q: Pair, o: Pair, env: Env) returns (a: Event, b: Event)
    requires Good(cc, sc, q) && q.c.sk.state == SynSent && q.greeted && SameEnds(q, o)
    requires Armed(sc, q.s.sk) && q.s.sk.state != Closed && q.s.sk.retrans < 3
    ensures a.ServerRetransmit? && b.ToClient?
    ensures Opened(cc, Step(cc, sc, Step(cc, sc, o, a), b))
  {
    a := ServerRetransmit(env);
    SynAckIsRepeated(cc, sc, q, env);
    StepSame(cc, sc, q, o, a);
    var q1, o1 := Step(cc, sc, q, a), Step(cc, sc, o, a);
    hide Step, Good;
    var g := SynAckOf(q.s.sk);
    b := ToClient(g, env);
    TakenOpens(cc, sc, q1, g, env);
    StepSame(cc, sc, q1, o1, b);
  }

  /** The server has not: the client's timer brings the SYN again. */
  lemma OpensUngreeted(cc: Config, sc: Config, q: Pair, o: Pair, env: Env) returns (a: Event, b: Event, c: Event)
    requires Good(cc, sc, q) && q.c.sk.state == SynSent && !q.greeted && SameEnds(q, o)
    requires Armed(cc, q.c.sk) && q.c.sk.retrans < 3
    ensures a.ClientRetransmit? && b.ToServer? && c.ToClient?
    ensures Opened(cc, Step(cc, sc, Step(cc, sc, Step(cc, sc, o, a), b), c))
  {
    a := ClientRetransmit(env);
    SynIsRepeated(cc, sc, q, env);
    StepSame(cc, sc, q, o, a);
    var q1, o1 := Step(cc, sc, q, a), Step(cc, sc, o, a);
    var syn := Segment(q.c.sk.sndUna, 0, SYN, 0);
    Greeted(cc, sc, q1, syn, env);
    hide Step, Good;
    b := ToServer(syn, env);
    StepSame(cc, sc, q1, o1, b);
    var q2, o2 := Step(cc, sc, q1, b), Step(cc, sc, o1, b);
    var g := Segment(q1.s.sk.sndNxt + 1, syn.seqno + 1, SYN_ACK, 0);
    c := ToClient(g, env);
    TakenOpens(cc, sc, q2, g, env);
    StepSame(cc, sc, q2, o2, c);
  }

  /** Both ends are open and the client's first request is under way. */
  predicate Opened(cc: Config, r: Pair) {
    && r.c.sk.state == Established && r.c.sk.sndNxt == r.c.sk.sndUna + cc.dataLen
    && r.s.sk.state == SynReceived && r.s.sk.rcvNxt == r.c.sk.sndUna
  }

  lemma TakenOpens(cc: Config, sc: Config, q: Pair, g: Segment, env: Env)
    requires Good(cc, sc, q) && q.c.sk.state == SynSent && q.s.sk.state == SynReceived
    requires g in q.s2c && g.flags == SYN_ACK
    ensures Opened(cc, Step(cc, sc, q, ToClient(g, env)))
  {
    hide Good, Client;
    Opening(cc, sc, q);
    IsGreeted(cc, sc, q);
    Joined(cc, sc, q, g, env);
    var r := Step(cc, sc, q, ToClient(g, env));
    assert r.s == q.s;
    hide Step;
    assert View(r.c.sk) == Abs(r).c;
  }

  /** What either side has outstanding while the client waits for its SYN-ACK. */
  lemma Opening(cc: Config, sc: Config, q: Pair)
    requires Good(cc, sc, q) && q.c.sk.state == SynSent
    ensures Plain(cc) && Plain(sc) && q.c.pool == [] && q.s.pool == [] && q.c.sent == [] && q.s.sent == []
    ensures q.c.sk.flags == SYN && q.c.sk.sndNxt == q.c.sk.sndUna + 1 && q.c.sk.rcvNxt == 0
    ensures if q.greeted then
              && q.s.sk.flags == SYN_ACK && q.s.sk.sndUna < q.s.sk.sndNxt
              && q.s.sk.rcvNxt == q.c.sk.sndNxt && q.s.sk.state in {SynReceived, Closed}
            else q.s.sk.state == Closed
  {
  }

  lemma IsGreeted(cc: Config, sc: Config, q: Pair)
    requires Good(cc, sc, q) && q.c.sk.state == SynSent && q.s.sk.state == SynReceived
    ensures q.greeted
  {
  }

  lemma SynAckIsRepeated(cc: Config, sc: Config, q: Pair, env: Env)
    requires Good(cc, sc, q) && q.c.sk.state == SynSent && q.greeted
    requires Armed(sc, q.s.sk) && q.s.sk.state != Closed && q.s.sk.retrans < 3
    ensures var r := Step(cc, sc, q, ServerRetransmit(env));
            && Good(cc, sc, r) && r.c == q.c && r.s.sk.state == SynReceived && SynAckOf(q.s.sk) in r.s2c
    ensures forall o: Pair :: SameEnds(q, o) ==> SynAckOf(q.s.sk) in Step(cc, sc, o, ServerRetransmit(env)).s2c
  {
    hide RetransmitExpiry, Good;
    Opening(cc, sc, q);
    StepKeeps(cc, sc, q, ServerRetransmit(env));
    FreshCopy(sc, env.now, q.s);
    assert Again(sc.dataLen, View(q.s.sk)) == SynAckOf(q.s.sk);
    CarriedOne(SynAckOf(q.s.sk));
  }

  lemma SynIsRepeated(cc: Config, sc: Config, q: Pair, env: Env)
    requires Good(cc, sc, q) && q.c.sk.state == SynSent && !q.greeted
    requires Armed(cc, q.c.sk) && q.c.sk.retrans < 3
    ensures var r := Step(cc, sc, q, ClientRetransmit(env));
            && Good(cc, sc, r) && r.s == q.s && r.c.sk.state == SynSent && !r.greeted && r.s.sk.state == Closed
            && Segment(q.c.sk.sndUna, 0, SYN, 0) in r.c2s
    ensures forall o: Pair :: SameEnds(q, o) ==>
              Segment(q.c.sk.sndUna, 0, SYN, 0) in Step(cc, sc, o, ClientRetransmit(env)).c2s
  {
    hide RetransmitExpiry, Good;
    Opening(cc, sc, q);
    StepKeeps(cc, sc, q, ClientRetransmit(env));
    FreshCopy(cc, env.now, q.c);
    assert Again(cc.dataLen, View(q.c.sk)) == Segment(q.c.sk.sndUna, 0, SYN, 0);
    CarriedOne(Segment(q.c.sk.sndUna, 0, SYN, 0));
  }

  // ---------------------------------------------------------------- SYN flood

  /** The keepalive expiries of one socket, one after another. */
  function Expiries(cfg: Config, st: St, envs: seq<Env>): St
    decreases |envs|
  {
    if envs == [] then st else Expiries(cfg, KeepaliveExpiry(cfg, envs[0], st), envs[1..])
  }

  /** `n` SYNs, each with the next sequence number. */
  function SynsFrom(cfg: Config, from: int, n: nat): seq<Segment>
    decreases n
  {
    if n == 0 then [] else [Segment(from, 0, SYN, 0)] + SynsFrom(cfg, Add(cfg.arith, from, 1), n - 1)
  }

  lemma SynsFromNext(cfg: Config, from: int, n: nat)
    requires n > 0
    ensures SynsFrom(cfg, from, 1) == [Segment(from, 0, SYN, 0)]
    ensures SynsFrom(cfg, from, n) == [Segment(from, 0, SYN, 0)] + SynsFrom(cfg, Add(cfg.arith, from, 1), n - 1)
  {
  }

  /** A launch in flood mode sends a SYN that nobody waits for. With keepalive each expiry inside the
      duration sends the next one and the socket stays on the keepalive ring; the first expiry
      after it closes the socket. Without keepalive it closes at once. */
  lemma FloodSends(cfg: Config, now: nat, st: St, envs: seq<Env>, last: Env)
    requires !cfg.server && cfg.flood && cfg.sendWindow == 0 && st.pool == [] && st.sk.state == Closed
    requires (forall i :: 0 <= i < |envs| ==> envs[i].inDuration) && !last.inDuration
    requires st.sk.ring == NoRing
    ensures var first := Add(cfg.arith, st.sk.sndNxt, 1);
            var r := Launch(cfg, now, st);
            if cfg.keepalive then
              var q := Expiries(cfg, r, envs);
              var end := KeepaliveExpiry(cfg, last, q);
              && q.sent == st.sent + SynsFrom(cfg, first, 1 + |envs|)
              && q.sk.state == SynSent && q.sk.ring == Keepalive && q.sk.sndUna == q.sk.sndNxt
              && q.stats == CountOpen(st.stats)
              && end.sent == q.sent && end.sk.state == Closed && end.sk.ring == NoRing
              && end.stats == q.stats.(close := q.stats.close + 1, current := q.stats.current - 1)
            else
              && r.sent == st.sent + SynsFrom(cfg, first, 1) && r.sk.state == Closed && r.sk.ring == NoRing
              && r.stats.open == st.stats.open + 1 && r.stats.close == st.stats.close + 1
  {
    hide Launch, KeepaliveExpiry, Add, Expiries, SynsFrom, Place;
    FloodLaunch(cfg, now, st);
    var first := Add(cfg.arith, st.sk.sndNxt, 1);
    SynsFromNext(cfg, first, 1 + |envs|);
    if cfg.keepalive {
      FloodRuns(cfg, Launch(cfg, now, st), envs);
      FloodEnds(cfg, last, Expiries(cfg, Launch(cfg, now, st), envs));
    }
  }

  lemma FloodLaunch(cfg: Config, now: nat, st: St)
    requires !cfg.server && cfg.flood && cfg.sendWindow == 0 && st.pool == [] && st.sk.state == Closed
    ensures var first := Add(cfg.arith, st.sk.sndNxt, 1);
            var r := Launch(cfg, now, st);
            && r.sent == st.sent + [Segment(first, 0, SYN, 0)] && r.pool == []
            && (cfg.keepalive ==>
                  Flooding(r) && r.sk.sndNxt == Add(cfg.arith, first, 1) && r.stats == CountOpen(st.stats))
            && (!cfg.keepalive ==>
                  && r.sk.state == Closed && r.sk.ring == NoRing && r.stats.open == st.stats.open + 1
                  && r.stats.close == st.stats.close + 1)
  {
    hide Place, Accurate;
  }

  predicate Flooding(st: St) {
    && st.pool == [] && st.sk.state == SynSent && st.sk.keepalive && st.sk.rcvNxt == 0
    && st.sk.ring == Keepalive && st.sk.sndUna == st.sk.sndNxt
  }

  lemma FloodAgain(cfg: Config, env: Env, st: St)
    requires !cfg.server && cfg.flood && cfg.sendWindow == 0 && Flooding(st) && env.inDuration
    ensures var r := KeepaliveExpiry(cfg, env, st);
            && Flooding(r) && r.sk.sndNxt == Add(cfg.arith, st.sk.sndNxt, 1)
            && r.sent == st.sent + [Segment(st.sk.sndNxt, 0, SYN, 0)] && r.stats == st.stats
  {
    hide Place, Accurate;
  }

  lemma FloodEnds(cfg: Config, last: Env, st: St)
    requires cfg.flood && Flooding(st) && !last.inDuration
    ensures var r := KeepaliveExpiry(cfg, last, st);
            && r.sent == st.sent && r.sk.state == Closed && r.sk.ring == NoRing
            && r.stats == st.stats.(close := st.stats.close + 1, current := st.stats.current - 1)
  {
    hide Place, Reply;
  }

  lemma {:induction false} FloodRuns(cfg: Config, st: St, envs: seq<Env>)
    requires !cfg.server && cfg.flood && cfg.sendWindow == 0 && Flooding(st)
    requires forall i :: 0 <= i < |envs| ==> envs[i].inDuration
    ensures var r := Expiries(cfg, st, envs);
            Flooding(r) && r.sent == st.sent + SynsFrom(cfg, st.sk.sndNxt, |envs|) && r.stats == st.stats
    decreases |envs|
  {
    hide KeepaliveExpiry, Flooding, Add, Place;
    if envs != [] {
      FloodAgain(cfg, envs[0], st);
      var r := KeepaliveExpiry(cfg, envs[0], st);
      FloodRuns(cfg, r, envs[1..]);
      SynsFromNext(cfg, st.sk.sndNxt, |envs|);
      assert Expiries(cfg, st, envs) == Expiries(cfg, r, envs[1..]);
    }
  }
}
