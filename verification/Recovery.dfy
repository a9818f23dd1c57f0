/** What the retransmission timers can repair: when the outstanding segment is armed,
    when it is lost for good, and the exact input that loses it. */
module Recovery {
  import opened Rings
  import opened Tcp
  import opened Network
  import opened Settings
  import opened Invariants
  import opened Protocol
  import opened Connection
  import opened Progress

  // ---------------------------------------------------------------- armed sockets

  /** Whatever is outstanding would be repeated in full, and is on the retransmit ring (`on`). */
  predicate Repeatable(cfg: Config, k: Sock) {
    k.sndUna != k.sndNxt ==> Again(cfg.dataLen, View(k)).Span() == k.sndNxt - k.sndUna
  }

  predicate Armed(cfg: Config, k: Sock) {
    && k.laddr != 0
    && (k.state != Closed ==> Repeatable(cfg, k) && (k.sndUna != k.sndNxt ==> k.ring == Retransmit))
  }

  predicate Idle(k: Sock) { k.sndUna == k.sndNxt && k.laddr != 0 }

  /** Flags of a segment that a stop-and-wait endpoint sends. */
  predicate Usual(f: Flags) { !f.urg && !(f.syn && (f.push || f.fin)) }

  lemma ReplyArms(cfg: Config, now: nat, st: St, f: Flags)
    requires Plain(cfg) && st.pool == [] && Idle(st.sk) && Usual(f)
    ensures Armed(cfg, Reply(cfg, now, st, f).sk)
  {
    hide Place, Accurate;
  }

  lemma RetransmitArms(cfg: Config, now: nat, st: St)
    requires Plain(cfg) && st.pool == [] && st.sk.laddr != 0 && (st.sk.state != Closed ==> Repeatable(cfg, st.sk))
    ensures Armed(cfg, DoRetransmit(cfg, now, st).sk)
  {
    hide Place, Accurate;
  }

  lemma CheckArms(cfg: Config, now: nat, st: St, g: Segment)
    requires Plain(cfg) && st.pool == [] && Armed(cfg, st.sk) && !Crossing(st.sk, g)
    ensures var (r, ok) := CheckSequence(cfg, now, st, g);
            r.pool == [] && if ok then Idle(r.sk) else Armed(cfg, r.sk)
  {
    hide DoRetransmit, Place, Repeatable;
    if st.sk.state != Closed {
      RetransmitArms(cfg, now, st);
      RetransmitPool(cfg, now, st);
    }
  }

  lemma RetransmitPool(cfg: Config, now: nat, st: St)
    requires Plain(cfg) && st.pool == []
    ensures DoRetransmit(cfg, now, st).pool == []
  {
    hide Place, Accurate;
  }

  lemma FinArms(st: St, rx: Flags, tx: Flags)
    requires st.pool == [] && Idle(st.sk) && !tx.syn && !tx.urg
    ensures var (r, f) := ProcessFin(st, rx, tx); r.pool == [] && Idle(r.sk) && Usual(f)
  {
    CloseIdle(st);
    OrUsual(tx, ACK);
    OrUsual(tx, FIN_ACK);
    hide Close, Usual, Flags.Or;
  }

  lemma OrUsual(f: Flags, g: Flags)
    requires !f.syn && !f.urg && !g.syn && !g.urg
    ensures Usual(f) && Usual(f.Or(g))
  {
  }

  lemma CloseIdle(st: St)
    ensures Close(st).pool == st.pool && (Idle(st.sk) ==> Idle(Close(st).sk))
  {
    hide Place;
  }

  lemma FinishArms(cfg: Config, now: nat, st: St, rx: Flags, tx: Flags)
    requires Plain(cfg) && st.pool == [] && Idle(st.sk) && !tx.syn && !tx.urg
    ensures Armed(cfg, ClientFinish(cfg, now, st, rx, tx).sk) && Armed(cfg, ServerFinish(cfg, now, st, rx, tx).sk)
  {
    FinArms(st, rx, tx);
    hide ProcessFin, Reply, Place;
    var (st1, f) := if Rank(st.sk.state) > Rank(Established) || rx.fin || tx.fin then ProcessFin(st, rx, tx)
        else (st, tx);
    ReplyArms(cfg, now, st1, f);
  }

  // ---------------------------------------------------------------- overwritten flags

  /** The client has no more to ask after this request, or the run is over, or it acknowledges at once. */
  predicate Overwrites(cfg: Config, env: Env, k: Sock) {
    || !env.inDuration
    || (cfg.maxRequests > 0 && (k.requests + 1) % 0x8000 >= cfg.maxRequests)
    || (cfg.interval >= cfg.rto && !cfg.disableAck)
  }

  /** With a zero interval a client that takes a response sends its next request, or its
      FIN, at once. The flags kept for retransmission are then overwritten if and only if
      the response carried a FIN or the condition above holds; without a FIN they become a bare
      ACK. Of the settings that pass, that leaves the end of the run. */
  lemma OverwrittenIff(cfg: Config, env: Env, st: St, g: Segment, h: HttpOutcome)
    requires !cfg.server && cfg.sendWindow == 0 && !cfg.http && cfg.interval == 0
    requires st.sk.state == Established && st.sk.keepalive
    requires g.len > 0 && g.ack == st.sk.sndNxt && g.seqno == st.sk.rcvNxt
    ensures var flags := ClientData(cfg, env, st, g, h).sk.flags;
            var first := if env.inDuration then PUSH_ACK else FIN_ACK;
            && (flags != first <==> g.flags.fin || Overwrites(cfg, env, st.sk))
            && (Overwrites(cfg, env, st.sk) && !g.flags.fin ==> flags == ACK)
            && (Accepted(cfg) ==> (flags != first <==> g.flags.fin || !env.inDuration))
  {
    hide CheckSequence, SendKeepaliveRequest, ClientFinish, Reply, StartKeepalive, HttpData;
    TakenFields(cfg, env.now, st, g);
    var st1 := CheckSequence(cfg, env.now, st, g).0;
    var st2 := st1.(stats := st1.stats.(rsp := st1.stats.rsp + 1));
    var st3 := SendKeepaliveRequest(cfg, env, st2);
    assert ClientData(cfg, env, st, g, h) == ClientFinish(cfg, env.now, st3, g.flags, ACK);
    hide ClientData;
    KeepaliveRequestFlags(cfg, env, st2);
    FinishFlags(cfg, env, st3, g.flags);
  }

  lemma ReplyFlags(cfg: Config, now: nat, st: St, f: Flags)
    ensures var r := Reply(cfg, now, st, f).sk;
            r.flags == f && r.state == st.sk.state && r.keepalive == st.sk.keepalive && r.requests == st.sk.requests
  {
    hide Place, Accurate, WireFlags, DataLen, Advance;
  }

  lemma TakenFields(cfg: Config, now: nat, st: St, g: Segment)
    requires cfg.sendWindow == 0 && st.sk.state == Established && g.ack == st.sk.sndNxt && g.seqno == st.sk.rcvNxt
    ensures var (r, ok) := CheckSequence(cfg, now, st, g);
            ok && r.sk.state == Established && r.sk.keepalive == st.sk.keepalive && r.sk.requests == st.sk.requests
  {
    hide Place;
  }

  lemma KeepaliveRequestFlags(cfg: Config, env: Env, st: St)
    requires st.sk.state == Established && st.sk.keepalive
    ensures var r := SendKeepaliveRequest(cfg, env, st).sk;
            && r.state == (if env.inDuration then Established else FinWait1)
            && r.flags == (if env.inDuration then PUSH_ACK else FIN_ACK)
            && (r.keepalive <==>
                env.inDuration && !(cfg.maxRequests > 0 && (st.sk.requests + 1) % 0x8000 >= cfg.maxRequests))
  {
    hide Reply;
    ReplyFlags(cfg, env.now, st.(sk := st.sk.(requests := (st.sk.requests + 1) % 0x8000)), PUSH_ACK);
    ReplyFlags(cfg, env.now, st.(sk := st.sk.(state := FinWait1)), FIN_ACK);
  }

  lemma FinishFlags(cfg: Config, env: Env, st: St, rx: Flags)
    requires st.sk.state in {Established, FinWait1}
    ensures var r := ClientFinish(cfg, env.now, st, rx, ACK).sk;
            var reply := rx.fin || !st.sk.keepalive || (cfg.interval >= cfg.rto && !cfg.disableAck);
            r.flags == if !reply then st.sk.flags else if rx.fin && st.sk.state == Established then FIN_ACK else ACK
  {
    hide Reply, Place;
    var (st1, f) := if Rank(st.sk.state) > Rank(Established) || rx.fin then ProcessFin(st, rx, ACK) else (st, ACK);
    ReplyFlags(cfg, env.now, st1, f);
  }

  /** Segment `g` is a response taken by an established client that asks on at once. */
  predicate AsksAtOnce(cfg: Config, k: Sock, g: Segment) {
    && cfg.interval == 0 && k.state == Established && k.keepalive
    && g.len > 0 && g.ack == k.sndNxt && g.seqno == k.rcvNxt
  }

  /** Without an overwrite the next request leaves the client armed. */
  lemma AskingArms(cfg: Config, env: Env, st: St, g: Segment)
    requires Plain(cfg) && !cfg.server && st.pool == [] && st.sk.laddr != 0
    requires AsksAtOnce(cfg, st.sk, g) && !g.flags.fin && !Overwrites(cfg, env, st.sk)
    ensures Armed(cfg, ClientData(cfg, env, st, g, NoHttp).sk)
  {
    hide CheckSequence, SendKeepaliveRequest, ClientFinish, Reply, StartKeepalive, HttpData;
    TakenIdle(cfg, env.now, st, g);
    TakenFields(cfg, env.now, st, g);
    var st1 := CheckSequence(cfg, env.now, st, g).0;
    var st2 := st1.(stats := st1.stats.(rsp := st1.stats.rsp + 1));
    var st3 := SendKeepaliveRequest(cfg, env, st2);
    assert ClientData(cfg, env, st, g, NoHttp) == ClientFinish(cfg, env.now, st3, g.flags, ACK);
    hide ClientData;
    KeepaliveRequestFlags(cfg, env, st2);
    RequestArms(cfg, env, st2);
    AckSkipped(cfg, env.now, st3, g.flags);
  }

  /** With one it does not: something is outstanding, and what would be repeated is empty. */
  lemma OverwriteDisarms(cfg: Config, env: Env, st: St, g: Segment)
    requires Plain(cfg) && !cfg.server && st.pool == []
    requires AsksAtOnce(cfg, st.sk, g) && !g.flags.fin && Overwrites(cfg, env, st.sk)
    ensures var r := ClientData(cfg, env, st, g, NoHttp).sk;
            r.state != Closed && r.sndUna != r.sndNxt && r.flags == ACK && !Repeatable(cfg, r)
  {
    hide CheckSequence, SendKeepaliveRequest, ClientFinish, Reply, StartKeepalive, HttpData;
    OverwrittenIff(cfg, env, st, g, NoHttp);
    TakenIdle(cfg, env.now, st, g);
    TakenFields(cfg, env.now, st, g);
    var st1 := CheckSequence(cfg, env.now, st, g).0;
    var st2 := st1.(stats := st1.stats.(rsp := st1.stats.rsp + 1));
    var st3 := SendKeepaliveRequest(cfg, env, st2);
    assert ClientData(cfg, env, st, g, NoHttp) == ClientFinish(cfg, env.now, st3, g.flags, ACK);
    hide ClientData;
    KeepaliveRequestFlags(cfg, env, st2);
    RequestOutstanding(cfg, env, st2);
    FinishKeeps(cfg, env.now, st3, g.flags);
  }

  lemma TakenIdle(cfg: Config, now: nat, st: St, g: Segment)
    requires Plain(cfg) && st.pool == [] && st.sk.state == Established && g.ack == st.sk.sndNxt
    requires g.seqno == st.sk.rcvNxt
    ensures var r := CheckSequence(cfg, now, st, g).0;
            r.sk.sndUna == r.sk.sndNxt && r.pool == [] && r.sk.laddr == st.sk.laddr
  {
    hide Place;
  }

  lemma RequestArms(cfg: Config, env: Env, st: St)
    requires Plain(cfg) && st.pool == [] && Idle(st.sk)
    ensures Armed(cfg, SendKeepaliveRequest(cfg, env, st).sk)
  {
    hide Reply, Place;
    ReplyArms(cfg, env.now, st.(sk := st.sk.(requests := (st.sk.requests + 1) % 0x8000)), PUSH_ACK);
    ReplyArms(cfg, env.now, st.(sk := st.sk.(state := FinWait1)), FIN_ACK);
  }

  lemma RequestOutstanding(cfg: Config, env: Env, st: St)
    requires Plain(cfg) && st.pool == [] && st.sk.sndUna == st.sk.sndNxt
    ensures var r := SendKeepaliveRequest(cfg, env, st); r.sk.sndUna != r.sk.sndNxt && r.pool == []
  {
    hide Place, Accurate;
  }

  lemma AckSkipped(cfg: Config, now: nat, st: St, rx: Flags)
    requires st.sk.state == Established && !rx.fin && st.sk.keepalive && !(cfg.interval >= cfg.rto && !cfg.disableAck)
    ensures ClientFinish(cfg, now, st, rx, ACK) == st
  {
  }

  lemma FinishKeeps(cfg: Config, now: nat, st: St, rx: Flags)
    requires Plain(cfg) && !rx.fin && st.sk.state in {Established, FinWait1} && st.sk.sndUna != st.sk.sndNxt
    ensures var r := ClientFinish(cfg, now, st, rx, ACK).sk;
            r.state != Closed && r.sndUna == st.sk.sndUna && r.sndNxt == st.sk.sndNxt
  {
    hide Reply, Place;
    var (st1, f) := if Rank(st.sk.state) > Rank(Established) then ProcessFin(st, rx, ACK) else (st, ACK);
    AckLeaves(cfg, now, st1, f);
  }

  lemma AckLeaves(cfg: Config, now: nat, st: St, f: Flags)
    requires st.sk.sndUna != st.sk.sndNxt
    ensures var r := Reply(cfg, now, st, f).sk;
            r.state == st.sk.state && r.sndUna == st.sk.sndUna && r.sndNxt == st.sk.sndNxt
  {
    hide Place, Accurate, WireFlags, DataLen;
  }

  // ---------------------------------------------------------------- every handler

  /** A client's data path, unless it asks on at once and overwrites the flags. */
  lemma ClientDataArms(cfg: Config, env: Env, st: St, g: Segment)
    requires Plain(cfg) && !cfg.server && st.pool == [] && Armed(cfg, st.sk) && !Crossing(st.sk, g)
    requires AsksAtOnce(cfg, st.sk, g) ==> !g.flags.fin && !Overwrites(cfg, env, st.sk)
    ensures Armed(cfg, ClientData(cfg, env, st, g, NoHttp).sk)
  {
    if AsksAtOnce(cfg, st.sk, g) {
      AskingArms(cfg, env, st, g);
    } else {
      CheckArms(cfg, env.now, st, g);
      NotAsking(cfg, env, st, g);
      hide CheckSequence, ClientFinish, ClientTake, Reply, Place, AsksAtOnce, Armed, Idle;
      var (st1, ok) := CheckSequence(cfg, env.now, st, g);
      if ok {
        FinishArms(cfg, env.now, st1, g.flags, NONE);
        if st1.sk.state == Established && g.len > 0 {
          QuietTake(cfg, env, st1, g);
          var (st2, tx) := ClientTake(cfg, env, st1, g, NoHttp);
          FinishArms(cfg, env.now, st2, g.flags, tx);
          ResetArms(cfg, env.now, st2);
        }
      }
    }
  }

  lemma QuietTake(cfg: Config, env: Env, st: St, g: Segment)
    requires Plain(cfg) && st.pool == [] && Idle(st.sk) && (!st.sk.keepalive || cfg.interval > 0)
    ensures var (r, tx) := ClientTake(cfg, env, st, g, NoHttp); r.pool == [] && Idle(r.sk) && tx in {ACK, FIN_ACK}
  {
    hide Place, Accurate, SendKeepaliveRequest;
  }

  lemma ResetArms(cfg: Config, now: nat, st: St)
    requires Plain(cfg) && st.pool == [] && Idle(st.sk)
    ensures Armed(cfg, Close(Reply(cfg, now, st, RST_ACK)).sk)
  {
    ReplyArms(cfg, now, st, RST_ACK);
    hide Reply, Place;
  }

  /** Then an accepted response finds no keepalive, or an interval to wait for. */
  lemma NotAsking(cfg: Config, env: Env, st: St, g: Segment)
    requires Plain(cfg) && !AsksAtOnce(cfg, st.sk, g) && !Crossing(st.sk, g)
    ensures var (r, ok) := CheckSequence(cfg, env.now, st, g);
            ok && r.sk.state == Established && g.len > 0 ==> !r.sk.keepalive || cfg.interval > 0
  {
    hide DoRetransmit, Place;
  }

  lemma ServerDataArms(cfg: Config, now: nat, st: St, g: Segment)
    requires Plain(cfg) && st.pool == [] && Armed(cfg, st.sk) && !Crossing(st.sk, g)
    ensures Armed(cfg, ServerData(cfg, now, st, g).sk)
  {
    ServerDataIs(cfg, now, st, g);
    hide CheckSequence, ServerFinish, ServerData, Armed;
    CheckArms(cfg, now, st, g);
    var (st1, ok) := CheckSequence(cfg, now, st, g);
    var (st2, f) := Answer(st1, g);
    if ok { FinishArms(cfg, now, st2, g.flags, f); }
  }

  lemma KeepaliveArms(cfg: Config, env: Env, st: St)
    requires Plain(cfg) && st.pool == [] && Idle(st.sk)
    ensures Armed(cfg, KeepaliveExpiry(cfg, env, st).sk)
  {
    hide Reply, Place;
    var st1 := Move(st, NoRing);
    ReplyArms(cfg, env.now, st1.(sk := st1.sk.(requests := (st1.sk.requests + 1) % 0x8000)), PUSH_ACK);
    ReplyArms(cfg, env.now, st1.(sk := st1.sk.(state := FinWait1)), FIN_ACK);
  }

  lemma LaunchArms(cfg: Config, now: nat, st: St)
    requires Plain(cfg) && st.pool == [] && st.sk.state == Closed && st.sk.laddr != 0
    ensures Armed(cfg, Launch(cfg, now, st).sk)
  {
    hide Reply;
    ReplyArms(cfg, now, ClientOpen(cfg, st, now), SYN);
  }

  lemma SynAckArms(cc: Config, sc: Config, p: Pair, g: Segment, now: nat)
    requires Good(cc, sc, p) && Armed(cc, p.c.sk) && g in p.s2c && g.flags.syn
    ensures Armed(cc, ClientSynAck(cc, now, p.c, g).sk)
  {
    hide Reply;
    if p.c.sk.state == SynSent && g.ack == p.c.sk.sndNxt {
      ReplyArms(cc, now, p.c.(sk := p.c.sk.(rcvNxt := Add(cc.arith, g.seqno, 1), sndUna := g.ack,
                                            state := Established)), PUSH_ACK);
    }
  }

  lemma SynArms(cc: Config, sc: Config, p: Pair, g: Segment, now: nat)
    requires Good(cc, sc, p) && Armed(sc, p.s.sk) && (p.s.sk.state == Closed ==> !p.greeted)
    ensures Armed(sc, ServerSyn(sc, now, p.s, g).sk)
  {
    hide Reply, Place;
    if p.s.sk.state == Closed {
      ReplyArms(sc, now, ServerOpen(sc, p.s, g), SYN_ACK);
    } else if p.s.sk.state == SynReceived {
      SynAgainArms(sc, now, p.s);
    }
  }

  lemma SynAgainArms(cfg: Config, now: nat, st: St)
    requires Plain(cfg) && st.pool == [] && st.sk.laddr != 0 && st.sk.state == SynReceived && st.sk.flags == SYN_ACK
    requires Repeatable(cfg, st.sk)
    ensures Armed(cfg, Reply(cfg, now, st, SYN_ACK).sk)
  {
    hide Place, Accurate;
  }

  /** Event `e` has a client with keepalive take a response after the run is over, and so
      send its FIN while it still handles the response. */
  predicate ClosesLate(cc: Config, p: Pair, e: Event) {
    && e.ToClient? && e.g in p.s2c && !e.g.flags.syn && !e.g.flags.rst && e.g.flags.ack
    && AsksAtOnce(cc, p.c.sk, e.g) && !e.env.inDuration
  }

  /** With settings that pass, nothing else loses. */
  lemma LosesIffLate(cc: Config, p: Pair, e: Event)
    requires Accepted(cc) && !cc.server
    ensures Loses(cc, p, e) <==> ClosesLate(cc, p, e)
  {
  }

  /** Event `e` has the client take a response, ask on at once, and overwrite the flags. */
  predicate Loses(cc: Config, p: Pair, e: Event) {
    && e.ToClient? && e.g in p.s2c && !e.g.flags.syn && !e.g.flags.rst && e.g.flags.ack
    && AsksAtOnce(cc, p.c.sk, e.g) && Overwrites(cc, e.env, p.c.sk)
  }

  /** A client with keepalive never takes a FIN with a response. */
  lemma NoFinAsking(cc: Config, sc: Config, p: Pair, g: Segment)
    requires Good(cc, sc, p) && g in p.s2c && !g.flags.syn && AsksAtOnce(cc, p.c.sk, g)
    ensures !g.flags.fin
  {
    OnlyResponse(SizesOf(cc, sc), Abs(p), g);
  }

  /** Losing is losing: such a step leaves the socket open, outstanding and not armed. */
  lemma LosesDisarms(cc: Config, sc: Config, p: Pair, e: Event)
    requires Good(cc, sc, p) && Loses(cc, p, e)
    ensures var k := Step(cc, sc, p, e).c.sk; k.state != Closed && k.sndUna != k.sndNxt && !Armed(cc, k)
  {
    NoFinAsking(cc, sc, p, e.g);
    OverwriteDisarms(cc, e.env, p.c, e.g);
    hide ClientData;
  }

  lemma ClientStepArms(cc: Config, sc: Config, p: Pair, e: Event)
    requires Good(cc, sc, p) && Armed(cc, p.c.sk) && !Loses(cc, p, e)
    ensures Armed(cc, Step(cc, sc, p, e).c.sk)
  {
    hide Launch, ClientData, ClientSynAck, KeepaliveExpiry, DoRetransmit, Server, Place, TimeoutExpiry;
    match e {
      case LaunchClient(env) => if !p.launched { NotLaunched(cc, sc, p); LaunchArms(cc, env.now, p.c); }
      case ToClient(g, env) =>
        if g in p.s2c {
          NotCrossing(cc, sc, p, g);
          if g.flags.syn {
            SynAckArms(cc, sc, p, g, env.now);
          } else if g.flags.ack && !g.flags.rst {
            if AsksAtOnce(cc, p.c.sk, g) { NoFinAsking(cc, sc, p, g); }
            ClientDataArms(cc, env, p.c, g);
          }
        }
      case ClientRetransmit(env) =>
        if p.c.sk.ring == Retransmit { RetransmitArms(cc, env.now, Move(p.c, NoRing)); }
      case ClientKeepalive(env) => if p.c.sk.ring == Keepalive { KeepaliveArms(cc, env, p.c); }
      case _ =>
    }
  }

  lemma NotLaunched(cc: Config, sc: Config, p: Pair)
    requires Good(cc, sc, p) && !p.launched
    ensures p.c.sk.state == Closed
  {
  }

  lemma NotCrossing(cc: Config, sc: Config, p: Pair, g: Segment)
    requires Good(cc, sc, p)
    ensures g in p.s2c ==> !Crossing(p.c.sk, g)
    ensures g in p.c2s ==> !Crossing(p.s.sk, g)
  {
    if p.joined && g.flags.fin && g.len == 0 { NoSimultaneousClose(SizesOf(cc, sc), Abs(p), g); }
  }

  lemma ServerStepArms(cc: Config, sc: Config, p: Pair, e: Event)
    requires Good(cc, sc, p) && Armed(sc, p.s.sk)
    ensures Armed(sc, Step(cc, sc, p, e).s.sk)
  {
    hide Launch, Client, ServerData, ServerSyn, KeepaliveExpiry, DoRetransmit, Place, Protocol.Inv;
    match e {
      case ToServer(g, env) =>
        if g in p.c2s {
          NotCrossing(cc, sc, p, g);
          ServerDataArms(sc, env.now, p.s, g);
          if p.s.sk.state == Closed ==> !p.greeted { SynArms(cc, sc, p, g, env.now); }
        }
      case ServerRetransmit(env) => if p.s.sk.ring == Retransmit { RetransmitArms(sc, env.now, Move(p.s, NoRing)); }
      case _ =>
    }
  }

  lemma {:induction false} ServerRunArms(cc: Config, sc: Config, p: Pair, es: seq<Event>)
    requires Good(cc, sc, p) && Armed(sc, p.s.sk)
    ensures Armed(sc, Run(cc, sc, p, es).s.sk)
    decreases |es|
  {
    if es != [] {
      hide Step, Good;
      StepKeeps(cc, sc, p, es[0]);
      ServerStepArms(cc, sc, p, es[0]);
      ServerRunArms(cc, sc, Step(cc, sc, p, es[0]), es[1..]);
    }
  }

  // ---------------------------------------------------------------- whole runs

  /** No step of the run loses. */
  predicate NoneLoses(cc: Config, sc: Config, p: Pair, es: seq<Event>)
    decreases |es|
  {
    es != [] ==> !Loses(cc, p, es[0]) && NoneLoses(cc, sc, Step(cc, sc, p, es[0]), es[1..])
  }

  /** The client is armed at every point of the run. */
  predicate AlwaysArmed(cc: Config, sc: Config, p: Pair, es: seq<Event>)
    decreases |es|
  {
    Armed(cc, p.c.sk) && (es != [] ==> AlwaysArmed(cc, sc, Step(cc, sc, p, es[0]), es[1..]))
  }

  lemma {:induction false} ArmedIffNoneLoses(cc: Config, sc: Config, p: Pair, es: seq<Event>)
    requires Good(cc, sc, p) && Armed(cc, p.c.sk)
    ensures AlwaysArmed(cc, sc, p, es) <==> NoneLoses(cc, sc, p, es)
    ensures NoneLoses(cc, sc, p, es) ==> Armed(cc, Run(cc, sc, p, es).c.sk)
    decreases |es|
  {
    if es != [] {
      var e, q := es[0], Step(cc, sc, p, es[0]);
      StepKeeps(cc, sc, p, e);
      if Loses(cc, p, e) { LosesDisarms(cc, sc, p, e); } else { ClientStepArms(cc, sc, p, e); }
      hide Step, Good, Loses, Armed;
      if Armed(cc, q.c.sk) { ArmedIffNoneLoses(cc, sc, q, es[1..]); }
    }
  }

  lemma {:induction false} IntervalNeverLoses(cc: Config, sc: Config, p: Pair, es: seq<Event>)
    requires cc.interval > 0
    ensures NoneLoses(cc, sc, p, es)
    decreases |es|
  {
    if es != [] {
      hide Step;
      IntervalNeverLoses(cc, sc, Step(cc, sc, p, es[0]), es[1..]);
    }
  }

  // ---------------------------------------------------------------- settings that pass

  /** No response is taken by a client with keepalive after the run is over. */
  predicate NoneLate(cc: Config, sc: Config, p: Pair, es: seq<Event>)
    decreases |es|
  {
    es != [] ==> !ClosesLate(cc, p, es[0]) && NoneLate(cc, sc, Step(cc, sc, p, es[0]), es[1..])
  }

  lemma {:induction false} NoneLosesIff(cc: Config, sc: Config, p: Pair, es: seq<Event>)
    requires Accepted(cc) && !cc.server
    ensures NoneLoses(cc, sc, p, es) <==> NoneLate(cc, sc, p, es)
    decreases |es|
  {
    if es != [] {
      hide Step, Loses, ClosesLate;
      LosesIffLate(cc, p, es[0]);
      NoneLosesIff(cc, sc, Step(cc, sc, p, es[0]), es[1..]);
    }
  }

  /** The FIN of a late close: outstanding, its flags gone. */
  lemma LateFin(cfg: Config, env: Env, st: St, g: Segment)
    requires Plain(cfg) && !cfg.server && cfg.interval == 0 && !env.inDuration && st.pool == [] && st.sent == []
    requires st.sk.state == Established && st.sk.keepalive
    requires g.len > 0 && !g.flags.fin && g.ack == st.sk.sndNxt && g.seqno == st.sk.rcvNxt
    ensures var r := ClientData(cfg, env, st, g, NoHttp);
            && r.pool == []
            && r.sk == st.sk.(state := FinWait2, retrans := 0, sndUna := st.sk.sndNxt, sndNxt := st.sk.sndNxt + 1,
                              rcvNxt := g.seqno + g.len, flags := ACK, keepalive := false, ring := Retransmit,
                              timer := r.sk.timer)
            && r.sent == [Bare(r.sk, FIN_ACK), Bare(r.sk, ACK)]
  {
    hide CheckSequence, SendKeepaliveRequest, ClientFinish, Reply, StartKeepalive, HttpData;
    TakenExactly(cfg, env.now, st, g);
    var st1 := CheckSequence(cfg, env.now, st, g).0;
    var st2 := st1.(stats := st1.stats.(rsp := st1.stats.rsp + 1));
    var st3 := SendKeepaliveRequest(cfg, env, st2);
    assert ClientData(cfg, env, st, g, NoHttp) == ClientFinish(cfg, env.now, st3, g.flags, ACK);
    hide ClientData;
    FinFirst(cfg, env, st2);
    AckAfter(cfg, env.now, st3, g.flags);
  }

  lemma TakenExactly(cfg: Config, now: nat, st: St, g: Segment)
    requires Plain(cfg) && st.sk.state == Established && g.ack == st.sk.sndNxt && g.seqno == st.sk.rcvNxt
    requires !g.flags.fin
    ensures var (r, ok) := CheckSequence(cfg, now, st, g);
            && ok && r.pool == st.pool && r.sent == st.sent
            && r.sk == st.sk.(retrans := 0, sndUna := g.ack, rcvNxt := g.seqno + g.len, ring := r.sk.ring)
  {
    hide Place;
  }

  lemma FinFirst(cfg: Config, env: Env, st: St)
    requires Plain(cfg) && !cfg.server && !env.inDuration && st.pool == [] && st.sk.sndUna == st.sk.sndNxt
    ensures var r := SendKeepaliveRequest(cfg, env, st);
            && r.pool == [] && r.sent == st.sent + [Bare(r.sk, FIN_ACK)]
            && r.sk == st.sk.(state := FinWait1, flags := FIN_ACK, keepalive := false, ring := Retransmit,
                              timer := r.sk.timer, sndNxt := st.sk.sndNxt + 1)
  {
    hide Place, Accurate;
  }

  lemma AckAfter(cfg: Config, now: nat, st: St, rx: Flags)
    requires Plain(cfg) && !cfg.server && st.pool == [] && st.sk.state == FinWait1 && !rx.fin && !st.sk.keepalive
    requires st.sk.sndUna != st.sk.sndNxt
    ensures var r := ClientFinish(cfg, now, st, rx, ACK);
            r.pool == [] && r.sk == st.sk.(state := FinWait2, flags := ACK) && r.sent == st.sent + [Bare(st.sk, ACK)]
  {
    hide Place;
  }

  /** A late close leaves the FIN outstanding, unarmed, in FIN_WAIT_2. */
  lemma ClosesLateIs(cc: Config, sc: Config, p: Pair, e: Event)
    requires Good(cc, sc, p) && ClosesLate(cc, p, e)
    ensures var q := Step(cc, sc, p, e);
            && q.cFin && q.c.sk.state == FinWait2 && q.c.sk.sndNxt == q.c.sk.sndUna + 1 && q.c.sk.flags == ACK
  {
    NoFinAsking(cc, sc, p, e.g);
    LateFin(cc, e.env, p.c, e.g);
    hide ClientData;
    var sent := ClientData(cc, e.env, p.c, e.g, NoHttp).sent;
    assert sent[0].flags.fin && sent[0] in sent;
  }

  lemma FinStays(cc: Config, sc: Config, p: Pair, e: Event)
    requires p.cFin
    ensures Step(cc, sc, p, e).cFin
  {
    hide Launch, Client, Server, RetransmitExpiry, KeepaliveExpiry, TimeoutExpiry;
  }

  lemma {:induction false} FinStaysRun(cc: Config, sc: Config, p: Pair, es: seq<Event>)
    requires p.cFin
    ensures Run(cc, sc, p, es).cFin
    decreases |es|
  {
    if es != [] {
      hide Step;
      FinStays(cc, sc, p, es[0]);
      FinStaysRun(cc, sc, Step(cc, sc, p, es[0]), es[1..]);
    }
  }

  /** A run at whose end the client has not sent its FIN has no late close. */
  lemma {:induction false} OpenIsNoneLate(cc: Config, sc: Config, p: Pair, es: seq<Event>)
    requires Good(cc, sc, p) && !Run(cc, sc, p, es).cFin
    ensures NoneLate(cc, sc, p, es)
    decreases |es|
  {
    if es != [] {
      StepKeeps(cc, sc, p, es[0]);
      if ClosesLate(cc, p, es[0]) {
        ClosesLateIs(cc, sc, p, es[0]);
        FinStaysRun(cc, sc, Step(cc, sc, p, es[0]), es[1..]);
      }
      hide Step, Good, ClosesLate;
      OpenIsNoneLate(cc, sc, Step(cc, sc, p, es[0]), es[1..]);
    }
  }

  /** In every run, whatever an open server has outstanding is on the retransmit ring and
      would be repeated in full. The same holds of the client at every point of the run if
      and only if it does not close late (of settings that do not pass: if and only if no
      step loses), which with a keepalive interval it never does, and in every run until
      its FIN: a request under way is always repeatable. */
  lemma OutstandingIsArmed(cc: Config, sc: Config, p: Pair, es: seq<Event>)
    requires Init(cc, sc, p) && p.c.sk.laddr != 0 && p.s.sk.laddr != 0
    ensures Armed(sc, Run(cc, sc, p, es).s.sk)
    ensures AlwaysArmed(cc, sc, p, es) <==> NoneLoses(cc, sc, p, es)
    ensures NoneLoses(cc, sc, p, es) ==> Armed(cc, Run(cc, sc, p, es).c.sk)
    ensures cc.interval > 0 ==> NoneLoses(cc, sc, p, es)
    ensures Accepted(cc) ==> (AlwaysArmed(cc, sc, p, es) <==> NoneLate(cc, sc, p, es))
    ensures Accepted(cc) && !Run(cc, sc, p, es).cFin ==> AlwaysArmed(cc, sc, p, es)
  {
    hide Step, NoneLoses, NoneLate, AlwaysArmed, Run;
    ServerRunArms(cc, sc, p, es);
    ArmedIffNoneLoses(cc, sc, p, es);
    if cc.interval > 0 { IntervalNeverLoses(cc, sc, p, es); }
    if Accepted(cc) {
      NoneLosesIff(cc, sc, p, es);
      if !Run(cc, sc, p, es).cFin { OpenIsNoneLate(cc, sc, p, es); }
    }
  }

  // ---------------------------------------------------------------- recovery from any loss

  /** `o` is `q` with another network. */
  ghost predicate SameEnds(q: Pair, o: Pair) { o == q.(c2s := o.c2s, s2c := o.s2c) }

  lemma StepSame(cc: Config, sc: Config, q: Pair, o: Pair, e: Event)
    requires SameEnds(q, o)
    requires (e.ToClient? ==> e.g in q.s2c && e.g in o.s2c) && (e.ToServer? ==> e.g in q.c2s && e.g in o.c2s)
    ensures SameEnds(Step(cc, sc, q, e), Step(cc, sc, o, e))
  {
    hide Launch, Client, Server, RetransmitExpiry, KeepaliveExpiry, TimeoutExpiry;
  }

  /** A retransmission below the limit sends the outstanding segment and changes nothing the protocol sees. */
  lemma FreshCopy(cfg: Config, now: nat, st: St)
    requires Plain(cfg) && st.pool == [] && st.sent == [] && Armed(cfg, st.sk) && st.sk.state != Closed
    requires st.sk.sndUna != st.sk.sndNxt && st.sk.retrans < 3 && Usual(st.sk.flags)
    ensures var r := RetransmitExpiry(cfg, now, st);
            && r.sent == [Again(cfg.dataLen, View(st.sk))] && View(r.sk) == View(st.sk)
            && r.stats.rsp == (if cfg.server then r.stats.rsp else st.stats.rsp)
            && r.stats.req == (if cfg.server then st.stats.req else r.stats.req)
  {
    hide Place, Accurate;
  }

  lemma CarriedOne(g: Segment)
    ensures Carried([g]) == {g}
  {
  }

  lemma RequestAgain(cc: Config, sc: Config, p: Pair, env: Env)
    requires Good(cc, sc, p) && Asking(p) && Armed(cc, p.c.sk) && p.c.sk.retrans < 3
    ensures var q := Step(cc, sc, p, ClientRetransmit(env));
            && Good(cc, sc, q) && View(q.c.sk) == View(p.c.sk) && q.s == p.s && q.received == p.received && q.joined
            && q.cFin == p.cFin
            && (forall o: Pair :: SameEnds(p, o) ==> RequestOf(cc, p) in Step(cc, sc, o, ClientRetransmit(env)).c2s)
  {
    StepKeeps(cc, sc, p, ClientRetransmit(env));
    FreshCopy(cc, env.now, p.c);
    assert Again(cc.dataLen, View(p.c.sk)) == RequestOf(cc, p);
    CarriedOne(RequestOf(cc, p));
    hide RetransmitExpiry, Good;
  }

  lemma ResponseAgain(cc: Config, sc: Config, p: Pair, env: Env)
    requires Good(cc, sc, p) && Asking(p) && p.s.sk.rcvNxt == p.c.sk.sndNxt
    requires Armed(sc, p.s.sk) && p.s.sk.state != Closed && p.s.sk.retrans < 3
    ensures var q := Step(cc, sc, p, ServerRetransmit(env));
            && Good(cc, sc, q) && View(q.s.sk) == View(p.s.sk) && q.c == p.c && q.received == p.received && q.joined
            && q.cFin == p.cFin
            && (forall o: Pair :: SameEnds(p, o) ==> ResponseOf(sc, p) in Step(cc, sc, o, ServerRetransmit(env)).s2c)
  {
    StepKeeps(cc, sc, p, ServerRetransmit(env));
    assert p.s.sk.sndUna < p.s.sk.sndNxt;
    FreshCopy(sc, env.now, p.s);
    assert Again(sc.dataLen, View(p.s.sk)) == ResponseOf(sc, p);
    CarriedOne(ResponseOf(sc, p));
    hide RetransmitExpiry, Good;
  }

  /** The server has taken the request: its retransmission brings the response. */
  lemma RecoversTaken(cc: Config, sc: Config, q: Pair, o: Pair, env: Env) returns (e: Event, e1: Event)
    requires Good(cc, sc, q) && Asking(q) && q.s.sk.rcvNxt == q.c.sk.sndNxt && SameEnds(q, o)
    requires Armed(sc, q.s.sk) && q.s.sk.state != Closed && q.s.sk.retrans < 3
    ensures e.ServerRetransmit? && e1.ToClient?
    ensures |Step(cc, sc, Step(cc, sc, o, e), e1).received| == |q.received| + 1
  {
    e := ServerRetransmit(env);
    ResponseAgain(cc, sc, q, env);
    StepSame(cc, sc, q, o, e);
    var q1, o1 := Step(cc, sc, q, e), Step(cc, sc, o, e);
    hide Step, Good;
    assert ResponseOf(sc, q1) == ResponseOf(sc, q);
    e1 := ToClient(ResponseOf(sc, q1), env);
    ResponseTaken(cc, sc, q1, env);
    StepSame(cc, sc, q1, o1, e1);
  }

  /** The server has not: the client's retransmission brings it the request. */
  lemma RecoversOpen(cc: Config, sc: Config, q: Pair, o: Pair, env: Env) returns (e: Event, e1: Event, e2: Event)
    requires Good(cc, sc, q) && Asking(q) && q.s.sk.rcvNxt == q.c.sk.sndUna && q.s.sk.state != Closed && SameEnds(q, o)
    requires Armed(cc, q.c.sk) && q.c.sk.retrans < 3
    ensures e.ClientRetransmit? && e1.ToServer? && e2.ToClient?
    ensures |Step(cc, sc, Step(cc, sc, Step(cc, sc, o, e), e1), e2).received| == |q.received| + 1
  {
    e := ClientRetransmit(env);
    RequestAgain(cc, sc, q, env);
    StepSame(cc, sc, q, o, e);
    var q1, o1 := Step(cc, sc, q, e), Step(cc, sc, o, e);
    hide Step, Good;
    assert RequestOf(cc, q1) == RequestOf(cc, q);
    e1 := ToServer(RequestOf(cc, q1), env);
    RequestServed(cc, sc, q1, env);
    assert o1 == q1.(c2s := o1.c2s, s2c := o1.s2c);
    var q2, o2 := Step(cc, sc, q1, e1), Step(cc, sc, o1, e1);
    e2 := ToClient(ResponseOf(sc, q2), env);
    ResponseTaken(cc, sc, q2, env);
    StepSame(cc, sc, q2, o2, e2);
  }

  /** Even if the network loses everything it carries: after every run, with settings that
      pass, a request under way and a retransmission left, one expiry of the retransmit timer
      puts a fresh copy on the wire, and its delivery completes the exchange. */
  lemma RecoversFromLoss(cc: Config, sc: Config, p: Pair, es: seq<Event>, env: Env) returns (more: seq<Event>)
    requires Init(cc, sc, p) && p.c.sk.laddr != 0 && p.s.sk.laddr != 0 && Accepted(cc)
    requires var q := Run(cc, sc, p, es);
             && Asking(q) && q.s.sk.state != Closed
             && if q.s.sk.rcvNxt == q.c.sk.sndNxt then q.s.sk.retrans < 3 else q.c.sk.retrans < 3
    ensures |more| <= 3 && more != [] && (more[0].ClientRetransmit? || more[0].ServerRetransmit?)
    ensures forall e :: e in more[1..] ==> e.ToServer? || e.ToClient?
    ensures var q := Run(cc, sc, p, es);
            |Run(cc, sc, q.(c2s := {}, s2c := {}), more).received| == |q.received| + 1
  {
    OutstandingIsArmed(cc, sc, p, es);
    NoneLosesIff(cc, sc, p, es);
    hide Run, Good, Init, Armed, NoneLoses, NoneLate, AlwaysArmed;
    more := RecoversUnlessLost(cc, sc, p, es, env);
  }

  /** The same with any settings, after a run in which no step loses. */
  lemma RecoversUnlessLost(cc: Config, sc: Config, p: Pair, es: seq<Event>, env: Env) returns (more: seq<Event>)
    requires Init(cc, sc, p) && p.c.sk.laddr != 0 && p.s.sk.laddr != 0 && NoneLoses(cc, sc, p, es)
    requires var q := Run(cc, sc, p, es);
             && Asking(q) && q.s.sk.state != Closed
             && if q.s.sk.rcvNxt == q.c.sk.sndNxt then q.s.sk.retrans < 3 else q.c.sk.retrans < 3
    ensures |more| <= 3 && more != [] && (more[0].ClientRetransmit? || more[0].ServerRetransmit?)
    ensures forall e :: e in more[1..] ==> e.ToServer? || e.ToClient?
    ensures var q := Run(cc, sc, p, es);
            |Run(cc, sc, q.(c2s := {}, s2c := {}), more).received| == |q.received| + 1
  {
    OutstandingIsArmed(cc, sc, p, es);
    RunKeeps(cc, sc, p, es);
    hide Run, Good, Init, Armed, NoneLoses, AlwaysArmed;
    more := RecoversFrom(cc, sc, Run(cc, sc, p, es), env);
  }

  lemma RecoversFrom(cc: Config, sc: Config, q: Pair, env: Env) returns (more: seq<Event>)
    requires Good(cc, sc, q) && Armed(sc, q.s.sk) && Armed(cc, q.c.sk) && Asking(q) && q.s.sk.state != Closed
    requires if q.s.sk.rcvNxt == q.c.sk.sndNxt then q.s.sk.retrans < 3 else q.c.sk.retrans < 3
    ensures |more| <= 3 && more != [] && (more[0].ClientRetransmit? || more[0].ServerRetransmit?)
    ensures forall e :: e in more[1..] ==> e.ToServer? || e.ToClient?
    ensures |Run(cc, sc, q.(c2s := {}, s2c := {}), more).received| == |q.received| + 1
  {
    var o := q.(c2s := {}, s2c := {});
    Expects(cc, sc, q);
    hide Run, Step, Good, Armed;
    if q.s.sk.rcvNxt == q.c.sk.sndNxt {
      var e, e1 := RecoversTaken(cc, sc, q, o, env);
      RunsTwo(cc, sc, o, e, e1);
      more := [e, e1];
    } else {
      var e, e1, e2 := RecoversOpen(cc, sc, q, o, env);
      RunsThree(cc, sc, o, e, e1, e2);
      more := [e, e1, e2];
    }
  }

  // ---------------------------------------------------------------- where it cannot

  /** With those flags the next expiry sends nothing that is outstanding and leaves the
      socket open on no ring: no timer looks at it again. */
  lemma NotRepeated(cfg: Config, now: nat, st: St)
    requires Plain(cfg) && !cfg.server && st.pool == [] && st.sent == []
    requires st.sk.flags == ACK && st.sk.state != Closed && st.sk.sndUna != st.sk.sndNxt && st.sk.retrans < 3
    requires st.sk.laddr != 0
    ensures var r := RetransmitExpiry(cfg, now, st);
            && r.sk.ring == NoRing && View(r.sk) == View(st.sk)
            && forall g :: g in r.sent ==> g.Span() == 0
  {
    hide Place;
  }

  /** Nobody has anything to do: an empty network, the client on no ring, the server not on
      the retransmit ring. */
  predicate Deserted(q: Pair) {
    && q.c2s == {} && q.s2c == {} && q.launched && q.c.sk.ring == NoRing && q.s.sk.ring != Retransmit
    && q.s.sent == []
  }

  lemma DesertedStays(cc: Config, sc: Config, q: Pair, e: Event)
    requires Deserted(q)
    ensures Deserted(Step(cc, sc, q, e)) && Step(cc, sc, q, e).c == q.c
  {
    hide Place;
    if e.ServerTimeout? && q.s.sk.ring == Timeout { Turn0(q, q.answered); }
  }

  lemma {:induction false} DesertedForEver(cc: Config, sc: Config, q: Pair, es: seq<Event>)
    requires Deserted(q)
    ensures Run(cc, sc, q, es).c == q.c
    decreases |es|
  {
    if es != [] {
      hide Step, Deserted;
      DesertedStays(cc, sc, q, es[0]);
      DesertedForEver(cc, sc, Step(cc, sc, q, es[0]), es[1..]);
    }
  }

  /** A server that has answered and holds the connection open. */
  lemma Answered(cc: Config, sc: Config, q: Pair)
    requires Good(cc, sc, q) && Asking(q) && q.s.sk.rcvNxt == q.c.sk.sndNxt && cc.keepalive && q.s.sk.state != Closed
    ensures var g := ResponseOf(sc, q);
            && q.c.pool == [] && q.c.sent == [] && q.s.pool == [] && q.s.sent == []
            && g in q.s2c && g.len > 0 && g.flags == PUSH_ACK && g.ack == q.c.sk.sndNxt && g.seqno == q.c.sk.rcvNxt
            && q.s.sk.state == Established && q.s.sk.sndUna < q.s.sk.sndNxt == g.seqno + g.len && q.launched
  {
  }

  /** The acknowledgement of the response empties the server's flight. */
  lemma ServerTakesAck(cfg: Config, now: nat, st: St, g: Segment)
    requires Plain(cfg) && cfg.server && st.pool == [] && st.sent == [] && st.sk.state == Established
    requires st.sk.sndUna < st.sk.sndNxt && g.flags == ACK && g.len == 0
    requires g.ack == st.sk.sndNxt && g.seqno == st.sk.rcvNxt
    ensures var r := ServerData(cfg, now, st, g);
            r.sent == [] && r.sk.ring == Timeout && r.sk.rcvNxt == st.sk.rcvNxt && r.sk.state == Established
  {
    hide Place;
  }

  /** The client has sent its FIN late, and its flags are gone. */
  ghost predicate Late(cc: Config, sc: Config, q: Pair) {
    && Plain(cc) && !cc.server && q.c.pool == [] && q.c.sent == [] && q.launched && q.c.sk.laddr != 0
    && q.c.sk.state == FinWait2 && q.c.sk.flags == ACK && q.c.sk.retrans == 0 && q.c.sk.ring == Retransmit
    && q.c.sk.sndNxt == q.c.sk.sndUna + 1 && q.s.sk.rcvNxt == q.c.sk.sndUna
  }

  lemma TakesLate(cc: Config, sc: Config, q: Pair, now: nat)
    requires Good(cc, sc, q) && Asking(q) && q.s.sk.rcvNxt == q.c.sk.sndNxt && q.s.sk.state != Closed
    requires cc.keepalive && cc.interval == 0 && q.c.sk.keepalive && q.c.sk.laddr != 0
    ensures var q1 := Step(cc, sc, q, ToClient(ResponseOf(sc, q), Env(now, false)));
            Late(cc, sc, q1) && q1.s == q.s && Bare(q1.c.sk, ACK) in q1.c2s && q1.c.sk.rcvNxt == q.s.sk.sndNxt
  {
    var g, env := ResponseOf(sc, q), Env(now, false);
    Answered(cc, sc, q);
    LateFin(cc, env, q.c, g);
    hide Good, ClientData;
    var r := ClientData(cc, env, q.c, g, NoHttp);
    assert Client(cc, env, q.c, g, NoHttp) == r;
    assert r.sent[1] in Carried(r.sent);
  }

  /** The FIN is outstanding, the server has not taken it, and no timer will send it. */
  predicate Abandoned(cc: Config, q: Pair) {
    && q.c.sk.state == FinWait2 && q.c.sk.sndNxt == q.c.sk.sndUna + 1 && q.c.sk.ring == NoRing
    && q.s.sk.rcvNxt == q.c.sk.sndUna && !Repeatable(cc, q.c.sk) && Deserted(q.(c2s := {}, s2c := {}))
  }

  /** The acknowledgement arrives, the FIN does not, and the retransmit timer expires. */
  lemma FinIsLost(cc: Config, sc: Config, q: Pair, env: Env)
    requires Late(cc, sc, q) && Bare(q.c.sk, ACK) in q.c2s && q.c.sk.rcvNxt == q.s.sk.sndNxt
    requires Plain(sc) && sc.server && q.s.pool == [] && q.s.sent == [] && q.s.sk.state == Established
    requires q.s.sk.sndUna < q.s.sk.sndNxt
    ensures var q1 := Step(cc, sc, Step(cc, sc, q, ToServer(Bare(q.c.sk, ACK), env)), ClientRetransmit(env));
            Abandoned(cc, q1)
  {
    ServerTakesAck(sc, env.now, q.s, Bare(q.c.sk, ACK));
    LateExpiry(cc, env.now, q.c);
    hide ServerData, RetransmitExpiry;
  }

  lemma LateExpiry(cfg: Config, now: nat, st: St)
    requires Plain(cfg) && !cfg.server && st.pool == [] && st.sk.state == FinWait2 && st.sk.flags == ACK
    requires st.sk.retrans == 0 && st.sk.laddr != 0 && st.sk.sndNxt == st.sk.sndUna + 1
    ensures RetransmitExpiry(cfg, now, st).sk == st.sk.(ring := NoRing, retrans := 1)
  {
    hide Place;
  }

  /** The request is answered: to here the run is one that any client makes. */
  lemma OpenAnswered(cc: Config, sc: Config, p: Pair, env: Env) returns (es: seq<Event>)
    requires Init(cc, sc, p) && p.c.sk.laddr != 0 && cc.keepalive
    ensures var q := Run(cc, sc, p, es);
            && Good(cc, sc, q) && Asking(q) && q.s.sk.rcvNxt == q.c.sk.sndNxt && q.s.sk.state != Closed
            && q.c.sk.keepalive && q.c.sk.laddr != 0
  {
    var open := CanOpen(cc, sc, p, env);
    hide Step, Good, Init, Run;
    var q := Run(cc, sc, p, open);
    var e := ToServer(RequestOf(cc, q), env);
    RequestServed(cc, sc, q, env);
    es := open + [e];
    RunsOn(cc, sc, p, open, [e]);
    RunsOne(cc, sc, q, e);
  }

  /** A run from every start with a zero interval, in which the last response is taken after
      the run is over and the FIN that answers it is lost: whatever happens afterwards, the
      client stays in FIN_WAIT_2 with its FIN outstanding, on no ring. */
  lemma Stranded(cc: Config, sc: Config, p: Pair, now: nat) returns (es: seq<Event>)
    requires Init(cc, sc, p) && p.c.sk.laddr != 0
    requires cc.keepalive && cc.interval == 0
    ensures var q := Run(cc, sc, p, es);
            Abandoned(cc, q) && forall more :: Run(cc, sc, q.(c2s := {}, s2c := {}), more).c == q.c
  {
    var env := Env(now, true);
    var begin := OpenAnswered(cc, sc, p, env);
    var q1 := Run(cc, sc, p, begin);
    Answered(cc, sc, q1);
    GoodPlain(cc, sc, q1);
    hide Step, Good, Init, Run, Deserted, Late, Asking, Repeatable, Abandoned;
    var e1 := ToClient(ResponseOf(sc, q1), Env(now, false));
    TakesLate(cc, sc, q1, now);
    var q2 := Step(cc, sc, q1, e1);
    var e2, e3 := ToServer(Bare(q2.c.sk, ACK), env), ClientRetransmit(env);
    FinIsLost(cc, sc, q2, env);
    es := begin + [e1, e2, e3];
    RunsOn(cc, sc, p, begin, [e1, e2, e3]);
    RunsThree(cc, sc, q1, e1, e2, e3);
    var q4 := Run(cc, sc, p, es);
    forall more ensures Run(cc, sc, q4.(c2s := {}, s2c := {}), more).c == q4.c {
      AbandonedForEver(cc, sc, q4, more);
    }
  }

  lemma AbandonedForEver(cc: Config, sc: Config, q: Pair, es: seq<Event>)
    requires Abandoned(cc, q)
    ensures Run(cc, sc, q.(c2s := {}, s2c := {}), es).c == q.c
  {
    hide Run;
    DesertedForEver(cc, sc, q.(c2s := {}, s2c := {}), es);
  }

  lemma GoodPlain(cc: Config, sc: Config, q: Pair)
    requires Good(cc, sc, q)
    ensures Plain(cc) && Plain(sc) && !cc.server && sc.server
  {
  }

  lemma {:induction false} RunsOn(cc: Config, sc: Config, p: Pair, a: seq<Event>, b: seq<Event>)
    ensures Run(cc, sc, p, a + b) == Run(cc, sc, Run(cc, sc, p, a), b)
    decreases |a|
  {
    hide Step;
    if a == [] {
      assert a + b == b;
    } else {
      assert (a + b)[1..] == a[1..] + b;
      RunsOn(cc, sc, Step(cc, sc, p, a[0]), a[1..], b);
    }
  }
}
