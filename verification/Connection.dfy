/** A client socket and a server socket of dperf joined by a network that loses,
    repeats and reorders segments. Every event runs one of the real handlers;
    each handler is shown to make only steps of the protocol in Protocol.dfy. */
module Connection {
  import opened Rings
  import opened Verdicts
  import opened Tcp
  import opened Network
  import opened Invariants
  import opened Protocol

  datatype Pair = Pair(
    c: St, s: St,
    c2s: set<Segment>, s2c: set<Segment>,
    launched: bool, greeted: bool, joined: bool, cFin: bool,
    issued: seq<int>, accepted: seq<int>, answered: seq<int>, received: seq<int>)

  datatype Event =
    | LaunchClient(env: Env)
    | ToClient(g: Segment, env: Env)
    | ToServer(g: Segment, env: Env)
    | ClientRetransmit(env: Env)
    | ServerRetransmit(env: Env)
    | ClientKeepalive(env: Env)
    | ServerTimeout

  /** The peers run stop-and-wait with payloads that are not empty, no flood
      mode, no HTTP client mode. */
  ghost predicate Plain(cfg: Config) {
    cfg.arith == Unbounded && cfg.sendWindow == 0 && cfg.dataLen > 0 && !cfg.flood && !cfg.http
  }

  const NoHttp := HttpOutcome(More, false, false)

  // ---------------------------------------------------------------- runs

  function FinIn(sent: seq<Segment>): bool { exists g :: g in sent && g.flags.fin }

  /** Sequence numbers of data segments, each at its first appearance. */
  function DataLog(log: seq<int>, sent: seq<Segment>): seq<int>
    decreases |sent|
  {
    if sent == [] then log
    else DataLog(if sent[0].len > 0 then Log(log, sent[0].seqno) else log, sent[1..])
  }

  function ClientTurn(p: Pair, r: St, seqno: int): Pair {
    p.(c := r.(sent := []), c2s := p.c2s + Carried(r.sent), cFin := p.cFin || FinIn(r.sent),
       launched := p.launched || r.sk.state == SynSent, joined := p.joined || r.sk.state == Established,
       issued := DataLog(p.issued, r.sent),
       received := if r.stats.rsp > p.c.stats.rsp then p.received + [seqno] else p.received)
  }

  function ServerTurn(p: Pair, r: St, seqno: int): Pair {
    p.(s := r.(sent := []), s2c := p.s2c + Carried(r.sent), greeted := p.greeted || r.sk.state == SynReceived,
       answered := DataLog(p.answered, r.sent),
       accepted := if r.stats.req > p.s.stats.req then p.accepted + [seqno] else p.accepted)
  }

  /** One event; nothing happens when it is not enabled. The socket opens once:
      a closed endpoint stays closed. */
  function Step(cc: Config, sc: Config, p: Pair, e: Event): Pair {
    match e
    case LaunchClient(env) =>
      if p.launched then p else ClientTurn(p, Launch(cc, env.now, p.c), 0)
    case ToClient(g, env) =>
      if g !in p.s2c then p else ClientTurn(p, Client(cc, env, p.c, g, NoHttp), g.seqno)
    case ToServer(g, env) =>
      if g !in p.c2s || (g.flags == SYN && p.s.sk.state == Closed && p.greeted) then p
      else ServerTurn(p, Server(sc, env.now, p.s, g), g.seqno)
    case ClientRetransmit(env) =>
      if p.c.sk.ring != Retransmit then p else ClientTurn(p, RetransmitExpiry(cc, env.now, p.c), 0)
    case ServerRetransmit(env) =>
      if p.s.sk.ring != Retransmit then p else ServerTurn(p, RetransmitExpiry(sc, env.now, p.s), 0)
    case ClientKeepalive(env) =>
      if p.c.sk.ring != Keepalive then p else ClientTurn(p, KeepaliveExpiry(cc, env, p.c), 0)
    case ServerTimeout =>
      if p.s.sk.ring != Timeout then p else ServerTurn(p, TimeoutExpiry(p.s), 0)
  }

  function Run(cc: Config, sc: Config, p: Pair, es: seq<Event>): Pair
    decreases |es|
  {
    if es == [] then p else Run(cc, sc, Step(cc, sc, p, es[0]), es[1..])
  }

  /** Both sockets closed, as socket_init leaves them, and an empty network. */
  ghost predicate Init(cc: Config, sc: Config, p: Pair) {
    && Plain(cc) && Plain(sc) && !cc.server && sc.server
    && p.c.sk.state == Closed && p.c.sk.ring == NoRing && p.s.sk.state == Closed && p.s.sk.ring == NoRing
    && p.c.sent == [] && p.s.sent == [] && p.c.pool == [] && p.s.pool == []
    && p.s.sk.keepalive == sc.keepalive && p.c.sk.keepalive == cc.keepalive && (cc.keepalive ==> sc.keepalive)
    && p.s.sk.sndUna <= p.s.sk.sndNxt
    && p.s.stats.req == 0 && p.c.stats.rsp == 0
    && p.c2s == {} && p.s2c == {} && !p.launched && !p.greeted && !p.joined && !p.cFin
    && p.issued == p.accepted == p.answered == p.received == []
  }

  // ---------------------------------------------------------------- abstraction

  function View(k: Sock): Peer { Peer(k.state, k.sndUna, k.sndNxt, k.rcvNxt, k.flags, k.keepalive) }

  function Abs(p: Pair): Link {
    Link(View(p.c.sk), View(p.s.sk), p.c2s, p.s2c, p.launched, p.greeted, p.joined, p.cFin,
         p.issued, p.accepted, p.answered, p.received)
  }

  function SizesOf(cc: Config, sc: Config): Sizes { Sizes(cc.dataLen, sc.dataLen) }

  /** Between turns a client on the keepalive ring has nothing outstanding; without keepalive
      of the server it is never idle, and so never there. */
  predicate Rests(k: Sock, keepalive: bool) {
    && (k.ring == Keepalive ==> k.sndUna == k.sndNxt && keepalive)
    && (!keepalive && k.state == Established ==> k.sndUna < k.sndNxt)
  }

  ghost predicate Good(cc: Config, sc: Config, p: Pair) {
    && Plain(cc) && Plain(sc) && !cc.server && sc.server
    && p.c.sent == [] && p.s.sent == [] && p.c.pool == [] && p.s.pool == []
    && (cc.keepalive ==> p.s.sk.keepalive)
    && Protocol.Inv(SizesOf(cc, sc), Abs(p))
    && Rests(p.c.sk, p.s.sk.keepalive)
    && (!p.launched ==> p.c.sk.ring == NoRing) && (!p.greeted ==> p.s.sk.ring == NoRing)
    && p.s.stats.req == |p.accepted| && p.c.stats.rsp == |p.received|
  }

  // ---------------------------------------------------------------- what one reply does

  lemma ReplyIs(cfg: Config, now: nat, st: St, f: Flags)
    requires Plain(cfg) && st.pool == [] && !f.urg
    ensures var r := Reply(cfg, now, st, f);
            var k := st.sk;
            && r.pool == []
            && r.sent == st.sent + [Segment(k.sndUna, k.rcvNxt, f, DataLen(cfg, f))]
            && View(r.sk) == View(k).(flags := f,
                                      nxt := if k.sndNxt == k.sndUna then k.sndNxt + Advance(cfg, f) else k.sndNxt)
            && (r.sk.ring == Keepalive ==>
                k.ring == Keepalive && (k.state == Closed || r.sk.sndUna == r.sk.sndNxt || !(f.push || f.syn || f.fin)))
            && r.stats == st.stats.(req := r.stats.req, rsp := r.stats.rsp)
            && (!cfg.server ==> r.stats.rsp == st.stats.rsp) && (cfg.server ==> r.stats.req == st.stats.req)
  {
  }

  lemma Turn0(p: Pair, log: seq<int>)
    ensures DataLog(log, []) == log && Carried([]) == {} && !FinIn([])
  {
  }

  lemma Turn1(log: seq<int>, g: Segment)
    ensures Carried([g]) == {g} && (FinIn([g]) <==> g.flags.fin)
    ensures DataLog(log, [g]) == if g.len > 0 then Log(log, g.seqno) else log
  {
    if g.flags.fin { assert g in [g]; }
  }

  lemma Turn2(log: seq<int>, g: Segment, h: Segment)
    requires h.len == 0 && !h.flags.fin
    ensures Carried([g, h]) == {g} + {h} && (FinIn([g, h]) <==> g.flags.fin)
    ensures DataLog(log, [g, h]) == if g.len > 0 then Log(log, g.seqno) else log
  {
    Turn1(if g.len > 0 then Log(log, g.seqno) else log, h);
    assert [g, h][1..] == [h];
    if g.flags.fin { assert g in [g, h]; }
  }

  /** The conversation after a client turn that sends `out`. */
  function ClientMoved(l: Link, c: Peer, out: set<Segment>, fin: bool, issued: seq<int>, received: seq<int>): Link {
    l.(c := c, c2s := l.c2s + out, cFin := l.cFin || fin, launched := l.launched || c.state == SynSent,
       joined := l.joined || c.state == Established, issued := issued, received := received)
  }

  lemma ClientSends(p: Pair, r: St, out: Segment, n: int)
    requires r.sent == [out]
    ensures Abs(ClientTurn(p, r, n))
         == ClientMoved(Abs(p), View(r.sk), {out}, out.flags.fin,
                        if out.len > 0 then Log(p.issued, out.seqno) else p.issued,
                        if r.stats.rsp > p.c.stats.rsp then p.received + [n] else p.received)
  {
    Turn1(p.issued, out);
  }

  lemma ClientQuiet(p: Pair, r: St, n: int)
    requires r.sent == []
    ensures Abs(ClientTurn(p, r, n))
         == ClientMoved(Abs(p), View(r.sk), {}, false, p.issued,
                        if r.stats.rsp > p.c.stats.rsp then p.received + [n] else p.received)
  {
    Turn0(p, p.issued);
  }

  /** A client turn is good when the conversation after it is. */
  lemma ClientTurnGood(cc: Config, sc: Config, p: Pair, r: St, n: int)
    requires Good(cc, sc, p) && p.launched && Protocol.Inv(SizesOf(cc, sc), Abs(ClientTurn(p, r, n)))
    requires r.pool == [] && Rests(r.sk, p.s.sk.keepalive)
    requires p.c.stats.rsp <= r.stats.rsp <= p.c.stats.rsp + 1
    ensures Good(cc, sc, ClientTurn(p, r, n))
  {
    hide Protocol.Inv;
  }

  function ServerMoved(l: Link, s: Peer, out: set<Segment>, answered: seq<int>, accepted: seq<int>): Link {
    l.(s := s, s2c := l.s2c + out, greeted := l.greeted || s.state == SynReceived,
       answered := answered, accepted := accepted)
  }

  lemma ServerSends(p: Pair, r: St, out: Segment, n: int)
    requires r.sent == [out]
    ensures Abs(ServerTurn(p, r, n))
         == ServerMoved(Abs(p), View(r.sk), {out}, if out.len > 0 then Log(p.answered, out.seqno) else p.answered,
                        if r.stats.req > p.s.stats.req then p.accepted + [n] else p.accepted)
  {
    Turn1(p.answered, out);
  }

  lemma ServerQuiet(p: Pair, r: St, n: int)
    requires r.sent == []
    ensures Abs(ServerTurn(p, r, n))
         == ServerMoved(Abs(p), View(r.sk), {}, p.answered,
                        if r.stats.req > p.s.stats.req then p.accepted + [n] else p.accepted)
  {
    Turn0(p, p.answered);
  }

  lemma ServerTurnGood(cc: Config, sc: Config, p: Pair, r: St, n: int)
    requires Good(cc, sc, p) && p.greeted && Protocol.Inv(SizesOf(cc, sc), Abs(ServerTurn(p, r, n)))
    requires r.pool == [] && r.sk.keepalive == p.s.sk.keepalive && p.s.stats.req <= r.stats.req <= p.s.stats.req + 1
    ensures Good(cc, sc, ServerTurn(p, r, n))
  {
    hide Protocol.Inv;
  }

  /** Nothing taken: either nothing goes out, or the outstanding segment again. */
  ghost predicate Still(cfg: Config, st: St, r: St) {
    && r.pool == []
    && (cfg.server ==> r.stats.req == st.stats.req) && (!cfg.server ==> r.stats.rsp == st.stats.rsp)
    && (r.sk.ring == Keepalive ==> st.sk.ring == Keepalive)
    && (|| (View(r.sk) == View(st.sk) && r.sent == st.sent)
        || (View(r.sk) == View(st.sk).(state := Closed) && r.sent == st.sent)
        || (View(r.sk) == View(st.sk) && st.sk.sndUna != st.sk.sndNxt
            && r.sent == st.sent + [Again(cfg.dataLen, View(st.sk))]))
  }

  lemma RetransmitIsStill(cfg: Config, now: nat, st: St)
    requires Plain(cfg) && st.pool == []
    requires st.sk.sndNxt != st.sk.sndUna ==> !st.sk.flags.urg && !(st.sk.flags.syn && st.sk.flags.push)
    ensures Still(cfg, st, DoRetransmit(cfg, now, st))
  {
    hide Reply;
    if st.sk.sndNxt != st.sk.sndUna {
      var st1 := st.(sk := st.sk.(retrans := (st.sk.retrans + 1) % 8));
      ReplyIs(cfg, now, st1, st1.sk.flags);
    }
  }

  // ---------------------------------------------------------------- the client

  lemma ClientStill(cc: Config, sc: Config, p: Pair, r: St, n: int)
    requires Good(cc, sc, p) && p.launched && Still(cc, p.c, r)
    ensures Good(cc, sc, ClientTurn(p, r, n))
  {
    var z, l := SizesOf(cc, sc), Abs(p);
    OpenIsJoined(cc, sc, p);
    StillRests(cc, sc, p, r);
    if r.sent == [] { CCloseKeeps(z, l); } else { CResendKeeps(z, l); }
    hide Protocol.Inv, Good, Rests;
    StillIs(cc, p, r, n);
    ClientTurnGood(cc, sc, p, r, n);
  }

  lemma OpenIsJoined(cc: Config, sc: Config, p: Pair)
    requires Good(cc, sc, p)
    ensures p.c.sent == [] && (p.c.sk.state == Established ==> p.joined)
    ensures p.launched && p.c.sk.sndUna != p.c.sk.sndNxt && p.c.sk.flags.fin ==> p.cFin
  {
  }

  lemma StillRests(cc: Config, sc: Config, p: Pair, r: St)
    requires Good(cc, sc, p) && Still(cc, p.c, r)
    ensures r.pool == [] && Rests(r.sk, p.s.sk.keepalive) && r.stats.rsp == p.c.stats.rsp
  {
    hide Protocol.Inv;
  }

  lemma StillIs(cc: Config, p: Pair, r: St, n: int)
    requires p.launched && p.c.sent == [] && Still(cc, p.c, r) && !cc.server
    requires p.c.sk.state == Established ==> p.joined
    requires p.c.sk.sndUna != p.c.sk.sndNxt && p.c.sk.flags.fin ==> p.cFin
    ensures var l := Abs(p);
            Abs(ClientTurn(p, r, n)) in if r.sent == [] then {l, CClose(l)} else {CResend(Sizes(cc.dataLen, 0), l)}
  {
    var l := Abs(p);
    if r.sent == [] {
      ClientQuiet(p, r, n);
      assert l.c2s + {} == l.c2s;
    } else {
      ClientSends(p, r, Again(cc.dataLen, l.c), n);
    }
  }

  lemma ClientCheck(cc: Config, sc: Config, p: Pair, g: Segment, now: nat)
    requires Good(cc, sc, p) && p.joined && g in p.s2c && !g.flags.syn
    ensures var (r, ok) := CheckSequence(cc, now, p.c, g);
            var l := Abs(p);
            && (!ok ==> Still(cc, p.c, r))
            && (ok ==> && g.ack == l.c.nxt && g.seqno == l.c.rcv && l.c.state != Closed
                       && View(r.sk) == l.c.(una := l.c.nxt, rcv := l.c.rcv + g.Span())
                       && r.sent == p.c.sent && r.stats == p.c.stats && r.pool == p.c.pool
                       && r.sk.ring in {NoRing, p.c.sk.ring})
  {
    hide DoRetransmit;
    if g.flags.fin && g.len == 0 { NoSimultaneousClose(SizesOf(cc, sc), Abs(p), g); }
    RetransmitIsStill(cc, now, p.c);
  }

  /** `r` is `st` seen from the protocol, with these segments sent and nothing else counted. */
  ghost predicate Becomes(st: St, r: St, v: Peer, out: seq<Segment>) {
    View(r.sk) == v && r.sent == st.sent + out && r.pool == [] && r.stats.rsp == st.stats.rsp
        && r.stats.req >= st.stats.req
  }

  function Bare(k: Sock, f: Flags): Segment { Segment(k.sndUna, k.rcvNxt, f, 0) }

  lemma FinishWithFin(cfg: Config, now: nat, st: St, rx: Flags, tx: Flags)
    requires Plain(cfg) && !cfg.server && st.pool == [] && st.sk.state == Established && st.sk.sndUna == st.sk.sndNxt
    requires tx in {ACK, FIN_ACK} && (rx.fin || tx.fin)
    ensures var v := View(st.sk);
            Becomes(st, ClientFinish(cfg, now, st, rx, tx),
                    v.(state := if rx.fin then LastAck else FinWait1, flags := FIN_ACK, nxt := v.nxt + 1),
                    [Bare(st.sk, FIN_ACK)])
    ensures ClientFinish(cfg, now, st, rx, tx).sk.ring != Keepalive
  {
  }

  lemma FinishAck(cfg: Config, now: nat, st: St, rx: Flags)
    requires Plain(cfg) && !cfg.server && st.pool == [] && !rx.fin && st.sk.state in {Established, FinWait1}
    ensures var r := ClientFinish(cfg, now, st, rx, ACK);
            var v := View(st.sk).(state := if st.sk.state == FinWait1 then FinWait2 else Established);
            && (Becomes(st, r, v, []) || Becomes(st, r, v.(flags := ACK), [Bare(st.sk, ACK)]))
            && r.sk.ring == st.sk.ring
  {
  }

  lemma FinishLate(cfg: Config, now: nat, st: St, rx: Flags)
    requires Plain(cfg) && !cfg.server && st.pool == [] && st.sk.state in {FinWait1, FinWait2, LastAck}
    requires st.sk.sndUna == st.sk.sndNxt
    ensures var r := ClientFinish(cfg, now, st, rx, NONE);
            var v := View(st.sk);
            if st.sk.state == LastAck then Becomes(st, r, v.(state := Closed), [])
            else if rx.fin then Becomes(st, r, v.(state := Closed, flags := ACK), [Bare(st.sk, ACK)])
            else Becomes(st, r, v.(state := FinWait2), [])
    ensures ClientFinish(cfg, now, st, rx, NONE).sk.ring in {NoRing, st.sk.ring}
  {
  }

  lemma ClientLate(cc: Config, sc: Config, p: Pair, g: Segment, env: Env)
    requires Good(cc, sc, p) && p.joined && p.cFin && g in p.s2c && !g.flags.syn && g.flags.ack && !g.flags.rst
    requires CheckSequence(cc, env.now, p.c, g).1
    ensures Good(cc, sc, ClientTurn(p, ClientData(cc, env, p.c, g, NoHttp), g.seqno))
    ensures Abs(ClientTurn(p, ClientData(cc, env, p.c, g, NoHttp), g.seqno)) == CLate(Abs(p), g)
  {
    hide Reply, CheckSequence, ClientFinish, ClientTurn;
    ClientCheck(cc, sc, p, g, env.now);
    var st1 := CheckSequence(cc, env.now, p.c, g).0;
    assert st1.sk.state in {FinWait1, FinWait2, LastAck};
    FinishLate(cc, env.now, st1, g.flags);
    var r := ClientData(cc, env, p.c, g, NoHttp);
    assert r == ClientFinish(cc, env.now, st1, g.flags, NONE);
    hide ClientData, Protocol.Inv;
    ClientLateTurn(cc, sc, p, g, st1, r);
  }

  lemma ClientLateTurn(cc: Config, sc: Config, p: Pair, g: Segment, st: St, r: St)
    requires Good(cc, sc, p) && p.joined && p.cFin && g in p.s2c && !g.flags.syn && g.ack == p.c.sk.sndNxt
    requires g.seqno == p.c.sk.rcvNxt
    requires View(st.sk) == View(p.c.sk).(una := p.c.sk.sndNxt, rcv := p.c.sk.rcvNxt + g.Span()) && st.sent == []
    requires st.stats == p.c.stats && (st.sk.ring == Keepalive ==> p.c.sk.ring == Keepalive)
    requires st.sk.state in {FinWait1, FinWait2, LastAck} && r.sk.ring in {NoRing, st.sk.ring}
    requires var v := View(st.sk);
             if st.sk.state == LastAck then Becomes(st, r, v.(state := Closed), [])
             else if g.flags.fin then Becomes(st, r, v.(state := Closed, flags := ACK), [Bare(st.sk, ACK)])
             else Becomes(st, r, v.(state := FinWait2), [])
    ensures Good(cc, sc, ClientTurn(p, r, g.seqno))
    ensures Abs(ClientTurn(p, r, g.seqno)) == CLate(Abs(p), g)
  {
    CLateKeeps(SizesOf(cc, sc), Abs(p), g);
    RestsOn(cc, sc, p);
    hide Protocol.Inv, Good, ClientTurn, CLate;
    ClientLateAbs(p, g, st, r);
    ClientTurnGood(cc, sc, p, r, g.seqno);
  }

  lemma ClientLateAbs(p: Pair, g: Segment, st: St, r: St)
    requires p.joined && p.launched && p.cFin && p.c.sent == [] && st.sent == [] && st.stats == p.c.stats
    requires View(st.sk) == View(p.c.sk).(una := p.c.sk.sndNxt, rcv := p.c.sk.rcvNxt + g.Span())
    requires st.sk.state in {FinWait1, FinWait2, LastAck}
    requires var v := View(st.sk);
             if st.sk.state == LastAck then Becomes(st, r, v.(state := Closed), [])
             else if g.flags.fin then Becomes(st, r, v.(state := Closed, flags := ACK), [Bare(st.sk, ACK)])
             else Becomes(st, r, v.(state := FinWait2), [])
    ensures Abs(ClientTurn(p, r, g.seqno)) == CLate(Abs(p), g)
  {
    hide ClientTurn;
    if r.sent == [] {
      ClientQuiet(p, r, g.seqno);
    } else {
      assert r.sent == [Bare(st.sk, ACK)];
      ClientSends(p, r, Bare(st.sk, ACK), g.seqno);
    }
  }

  lemma RestsOn(cc: Config, sc: Config, p: Pair)
    requires Good(cc, sc, p)
    ensures Rests(p.c.sk, p.s.sk.keepalive) && p.c.sent == [] && (p.joined ==> p.launched && p.greeted)
        && p.s.sent == []
  {
  }

  /** The first segment of tcp_send_keepalive_request on an idle client. */
  lemma KeepaliveRequestIs(cfg: Config, env: Env, st: St)
    requires Plain(cfg) && !cfg.server && st.pool == [] && st.sk.sndUna == st.sk.sndNxt && st.sk.state == Established
    ensures var r := SendKeepaliveRequest(cfg, env, st);
            var v := View(st.sk);
            && r.sk.ring != Keepalive
            && (env.inDuration ==>
                  Becomes(st, r, v.(nxt := v.nxt + cfg.dataLen, flags := PUSH_ACK, keepalive := r.sk.keepalive),
                          [Segment(v.una, v.rcv, PUSH_ACK, cfg.dataLen)])
                  && (r.sk.keepalive ==> v.keepalive))
            && (!env.inDuration ==>
                  Becomes(st, r, v.(nxt := v.nxt + 1, flags := FIN_ACK, keepalive := false, state := FinWait1),
                          [Bare(st.sk, FIN_ACK)]))
  {
  }

  /** The client has just taken response `g`: `st` is the socket, `l` the conversation at that point. */
  ghost predicate Taken(cc: Config, sc: Config, p: Pair, g: Segment, st: St, l: Link) {
    && Plain(cc) && Plain(sc) && !cc.server && sc.server
    && p.s.sent == [] && p.s.pool == [] && (cc.keepalive ==> p.s.sk.keepalive)
    && p.launched && (!p.greeted ==> p.s.sk.ring == NoRing)
    && p.s.stats.req == |p.accepted| && p.c.stats.rsp == |p.received|
    && Protocol.Inv(SizesOf(cc, sc), l) && l == CTake(Abs(p), g) && p.joined && !p.cFin
    && View(st.sk) == l.c && l.c.state == Established && l.c.una == l.c.nxt
    && (g.flags.fin <==> !p.s.sk.keepalive) && (l.c.keepalive ==> p.s.sk.keepalive) && g.len > 0
    && st.sent == [] && st.pool == [] && st.stats.rsp == p.c.stats.rsp + 1
  }

  lemma TakeAndFinish(cc: Config, sc: Config, p: Pair, g: Segment, now: nat, st: St, l: Link)
    requires Taken(cc, sc, p, g, st, l)
    ensures Good(cc, sc, ClientTurn(p, ClientFinish(cc, now, st, g.flags, FIN_ACK), g.seqno))
    ensures Good(cc, sc, ClientTurn(p, Close(Reply(cc, now, st, RST_ACK)), g.seqno))
    ensures Abs(ClientTurn(p, ClientFinish(cc, now, st, g.flags, FIN_ACK), g.seqno))
         == CFinish(l, if g.flags.fin then LastAck else FinWait1)
    ensures Abs(ClientTurn(p, Close(Reply(cc, now, st, RST_ACK)), g.seqno)) == CReset(l)
  {
    hide Reply, ClientFinish, Protocol.Inv;
    var z := SizesOf(cc, sc);
    FinishWithFin(cc, now, st, g.flags, FIN_ACK);
    var r := ClientFinish(cc, now, st, g.flags, FIN_ACK);
    CFinishKeeps(z, l, r.sk.state);
    Turn1(p.issued, Bare(st.sk, FIN_ACK));
    assert r.sent == [Bare(st.sk, FIN_ACK)];
    assert Abs(ClientTurn(p, r, g.seqno)) == CFinish(l, r.sk.state);
    ReplyIs(cc, now, st, RST_ACK);
    var q := Close(Reply(cc, now, st, RST_ACK));
    CResetKeeps(z, l);
    Turn1(p.issued, Bare(st.sk, RST_ACK));
    assert q.sent == [Bare(st.sk, RST_ACK)];
    assert Abs(ClientTurn(p, q, g.seqno)) == CReset(l);
  }

  lemma TakeAndWait(cc: Config, sc: Config, p: Pair, g: Segment, now: nat, st: St, l: Link)
    requires Taken(cc, sc, p, g, st, l) && !g.flags.fin
    ensures Good(cc, sc, ClientTurn(p, ClientFinish(cc, now, st, g.flags, ACK), g.seqno))
    ensures Abs(ClientTurn(p, ClientFinish(cc, now, st, g.flags, ACK), g.seqno)) in {l, CAck(l)}
  {
    hide ClientFinish, Protocol.Inv;
    FinishAck(cc, now, st, g.flags);
    var r := ClientFinish(cc, now, st, g.flags, ACK);
    CAckKeeps(SizesOf(cc, sc), l);
    if r.sent == [] {
      Turn0(p, p.issued);
      assert Abs(ClientTurn(p, r, g.seqno)) == l;
    } else {
      Turn1(p.issued, Bare(st.sk, ACK));
      assert r.sent == [Bare(st.sk, ACK)];
      assert Abs(ClientTurn(p, r, g.seqno)) == CAck(l);
    }
  }

  /** The turn ends with segment `first`, which carries the conversation to `l1`, and
      perhaps a bare acknowledgement. */
  lemma TurnEnds(cc: Config, sc: Config, p: Pair, g: Segment, st: St, l: Link, r: St, first: Segment, l1: Link,
                 acked: bool)
    requires Taken(cc, sc, p, g, st, l)
    requires Protocol.Inv(SizesOf(cc, sc), l1) && Rests(r.sk, p.s.sk.keepalive)
    requires l1 == l.(c := l1.c, c2s := p.c2s + {first}, cFin := first.flags.fin,
                      issued := if first.len > 0 then Log(p.issued, first.seqno) else p.issued)
    requires r.pool == [] && r.stats.rsp == st.stats.rsp && l1.c.state != SynSent
    requires if acked then r.sent == [first, Segment(l1.c.una, l1.c.rcv, ACK, 0)] && View(r.sk) == l1.c.(flags := ACK)
             else r.sent == [first] && View(r.sk) == l1.c
    ensures Good(cc, sc, ClientTurn(p, r, g.seqno))
    ensures Abs(ClientTurn(p, r, g.seqno)) == if acked then CAck(l1) else l1
  {
    hide Protocol.Inv;
    var p' := ClientTurn(p, r, g.seqno);
    if acked {
      var a := Segment(l1.c.una, l1.c.rcv, ACK, 0);
      Turn2(p.issued, first, a);
      CAckKeeps(SizesOf(cc, sc), l1);
      assert p'.c2s == p.c2s + {first} + {a};
      assert Abs(p') == CAck(l1);
    } else {
      Turn1(p.issued, first);
      assert Abs(p') == l1;
    }
  }

  /** With the response the next request leaves, or after the run the FIN. */
  predicate AtOnce(z: Sizes, l: Link, inDuration: bool, a: Link) {
    && a.s == l.s && a.joined == l.joined && a.received == l.received && a.c.una == l.c.una && a.c.rcv == l.c.rcv
    && (if inDuration then
          && a.c.state == Established && a.c.nxt == l.c.una + z.req && a.cFin == l.cFin
          && a.issued == Log(l.issued, l.c.una) && Segment(l.c.una, l.c.rcv, PUSH_ACK, z.req) in a.c2s
        else
          && a.c.state == FinWait2 && a.cFin && a.issued == l.issued
          && Segment(l.c.una, l.c.rcv, FIN_ACK, 0) in a.c2s)
  }

  lemma TakeAndAsk(cc: Config, sc: Config, p: Pair, g: Segment, env: Env, st: St, l: Link)
    requires Taken(cc, sc, p, g, st, l) && l.c.keepalive
    ensures Good(cc, sc, ClientTurn(p, ClientFinish(cc, env.now, SendKeepaliveRequest(cc, env, st), g.flags, ACK),
                                    g.seqno))
    ensures AtOnce(SizesOf(cc, sc), l, env.inDuration,
                   Abs(ClientTurn(p, ClientFinish(cc, env.now, SendKeepaliveRequest(cc, env, st), g.flags, ACK),
                                  g.seqno)))
  {
    hide ClientFinish, Protocol.Inv, SendKeepaliveRequest, ClientTurn, Good;
    var z := SizesOf(cc, sc);
    KeepaliveRequestIs(cc, env, st);
    var q := SendKeepaliveRequest(cc, env, st);
    FinishAck(cc, env.now, q, g.flags);
    var r := ClientFinish(cc, env.now, q, g.flags, ACK);
    var first := if env.inDuration then Segment(l.c.una, l.c.rcv, PUSH_ACK, cc.dataLen) else Bare(st.sk, FIN_ACK);
    var l1 := if env.inDuration then CRequest(z, l) else CFinish(l, FinWait2);
    if env.inDuration { CRequestKeeps(z, l); } else { CFinishKeeps(z, l, FinWait2); }
    var l2 := if q.sk.keepalive then l1 else CKeepaliveOff(l1);
    CKeepaliveOffKeeps(z, l1);
    assert q.sent == [first];
    var acked := View(r.sk).flags == ACK;
    assert if acked then r.sent == [first, Segment(l2.c.una, l2.c.rcv, ACK, 0)] && View(r.sk) == l2.c.(flags := ACK)
           else r.sent == [first] && View(r.sk) == l2.c;
    TurnEnds(cc, sc, p, g, st, l, r, first, l2, acked);
  }

  lemma ClientHasTaken(cc: Config, sc: Config, p: Pair, g: Segment, now: nat)
    requires Good(cc, sc, p) && p.joined && !p.cFin && g in p.s2c && !g.flags.syn
    requires CheckSequence(cc, now, p.c, g).1
    ensures var st := CheckSequence(cc, now, p.c, g).0;
            Taken(cc, sc, p, g, st.(stats := st.stats.(rsp := st.stats.rsp + 1)), CTake(Abs(p), g))
  {
    hide CheckSequence;
    ClientCheck(cc, sc, p, g, now);
    OnlyResponse(SizesOf(cc, sc), Abs(p), g);
    CTakeKeeps(SizesOf(cc, sc), Abs(p), g);
  }

  /** A response is taken on an established client: every way the handler can go on. */
  lemma ClientTakes(cc: Config, sc: Config, p: Pair, g: Segment, env: Env)
    requires Good(cc, sc, p) && p.joined && !p.cFin && g in p.s2c && !g.flags.syn
    requires CheckSequence(cc, env.now, p.c, g).1
    ensures Good(cc, sc, ClientTurn(p, ClientData(cc, env, p.c, g, NoHttp), g.seqno))
    ensures ClientTurn(p, ClientData(cc, env, p.c, g, NoHttp), g.seqno).received == p.received + [g.seqno]
    ensures p.c.sk.keepalive && cc.interval > 0 ==>
              Abs(ClientTurn(p, ClientData(cc, env, p.c, g, NoHttp), g.seqno)) in {CTake(Abs(p), g),
                  CAck(CTake(Abs(p), g))}
    ensures p.c.sk.keepalive && cc.interval == 0 ==>
              AtOnce(SizesOf(cc, sc), CTake(Abs(p), g), env.inDuration,
                     Abs(ClientTurn(p, ClientData(cc, env, p.c, g, NoHttp), g.seqno)))
    ensures !p.c.sk.keepalive ==>
              Abs(ClientTurn(p, ClientData(cc, env, p.c, g, NoHttp), g.seqno))
              == if cc.fastClose then CReset(CTake(Abs(p), g))
                 else CFinish(CTake(Abs(p), g), if g.flags.fin then LastAck else FinWait1)
  {
    hide Reply, CheckSequence, ClientFinish, SendKeepaliveRequest, Place, Good, Protocol.Inv, ClientTurn;
    ClientHasTaken(cc, sc, p, g, env.now);
    var l1 := CTake(Abs(p), g);
    var st1 := CheckSequence(cc, env.now, p.c, g).0;
    var st2 := st1.(stats := st1.stats.(rsp := st1.stats.rsp + 1));
    if !st1.sk.keepalive {
      TakeAndFinish(cc, sc, p, g, env.now, st2, l1);
      assert Abs(ClientTurn(p, ClientData(cc, env, p.c, g, NoHttp), g.seqno)).received == l1.received;
    } else if cc.interval > 0 {
      var st3 := StartKeepalive(cc, st2, st2.sk.timer);
      assert View(st3.sk) == View(st2.sk);
      TakeAndWait(cc, sc, p, g, env.now, st3, l1);
      assert Abs(ClientTurn(p, ClientData(cc, env, p.c, g, NoHttp), g.seqno)).received == l1.received;
    } else {
      TakeAndAsk(cc, sc, p, g, env, st2, l1);
    }
  }

  /** What the first SYN-ACK makes of a client that waits for it. */
  ghost predicate Joins(cfg: Config, st: St, g: Segment, r: St) {
    var v := Peer(Established, st.sk.sndNxt, st.sk.sndNxt + cfg.dataLen, g.seqno + 1, PUSH_ACK, st.sk.keepalive);
    && r.pool == [] && View(r.sk) == v && r.sent == st.sent + [Again(cfg.dataLen, v)]
    && r.sk.ring != Keepalive && r.stats.rsp == st.stats.rsp
  }

  lemma SynAckJoins(cfg: Config, now: nat, st: St, g: Segment)
    requires Plain(cfg) && !cfg.server && st.pool == [] && st.sk.state == SynSent && g.ack == st.sk.sndNxt
    requires st.sk.ring != Keepalive
    ensures Joins(cfg, st, g, ClientSynAck(cfg, now, st, g))
  {
    hide Reply;
    var st1 := st.(sk := st.sk.(rcvNxt := g.seqno + 1, sndUna := g.ack, state := Established));
    ReplyIs(cfg, now, st1, PUSH_ACK);
  }

  lemma JoinTurn(cc: Config, sc: Config, p: Pair, g: Segment, r: St)
    requires Good(cc, sc, p) && g in p.s2c && g.flags == SYN_ACK && p.c.sk.state == SynSent && Joins(cc, p.c, g, r)
    ensures Good(cc, sc, ClientTurn(p, r, g.seqno))
    ensures Abs(ClientTurn(p, r, g.seqno)) == CJoin(SizesOf(cc, sc), Abs(p), g)
  {
    var z, l := SizesOf(cc, sc), Abs(p);
    CJoinKeeps(z, l, g);
    hide Protocol.Inv;
    var out := Segment(l.c.nxt, g.seqno + 1, PUSH_ACK, cc.dataLen);
    assert r.sent == [out];
    Turn1(p.issued, out);
    assert Abs(ClientTurn(p, r, g.seqno)) == CJoin(z, l, g);
  }

  /** Segments of the handshake: the first SYN-ACK opens the conversation, later ones do nothing. */
  lemma ClientSynAckTurn(cc: Config, sc: Config, p: Pair, g: Segment, now: nat)
    requires Good(cc, sc, p) && g in p.s2c && g.flags == SYN_ACK
    ensures Good(cc, sc, ClientTurn(p, ClientSynAck(cc, now, p.c, g), g.seqno))
    ensures p.c.sk.state == SynSent ==>
              Abs(ClientTurn(p, ClientSynAck(cc, now, p.c, g), g.seqno)) == CJoin(SizesOf(cc, sc), Abs(p), g)
  {
    if p.c.sk.state == SynSent {
      SynAckJoins(cc, now, p.c, g);
      hide Joins, ClientSynAck, ClientTurn;
      JoinTurn(cc, sc, p, g, ClientSynAck(cc, now, p.c, g));
    } else {
      hide Reply;
      ClientStill(cc, sc, p, p.c, g.seqno);
    }
  }

  lemma ClientSegment(cc: Config, sc: Config, p: Pair, g: Segment, env: Env)
    requires Good(cc, sc, p) && g in p.s2c
    ensures Good(cc, sc, ClientTurn(p, Client(cc, env, p.c, g, NoHttp), g.seqno))
  {
    hide ClientSynAck, CheckSequence, ClientTurn;
    if g.flags.syn {
      ClientSynAckTurn(cc, sc, p, g, env.now);
    } else if g.flags.ack {
      ClientCheck(cc, sc, p, g, env.now);
      if !CheckSequence(cc, env.now, p.c, g).1 {
        ClientStill(cc, sc, p, CheckSequence(cc, env.now, p.c, g).0, g.seqno);
      } else if p.cFin {
        ClientLate(cc, sc, p, g, env);
      } else {
        ClientTakes(cc, sc, p, g, env);
      }
    } else {
      ClientStill(cc, sc, p, p.c, g.seqno);
    }
  }

  lemma ClientLaunchTurn(cc: Config, sc: Config, p: Pair, now: nat)
    requires Good(cc, sc, p) && !p.launched
    ensures Good(cc, sc, ClientTurn(p, Launch(cc, now, p.c), 0))
    ensures Abs(ClientTurn(p, Launch(cc, now, p.c), 0)) == CLaunch(Abs(p), p.c.sk.sndNxt + 1, cc.keepalive)
  {
    hide Reply;
    var l := Abs(p);
    var st := ClientOpen(cc, p.c, now);
    ReplyIs(cc, now, st, SYN);
    var r := Launch(cc, now, p.c);
    CLaunchKeeps(SizesOf(cc, sc), l, st.sk.sndUna, cc.keepalive);
    var out := Segment(st.sk.sndUna, 0, SYN, 0);
    assert r.sent == [out];
    Turn1(p.issued, out);
    assert Abs(ClientTurn(p, r, 0)) == CLaunch(l, st.sk.sndUna, cc.keepalive);
  }

  lemma ClientRetransmitTurn(cc: Config, sc: Config, p: Pair, now: nat)
    requires Good(cc, sc, p)
    ensures p.launched ==> Good(cc, sc, ClientTurn(p, RetransmitExpiry(cc, now, p.c), 0))
  {
    hide DoRetransmit, ClientTurn;
    var st := Move(p.c, NoRing);
    if p.launched {
      RetransmitIsStill(cc, now, st);
      ClientStill(cc, sc, p, RetransmitExpiry(cc, now, p.c), 0);
    }
  }

  lemma ClientKeepaliveTurn(cc: Config, sc: Config, p: Pair, env: Env)
    requires Good(cc, sc, p) && p.c.sk.ring == Keepalive && p.launched
    ensures Good(cc, sc, ClientTurn(p, KeepaliveExpiry(cc, env, p.c), 0))
    ensures p.c.sk.state == Established && p.c.sk.keepalive ==>
              var l1 := if env.inDuration then CRequest(SizesOf(cc, sc), Abs(p)) else CFinish(Abs(p), FinWait1);
              Abs(ClientTurn(p, KeepaliveExpiry(cc, env, p.c), 0))
              == l1.(c := l1.c.(keepalive := KeepaliveExpiry(cc, env, p.c).sk.keepalive))
    ensures p.c.sk.state == Established && !p.c.sk.keepalive ==>
              Abs(ClientTurn(p, KeepaliveExpiry(cc, env, p.c), 0)) == CFinish(Abs(p), FinWait1)
  {
    hide Reply, SendKeepaliveRequest, ClientTurn, Place;
    var st := Move(p.c, NoRing);
    if st.sk.state != Established {
      ClientStill(cc, sc, p, KeepaliveExpiry(cc, env, p.c), 0);
    } else if !st.sk.keepalive {
      ClientCloses(cc, sc, p, env.now, st.(sk := st.sk.(state := FinWait1)));
    } else {
      ClientAsks(cc, sc, p, env, st);
    }
  }

  /** An idle client whose keepalive was cleared sends its FIN. */
  lemma ClientCloses(cc: Config, sc: Config, p: Pair, now: nat, st: St)
    requires Good(cc, sc, p) && p.launched && p.c.sk.state == Established && p.c.sk.sndUna == p.c.sk.sndNxt
    requires p.s.sk.keepalive
    requires View(st.sk) == View(p.c.sk).(state := FinWait1) && st.sent == [] && st.pool == []
    requires st.stats == p.c.stats && st.sk.ring == NoRing
    ensures Good(cc, sc, ClientTurn(p, Reply(cc, now, st, FIN_ACK), 0))
    ensures Abs(ClientTurn(p, Reply(cc, now, st, FIN_ACK), 0)) == CFinish(Abs(p), FinWait1)
  {
    ReplyIs(cc, now, st, FIN_ACK);
    CFinishKeeps(SizesOf(cc, sc), Abs(p), FinWait1);
    hide Protocol.Inv, Good, ClientTurn, Reply;
    var r := Reply(cc, now, st, FIN_ACK);
    assert r.sent == [Bare(st.sk, FIN_ACK)];
    ClientSends(p, r, Bare(st.sk, FIN_ACK), 0);
    assert Abs(ClientTurn(p, r, 0)) == CFinish(Abs(p), FinWait1);
    ClientTurnGood(cc, sc, p, r, 0);
  }

  lemma ClientAsks(cc: Config, sc: Config, p: Pair, env: Env, st: St)
    requires Good(cc, sc, p) && p.launched && View(st.sk) == View(p.c.sk) && st.sent == [] && st.pool == []
    requires st.stats == p.c.stats
    requires st.sk.state == Established && st.sk.keepalive && st.sk.sndUna == st.sk.sndNxt
    ensures Good(cc, sc, ClientTurn(p, SendKeepaliveRequest(cc, env, st), 0))
    ensures var l1 := if env.inDuration then CRequest(SizesOf(cc, sc), Abs(p)) else CFinish(Abs(p), FinWait1);
            Abs(ClientTurn(p, SendKeepaliveRequest(cc, env, st), 0))
            == l1.(c := l1.c.(keepalive := SendKeepaliveRequest(cc, env, st).sk.keepalive))
  {
    hide SendKeepaliveRequest;
    var z, l := SizesOf(cc, sc), Abs(p);
    KeepaliveRequestIs(cc, env, st);
    var r := SendKeepaliveRequest(cc, env, st);
    var first := if env.inDuration then Segment(l.c.una, l.c.rcv, PUSH_ACK, cc.dataLen) else Bare(st.sk, FIN_ACK);
    var l1 := if env.inDuration then CRequest(z, l) else CFinish(l, FinWait1);
    assert l.joined && cc.dataLen > 0;
    if env.inDuration { CRequestKeeps(z, l); } else { CFinishKeeps(z, l, FinWait1); }
    hide Protocol.Inv, Good, ClientTurn;
    CKeepaliveOffKeeps(z, l1);
    assert r.sent == [first];
    ClientSends(p, r, first, 0);
    assert Abs(ClientTurn(p, r, 0)) == if r.sk.keepalive then l1 else CKeepaliveOff(l1);
    ClientTurnGood(cc, sc, p, r, 0);
  }

  // ---------------------------------------------------------------- the server

  lemma ServerStill(cc: Config, sc: Config, p: Pair, r: St, n: int)
    requires Good(cc, sc, p) && Still(sc, p.s, r) && (p.greeted || (r.sent == [] && r.sk.ring == NoRing))
    ensures Good(cc, sc, ServerTurn(p, r, n))
  {
    var z, l := SizesOf(cc, sc), Abs(p);
    var p' := ServerTurn(p, r, n);
    Turn0(p, p.answered);
    if r.sent == [] {
      SCloseKeeps(z, l);
      assert Abs(p') == l || Abs(p') == SClose(l);
    } else {
      assert r.sent == [Again(z.rsp, l.s)];
      Turn1(p.answered, Again(z.rsp, l.s));
      SResendKeeps(z, l);
      assert Abs(p') == SResend(z, l);
    }
  }

  lemma ServerCheck(cc: Config, sc: Config, p: Pair, g: Segment, now: nat)
    requires Good(cc, sc, p) && p.joined && g in p.c2s && !g.flags.syn
    ensures var (r, ok) := CheckSequence(sc, now, p.s, g);
            var l := Abs(p);
            && (!ok ==> Still(sc, p.s, r))
            && (ok ==> && g.ack == l.s.nxt && g.seqno == l.s.rcv && l.s.state != Closed
                       && View(r.sk) == l.s.(una := l.s.nxt, rcv := l.s.rcv + g.Span())
                       && r.sent == p.s.sent && r.stats == p.s.stats && r.pool == p.s.pool)
  {
    hide DoRetransmit;
    if g.flags.fin && g.len == 0 { NoSimultaneousClose(SizesOf(cc, sc), Abs(p), g); }
    RetransmitIsStill(sc, now, p.s);
  }

  /** The server seen from the protocol, with these segments sent; requests are counted apart. */
  ghost predicate Serves(st: St, r: St, v: Peer, out: seq<Segment>) {
    View(r.sk) == v && r.sent == st.sent + out && r.pool == [] && r.stats.req == st.stats.req
  }

  lemma FinishServed(cfg: Config, now: nat, st: St, rx: Flags)
    requires Plain(cfg) && cfg.server && st.pool == [] && !rx.fin && st.sk.state == Established
    requires st.sk.sndUna == st.sk.sndNxt
    ensures var v := View(st.sk);
            var f := if v.keepalive then PUSH_ACK else PUSH_ACK_FIN;
            Serves(st, ServerFinish(cfg, now, st, rx, f),
                   v.(state := if v.keepalive then Established else FinWait1, flags := f,
                      nxt := v.una + cfg.dataLen + if v.keepalive then 0 else 1),
                   [Segment(v.una, v.rcv, f, cfg.dataLen)])
  {
  }

  lemma FinishQuiet(cfg: Config, now: nat, st: St, rx: Flags)
    requires Plain(cfg) && cfg.server && st.pool == [] && st.sk.state == Established && st.sk.sndUna == st.sk.sndNxt
    ensures var v := View(st.sk);
            var r := ServerFinish(cfg, now, st, rx, NONE);
            if rx.fin then Serves(st, r, v.(state := LastAck, flags := FIN_ACK, nxt := v.nxt + 1),
                                  [Bare(st.sk, FIN_ACK)])
            else Serves(st, r, v, [])
  {
  }

  lemma FinishClosing(cfg: Config, now: nat, st: St, rx: Flags)
    requires Plain(cfg) && cfg.server && st.pool == [] && st.sk.state in {FinWait1, FinWait2, LastAck}
    requires st.sk.sndUna == st.sk.sndNxt
    ensures var r := ServerFinish(cfg, now, st, rx, NONE);
            var v := View(st.sk);
            if st.sk.state == LastAck then Serves(st, r, v.(state := Closed), [])
            else if rx.fin then Serves(st, r, v.(state := Closed, flags := ACK), [Bare(st.sk, ACK)])
            else Serves(st, r, v.(state := FinWait2), [])
  {
  }

  lemma ServerServes(cc: Config, sc: Config, p: Pair, g: Segment, now: nat)
    requires Good(cc, sc, p) && p.joined && g in p.c2s && !g.flags.syn && g.len > 0
    requires CheckSequence(sc, now, p.s, g).1
    ensures Good(cc, sc, ServerTurn(p, ServerData(sc, now, p.s, g), g.seqno))
    ensures Abs(ServerTurn(p, ServerData(sc, now, p.s, g), g.seqno)) == SServe(SizesOf(cc, sc), Abs(p), g)
    ensures ServerData(sc, now, p.s, g).sent == [Again(sc.dataLen, View(ServerData(sc, now, p.s, g).sk))]
  {
    hide CheckSequence, ServerFinish, ServerTurn;
    ServerCheck(cc, sc, p, g, now);
    OnlyRequest(SizesOf(cc, sc), Abs(p), g);
    var st1 := CheckSequence(sc, now, p.s, g).0;
    var st3 := st1.(sk := st1.sk.(state := Established), stats := st1.stats.(req := st1.stats.req + 1));
    FinishServed(sc, now, st3, g.flags);
    var r := ServerData(sc, now, p.s, g);
    assert r == ServerFinish(sc, now, st3, g.flags, ResponseFlags(View(st3.sk)));
    hide ServerData, Protocol.Inv;
    ServesTurn(cc, sc, p, g, st3, r);
  }

  /** The request is taken in `st` and answered in `r`. */
  lemma ServesTurn(cc: Config, sc: Config, p: Pair, g: Segment, st: St, r: St)
    requires Good(cc, sc, p) && p.joined && g in p.c2s && !g.flags.syn && g.len > 0 && p.s.sk.state != Closed
    requires g.ack == p.s.sk.sndNxt && g.seqno == p.s.sk.rcvNxt
    requires View(st.sk) == View(p.s.sk).(state := Established, una := p.s.sk.sndNxt, rcv := p.s.sk.rcvNxt + g.Span())
    requires st.sent == [] && st.stats.req == p.s.stats.req + 1
    requires var v := View(st.sk);
             Serves(st, r, v.(state := if v.keepalive then Established else FinWait1, flags := ResponseFlags(v),
                              nxt := v.una + sc.dataLen + if v.keepalive then 0 else 1),
                           [Segment(v.una, v.rcv, ResponseFlags(v), sc.dataLen)])
    ensures Good(cc, sc, ServerTurn(p, r, g.seqno))
    ensures Abs(ServerTurn(p, r, g.seqno)) == SServe(SizesOf(cc, sc), Abs(p), g)
    ensures r.sent == [Again(sc.dataLen, View(r.sk))]
  {
    SServeKeeps(SizesOf(cc, sc), Abs(p), g);
    RestsOn(cc, sc, p);
    assert sc.dataLen > 0;
    hide Protocol.Inv, Good, ServerTurn, SServe;
    ServesAbs(cc, sc, p, g, st, r);
    ServerTurnGood(cc, sc, p, r, g.seqno);
  }

  lemma ServesAbs(cc: Config, sc: Config, p: Pair, g: Segment, st: St, r: St)
    requires p.greeted && sc.dataLen > 0 && st.sent == [] && st.stats.req == p.s.stats.req + 1
    requires View(st.sk) == View(p.s.sk).(state := Established, una := p.s.sk.sndNxt, rcv := p.s.sk.rcvNxt + g.Span())
    requires var v := View(st.sk);
             Serves(st, r, v.(state := if v.keepalive then Established else FinWait1, flags := ResponseFlags(v),
                              nxt := v.una + sc.dataLen + if v.keepalive then 0 else 1),
                           [Segment(v.una, v.rcv, ResponseFlags(v), sc.dataLen)])
    ensures Abs(ServerTurn(p, r, g.seqno)) == SServe(SizesOf(cc, sc), Abs(p), g)
    ensures r.sent == [Again(sc.dataLen, View(r.sk))]
  {
    hide ServerTurn;
    var out := Again(sc.dataLen, View(r.sk));
    assert r.sent == [out];
    ServerSends(p, r, out, g.seqno);
    assert out.len == sc.dataLen > 0;
  }

  lemma ServerAcceptsEmpty(cc: Config, sc: Config, p: Pair, g: Segment, now: nat)
    requires Good(cc, sc, p) && p.joined && g in p.c2s && !g.flags.syn && g.len == 0 && !g.flags.fin
    requires CheckSequence(sc, now, p.s, g).1 && p.s.sk.state in {SynReceived, Established}
    ensures Good(cc, sc, ServerTurn(p, ServerData(sc, now, p.s, g), g.seqno))
  {
    hide CheckSequence, ServerFinish, ServerTurn;
    var l := Abs(p);
    ServerCheck(cc, sc, p, g, now);
    SAcceptKeeps(SizesOf(cc, sc), l, g);
    ServerDataIs(sc, now, p.s, g);
    hide ServerData;
    var st2 := Answer(CheckSequence(sc, now, p.s, g).0, g).0;
    FinishQuiet(sc, now, st2, g.flags);
    var r := ServerData(sc, now, p.s, g);
    assert p.greeted;
    hide Protocol.Inv, Good;
    assert r.sent == [];
    ServerQuiet(p, r, g.seqno);
    assert Abs(ServerTurn(p, r, g.seqno)) == SAccept(l);
    ServerTurnGood(cc, sc, p, r, g.seqno);
  }

  lemma ServerAcceptsFin(cc: Config, sc: Config, p: Pair, g: Segment, now: nat)
    requires Good(cc, sc, p) && p.joined && g in p.c2s && !g.flags.syn && g.flags.fin
    requires CheckSequence(sc, now, p.s, g).1 && p.s.sk.state in {SynReceived, Established}
    ensures Good(cc, sc, ServerTurn(p, ServerData(sc, now, p.s, g), g.seqno))
    ensures Abs(ServerTurn(p, ServerData(sc, now, p.s, g), g.seqno)) == SFinAck(Abs(p), g)
  {
    hide CheckSequence, ServerFinish, ServerTurn;
    var l := Abs(p);
    ServerCheck(cc, sc, p, g, now);
    SFinAckKeeps(SizesOf(cc, sc), l, g);
    assert g.len == 0;
    ServerDataIs(sc, now, p.s, g);
    hide ServerData;
    var st2 := Answer(CheckSequence(sc, now, p.s, g).0, g).0;
    FinishQuiet(sc, now, st2, g.flags);
    var r := ServerData(sc, now, p.s, g);
    assert p.greeted;
    hide Protocol.Inv, Good;
    assert r.sent == [Bare(st2.sk, FIN_ACK)];
    ServerSends(p, r, Bare(st2.sk, FIN_ACK), g.seqno);
    assert Abs(ServerTurn(p, r, g.seqno)) == SFinAck(l, g);
    ServerTurnGood(cc, sc, p, r, g.seqno);
  }

  lemma ServerLate(cc: Config, sc: Config, p: Pair, g: Segment, now: nat)
    requires Good(cc, sc, p) && p.joined && g in p.c2s && !g.flags.syn
    requires CheckSequence(sc, now, p.s, g).1 && p.s.sk.state in {FinWait1, FinWait2, LastAck}
    ensures Good(cc, sc, ServerTurn(p, ServerData(sc, now, p.s, g), g.seqno))
    ensures Abs(ServerTurn(p, ServerData(sc, now, p.s, g), g.seqno)) == SLate(Abs(p), g)
  {
    hide CheckSequence, ServerFinish, ServerTurn;
    ServerCheck(cc, sc, p, g, now);
    var st1 := CheckSequence(sc, now, p.s, g).0;
    FinishClosing(sc, now, st1, g.flags);
    var r := ServerData(sc, now, p.s, g);
    assert r == ServerFinish(sc, now, st1, g.flags, NONE);
    hide ServerData, Protocol.Inv;
    ServerLateTurn(cc, sc, p, g, st1, r);
  }

  /** The segment is taken in `st`. */
  lemma ServerLateTurn(cc: Config, sc: Config, p: Pair, g: Segment, st: St, r: St)
    requires Good(cc, sc, p) && p.joined && g in p.c2s && !g.flags.syn && p.s.sk.state in {FinWait1, FinWait2, LastAck}
    requires g.ack == p.s.sk.sndNxt && g.seqno == p.s.sk.rcvNxt
    requires View(st.sk) == View(p.s.sk).(una := p.s.sk.sndNxt, rcv := p.s.sk.rcvNxt + g.Span()) && st.sent == []
    requires st.stats.req == p.s.stats.req
    requires var v := View(st.sk);
             if st.sk.state == LastAck then Serves(st, r, v.(state := Closed), [])
             else if g.flags.fin then Serves(st, r, v.(state := Closed, flags := ACK), [Bare(st.sk, ACK)])
             else Serves(st, r, v.(state := FinWait2), [])
    ensures Good(cc, sc, ServerTurn(p, r, g.seqno))
    ensures Abs(ServerTurn(p, r, g.seqno)) == SLate(Abs(p), g)
  {
    SLateKeeps(SizesOf(cc, sc), Abs(p), g);
    RestsOn(cc, sc, p);
    hide Protocol.Inv, Good, ServerTurn, SLate;
    ServerLateAbs(p, g, st, r);
    ServerTurnGood(cc, sc, p, r, g.seqno);
  }

  lemma ServerLateAbs(p: Pair, g: Segment, st: St, r: St)
    requires p.greeted && p.s.sent == [] && st.sent == [] && st.stats.req == p.s.stats.req
    requires View(st.sk) == View(p.s.sk).(una := p.s.sk.sndNxt, rcv := p.s.sk.rcvNxt + g.Span())
    requires st.sk.state in {FinWait1, FinWait2, LastAck}
    requires var v := View(st.sk);
             if st.sk.state == LastAck then Serves(st, r, v.(state := Closed), [])
             else if g.flags.fin then Serves(st, r, v.(state := Closed, flags := ACK), [Bare(st.sk, ACK)])
             else Serves(st, r, v.(state := FinWait2), [])
    ensures Abs(ServerTurn(p, r, g.seqno)) == SLate(Abs(p), g)
  {
    hide ServerTurn;
    if r.sent == [] {
      ServerQuiet(p, r, g.seqno);
    } else {
      assert r.sent == [Bare(st.sk, ACK)];
      ServerSends(p, r, Bare(st.sk, ACK), g.seqno);
    }
  }

  /** What a first SYN makes of a closed server. */
  ghost predicate Greets(st: St, g: Segment, iss: int, r: St) {
    var v := Peer(SynReceived, iss, iss + 1, g.seqno + 1, SYN_ACK, st.sk.keepalive);
    && r.pool == [] && View(r.sk) == v && r.sent == st.sent + [Segment(iss, g.seqno + 1, SYN_ACK, 0)]
    && r.stats.req == st.stats.req
  }

  lemma SynGreets(cfg: Config, now: nat, st: St, g: Segment)
    requires Plain(cfg) && cfg.server && st.pool == [] && st.sk.state == Closed
    ensures Greets(st, g, st.sk.sndNxt + 1, ServerSyn(cfg, now, st, g))
  {
    hide Reply, Place;
    ReplyIs(cfg, now, ServerOpen(cfg, st, g), SYN_ACK);
  }

  lemma GreetTurn(cc: Config, sc: Config, p: Pair, g: Segment, iss: int, r: St)
    requires Good(cc, sc, p) && g in p.c2s && g.flags == SYN && p.s.sk.state == Closed && !p.greeted
    requires Greets(p.s, g, iss, r)
    ensures Good(cc, sc, ServerTurn(p, r, g.seqno))
    ensures Abs(ServerTurn(p, r, g.seqno)) == SOpen(Abs(p), g, iss)
  {
    var z, l := SizesOf(cc, sc), Abs(p);
    SOpenKeeps(z, l, g, iss);
    hide Protocol.Inv;
    var out := Segment(iss, g.seqno + 1, SYN_ACK, 0);
    assert r.sent == [out];
    Turn1(p.answered, out);
    assert Abs(ServerTurn(p, r, g.seqno)) == SOpen(l, g, iss);
  }

  /** A SYN on an open server: nothing, or the SYN-ACK once more. */
  lemma SynStill(cfg: Config, now: nat, st: St, g: Segment)
    requires Plain(cfg) && cfg.server && st.pool == [] && st.sk.state !in {Closed, TimeWait}
    ensures (st.sk.state == SynReceived ==> st.sk.flags == SYN_ACK && st.sk.sndUna < st.sk.sndNxt) ==>
        Still(cfg, st, ServerSyn(cfg, now, st, g))
  {
    hide Reply;
    ReplyIs(cfg, now, st, SYN_ACK);
  }

  lemma OpenServer(cc: Config, sc: Config, p: Pair)
    requires Good(cc, sc, p) && p.s.sk.state != Closed
    ensures Plain(sc) && sc.server && p.s.pool == [] && p.greeted && p.s.sk.state != TimeWait
    ensures p.s.sk.state == SynReceived ==> p.s.sk.flags == SYN_ACK && p.s.sk.sndUna < p.s.sk.sndNxt
  {
  }

  lemma ServerSynTurn(cc: Config, sc: Config, p: Pair, g: Segment, now: nat)
    requires Good(cc, sc, p) && g in p.c2s && g.flags == SYN && (p.s.sk.state == Closed ==> !p.greeted)
    ensures Good(cc, sc, ServerTurn(p, ServerSyn(sc, now, p.s, g), g.seqno))
    ensures p.s.sk.state == Closed ==>
              Abs(ServerTurn(p, ServerSyn(sc, now, p.s, g), g.seqno)) == SOpen(Abs(p), g, p.s.sk.sndNxt + 1)
  {
    var r := ServerSyn(sc, now, p.s, g);
    if p.s.sk.state == Closed {
      SynGreets(sc, now, p.s, g);
      hide Greets, ServerSyn, ServerTurn;
      GreetTurn(cc, sc, p, g, p.s.sk.sndNxt + 1, r);
    } else {
      OpenServer(cc, sc, p);
      hide Good, ServerTurn, Protocol.Inv;
      SynStill(sc, now, p.s, g);
      hide ServerSyn, Still;
      ServerStill(cc, sc, p, r, g.seqno);
    }
  }

  lemma ServerSegment(cc: Config, sc: Config, p: Pair, g: Segment, now: nat)
    requires Good(cc, sc, p) && g in p.c2s && !(g.flags == SYN && p.s.sk.state == Closed && p.greeted)
    ensures Good(cc, sc, ServerTurn(p, Server(sc, now, p.s, g), g.seqno))
  {
    hide ServerSyn, CheckSequence, ServerTurn;
    if g.flags.syn {
      ServerSynTurn(cc, sc, p, g, now);
    } else if g.flags.ack && !g.flags.rst {
      ServerCheck(cc, sc, p, g, now);
      if !CheckSequence(sc, now, p.s, g).1 {
        ServerStill(cc, sc, p, CheckSequence(sc, now, p.s, g).0, g.seqno);
      } else if p.s.sk.state in {FinWait1, FinWait2, LastAck} {
        ServerLate(cc, sc, p, g, now);
      } else if g.len > 0 {
        ServerServes(cc, sc, p, g, now);
      } else if g.flags.fin {
        ServerAcceptsFin(cc, sc, p, g, now);
      } else {
        ServerAcceptsEmpty(cc, sc, p, g, now);
      }
    } else if g.flags.rst {
      ServerStill(cc, sc, p, Close(p.s), g.seqno);
    } else {
      ServerStill(cc, sc, p, p.s, g.seqno);
    }
  }

  lemma ServerTimerTurn(cc: Config, sc: Config, p: Pair, now: nat)
    requires Good(cc, sc, p)
    ensures Good(cc, sc, ServerTurn(p, TimeoutExpiry(p.s), 0))
    ensures p.greeted ==> Good(cc, sc, ServerTurn(p, RetransmitExpiry(sc, now, p.s), 0))
  {
    hide DoRetransmit, ServerTurn;
    ServerStill(cc, sc, p, TimeoutExpiry(p.s), 0);
    if p.greeted {
      RetransmitIsStill(sc, now, Move(p.s, NoRing));
      ServerStill(cc, sc, p, RetransmitExpiry(sc, now, p.s), 0);
    }
  }

  // ---------------------------------------------------------------- every run

  lemma StepKeeps(cc: Config, sc: Config, p: Pair, e: Event)
    requires Good(cc, sc, p)
    ensures Good(cc, sc, Step(cc, sc, p, e))
  {
    hide Client, Server, Launch, RetransmitExpiry, KeepaliveExpiry, TimeoutExpiry, ClientTurn, ServerTurn, Protocol.Inv;
    match e {
      case LaunchClient(env) => if !p.launched { ClientLaunchTurn(cc, sc, p, env.now); }
      case ToClient(g, env) => if g in p.s2c { ClientSegment(cc, sc, p, g, env); }
      case ToServer(g, env) =>
        if g in p.c2s && !(g.flags == SYN && p.s.sk.state == Closed && p.greeted) {
          ServerSegment(cc, sc, p, g, env.now);
        }
      case ClientRetransmit(env) => ClientRetransmitTurn(cc, sc, p, env.now);
      case ServerRetransmit(env) => ServerTimerTurn(cc, sc, p, env.now);
      case ClientKeepalive(env) => if p.c.sk.ring == Keepalive { ClientKeepaliveTurn(cc, sc, p, env); }
      case ServerTimeout => ServerTimerTurn(cc, sc, p, 0);
    }
  }

  lemma {:induction false} RunKeeps(cc: Config, sc: Config, p: Pair, es: seq<Event>)
    requires Good(cc, sc, p)
    ensures Good(cc, sc, Run(cc, sc, p, es))
    decreases |es|
  {
    if es != [] {
      StepKeeps(cc, sc, p, es[0]);
      RunKeeps(cc, sc, Step(cc, sc, p, es[0]), es[1..]);
    }
  }

  /** However the network treats the segments, each side's next expected byte is
      one of the other side's two send cursors, and what is in flight from a
      cursor is empty or exactly the outstanding data. */
  lemma Agreement(cc: Config, sc: Config, p: Pair, es: seq<Event>)
    requires Init(cc, sc, p)
    ensures var q := Run(cc, sc, p, es);
            var c, s := q.c.sk, q.s.sk;
            q.joined ==>
              && (s.rcvNxt == c.sndUna || s.rcvNxt == c.sndNxt)
              && (c.rcvNxt == s.sndUna || c.rcvNxt == s.sndNxt)
              && (forall g :: g in q.c2s && g.seqno >= c.sndUna ==>
                  g.seqno == c.sndUna && g.Span() in {0, c.sndNxt - c.sndUna})
              && (forall g :: g in q.s2c && g.seqno >= s.sndUna ==>
                  g.seqno == s.sndUna && g.Span() in {0, s.sndNxt - s.sndUna})
  {
    RunKeeps(cc, sc, p, es);
  }

  /** The branch of tcp_check_sequence for a simultaneous close is dead in every run. */
  lemma NeverClosing(cc: Config, sc: Config, p: Pair, es: seq<Event>)
    requires Init(cc, sc, p)
    ensures var q := Run(cc, sc, p, es);
            && q.c.sk.state != Closing && q.s.sk.state != Closing
            && (forall g :: g in q.s2c ==> !Crossing(q.c.sk, g))
            && (forall g :: g in q.c2s ==> !Crossing(q.s.sk, g))
  {
    RunKeeps(cc, sc, p, es);
  }

  /** The guard of that branch, once the test before it has failed. */
  predicate Crossing(k: Sock, g: Segment) {
    k.state == FinWait1 && g.flags.fin && g.len == 0 && g.ack == k.sndUna && g.ack != k.sndNxt && g.seqno == k.rcvNxt
  }

  // ---------------------------------------------------------------- what the logs are

  predicate Distinct(log: seq<int>) { forall i, j :: 0 <= i < j < |log| ==> log[i] != log[j] }

  /** `log` lists, without repetition, the sequence numbers of the data in `net`. */
  ghost predicate Lists(log: seq<int>, net: set<Segment>) {
    && Distinct(log)
    && (forall g :: g in net && g.len > 0 ==> g.seqno in log)
    && (forall x :: x in log ==> exists g :: g in net && g.len > 0 && g.seqno == x)
  }

  lemma {:induction false} DataLogLists(log: seq<int>, net: set<Segment>, sent: seq<Segment>)
    requires Lists(log, net)
    ensures Lists(DataLog(log, sent), net + Carried(sent))
    decreases |sent|
  {
    if sent == [] {
      assert net + Carried(sent) == net;
    } else {
      var g := sent[0];
      var log1 := if g.len > 0 then Log(log, g.seqno) else log;
      assert Lists(log1, net + {g}) by {
        forall x | x in log1 ensures exists h :: h in net + {g} && h.len > 0 && h.seqno == x {
          if x in log { var h :| h in net && h.len > 0 && h.seqno == x; assert h in net + {g}; }
          else { assert g in net + {g} && g.len > 0 && g.seqno == x; }
        }
      }
      DataLogLists(log1, net + {g}, sent[1..]);
      assert net + {g} + Carried(sent[1..]) == net + Carried(sent) by {
        forall h ensures h in Carried(sent) <==> h == g || h in Carried(sent[1..]) {
          if h in Carried(sent) { var i :| 0 <= i < |sent| && sent[i] == h; if i > 0 { assert sent[1..][i - 1] == h; } }
        }
      }
    }
  }

  ghost predicate LogsFit(p: Pair) {
    Lists(p.issued, p.c2s) && Lists(p.answered, p.s2c) && p.c.sent == [] && p.s.sent == []
  }

  lemma TurnsFit(p: Pair, r: St, n: int)
    requires LogsFit(p)
    ensures LogsFit(ClientTurn(p, r, n)) && LogsFit(ServerTurn(p, r, n))
  {
    hide Lists;
    DataLogLists(p.issued, p.c2s, r.sent);
    DataLogLists(p.answered, p.s2c, r.sent);
  }

  lemma StepFits(cc: Config, sc: Config, p: Pair, e: Event)
    requires LogsFit(p)
    ensures LogsFit(Step(cc, sc, p, e))
  {
    hide Client, Server, Launch, RetransmitExpiry, KeepaliveExpiry, TimeoutExpiry, ClientTurn, ServerTurn, LogsFit;
    match e {
      case LaunchClient(env) => TurnsFit(p, Launch(cc, env.now, p.c), 0);
      case ToClient(g, env) => TurnsFit(p, Client(cc, env, p.c, g, NoHttp), g.seqno);
      case ToServer(g, env) => TurnsFit(p, Server(sc, env.now, p.s, g), g.seqno);
      case ClientRetransmit(env) => TurnsFit(p, RetransmitExpiry(cc, env.now, p.c), 0);
      case ServerRetransmit(env) => TurnsFit(p, RetransmitExpiry(sc, env.now, p.s), 0);
      case ClientKeepalive(env) => TurnsFit(p, KeepaliveExpiry(cc, env, p.c), 0);
      case ServerTimeout => TurnsFit(p, TimeoutExpiry(p.s), 0);
    }
  }

  lemma {:induction false} RunFits(cc: Config, sc: Config, p: Pair, es: seq<Event>)
    requires LogsFit(p)
    ensures LogsFit(Run(cc, sc, p, es))
    decreases |es|
  {
    if es != [] {
      StepFits(cc, sc, p, es[0]);
      RunFits(cc, sc, Step(cc, sc, p, es[0]), es[1..]);
    }
  }

  /** In every run `issued` and `answered` list the distinct requests and responses on the wire. */
  lemma LogsCount(cc: Config, sc: Config, p: Pair, es: seq<Event>)
    requires Init(cc, sc, p)
    ensures var q := Run(cc, sc, p, es); Lists(q.issued, q.c2s) && Lists(q.answered, q.s2c)
  {
    RunFits(cc, sc, p, es);
  }

  /** Exactly once: the server takes a prefix of the requests the client issued,
      the client takes a prefix of the responses the server issued, one for each
      request, none of them twice, and at most one request is ahead of its response. */
  lemma ExactlyOnce(cc: Config, sc: Config, p: Pair, es: seq<Event>)
    requires Init(cc, sc, p)
    ensures var q := Run(cc, sc, p, es);
            && q.c.stats.rsp == |q.received| <= q.s.stats.req == |q.accepted| <= |q.issued| <= |q.received| + 1
            && |q.answered| == |q.accepted|
            && q.accepted == q.issued[..|q.accepted|]
            && q.received == q.answered[..|q.received|]
            && Distinct(q.issued) && Distinct(q.accepted) && Distinct(q.answered) && Distinct(q.received)
  {
    RunKeeps(cc, sc, p, es);
    LogsCount(cc, sc, p, es);
  }
}
