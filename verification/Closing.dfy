/** How a connection ends: a FIN is answered, and both sockets close. */
module Closing {
  import opened Rings
  import opened Tcp
  import opened Network
  import opened Invariants
  import opened Protocol
  import opened Connection
  import opened Progress

  // ---------------------------------------------------------------- one handler

  /** Segment `g` is the one the socket expects. */
  predicate Expected(k: Sock, g: Segment) {
    && g.flags.ack && !g.flags.syn && !g.flags.rst && g.ack == k.sndNxt && g.seqno == k.rcvNxt
  }

  /** Nothing but the numbers, the flags and the segments sent, and one connection less. */
  predicate ClosedCleanly(st: St, r: St) {
    && r.sk.state == Closed && r.sk.ring == NoRing && r.stats.error == st.stats.error
    && r.stats.close == st.stats.close + 1 && r.stats.current == st.stats.current - 1
  }

  lemma Accepts(cfg: Config, now: nat, st: St, g: Segment)
    requires st.sk.state != Closed && Expected(st.sk, g)
    ensures var (r, ok) := CheckSequence(cfg, now, st, g);
            && ok && r.sent == st.sent && r.pool == st.pool && r.stats == st.stats && r.sk.state == st.sk.state
            && r.sk.sndUna == r.sk.sndNxt == g.ack && r.sk.rcvNxt == Add(cfg.arith, g.seqno, g.Span())
  {
    hide Place;
  }

  /** A FIN of the other side, after the socket's own. */
  lemma FinishCloses(cfg: Config, now: nat, st: St, rx: Flags)
    requires st.sk.state in {FinWait1, FinWait2} && rx.fin && Granted(st.pool)
    requires st.sk.sndUna == st.sk.sndNxt
    ensures var ack := Segment(st.sk.sndUna, st.sk.rcvNxt, ACK, 0);
            && ClosedCleanly(st, ServerFinish(cfg, now, st, rx, NONE))
            && ServerFinish(cfg, now, st, rx, NONE).sent == st.sent + [ack]
            && ClosedCleanly(st, ClientFinish(cfg, now, st, rx, NONE))
            && ClientFinish(cfg, now, st, rx, NONE).sent == st.sent + [ack]
  {
    hide Place;
  }

  lemma FinishLast(cfg: Config, now: nat, st: St, rx: Flags)
    requires st.sk.state == LastAck
    ensures ClosedCleanly(st, ServerFinish(cfg, now, st, rx, NONE))
    ensures ServerFinish(cfg, now, st, rx, NONE).sent == st.sent
    ensures ClosedCleanly(st, ClientFinish(cfg, now, st, rx, NONE))
    ensures ClientFinish(cfg, now, st, rx, NONE).sent == st.sent
  {
    hide Place;
  }

  lemma FinishAnswers(cfg: Config, now: nat, st: St, rx: Flags)
    requires st.sk.state == Established && rx.fin && Granted(st.pool) && st.sk.sndUna == st.sk.sndNxt
    ensures var fin := Segment(st.sk.sndUna, st.sk.rcvNxt, FIN_ACK, 0);
            && ServerFinish(cfg, now, st, rx, NONE).sk.state == LastAck
            && ServerFinish(cfg, now, st, rx, NONE).sent == st.sent + [fin]
            && ServerFinish(cfg, now, st, rx, NONE).stats.error == st.stats.error
            && ClientFinish(cfg, now, st, rx, NONE).sk.state == LastAck
            && ClientFinish(cfg, now, st, rx, NONE).sent == st.sent + [fin]
  {
    hide Place, Accurate;
  }

  /** What the handlers make of an expected segment on a socket that is closing, or of one without data. */
  lemma Finishes(cfg: Config, env: Env, st: St, g: Segment, h: HttpOutcome)
    requires st.sk.state != Closed && Expected(st.sk, g)
    requires st.sk.state in {FinWait1, FinWait2, LastAck} || (st.sk.state == Established && g.len == 0 && g.flags.fin)
    ensures var st1 := CheckSequence(cfg, env.now, st, g).0;
            && Server(cfg, env.now, st, g) == ServerFinish(cfg, env.now, st1, g.flags, NONE)
            && Client(cfg, env, st, g, h) == ClientFinish(cfg, env.now, st1, g.flags, NONE)
  {
    Accepts(cfg, env.now, st, g);
    hide CheckSequence, ServerFinish, ClientFinish, ServeWindowed, ReplyMore, ClientTake, Reply, Place;
  }

  /** A FIN that is taken after the socket's own closes it, and is acknowledged. */
  lemma FinCloses(cfg: Config, env: Env, st: St, g: Segment, h: HttpOutcome)
    requires st.sk.state in {FinWait1, FinWait2} && Expected(st.sk, g) && g.flags.fin && Granted(st.pool)
    ensures var ack := Segment(g.ack, Add(cfg.arith, g.seqno, g.Span()), ACK, 0);
            && ClosedCleanly(st, Server(cfg, env.now, st, g)) && Server(cfg, env.now, st, g).sent == st.sent + [ack]
            && ClosedCleanly(st, Client(cfg, env, st, g, h)) && Client(cfg, env, st, g, h).sent == st.sent + [ack]
  {
    hide CheckSequence, Server, Client, ServerFinish, ClientFinish;
    Accepts(cfg, env.now, st, g);
    Finishes(cfg, env, st, g, h);
    FinishCloses(cfg, env.now, CheckSequence(cfg, env.now, st, g).0, g.flags);
  }

  /** The acknowledgement of its own FIN closes a socket that has taken the other's, without a word. */
  lemma LastAckCloses(cfg: Config, env: Env, st: St, g: Segment, h: HttpOutcome)
    requires st.sk.state == LastAck && Expected(st.sk, g)
    ensures ClosedCleanly(st, Server(cfg, env.now, st, g)) && Server(cfg, env.now, st, g).sent == st.sent
    ensures ClosedCleanly(st, Client(cfg, env, st, g, h)) && Client(cfg, env, st, g, h).sent == st.sent
  {
    hide CheckSequence, Server, Client, ServerFinish, ClientFinish;
    Accepts(cfg, env.now, st, g);
    Finishes(cfg, env, st, g, h);
    FinishLast(cfg, env.now, CheckSequence(cfg, env.now, st, g).0, g.flags);
  }

  /** A first FIN is answered with a FIN of its own. */
  lemma FinIsAnswered(cfg: Config, env: Env, st: St, g: Segment, h: HttpOutcome)
    requires st.sk.state == Established && Expected(st.sk, g) && g.flags.fin && g.len == 0 && Granted(st.pool)
    ensures var fin := Segment(g.ack, Add(cfg.arith, g.seqno, 1), FIN_ACK, 0);
            && Server(cfg, env.now, st, g).sk.state == LastAck && Server(cfg, env.now, st, g).sent == st.sent + [fin]
            && Server(cfg, env.now, st, g).stats.error == st.stats.error
            && Client(cfg, env, st, g, h).sk.state == LastAck && Client(cfg, env, st, g, h).sent == st.sent + [fin]
  {
    hide CheckSequence, Server, Client, ServerFinish, ClientFinish;
    Accepts(cfg, env.now, st, g);
    Finishes(cfg, env, st, g, h);
    FinishAnswers(cfg, env.now, CheckSequence(cfg, env.now, st, g).0, g.flags);
  }

  /** Two FINs that cross: a peer's that does not acknowledge the socket's own is taken, the socket's
      is sent once more with the acknowledgement, and once it is acknowledged the socket closes. */
  lemma FinsCross(cfg: Config, env: Env, st: St, g: Segment, h: HttpOutcome, server: bool)
    requires g.flags == FIN_ACK && Crossing(st.sk, g) && Granted(st.pool)
    ensures var r := if server then Server(cfg, env.now, st, g) else Client(cfg, env, st, g, h);
            var last := Segment(r.sk.rcvNxt, st.sk.sndNxt, ACK, 0);
            var c := if server then Server(cfg, env.now, r, last) else Client(cfg, env, r, last, h);
            && r.sk.state == LastAck && r.stats.error == st.stats.error
            && r.sk.sndNxt == st.sk.sndNxt && r.sk.rcvNxt == Add(cfg.arith, g.seqno, 1)
            && r.sent == st.sent + [Segment(st.sk.sndUna, r.sk.rcvNxt, FIN_ACK, 0)]
            && ClosedCleanly(r, c) && c.sent == r.sent
  {
    hide Server, Client;
    CrossingTaken(cfg, env, st, g, h);
    var r := if server then Server(cfg, env.now, st, g) else Client(cfg, env, st, g, h);
    LastAckCloses(cfg, env, r, Segment(r.sk.rcvNxt, st.sk.sndNxt, ACK, 0), h);
  }

  lemma CrossingTaken(cfg: Config, env: Env, st: St, g: Segment, h: HttpOutcome)
    requires g.flags == FIN_ACK && Crossing(st.sk, g) && Granted(st.pool)
    ensures forall r :: r in {Server(cfg, env.now, st, g), Client(cfg, env, st, g, h)} ==>
              && r.sk.state == LastAck && r.stats.error == st.stats.error
              && r.sk.sndNxt == st.sk.sndNxt && r.sk.rcvNxt == Add(cfg.arith, g.seqno, 1)
              && r.sent == st.sent + [Segment(st.sk.sndUna, r.sk.rcvNxt, FIN_ACK, 0)]
  {
    hide ServerFinish, ClientFinish, Place;
    var st1 := st.(sk := st.sk.(rcvNxt := Add(cfg.arith, g.seqno, 1), state := State.Closing));
    CrossingFinishes(cfg, env.now, st1);
    CrossingChecks(cfg, env.now, st, g);
    hide CheckSequence, ServeWindowed, ReplyMore, ClientTake;
    assert Server(cfg, env.now, st, g) == ServerFinish(cfg, env.now, st1, FIN_ACK, NONE);
    assert Client(cfg, env, st, g, h) == ClientFinish(cfg, env.now, st1, FIN_ACK, NONE);
  }

  lemma CrossingChecks(cfg: Config, now: nat, st: St, g: Segment)
    requires g.flags == FIN_ACK && Crossing(st.sk, g)
    ensures CheckSequence(cfg, now, st, g)
         == (st.(sk := st.sk.(rcvNxt := Add(cfg.arith, g.seqno, 1), state := State.Closing)), true)
  {
    hide Place;
  }

  lemma CrossingFinishes(cfg: Config, now: nat, st: St)
    requires st.sk.state == State.Closing && Granted(st.pool) && st.sk.sndUna != st.sk.sndNxt
    ensures forall r :: r in {ServerFinish(cfg, now, st, FIN_ACK, NONE), ClientFinish(cfg, now, st, FIN_ACK, NONE)} ==>
              && r.sk.state == LastAck && r.stats.error == st.stats.error
              && r.sk.sndNxt == st.sk.sndNxt && r.sk.rcvNxt == st.sk.rcvNxt
              && r.sent == st.sent + [Segment(st.sk.sndUna, st.sk.rcvNxt, FIN_ACK, 0)]
  {
    hide Place, Accurate;
  }

  /** A reset closes whatever is open, and nothing else. */
  lemma ResetCloses(cfg: Config, env: Env, st: St, g: Segment, h: HttpOutcome)
    requires g.flags.rst
    ensures Server(cfg, env.now, st, g) == Client(cfg, env, st, g, h) == Close(st)
    ensures if st.sk.state == Closed then Close(st) == st
            else ClosedCleanly(st, Close(st)) && Close(st).sent == st.sent
  {
    hide Place;
  }

  // ---------------------------------------------------------------- the two of them

  function FinOf(p: Pair): Segment { Segment(p.c.sk.sndUna, p.c.sk.rcvNxt, FIN_ACK, 0) }

  function AnswerOf(p: Pair): Segment { Segment(p.s.sk.sndNxt - 1, p.c.sk.sndNxt, FIN_ACK, 0) }

  function LastOfClient(p: Pair): Segment { Segment(p.c.sk.sndNxt, p.s.sk.sndNxt, ACK, 0) }

  function LastOfServer(p: Pair): Segment { Segment(p.s.sk.sndNxt, p.c.sk.sndNxt, ACK, 0) }

  predicate NoError(p: Pair, q: Pair) {
    q.c.stats.error == p.c.stats.error && q.s.stats.error == p.s.stats.error
  }

  /** Both have closed, each past the other's FIN if there was one. */
  predicate Ended(q: Pair) {
    && q.c.sk.state == Closed && q.s.sk.state == Closed
    && (q.cFin ==> q.c.sk.rcvNxt == q.s.sk.sndNxt && q.s.sk.rcvNxt == q.c.sk.sndNxt)
  }

  /** The client's FIN reaches the server. */
  lemma ServerTakesFin(cc: Config, sc: Config, p: Pair, env: Env)
    requires Good(cc, sc, p) && p.cFin && p.s.sk.rcvNxt < p.c.sk.sndNxt && p.s.sk.state != Closed
    ensures FinOf(p) in p.c2s
    ensures var q := Step(cc, sc, p, ToServer(FinOf(p), env));
            && Good(cc, sc, q) && q.c == p.c && NoError(p, q) && q.cFin && q.s.sk.rcvNxt == p.c.sk.sndNxt
            && q.s.sk.keepalive == p.s.sk.keepalive
  {
    hide Protocol.Inv, CheckSequence, ServerData, ServerSyn, Good;
    var g := FinOf(p);
    FinAwaits(cc, sc, p);
    ChecksOut(sc, env.now, p.s, g);
    if p.s.sk.state in {FinWait1, FinWait2} {
      FinCloses(sc, env, p.s, g, NoHttp);
      ServerLate(cc, sc, p, g, env.now);
    } else {
      NotClosingYet(cc, sc, p);
      ServerAcceptsFin(cc, sc, p, g, env.now);
      EmptyNoError(sc, env.now, p.s, g);
    }
    var q := Step(cc, sc, p, ToServer(g, env));
    assert View(q.s.sk) == Abs(q).s;
  }

  lemma FinAwaits(cc: Config, sc: Config, p: Pair)
    requires Good(cc, sc, p) && p.cFin && p.s.sk.rcvNxt < p.c.sk.sndNxt
    ensures var g := FinOf(p); g in p.c2s && g.ack == p.s.sk.sndNxt && g.seqno == p.s.sk.rcvNxt && p.joined
    ensures p.s.pool == [] && p.s.sent == [] && p.greeted && p.s.sk.rcvNxt + 1 == p.c.sk.sndNxt
  {
  }

  lemma NotClosingYet(cc: Config, sc: Config, p: Pair)
    requires Good(cc, sc, p) && p.cFin && p.s.sk.rcvNxt < p.c.sk.sndNxt
    requires p.s.sk.state !in {FinWait1, FinWait2, Closed}
    ensures p.s.sk.state in {SynReceived, Established}
  {
  }

  lemma EmptyNoError(cfg: Config, now: nat, st: St, g: Segment)
    requires Expected(st.sk, g) && g.len == 0 && g.flags.fin && st.sk.state in {SynReceived, Established}
    ensures ServerData(cfg, now, st, g).stats.error == st.stats.error
  {
    Accepts(cfg, now, st, g);
    hide CheckSequence, Place, Accurate;
  }

  /** The server's FIN, sent for the client's, reaches the client. */
  lemma ClientTakesAnswer(cc: Config, sc: Config, p: Pair, env: Env)
    requires Good(cc, sc, p) && p.cFin && p.s.sk.keepalive && p.s.sk.rcvNxt == p.c.sk.sndNxt && p.c.sk.state != Closed
    ensures AnswerOf(p) in p.s2c
    ensures var q := Step(cc, sc, p, ToClient(AnswerOf(p), env));
            && Good(cc, sc, q) && q.s == p.s && NoError(p, q) && q.cFin && q.c.sk.state == Closed
            && q.c.sk.rcvNxt == p.s.sk.sndNxt && q.c.sk.sndNxt == p.c.sk.sndNxt
  {
    var g := AnswerOf(p);
    ClientAwaits(cc, sc, p);
    ChecksOut(cc, env.now, p.c, g);
    hide Protocol.Inv, CheckSequence, ClientData, ClientSynAck, Good;
    FinCloses(cc, env, p.c, g, NoHttp);
    ClientLate(cc, sc, p, g, env);
    var q := Step(cc, sc, p, ToClient(g, env));
    assert View(q.c.sk) == Abs(q).c;
  }

  lemma ClientAwaits(cc: Config, sc: Config, p: Pair)
    requires Good(cc, sc, p) && p.cFin && p.s.sk.rcvNxt == p.c.sk.sndNxt && p.c.sk.state != Closed
    ensures p.joined && p.c.pool == [] && p.c.sent == []
    ensures if p.s.sk.keepalive
            then p.c.sk.state in {FinWait1, FinWait2} && AnswerOf(p) in p.s2c && p.c.sk.rcvNxt == p.s.sk.sndNxt - 1
            else p.c.sk.state == LastAck && LastOfServer(p) in p.s2c && p.c.sk.rcvNxt == p.s.sk.sndNxt
  {
  }

  /** The server's last acknowledgement reaches the client. */
  lemma ClientTakesLast(cc: Config, sc: Config, p: Pair, env: Env)
    requires Good(cc, sc, p) && p.cFin && !p.s.sk.keepalive && p.s.sk.rcvNxt == p.c.sk.sndNxt && p.c.sk.state != Closed
    ensures LastOfServer(p) in p.s2c
    ensures var q := Step(cc, sc, p, ToClient(LastOfServer(p), env));
            && Good(cc, sc, q) && q.s == p.s && NoError(p, q) && q.cFin && q.c.sk.state == Closed
            && q.c.sk.rcvNxt == p.s.sk.sndNxt && q.c.sk.sndNxt == p.c.sk.sndNxt
  {
    var g := LastOfServer(p);
    ClientAwaits(cc, sc, p);
    ChecksOut(cc, env.now, p.c, g);
    hide Protocol.Inv, CheckSequence, ClientData, ClientSynAck, Good;
    LastAckCloses(cc, env, p.c, g, NoHttp);
    ClientLate(cc, sc, p, g, env);
    var q := Step(cc, sc, p, ToClient(g, env));
    assert View(q.c.sk) == Abs(q).c;
  }

  /** The client's last acknowledgement reaches the server. */
  lemma ServerTakesLast(cc: Config, sc: Config, p: Pair, env: Env)
    requires Good(cc, sc, p) && p.cFin && p.s.sk.keepalive && p.s.sk.rcvNxt == p.c.sk.sndNxt && p.s.sk.state != Closed
    requires p.c.sk.rcvNxt == p.s.sk.sndNxt
    ensures LastOfClient(p) in p.c2s
    ensures var q := Step(cc, sc, p, ToServer(LastOfClient(p), env));
            && Good(cc, sc, q) && q.c == p.c && NoError(p, q) && q.cFin && q.s.sk.state == Closed
            && q.s.sk.rcvNxt == p.c.sk.sndNxt && q.s.sk.sndNxt == p.s.sk.sndNxt
  {
    var g := LastOfClient(p);
    assert g in p.c2s && p.joined && p.s.sk.state == LastAck;
    ChecksOut(sc, env.now, p.s, g);
    hide Protocol.Inv, CheckSequence, ServerData, ServerSyn, Good;
    LastAckCloses(sc, env, p.s, g, NoHttp);
    ServerLate(cc, sc, p, g, env.now);
    var q := Step(cc, sc, p, ToServer(g, env));
    assert View(q.s.sk) == Abs(q).s;
  }

  /** The response with the server's FIN reaches the client: it answers with its own, or with a reset. */
  lemma ClientTakesFin(cc: Config, sc: Config, p: Pair, env: Env)
    requires Good(cc, sc, p) && !p.cFin && p.s.sk.state == FinWait1 && p.c.sk.state != Closed
    ensures ResponseOf(sc, p) in p.s2c
    ensures var q := Step(cc, sc, p, ToClient(ResponseOf(sc, p), env));
            && Good(cc, sc, q) && q.s == p.s && NoError(p, q)
            && (cc.fastClose ==> q.c.sk.state == Closed && !q.cFin && Reset(q))
            && (!cc.fastClose ==> q.cFin && q.s.sk.rcvNxt < q.c.sk.sndNxt && q.c.sk.state != Closed)
  {
    var g := ResponseOf(sc, p);
    ServerAwaits(cc, sc, p);
    ChecksOut(cc, env.now, p.c, g);
    hide Protocol.Inv, CheckSequence, ClientData, ClientSynAck, Good;
    TakesNoError(cc, env, p.c, g);
    ClientTakes(cc, sc, p, g, env);
    var q := Step(cc, sc, p, ToClient(g, env));
    assert View(q.c.sk) == Abs(q).c && q.c2s == Abs(q).c2s && q.cFin == Abs(q).cFin;
    if cc.fastClose {
      var l := CTake(Abs(p), g);
      assert Segment(l.c.una, l.c.rcv, RST_ACK, 0) in q.c2s;
    }
  }

  lemma ServerAwaits(cc: Config, sc: Config, p: Pair)
    requires Good(cc, sc, p) && !p.cFin && p.s.sk.state == FinWait1 && p.c.sk.state != Closed
    ensures var g := ResponseOf(sc, p);
            && g in p.s2c && g.ack == p.c.sk.sndNxt && g.seqno == p.c.sk.rcvNxt && g.len > 0 && g.flags == PUSH_ACK_FIN
            && p.joined && p.c.sk.state == Established && !p.c.sk.keepalive && !p.s.sk.keepalive
            && p.s.sk.rcvNxt == p.c.sk.sndNxt && !cc.http
  {
  }

  lemma TakesNoError(cfg: Config, env: Env, st: St, g: Segment)
    requires !cfg.http && Expected(st.sk, g) && g.len > 0 && st.sk.state == Established && !st.sk.keepalive
    ensures ClientData(cfg, env, st, g, NoHttp).stats.error == st.stats.error
  {
    Accepts(cfg, env.now, st, g);
    TakenFieldsKeepalive(cfg, env.now, st, g);
    hide CheckSequence, Place, Accurate;
  }

  lemma TakenFieldsKeepalive(cfg: Config, now: nat, st: St, g: Segment)
    ensures CheckSequence(cfg, now, st, g).0.sk.keepalive == st.sk.keepalive
  {
    hide Place, Accurate;
  }

  /** An end that has closed has taken the other's FIN: it has not given up. */
  predicate Clean(q: Pair) {
    && (q.s.sk.state == Closed ==> q.cFin && q.s.sk.rcvNxt == q.c.sk.sndNxt)
    && (q.c.sk.state == Closed ==>
          q.cFin && (q.s.sk.keepalive ==> q.s.sk.rcvNxt == q.c.sk.sndNxt && q.c.sk.rcvNxt == q.s.sk.sndNxt))
  }

  predicate Deliveries(more: seq<Event>) { forall e :: e in more ==> e.ToServer? || e.ToClient? }

  lemma Ordered(cc: Config, sc: Config, p: Pair)
    requires Good(cc, sc, p) && p.cFin
    ensures p.s.sk.rcvNxt <= p.c.sk.sndNxt && p.c.sk.rcvNxt <= p.s.sk.sndNxt
    ensures p.s.sk.rcvNxt == p.c.sk.sndNxt && !p.s.sk.keepalive ==>
              p.s.sk.state == Closed && p.c.sk.rcvNxt == p.s.sk.sndNxt
    ensures p.s.sk.rcvNxt == p.c.sk.sndNxt && p.s.sk.keepalive && p.c.sk.rcvNxt == p.s.sk.sndNxt ==>
              p.c.sk.state == Closed
  {
  }

  /** The server has the client's FIN. */
  lemma EndsBehindFin(cc: Config, sc: Config, q: Pair, env: Env) returns (more: seq<Event>)
    requires Good(cc, sc, q) && q.cFin && q.s.sk.rcvNxt == q.c.sk.sndNxt
    requires q.c.sk.state == Closed && q.s.sk.keepalive ==> q.c.sk.rcvNxt == q.s.sk.sndNxt
    ensures |more| <= (if q.s.sk.keepalive then 2 else 1) && Deliveries(more)
    ensures var r := Run(cc, sc, q, more); r.cFin && Ended(r) && NoError(q, r)
  {
    hide Step, Run, Good;
    Ordered(cc, sc, q);
    if !q.s.sk.keepalive {
      if q.c.sk.state == Closed {
        more := [];
        Nothing(cc, sc, q);
      } else {
        ClientTakesLast(cc, sc, q, env);
        more := [ToClient(LastOfServer(q), env)];
        RunsOne(cc, sc, q, more[0]);
      }
    } else if q.c.sk.state == Closed {
      more := ServerEnds(cc, sc, q, env);
    } else {
      ClientTakesAnswer(cc, sc, q, env);
      var e := ToClient(AnswerOf(q), env);
      var q1 := Step(cc, sc, q, e);
      var last := ServerEnds(cc, sc, q1, env);
      more := [e] + last;
      RunsFirst(cc, sc, q, e, last);
    }
  }

  lemma ServerEnds(cc: Config, sc: Config, q: Pair, env: Env) returns (more: seq<Event>)
    requires Good(cc, sc, q) && q.cFin && q.s.sk.keepalive && q.s.sk.rcvNxt == q.c.sk.sndNxt
    requires q.c.sk.state == Closed && q.c.sk.rcvNxt == q.s.sk.sndNxt
    ensures |more| <= 1 && Deliveries(more)
    ensures var r := Run(cc, sc, q, more); r.cFin && Ended(r) && NoError(q, r)
  {
    hide Step, Run, Good;
    if q.s.sk.state == Closed {
      more := [];
      Nothing(cc, sc, q);
    } else {
      ServerTakesLast(cc, sc, q, env);
      more := [ToServer(LastOfClient(q), env)];
      RunsOne(cc, sc, q, more[0]);
    }
  }

  lemma Nothing(cc: Config, sc: Config, q: Pair)
    ensures Run(cc, sc, q, []) == q
  {
  }

  lemma RunsFirst(cc: Config, sc: Config, q: Pair, e: Event, es: seq<Event>)
    ensures Run(cc, sc, q, [e] + es) == Run(cc, sc, Step(cc, sc, q, e), es)
  {
    hide Step;
    assert ([e] + es)[1..] == es;
  }

  lemma EndsWithFin(cc: Config, sc: Config, q: Pair, env: Env) returns (more: seq<Event>)
    requires Good(cc, sc, q) && q.cFin && Clean(q)
    ensures |more| <= (if q.s.sk.keepalive then 3 else 2) && Deliveries(more)
    ensures var r := Run(cc, sc, q, more); r.cFin && Ended(r) && NoError(q, r)
  {
    hide Step, Run, Good, FinOf;
    Ordered(cc, sc, q);
    if q.s.sk.rcvNxt == q.c.sk.sndNxt {
      more := EndsBehindFin(cc, sc, q, env);
    } else {
      ServerTakesFin(cc, sc, q, env);
      var e := ToServer(FinOf(q), env);
      var q1 := Step(cc, sc, q, e);
      var last := EndsBehindFin(cc, sc, q1, env);
      more := [e] + last;
      RunsFirst(cc, sc, q, e, last);
    }
  }

  /** The client has reset the connection. */
  ghost predicate Reset(p: Pair) { exists g :: g in p.c2s && g.flags.rst }

  /** A FIN of either side has been sent. */
  predicate Finishing(q: Pair) { q.cFin || q.s.sk.state == FinWait1 }

  lemma EndsWithReset(cc: Config, sc: Config, q: Pair, env: Env) returns (more: seq<Event>)
    requires Good(cc, sc, q) && !q.cFin && q.c.sk.state == Closed && q.s.sk.state != Closed
    requires Reset(q)
    ensures |more| == 1 && Deliveries(more)
    ensures var r := Run(cc, sc, q, more); !r.cFin && Ended(r) && NoError(q, r) && Reset(r)
  {
    var g :| g in q.c2s && g.flags.rst;
    more := [ToServer(g, env)];
    RunsOne(cc, sc, q, more[0]);
    ResetCloses(sc, env, q.s, g, NoHttp);
    hide Server, Good;
  }

  /** From every reachable state in which a FIN of either side has been sent and neither side
      has given up, delivering at most three segments that are on the network leaves both
      sockets closed, each past the other's FIN, with no error counted. With fast close the
      client answers the server's FIN with a reset, which closes the server. */
  lemma CanClose(cc: Config, sc: Config, p: Pair, es: seq<Event>, env: Env) returns (more: seq<Event>)
    requires Init(cc, sc, p)
    requires Finishing(Run(cc, sc, p, es)) && Clean(Run(cc, sc, p, es))
    ensures |more| <= 3 && Deliveries(more)
    ensures var q := Run(cc, sc, p, es);
            var r := Run(cc, sc, q, more);
            Ended(r) && NoError(q, r) && (q.cFin || !cc.fastClose ==> r.cFin) && (r.cFin || Reset(r))
  {
    RunKeeps(cc, sc, p, es);
    more := CloseFrom(cc, sc, Run(cc, sc, p, es), env);
  }

  lemma CloseFrom(cc: Config, sc: Config, q: Pair, env: Env) returns (more: seq<Event>)
    requires Good(cc, sc, q) && Finishing(q) && Clean(q)
    ensures |more| <= 3 && Deliveries(more)
    ensures var r := Run(cc, sc, q, more);
            Ended(r) && NoError(q, r) && (q.cFin || !cc.fastClose ==> r.cFin) && (r.cFin || Reset(r))
  {
    hide Reset;
    hide Step, Run, Good;
    if q.cFin {
      more := EndsWithFin(cc, sc, q, env);
    } else {
      ClientTakesFin(cc, sc, q, env);
      Owner(cc, sc, q);
      var e := ToClient(ResponseOf(sc, q), env);
      var q1 := Step(cc, sc, q, e);
      var last: seq<Event>;
      if cc.fastClose { last := EndsWithReset(cc, sc, q1, env); } else { last := EndsWithFin(cc, sc, q1, env); }
      more := [e] + last;
      RunsFirst(cc, sc, q, e, last);
    }
  }

  lemma Owner(cc: Config, sc: Config, q: Pair)
    requires Good(cc, sc, q) && q.s.sk.state == FinWait1
    ensures !q.s.sk.keepalive
  {
  }

  // ---------------------------------------------------------------- who has not given up

  lemma ReplyOnly(cfg: Config, now: nat, st: St, f: Flags)
    ensures var r := Reply(cfg, now, st, f);
            && r.sk.laddr == st.sk.laddr && r.sk.rcvNxt == st.sk.rcvNxt && r.sk.state == st.sk.state
            && r.stats.error == st.stats.error && r.sk.sndUna == st.sk.sndUna
            && (st.sk.state == Closed ==> r.sk.ring == st.sk.ring)
            && (st.sk.sndUna != st.sk.sndNxt || Advance(cfg, f) == 0 ==>
                r.sk.sndNxt == st.sk.sndNxt || cfg.arith == Wrap32)
  {
    hide Place, Accurate, WireFlags;
  }

  /** The segment ends a connection on which the socket's own FIN has been sent. */
  predicate EndsIt(k: Sock, g: Segment) {
    Expected(k, g) && (k.state == LastAck || (k.state in {FinWait1, FinWait2} && g.flags.fin))
  }

  predicate Stamped(k: Sock) { k.laddr != 0 && (k.state == Closed ==> k.ring == NoRing) }

  /** What a step does to a socket: it closes by an error or for the reason `why`, a closed one
      stays as it is, and one that has sent its FIN moves its own numbers no further. */
  predicate Fades(st: St, r: St, why: bool) {
    && Stamped(r.sk) && r.stats.error >= st.stats.error
    && (st.sk.state != Closed && r.sk.state == Closed ==> r.stats.error > st.stats.error || why)
    && (st.sk.state == Closed ==> View(r.sk) == View(st.sk) && r.sent == st.sent)
    && (st.sk.state in {FinWait1, FinWait2, LastAck} ==>
          r.sk.sndNxt == st.sk.sndNxt && r.sk.rcvNxt >= st.sk.rcvNxt)
  }

  lemma RetransmitFades(cfg: Config, now: nat, st: St)
    requires Plain(cfg) && Stamped(st.sk) && st.sk.state != Closed
    ensures Fades(st, DoRetransmit(cfg, now, st), false)
  {
    hide Reply, Place;
    if st.sk.sndNxt != st.sk.sndUna {
      var st1 := st.(sk := st.sk.(retrans := (st.sk.retrans + 1) % 8));
      ReplyOnly(cfg, now, st1, st1.sk.flags);
    }
  }

  lemma CheckFades(cfg: Config, now: nat, st: St, g: Segment)
    requires Plain(cfg) && Stamped(st.sk) && !Crossing(st.sk, g)
    requires !g.flags.syn && !g.flags.rst && g.flags.ack
    ensures var (r, ok) := CheckSequence(cfg, now, st, g);
            && Fades(st, r, false) && (ok ==> Expected(st.sk, g) && st.sk.state != Closed)
            && (ok ==>
                && r.sk.rcvNxt >= st.sk.rcvNxt && r.sk.state == st.sk.state && r.stats == st.stats
                && r.sk.sndUna == r.sk.sndNxt == st.sk.sndNxt)
  {
    hide DoRetransmit, Place;
    if st.sk.state != Closed { RetransmitFades(cfg, now, st); }
  }

  /** tcp_process_fin closes only on the two occasions, and then sends at most an ACK. */
  lemma FinFades(st: St, rx: Flags, tx: Flags)
    requires Stamped(st.sk) && st.sk.state != Closed
    ensures var (r, f) := ProcessFin(st, rx, tx);
            && Stamped(r.sk) && r.stats.error == st.stats.error
            && r.sk.sndNxt == st.sk.sndNxt && r.sk.sndUna == st.sk.sndUna && r.sk.rcvNxt == st.sk.rcvNxt
            && (r.sk.state == Closed ==> st.sk.state == LastAck || (st.sk.state in {FinWait1, FinWait2} && rx.fin))
            && (st.sk.state in {FinWait1, FinWait2, LastAck} ==> f in {tx, tx.Or(ACK)})
  {
    hide Place;
  }

  /** What is left of a turn once a segment has been taken. */
  predicate Finished(st: St, r: St, rx: Flags) {
    && Stamped(r.sk) && r.stats.error == st.stats.error
    && (r.sk.state == Closed ==> st.sk.state == LastAck || (st.sk.state in {FinWait1, FinWait2} && rx.fin))
    && (st.sk.state in {FinWait1, FinWait2, LastAck} ==>
          r.sk.sndNxt == st.sk.sndNxt && r.sk.rcvNxt == st.sk.rcvNxt)
  }

  lemma AckAdvances(cfg: Config)
    ensures Advance(cfg, ACK) == 0 && Advance(cfg, NONE) == 0 && ACK.Or(ACK) == ACK && NONE.Or(ACK) == ACK
  {
  }

  lemma ReplyFinished(cfg: Config, now: nat, st: St, st1: St, f: Flags, rx: Flags)
    requires Plain(cfg) && Finished(st, st1, rx) && st1.sk.sndUna == st1.sk.sndNxt
    requires st.sk.state in {FinWait1, FinWait2, LastAck} ==> f in {NONE, ACK}
    ensures Finished(st, Reply(cfg, now, st1, f), rx)
    ensures st1.sk.state != Closed ==> Finished(st, StartTimeout(st1, now), rx)
  {
    ReplyOnly(cfg, now, st1, f);
    AckAdvances(cfg);
    hide Reply, Place, Advance;
  }

  lemma FinishFades(cfg: Config, now: nat, st: St, rx: Flags, tx: Flags)
    requires Plain(cfg) && Stamped(st.sk) && st.sk.state != Closed && st.sk.sndUna == st.sk.sndNxt
    requires st.sk.state in {FinWait1, FinWait2, LastAck} ==> tx in {NONE, ACK}
    ensures Finished(st, ServerFinish(cfg, now, st, rx, tx), rx) && Finished(st, ClientFinish(cfg, now, st, rx, tx), rx)
  {
    hide ProcessFin, Reply, Place, Flags.Or, Advance, StartTimeout, Finished;
    FinFinished(st, rx, tx);
    AckAdvances(cfg);
    var (st1, f) := if Rank(st.sk.state) > Rank(Established) || rx.fin || tx.fin then ProcessFin(st, rx, tx)
        else (st, tx);
    ReplyFinished(cfg, now, st, st1, f, rx);
  }

  lemma FinFinished(st: St, rx: Flags, tx: Flags)
    requires Stamped(st.sk) && st.sk.state != Closed && st.sk.sndUna == st.sk.sndNxt
    requires st.sk.state in {FinWait1, FinWait2, LastAck} ==> tx in {NONE, ACK}
    ensures var (r, f) := ProcessFin(st, rx, tx);
            && Finished(st, r, rx) && r.sk.sndUna == r.sk.sndNxt
            && (st.sk.state in {FinWait1, FinWait2, LastAck} ==> f in {NONE, ACK})
    ensures Finished(st, st, rx)
  {
    FinFades(st, rx, tx);
    hide ProcessFin;
  }

  lemma ServerFades(cfg: Config, now: nat, st: St, g: Segment)
    requires Plain(cfg) && cfg.server && Stamped(st.sk) && !Crossing(st.sk, g)
        && (st.sk.state == Closed ==> g.flags != SYN)
    requires st.sk.state != TimeWait
    ensures Fades(st, Server(cfg, now, st, g), EndsIt(st.sk, g) || g.flags.rst)
  {
    if g.flags.rst {
      hide Place;
    } else if !g.flags.syn && g.flags.ack {
      ServerDataFades(cfg, now, st, g);
      hide ServerData;
    } else if g.flags == SYN {
      SynFades(cfg, now, st, g);
      hide ServerSyn;
    }
  }

  lemma SynFades(cfg: Config, now: nat, st: St, g: Segment)
    requires Plain(cfg) && Stamped(st.sk) && st.sk.state != Closed && st.sk.state != TimeWait
    ensures Fades(st, ServerSyn(cfg, now, st, g), false)
  {
    hide Reply, Place;
    ReplyOnly(cfg, now, st, SYN_ACK);
  }

  lemma ServerDataFades(cfg: Config, now: nat, st: St, g: Segment)
    requires Plain(cfg) && cfg.server && Stamped(st.sk) && !Crossing(st.sk, g)
    requires !g.flags.syn && !g.flags.rst && g.flags.ack
    ensures Fades(st, ServerData(cfg, now, st, g), EndsIt(st.sk, g))
  {
    hide CheckSequence, ServerData, ServerFinish, Place, Crossing, Answer, Finished;
    ServerDataIs(cfg, now, st, g);
    CheckFades(cfg, now, st, g);
    var (st1, ok) := CheckSequence(cfg, now, st, g);
    if ok {
      var (st2, f) := Answer(st1, g);
      AnswerIs(st1, g);
      FinishFades(cfg, now, st2, g.flags, f);
      FadesThen(st, st1, st2, ServerData(cfg, now, st, g), g);
    }
  }

  lemma AnswerIs(st: St, g: Segment)
    requires st.sk.state != Closed
    ensures var (r, f) := Answer(st, g);
            && r.sk == st.sk.(state := r.sk.state) && r.stats.error == st.stats.error
            && (st.sk.state in {FinWait1, FinWait2, LastAck} ==> r.sk.state == st.sk.state && f == NONE)
            && (r.sk.state in {FinWait1, FinWait2, LastAck} ==> r.sk.state == st.sk.state) && r.sk.state != Closed
  {
  }

  lemma FadesThen(st: St, st1: St, st2: St, r: St, g: Segment)
    requires Fades(st, st1, false) && st.sk.state != Closed && Expected(st.sk, g) && st1.sk.state == st.sk.state
    requires st2.sk == st1.sk.(state := st2.sk.state) && st2.stats.error == st1.stats.error && Finished(st2, r, g.flags)
    requires st.sk.state in {FinWait1, FinWait2, LastAck} ==> st2.sk.state == st.sk.state
    requires st2.sk.state in {FinWait1, FinWait2, LastAck} ==> st2.sk.state == st.sk.state
    ensures Fades(st, r, EndsIt(st.sk, g))
  {
  }

  lemma TakeFades(cfg: Config, env: Env, st: St, g: Segment)
    requires Plain(cfg) && !cfg.server && st.sk.laddr != 0 && st.sk.state == Established && st.sk.sndUna == st.sk.sndNxt
    ensures var (r, tx) := ClientTake(cfg, env, st, g, NoHttp);
            && Stamped(r.sk) && r.stats.error == st.stats.error && r.sk.state in {Established, FinWait1}
            && tx in {ACK, FIN_ACK} && (tx == FIN_ACK ==> !st.sk.keepalive)
            && (r.sk.state == FinWait1 ==> tx == ACK) && (tx == FIN_ACK ==> r.sk.sndUna == r.sk.sndNxt)
  {
    hide Reply, Place, Accurate;
    if st.sk.keepalive && cfg.interval == 0 {
      var st1 := st.(stats := st.stats.(rsp := st.stats.rsp + 1));
      ReplyOnly(cfg, env.now, st1.(sk := st1.sk.(requests := (st.sk.requests + 1) % 0x8000)), PUSH_ACK);
      ReplyOnly(cfg, env.now, st1.(sk := st1.sk.(state := FinWait1)), FIN_ACK);
    }
  }

  /** A response that is taken closes the socket only by a reset. */
  lemma TakenFades(cfg: Config, env: Env, st: St, g: Segment)
    requires Plain(cfg) && !cfg.server && st.sk.laddr != 0 && st.sk.state == Established && st.sk.sndUna == st.sk.sndNxt
    ensures var (st1, tx) := ClientTake(cfg, env, st, g, NoHttp);
            var r := if tx.fin && cfg.fastClose then Close(Reply(cfg, env.now, st1, RST_ACK))
                     else ClientFinish(cfg, env.now, st1, g.flags, tx);
            && Stamped(r.sk) && r.stats.error == st.stats.error
            && (r.sk.state == Closed ==>
                  (cfg.fastClose && !st.sk.keepalive) || (st1.sk.state == FinWait1 && g.flags.fin))
  {
    TakeFades(cfg, env, st, g);
    hide ClientTake, Reply, Place, ClientFinish;
    var (st1, tx) := ClientTake(cfg, env, st, g, NoHttp);
    if tx.fin && cfg.fastClose {
      ReplyOnly(cfg, env.now, st1, RST_ACK);
    } else {
      TurnFades(cfg, env.now, st1, g.flags, tx);
    }
  }

  /** The end of a turn, with something outstanding or not. */
  lemma TurnFades(cfg: Config, now: nat, st: St, rx: Flags, tx: Flags)
    requires Stamped(st.sk) && st.sk.state in {Established, FinWait1}
    ensures var r := ClientFinish(cfg, now, st, rx, tx);
            && Stamped(r.sk) && r.stats.error == st.stats.error
            && (r.sk.state == Closed ==> st.sk.state == FinWait1 && rx.fin)
  {
    FinFades(st, rx, tx);
    hide ProcessFin, Reply, Place, Flags.Or;
    var (st1, f) := if Rank(st.sk.state) > Rank(Established) || rx.fin || tx.fin then ProcessFin(st, rx, tx)
        else (st, tx);
    ReplyOnly(cfg, now, st1, f);
  }

  predicate ResetsIt(cfg: Config, k: Sock, g: Segment) {
    cfg.fastClose && Expected(k, g) && k.state == Established && !k.keepalive && g.len > 0
  }

  lemma ClientDataFades(cfg: Config, env: Env, st: St, g: Segment)
    requires Plain(cfg) && !cfg.server && Stamped(st.sk) && !Crossing(st.sk, g)
    requires !g.flags.syn && !g.flags.rst && g.flags.ack
    requires Expected(st.sk, g) && g.len > 0 && st.sk.keepalive && st.sk.state == Established ==> !g.flags.fin
    ensures Fades(st, ClientData(cfg, env, st, g, NoHttp), EndsIt(st.sk, g) || ResetsIt(cfg, st.sk, g))
  {
    CheckFades(cfg, env.now, st, g);
    hide CheckSequence, ClientTake, ClientFinish, Reply, Place;
    var (st1, ok) := CheckSequence(cfg, env.now, st, g);
    if ok {
      if st1.sk.state == Established && g.len > 0 {
        TakenFades(cfg, env, st1, g);
        TakesOpen(cfg, env, st1, g);
        TakenFieldsKeepalive(cfg, env.now, st, g);
      } else {
        FinishFades(cfg, env.now, st1, g.flags, NONE);
      }
    }
  }

  /** Only a client with keepalive closes from within its handler. */
  lemma TakesOpen(cfg: Config, env: Env, st: St, g: Segment)
    requires !cfg.http && st.sk.state == Established
    ensures ClientTake(cfg, env, st, g, NoHttp).0.sk.state == FinWait1 ==> st.sk.keepalive
  {
    hide Place, Accurate;
  }

  lemma ClientFades(cfg: Config, env: Env, st: St, g: Segment)
    requires Plain(cfg) && !cfg.server && Stamped(st.sk) && !Crossing(st.sk, g)
    requires Expected(st.sk, g) && g.len > 0 && st.sk.keepalive && st.sk.state == Established ==> !g.flags.fin
    ensures Fades(st, Client(cfg, env, st, g, NoHttp), EndsIt(st.sk, g) || ResetsIt(cfg, st.sk, g) || g.flags.rst)
  {
    if g.flags.rst {
      hide Place;
    } else if !g.flags.syn && g.flags.ack {
      ClientDataFades(cfg, env, st, g);
      hide ClientData;
    } else if g.flags == SYN_ACK {
      SynAckFades(cfg, env.now, st, g);
      hide ClientSynAck;
    }
  }

  lemma SynAckFades(cfg: Config, now: nat, st: St, g: Segment)
    requires Plain(cfg) && Stamped(st.sk)
    ensures Fades(st, ClientSynAck(cfg, now, st, g), false)
  {
    hide Reply;
    ReplyOnly(cfg, now, st, ACK);
    var st1 := st.(sk := st.sk.(rcvNxt := Add(cfg.arith, g.seqno, 1), sndUna := g.ack, state := Established));
    ReplyOnly(cfg, now, st1, PUSH_ACK);
  }

  lemma KeepaliveFades(cfg: Config, env: Env, st: St)
    requires Plain(cfg) && !cfg.server && Stamped(st.sk) && st.sk.state != Closed
    ensures Fades(st, KeepaliveExpiry(cfg, env, st), false)
  {
    hide Reply, Place;
    var st1 := Move(st, NoRing);
    ReplyOnly(cfg, env.now, st1.(sk := st1.sk.(requests := (st1.sk.requests + 1) % 0x8000)), PUSH_ACK);
    ReplyOnly(cfg, env.now, st1.(sk := st1.sk.(state := FinWait1)), FIN_ACK);
  }

  lemma ExpiryFades(cfg: Config, now: nat, st: St)
    requires Plain(cfg) && Stamped(st.sk) && st.sk.state != Closed
    ensures Fades(st, RetransmitExpiry(cfg, now, st), false) && Fades(st, TimeoutExpiry(st), false)
  {
    hide DoRetransmit, Place;
    RetransmitFades(cfg, now, Move(st, NoRing));
  }

  // ---------------------------------------------------------------- runs without an error

  predicate ServerDone(p: Pair) { p.cFin && p.s.sk.rcvNxt == p.c.sk.sndNxt }

  predicate ClientDone(p: Pair) {
    p.cFin && (p.s.sk.keepalive ==> p.s.sk.rcvNxt == p.c.sk.sndNxt && p.c.sk.rcvNxt == p.s.sk.sndNxt)
  }

  /** Since `p0`, an end that has closed has counted an error, or has taken the other's FIN,
      or there was a reset. */
  ghost predicate Honest(p0: Pair, p: Pair) {
    && Stamped(p.c.sk) && Stamped(p.s.sk)
    && p.c.stats.error >= p0.c.stats.error && p.s.stats.error >= p0.s.stats.error
    && (p.greeted && p.s.sk.state == Closed ==> p.s.stats.error > p0.s.stats.error || Reset(p) || ServerDone(p))
    && (p.launched && p.c.sk.state == Closed ==> p.c.stats.error > p0.c.stats.error || Reset(p) || ClientDone(p))
  }

  /** The segment that ends it brings the client's FIN, or comes behind it. */
  lemma ServerEndsDone(cc: Config, sc: Config, p: Pair, g: Segment, env: Env)
    requires Good(cc, sc, p) && g in p.c2s && EndsIt(p.s.sk, g)
    ensures ServerDone(Step(cc, sc, p, ToServer(g, env)))
  {
    assert p.joined;
    StepKeeps(cc, sc, p, ToServer(g, env));
    ChecksOut(sc, env.now, p.s, g);
    ServerLate(cc, sc, p, g, env.now);
    BehindFin(cc, sc, p, g);
    hide Good, ServerData, ServerSyn, CheckSequence, Protocol.Inv;
    var q := Step(cc, sc, p, ToServer(g, env));
    assert View(q.s.sk) == Abs(q).s && q.c == p.c && q.cFin == p.cFin;
    Ordered(cc, sc, q);
  }

  lemma BehindFin(cc: Config, sc: Config, p: Pair, g: Segment)
    requires Good(cc, sc, p) && g in p.c2s && EndsIt(p.s.sk, g)
    ensures p.cFin && p.s.sk.rcvNxt + g.Span() >= p.c.sk.sndNxt
  {
  }

  lemma ClientEndsDone(cc: Config, sc: Config, p: Pair, g: Segment, env: Env)
    requires Good(cc, sc, p) && g in p.s2c && EndsIt(p.c.sk, g)
    ensures ClientDone(Step(cc, sc, p, ToClient(g, env)))
  {
    InFront(cc, sc, p, g);
    StepKeeps(cc, sc, p, ToClient(g, env));
    ChecksOut(cc, env.now, p.c, g);
    ClientLate(cc, sc, p, g, env);
    hide Good, ClientData, ClientSynAck, CheckSequence, Protocol.Inv;
    var q := Step(cc, sc, p, ToClient(g, env));
    assert View(q.c.sk) == Abs(q).c && q.s == p.s;
    Ordered(cc, sc, q);
  }

  lemma InFront(cc: Config, sc: Config, p: Pair, g: Segment)
    requires Good(cc, sc, p) && g in p.s2c && EndsIt(p.c.sk, g)
    ensures p.joined && p.cFin && p.s.sk.rcvNxt == p.c.sk.sndNxt
    ensures p.s.sk.keepalive ==> p.c.sk.rcvNxt + g.Span() >= p.s.sk.sndNxt
  {
  }

  /** A reset is on the wire. */
  lemma ResetIsSent(cc: Config, sc: Config, p: Pair, g: Segment, env: Env)
    requires Good(cc, sc, p) && g in p.s2c && ResetsIt(cc, p.c.sk, g)
    ensures Reset(Step(cc, sc, p, ToClient(g, env)))
  {
    assert p.joined && !p.cFin;
    ChecksOut(cc, env.now, p.c, g);
    ClientTakes(cc, sc, p, g, env);
    hide Good, ClientData, ClientSynAck, CheckSequence, Protocol.Inv;
    var q, l := Step(cc, sc, p, ToClient(g, env)), CTake(Abs(p), g);
    assert q.c2s == Abs(q).c2s && Segment(l.c.una, l.c.rcv, RST_ACK, 0) in q.c2s;
  }

  /** A server's turn: it closes for `why`, which means that it is done, or was reset. */
  lemma ServerTurnHonest(cc: Config, sc: Config, p0: Pair, p: Pair, q: Pair, r: St, n: int, why: bool)
    requires Good(cc, sc, p) && Good(cc, sc, q) && Honest(p0, p) && q == ServerTurn(p, r, n)
    requires p.greeted || r.sk.state != Closed || !q.greeted
    requires r.sk.keepalive == p.s.sk.keepalive
    requires if p.greeted then Fades(p.s, r, why) else Stamped(r.sk) && r.stats.error >= p.s.stats.error
    requires why && q.s.sk.state == Closed ==> ServerDone(q) || Reset(q)
    ensures Honest(p0, q)
  {
    if p.cFin { Ordered(cc, sc, p); Ordered(cc, sc, q); Late(cc, sc, p); }
    hide Good;
  }

  /** Behind a FIN the other side moves no further. */
  lemma Late(cc: Config, sc: Config, p: Pair)
    requires Good(cc, sc, p) && p.cFin
    ensures p.greeted && p.c.sk.state in {FinWait1, FinWait2, LastAck, Closed}
    ensures p.s.sk.rcvNxt == p.c.sk.sndNxt ==> p.s.sk.state in {FinWait1, FinWait2, LastAck, Closed}
  {
  }

  lemma ClientTurnHonest(cc: Config, sc: Config, p0: Pair, p: Pair, q: Pair, r: St, n: int, why: bool)
    requires Good(cc, sc, p) && Good(cc, sc, q) && Honest(p0, p) && q == ClientTurn(p, r, n) && p.launched
    requires Fades(p.c, r, why)
    requires why && q.c.sk.state == Closed ==> ClientDone(q) || Reset(q)
    ensures Honest(p0, q)
  {
    if Reset(p) {
      var g :| g in p.c2s && g.flags.rst;
      assert g in q.c2s;
    }
    if p.cFin { Late(cc, sc, p); }
    hide Good;
  }

  lemma ReplyKeepsAlive(cfg: Config, now: nat, st: St, f: Flags)
    ensures Reply(cfg, now, st, f).sk.keepalive == st.sk.keepalive
  {
    hide Place, Accurate, WireFlags, Advance;
  }

  lemma RetransmitKeepsAlive(cfg: Config, now: nat, st: St)
    requires Plain(cfg)
    ensures DoRetransmit(cfg, now, st).sk.keepalive == st.sk.keepalive
  {
    hide Reply, Place;
    var st1 := st.(sk := st.sk.(retrans := (st.sk.retrans + 1) % 8));
    ReplyKeepsAlive(cfg, now, st1, st1.sk.flags);
  }

  /** A server never changes its mind about keepalive. */
  lemma ServerKeepsAlive(cfg: Config, now: nat, st: St, g: Segment)
    requires Plain(cfg) && cfg.server
    ensures Server(cfg, now, st, g).sk.keepalive == st.sk.keepalive
    ensures RetransmitExpiry(cfg, now, st).sk.keepalive == st.sk.keepalive
    ensures TimeoutExpiry(st).sk.keepalive == st.sk.keepalive
  {
    RetransmitKeepsAlive(cfg, now, st);
    RetransmitKeepsAlive(cfg, now, Move(st, NoRing));
    ServerDataKeepsAlive(cfg, now, st, g);
    SynKeepsAlive(cfg, now, st, g);
    hide ServerData, ServerSyn, DoRetransmit, Place;
  }

  lemma SynKeepsAlive(cfg: Config, now: nat, st: St, g: Segment)
    ensures ServerSyn(cfg, now, st, g).sk.keepalive == st.sk.keepalive
  {
    hide Reply, Place;
    var st1 := if st.sk.state == TimeWait then st.(sk := st.sk.(state := Closed)) else st;
    ReplyKeepsAlive(cfg, now, ServerOpen(cfg, st1, g), SYN_ACK);
    ReplyKeepsAlive(cfg, now, st1, SYN_ACK);
  }

  lemma ServerDataKeepsAlive(cfg: Config, now: nat, st: St, g: Segment)
    requires Plain(cfg)
    ensures ServerData(cfg, now, st, g).sk.keepalive == st.sk.keepalive
  {
    ServerDataIs(cfg, now, st, g);
    TakenFieldsKeepalive(cfg, now, st, g);
    hide CheckSequence, ServerData, ServerFinish;
    var (st1, ok) := CheckSequence(cfg, now, st, g);
    var (st2, f) := Answer(st1, g);
    FinishKeepsAlive(cfg, now, st2, g.flags, f);
  }

  lemma FinishKeepsAlive(cfg: Config, now: nat, st: St, rx: Flags, tx: Flags)
    ensures ServerFinish(cfg, now, st, rx, tx).sk.keepalive == st.sk.keepalive
  {
    hide Reply, Place, Flags.Or;
    var (st1, f) := if Rank(st.sk.state) > Rank(Established) || rx.fin || tx.fin then ProcessFin(st, rx, tx)
        else (st, tx);
    ReplyKeepsAlive(cfg, now, st1, f);
  }

  lemma NotGreeted(cc: Config, sc: Config, p: Pair, g: Segment, now: nat)
    requires Good(cc, sc, p) && g in p.c2s && !p.greeted && Stamped(p.s.sk)
    ensures var r := Server(sc, now, p.s, g);
            r.sk.state == SynReceived && Stamped(r.sk) && r.stats.error == p.s.stats.error
  {
    hide Place, Accurate;
  }

  lemma NotEnabled(cc: Config, sc: Config, p: Pair, g: Segment)
    requires Good(cc, sc, p)
    ensures p.c.sk.state !in {TimeWait} && p.s.sk.state !in {TimeWait}
    ensures g in p.s2c ==> !Crossing(p.c.sk, g) && !g.flags.rst && p.launched
    ensures g in p.c2s ==> !Crossing(p.s.sk, g)
    ensures g in p.s2c && Expected(p.c.sk, g) && g.len > 0 && p.c.sk.keepalive && p.c.sk.state == Established ==>
              !g.flags.fin
  {
    if p.joined && g.flags.fin && g.len == 0 { NoSimultaneousClose(SizesOf(cc, sc), Abs(p), g); }
    if g in p.s2c && Expected(p.c.sk, g) && p.c.sk.state == Established { OnlyResponse(SizesOf(cc, sc), Abs(p), g); }
  }

  lemma ToServerHonest(cc: Config, sc: Config, p0: Pair, p: Pair, g: Segment, env: Env)
    requires Good(cc, sc, p) && Honest(p0, p)
    ensures Honest(p0, Step(cc, sc, p, ToServer(g, env)))
  {
    var e := ToServer(g, env);
    var q := Step(cc, sc, p, e);
    if q != p {
      StepKeeps(cc, sc, p, e);
      NotEnabled(cc, sc, p, g);
      ServerKeepsAlive(sc, env.now, p.s, g);
      var r := Server(sc, env.now, p.s, g);
      if p.greeted {
        ServerFades(sc, env.now, p.s, g);
        if EndsIt(p.s.sk, g) { ServerEndsDone(cc, sc, p, g, env); }
        hide Server, Good;
        assert g.flags.rst ==> g in q.c2s;
        ServerTurnHonest(cc, sc, p0, p, q, r, g.seqno, EndsIt(p.s.sk, g) || g.flags.rst);
      } else {
        NotGreeted(cc, sc, p, g, env.now);
        hide Server, Good;
        ServerTurnHonest(cc, sc, p0, p, q, r, g.seqno, false);
      }
    }
  }

  lemma ToClientHonest(cc: Config, sc: Config, p0: Pair, p: Pair, g: Segment, env: Env)
    requires Good(cc, sc, p) && Honest(p0, p)
    ensures Honest(p0, Step(cc, sc, p, ToClient(g, env)))
  {
    var e := ToClient(g, env);
    var q := Step(cc, sc, p, e);
    if g in p.s2c {
      StepKeeps(cc, sc, p, e);
      NotEnabled(cc, sc, p, g);
      ClientFades(cc, env, p.c, g);
      if EndsIt(p.c.sk, g) { ClientEndsDone(cc, sc, p, g, env); }
      if ResetsIt(cc, p.c.sk, g) { ResetIsSent(cc, sc, p, g, env); }
      hide Client, Good, Reset;
      ClientTurnHonest(cc, sc, p0, p, q, Client(cc, env, p.c, g, NoHttp), g.seqno,
                       EndsIt(p.c.sk, g) || ResetsIt(cc, p.c.sk, g) || g.flags.rst);
    }
  }

  lemma LaunchHonest(cc: Config, sc: Config, p0: Pair, p: Pair, env: Env)
    requires Good(cc, sc, p) && Honest(p0, p) && !p.launched
    ensures Honest(p0, Step(cc, sc, p, LaunchClient(env)))
  {
    hide Place, Accurate, Protocol.Inv;
    var q := Step(cc, sc, p, LaunchClient(env));
    assert p.c.sk.state == Closed && !p.greeted by { NotYet(cc, sc, p); }
  }

  lemma NotYet(cc: Config, sc: Config, p: Pair)
    requires Good(cc, sc, p) && !p.launched
    ensures p.c.sk.state == Closed && !p.greeted
  {
  }

  lemma StepHonest(cc: Config, sc: Config, p0: Pair, p: Pair, e: Event)
    requires Good(cc, sc, p) && Honest(p0, p)
    ensures Honest(p0, Step(cc, sc, p, e))
  {
    StepKeeps(cc, sc, p, e);
    NotEnabled(cc, sc, p, RequestOf(cc, p));
    match e {
      case LaunchClient(env) => if !p.launched { LaunchHonest(cc, sc, p0, p, env); }
      case ToClient(g, env) => ToClientHonest(cc, sc, p0, p, g, env);
      case ToServer(g, env) => ToServerHonest(cc, sc, p0, p, g, env);
      case _ => TimerHonest(cc, sc, p0, p, e);
    }
  }

  lemma TimerHonest(cc: Config, sc: Config, p0: Pair, p: Pair, e: Event)
    requires Good(cc, sc, p) && Honest(p0, p)
    requires e.ClientRetransmit? || e.ServerRetransmit? || e.ClientKeepalive? || e.ServerTimeout?
    ensures Honest(p0, Step(cc, sc, p, e))
  {
    hide Good, Honest, RetransmitExpiry, KeepaliveExpiry, TimeoutExpiry;
    match e {
      case ClientRetransmit(env) =>
        if p.c.sk.ring == Retransmit {
          ClientExpiryHonest(cc, sc, p0, p, e, RetransmitExpiry(cc, env.now, p.c));
        }
      case ClientKeepalive(env) =>
        if p.c.sk.ring == Keepalive { ClientExpiryHonest(cc, sc, p0, p, e, KeepaliveExpiry(cc, env, p.c)); }
      case ServerRetransmit(env) =>
        if p.s.sk.ring == Retransmit {
          ServerExpiryHonest(cc, sc, p0, p, e, RetransmitExpiry(sc, env.now, p.s));
        }
      case ServerTimeout =>
        if p.s.sk.ring == Timeout { ServerExpiryHonest(cc, sc, p0, p, e, TimeoutExpiry(p.s)); }
    }
  }

  lemma ClientExpiryHonest(cc: Config, sc: Config, p0: Pair, p: Pair, e: Event, r: St)
    requires Good(cc, sc, p) && Honest(p0, p) && p.c.sk.ring != NoRing
    requires || (e.ClientRetransmit? && r == RetransmitExpiry(cc, e.env.now, p.c))
             || (e.ClientKeepalive? && r == KeepaliveExpiry(cc, e.env, p.c))
    requires Step(cc, sc, p, e) == ClientTurn(p, r, 0)
    ensures Honest(p0, Step(cc, sc, p, e))
  {
    StepKeeps(cc, sc, p, e);
    OnRings(cc, sc, p);
    StillOpen(p0, p);
    hide Good, Honest, RetransmitExpiry, KeepaliveExpiry, Step;
    if e.ClientRetransmit? { ExpiryFades(cc, e.env.now, p.c); } else { KeepaliveFades(cc, e.env, p.c); }
    ClientTurnHonest(cc, sc, p0, p, Step(cc, sc, p, e), r, 0, false);
  }

  lemma ServerExpiryHonest(cc: Config, sc: Config, p0: Pair, p: Pair, e: Event, r: St)
    requires Good(cc, sc, p) && Honest(p0, p) && p.s.sk.ring != NoRing
    requires || (e.ServerRetransmit? && r == RetransmitExpiry(sc, e.env.now, p.s))
             || (e.ServerTimeout? && r == TimeoutExpiry(p.s))
    requires Step(cc, sc, p, e) == ServerTurn(p, r, 0)
    ensures Honest(p0, Step(cc, sc, p, e))
  {
    StepKeeps(cc, sc, p, e);
    OnRings(cc, sc, p);
    StillOpen(p0, p);
    hide Good, Honest, RetransmitExpiry, TimeoutExpiry, Step;
    var now: nat := if e.ServerRetransmit? then e.env.now else 0;
    ExpiryFades(sc, now, p.s);
    ServerKeepsAlive(sc, now, p.s, RequestOf(cc, p));
    ServerTurnHonest(cc, sc, p0, p, Step(cc, sc, p, e), r, 0, false);
  }

  lemma StillOpen(p0: Pair, p: Pair)
    requires Honest(p0, p)
    ensures Stamped(p.c.sk) && Stamped(p.s.sk)
  {
  }

  lemma OnRings(cc: Config, sc: Config, p: Pair)
    requires Good(cc, sc, p)
    ensures Plain(cc) && Plain(sc) && !cc.server && sc.server
    ensures p.c.sk.ring != NoRing ==> p.launched
    ensures p.s.sk.ring != NoRing ==> p.greeted
  {
  }

  lemma {:induction false} RunHonest(cc: Config, sc: Config, p0: Pair, p: Pair, es: seq<Event>)
    requires Good(cc, sc, p) && Honest(p0, p)
    ensures Honest(p0, Run(cc, sc, p, es))
    decreases |es|
  {
    if es != [] {
      StepKeeps(cc, sc, p, es[0]);
      StepHonest(cc, sc, p0, p, es[0]);
      hide Step, Good, Honest;
      RunHonest(cc, sc, p0, Step(cc, sc, p, es[0]), es[1..]);
    }
  }

  /** So in every run in which no error is counted, once a FIN of either side has been sent,
      delivering at most three segments that are on the network closes both sockets, with no
      error counted, each past the other's FIN unless the client has reset the connection. */
  lemma ClosesWithoutError(cc: Config, sc: Config, p: Pair, es: seq<Event>, env: Env) returns (more: seq<Event>)
    requires Init(cc, sc, p) && p.c.sk.laddr != 0 && p.s.sk.laddr != 0
    requires Finishing(Run(cc, sc, p, es)) && NoError(p, Run(cc, sc, p, es))
    ensures |more| <= 3 && Deliveries(more)
    ensures var r := Run(cc, sc, Run(cc, sc, p, es), more);
            Ended(r) && NoError(p, r) && (r.cFin || Reset(r))
  {
    RunKeeps(cc, sc, p, es);
    AtFirst(cc, sc, p);
    hide Run, Good, Init, Honest, Reset, Ended, Finishing, Clean;
    var q := Run(cc, sc, p, es);
    RunHonest(cc, sc, p, p, es);
    HonestIsClean(cc, sc, p, q);
    if Clean(q) { more := CloseFrom(cc, sc, q, env); } else { more := EndsWithReset(cc, sc, q, env); }
  }

  lemma HonestIsClean(cc: Config, sc: Config, p: Pair, q: Pair)
    requires Good(cc, sc, q) && Honest(p, q) && NoError(p, q) && Finishing(q)
    ensures Clean(q) || (Reset(q) && !q.cFin && q.c.sk.state == Closed && q.s.sk.state != Closed)
  {
  }

  lemma AtFirst(cc: Config, sc: Config, p: Pair)
    requires Init(cc, sc, p) && p.c.sk.laddr != 0 && p.s.sk.laddr != 0
    ensures Good(cc, sc, p) && Honest(p, p)
  {
  }
}
