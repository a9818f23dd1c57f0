/** Windowed responses, one after another on a connection, on their way to a client that
    takes only the segment it expects, over a network that loses, repeats and reorders:
    every packet is taken once and in order, the server finishes only when all have been,
    and after any loss the responses under way can still be completed. */
module Delivery {
  import opened Rings
  import opened Tcp
  import opened Network
  import opened Window

  /** The server, what is on the network in both directions, and the client: the byte it
      expects and the packets it took, its last request and the byte behind it, and the end
      of the responses it has asked for. `top` is the end of those the server was asked for,
      and `served` their number. */
  datatype Flow = Flow(s: St, s2c: set<Segment>, c2s: set<Segment>, rcv: int, got: seq<int>,
                       req: Segment, snd: int, end: int, top: int, served: nat)

  datatype Event =
    | ToServer(now: nat, g: Segment)
    | ToClient(g: Segment)
    | Ask(len: nat)
    | AskAgain
    | Acknowledge
    | Expires(now: nat)
    | TimesOut

  // ---------------------------------------------------------------- runs

  /** The server goes on while the connection is established. */
  function Served(cfg: Config, f: Flow, r: St): Flow {
    if f.s.sk.state != Established then f
    else
      var taken := r.stats.req > f.s.stats.req;
      f.(s := r.(sent := []), s2c := f.s2c + Carried(r.sent),
         top := if taken then f.top + cfg.payload else f.top, served := if taken then f.served + 1 else f.served)
  }

  /** The client has nothing to wait for: it asks for the next response. */
  function Asks(cfg: Config, f: Flow, len: nat): Flow {
    var g := Segment(f.snd, f.rcv, PUSH_ACK, len);
    f.(req := g, snd := f.snd + len, end := f.end + cfg.payload, c2s := f.c2s + {g})
  }

  /** Its acknowledgement starts at the request until a packet of the response has come. */
  function AckOf(cfg: Config, f: Flow): Segment {
    Segment(if f.rcv > f.end - cfg.payload then f.snd else f.req.seqno, f.rcv, ACK, 0)
  }

  function Step(cfg: Config, f: Flow, e: Event): Flow {
    match e
    case ToServer(now, g) => if g !in f.c2s then f else Served(cfg, f, Server(cfg, now, f.s, g))
    case ToClient(g) =>
      if g !in f.s2c || g.len == 0 || g.seqno != f.rcv then f
      else f.(rcv := f.rcv + g.len, got := f.got + [g.seqno])
    case Ask(len) => if len == 0 || f.rcv != f.end then f else Asks(cfg, f, len)
    case AskAgain => if f.rcv != f.end - cfg.payload then f else f.(c2s := f.c2s + {f.req})
    case Acknowledge => f.(c2s := f.c2s + {AckOf(cfg, f)})
    case Expires(now) => if f.s.sk.ring != Retransmit then f else Served(cfg, f, RetransmitExpiry(cfg, now, f.s))
    case TimesOut => if f.s.sk.ring != Timeout then f else Served(cfg, f, TimeoutExpiry(f.s))
  }

  function Run(cfg: Config, f: Flow, es: seq<Event>): Flow
    decreases |es|
  {
    if es == [] then f else Run(cfg, Step(cfg, f, es[0]), es[1..])
  }

  // ---------------------------------------------------------------- invariant

  predicate Plain(cfg: Config) {
    cfg.arith == Unbounded && Windowed(cfg) && cfg.payload > 0 && Multiple(cfg.payload, cfg.dataLen)
  }

  /** Data on the wire: whole packets, none beyond `top`. */
  predicate Packet(cfg: Config, start: int, top: int, g: Segment) {
    g.len > 0 ==>
      && g.len == cfg.dataLen && g.flags in {ACK, PUSH_ACK}
      && Multiple(g.seqno - start, cfg.dataLen) && g.seqno + g.len <= top
  }

  function Least(x: int, y: int): int { if x < y then x else y }

  predicate Packets(cfg: Config, start: int, top: int, ack: int, sent: seq<Segment>) {
    forall g :: g in sent ==> Packet(cfg, start, top, g) && (g.len > 0 ==> g.ack == ack)
  }

  /** What the client has sent: older requests and acknowledgements, of at most the response
      before the last one served; acknowledgements of what it took; and a request under way. */
  predicate Known(cfg: Config, start: int, f: Flow, g: Segment) {
    && g.flags.ack && !g.flags.syn && !g.flags.rst && !g.flags.fin
    && g.seqno <= f.s.sk.rcvNxt && g.ack <= f.rcv && Multiple(g.ack - start, cfg.dataLen)
    && (g.seqno < f.s.sk.rcvNxt ==> g.ack <= f.top - cfg.payload)
    && (g.seqno == f.s.sk.rcvNxt && g.len > 0 ==> g == f.req && f.end > f.top)
  }

  /** The numbers of a server in the middle of a response or behind it. */
  predicate Sending(cfg: Config, start: int, top: int, k: Sock) {
    && top - cfg.payload <= k.sndUna <= k.sndNxt <= k.sndMax == top && Multiple(top - start, cfg.dataLen)
    && Multiple(k.sndUna - start, cfg.dataLen) && Multiple(k.sndNxt - start, cfg.dataLen)
    && 1 <= k.sndWindow <= SEND_WINDOW_MAX
  }

  /** Until all is acknowledged the socket is on the retransmit ring, and something is in flight. */
  predicate Going(k: Sock) { k.sndUna < k.sndMax ==> k.ring == Retransmit && k.flags.push }

  predicate Flying(k: Sock) { (k.sndUna == k.sndNxt ==> k.sndUna == k.sndMax) && Going(k) }

  /** The socket of the server. */
  predicate Serving(cfg: Config, start: int, top: int, k: Sock) {
    && (k.state == Established ==> Sending(cfg, start, top, k) && Flying(k))
    && (k.state == FinWait1 ==> k.sndUna == top && k.sndNxt == top + 1 && !k.keepalive)
    && k.state in {Established, FinWait1, Closed}
  }

  /** With everything acknowledged a server that stays open has keepalive and waits for the next request. */
  predicate Rested(k: Sock, top: int) {
    k.state == Established && k.sndUna == top ==> k.keepalive && k.ring == Timeout
  }

  /** The FIN behind the last response. */
  function LastFin(k: Sock, top: int): Segment { Segment(top, k.rcvNxt, FIN_ACK, 0) }

  /** The client waits for nothing, for packets, or for its request to be taken. */
  predicate Asking(cfg: Config, f: Flow) {
    if f.end > f.top then
      && f.end == f.top + cfg.payload && f.rcv == f.top
      && f.req.len > 0 && f.req.flags == PUSH_ACK && f.req.ack == f.top && f.req.seqno == f.s.sk.rcvNxt
      && f.snd == f.req.seqno + f.req.len
    else
      && f.end == f.top && f.snd == f.s.sk.rcvNxt
      && (f.rcv < f.end ==>
            f.req.flags == PUSH_ACK && f.req.seqno < f.snd && f.req.ack == f.end - cfg.payload <= f.rcv)
  }

  ghost predicate Inv(cfg: Config, start: int, f: Flow) {
    && Plain(cfg) && f.s.pool == [] && f.s.sent == [] && f.top == start + f.served * cfg.payload
    && Serving(cfg, start, f.top, f.s.sk) && Asking(cfg, f)
    && f.s.sk.sndUna <= f.rcv <= f.s.sk.sndNxt
    && f.rcv == start + |f.got| * cfg.dataLen <= f.top
    && (forall i :: 0 <= i < |f.got| ==> f.got[i] == start + i * cfg.dataLen)
    && (forall g :: g in f.s2c ==> Packet(cfg, start, Least(f.s.sk.sndNxt, f.top), g))
    && (forall g :: g in f.s2c && g.len > 0 && g.seqno >= f.rcv ==> g.ack == f.s.sk.rcvNxt)
    && (forall g :: g in f.c2s ==> Known(cfg, start, f, g))
    && (f.served > 0 ==> Rested(f.s.sk, f.top))
    && (f.s.sk.state == FinWait1 ==> LastFin(f.s.sk, f.top) in f.s2c)
  }

  // ---------------------------------------------------------------- the server's handlers

  lemma NextPacket(cfg: Config, now: nat, st: St, f: Flags)
    requires Plain(cfg) && st.pool == [] && st.sk.sndUna == st.sk.sndNxt && f in {PUSH_ACK, PUSH_ACK_URG}
    ensures var r := Reply(cfg, now, st, f);
            && r.pool == [] && r.sk == st.sk.(sndNxt := st.sk.sndNxt + cfg.dataLen, flags := f)
            && r.stats.req == st.stats.req
            && r.sent == st.sent + [Segment(st.sk.sndNxt, st.sk.rcvNxt, if f.urg then ACK else PUSH_ACK, cfg.dataLen)]
  {
    hide Place;
  }

  lemma StepMultiple(x: int, y: int, m: nat)
    requires Multiple(x, m) && Multiple(y, m) && x < y
    ensures x + m <= y && Multiple(x + m, m)
  {
    MultipleSub(y, x, m);
    MultipleStep(y - x, m);
    MultipleLess(x + m, m);
  }

  /** A burst puts the next whole packets on the wire, none beyond snd_max. */
  lemma {:induction false} BurstSends(cfg: Config, now: nat, st: St, start: int, limit: int, k: nat)
    requires Plain(cfg) && st.pool == [] && st.sk.sndNxt <= st.sk.sndMax && Multiple(st.sk.sndMax - start, cfg.dataLen)
    requires Multiple(st.sk.sndNxt - start, cfg.dataLen) && Packets(cfg, start, st.sk.sndNxt, st.sk.rcvNxt, st.sent)
    ensures var r := Burst(cfg, now, st, limit, st.sk.sndMax, k);
            && r.pool == [] && st.sk.sndNxt <= r.sk.sndNxt <= st.sk.sndMax && Multiple(r.sk.sndNxt - start, cfg.dataLen)
            && Packets(cfg, start, r.sk.sndNxt, r.sk.rcvNxt, r.sent) && r.stats.req == st.stats.req
            && r.sk == st.sk.(sndNxt := r.sk.sndNxt, sndUna := r.sk.sndUna, flags := r.sk.flags)
            && (st.sk.flags.push ==> r.sk.flags.push)
            && (k > 0 && st.sk.sndNxt < limit && st.sk.sndNxt < st.sk.sndMax ==>
                r.sk.sndNxt > st.sk.sndNxt && r.sk.flags.push)
    decreases k
  {
    hide Reply, Multiple, Packet;
    if k > 0 && Diff(cfg.arith, st.sk.sndNxt, limit) < 0 && Diff(cfg.arith, st.sk.sndNxt, st.sk.sndMax) < 0 {
      var st1 := st.(sk := st.sk.(sndUna := st.sk.sndNxt));
      NextPacket(cfg, now, st1, PUSH_ACK_URG);
      var r := Reply(cfg, now, st1, PUSH_ACK_URG);
      StepMultiple(st.sk.sndNxt - start, st.sk.sndMax - start, cfg.dataLen);
      OnePacket(cfg, start, st.sk.sndNxt, r.sk.sndNxt, st.sent, r.sent[|st.sent|]);
      BurstSends(cfg, now, r, start, limit, k - 1);
    }
  }

  lemma OnePacket(cfg: Config, start: int, at: int, top: int, sent: seq<Segment>, g: Segment)
    requires Packets(cfg, start, at, g.ack, sent) || Packets(cfg, start, top, g.ack, sent)
    requires g.seqno == at && g.len == cfg.dataLen && g.flags in {ACK, PUSH_ACK} && Multiple(at - start, cfg.dataLen)
        && at + cfg.dataLen <= top
    ensures Packets(cfg, start, top, g.ack, sent + [g])
  {
    hide Multiple;
  }

  /** What every handler keeps of a server that is asked for nothing new. */
  ghost predicate Goes(cfg: Config, start: int, top: int, st: St, r: St) {
    && r.pool == [] && r.sk.rcvNxt == st.sk.rcvNxt && r.stats.req == st.stats.req && Serving(cfg, start, top, r.sk)
    && st.sk.sndUna <= r.sk.sndUna && st.sk.sndNxt <= r.sk.sndNxt
    && Packets(cfg, start, Least(r.sk.sndNxt, top), r.sk.rcvNxt, r.sent) && r.sk.keepalive == st.sk.keepalive
    && (r.sk.state == FinWait1 ==> LastFin(r.sk, top) in r.sent)
  }

  lemma MoreGoes(cfg: Config, now: nat, st: St, start: int, top: int)
    requires Plain(cfg) && st.pool == [] && st.sent == [] && st.sk.state == Established
    requires Sending(cfg, start, top, st.sk) && Going(st.sk)
    ensures var r := ReplyMore(cfg, now, st);
            && Goes(cfg, start, top, st, r) && r.sk.sndUna == st.sk.sndUna
            && r.sk.laddr == st.sk.laddr && r.sk.retrans == st.sk.retrans
            && (st.sk.sndUna < top || st.sk.keepalive ==> r.sk.state == Established) && Rested(r.sk, top)
            && (st.sk.sndUna == top && !st.sk.keepalive ==> r.sk.state == FinWait1)
  {
    hide Reply, Burst, Multiple, Place;
    var una := st.sk.sndUna;
    BurstSends(cfg, now, st, start, Add(cfg.arith, una, cfg.sendWindow), st.sk.sndWindow);
    var b := Burst(cfg, now, st, Add(cfg.arith, una, cfg.sendWindow), st.sk.sndMax, st.sk.sndWindow);
    var st1 := b.(sk := b.sk.(sndUna := una));
    TimeoutLeaves(st1, now);
    if una == st.sk.sndMax { FinSent(cfg, now, st1.(sk := st1.sk.(state := FinWait1)), start); }
  }

  lemma FinSent(cfg: Config, now: nat, st: St, start: int)
    requires Plain(cfg) && st.pool == [] && Packets(cfg, start, st.sk.sndNxt, st.sk.rcvNxt, st.sent)
    requires st.sk.sndUna == st.sk.sndNxt
    ensures var r := Reply(cfg, now, st, FIN_ACK);
            && r.pool == [] && r.stats.req == st.stats.req
            && r.sk == st.sk.(sndNxt := st.sk.sndNxt + 1, flags := FIN_ACK, ring := r.sk.ring, timer := r.sk.timer)
            && r.sent == st.sent + [Segment(st.sk.sndUna, st.sk.rcvNxt, FIN_ACK, 0)]
            && Packets(cfg, start, st.sk.sndNxt, r.sk.rcvNxt, r.sent)
  {
    hide Place, Multiple;
  }

  /** The first packet in flight again. */
  lemma ResendIs(cfg: Config, now: nat, st: St, start: int, top: int)
    requires Plain(cfg) && st.pool == [] && st.sent == [] && Sending(cfg, start, top, st.sk)
    requires st.sk.sndUna < st.sk.sndNxt
    ensures var r := ResendFirst(cfg, now, st);
            && r.pool == [] && r.stats.req == st.stats.req && r.sk == st.sk.(flags := PUSH_ACK, sndWindow := 1)
            && r.sent == [Segment(st.sk.sndUna, st.sk.rcvNxt, PUSH_ACK, cfg.dataLen)]
            && Packets(cfg, start, r.sk.sndNxt, r.sk.rcvNxt, r.sent)
  {
    hide Reply, Multiple;
    var st1 := st.(sk := st.sk.(sndNxt := st.sk.sndUna));
    NextPacket(cfg, now, st1, PUSH_ACK);
    StepMultiple(st.sk.sndUna - start, st.sk.sndNxt - start, cfg.dataLen);
    OnePacket(cfg, start, st.sk.sndUna, st.sk.sndNxt, [], Segment(st.sk.sndUna, st.sk.rcvNxt, PUSH_ACK, cfg.dataLen));
  }

  lemma ExpiryGoes(cfg: Config, now: nat, st: St, start: int, top: int)
    requires Plain(cfg) && st.pool == [] && st.sent == [] && st.sk.state == Established
    requires Sending(cfg, start, top, st.sk) && Flying(st.sk)
    ensures var r := RetransmitExpiry(cfg, now, st);
            && Goes(cfg, start, top, st, r) && r.sk.sndUna == st.sk.sndUna
            && (st.sk.sndUna < st.sk.sndNxt && st.sk.laddr != 0 && st.sk.retrans < 3 ==>
                  && r.sk.state == Established && r.sk.laddr == st.sk.laddr
                  && r.sent == [Segment(st.sk.sndUna, st.sk.rcvNxt, PUSH_ACK, cfg.dataLen)])
  {
    hide Reply, ResendFirst, Multiple, Place;
    if st.sk.sndNxt != st.sk.sndUna {
      var st1 := Move(st, NoRing);
      ResendIs(cfg, now, st1.(sk := st1.sk.(retrans := (st.sk.retrans + 1) % 8)), start, top);
    }
  }

  lemma TimeoutGoes(cfg: Config, st: St, start: int, top: int)
    requires st.pool == [] && st.sent == [] && st.sk.state == Established
    ensures Goes(cfg, start, top, st, TimeoutExpiry(st)) && TimeoutExpiry(st).sk.sndUna == st.sk.sndUna
  {
    hide Place;
  }

  /** A segment that is not the request under way: an acknowledgement, or something older. */
  ghost predicate Quiet(cfg: Config, start: int, top: int, rcv: int, k: Sock, g: Segment) {
    && g.flags.ack && !g.flags.syn && !g.flags.rst && !g.flags.fin
    && g.seqno <= k.rcvNxt && g.ack <= rcv && Multiple(g.ack - start, cfg.dataLen)
    && (g.seqno < k.rcvNxt ==> g.ack <= top - cfg.payload) && (g.seqno == k.rcvNxt ==> g.len == 0)
  }

  lemma CheckGoes(cfg: Config, now: nat, st: St, start: int, top: int, rcv: int, g: Segment)
    requires Plain(cfg) && st.pool == [] && st.sent == [] && st.sk.state == Established
    requires Sending(cfg, start, top, st.sk) && Flying(st.sk)
    requires Quiet(cfg, start, top, rcv, st.sk, g) && st.sk.sndUna <= rcv <= st.sk.sndNxt
    ensures var (r, ok) := CheckSequence(cfg, now, st, g);
            && r.pool == [] && r.sk.rcvNxt == st.sk.rcvNxt && r.sk.state == Established && r.stats.req == st.stats.req
            && st.sk.sndUna <= r.sk.sndUna <= rcv && r.sk.laddr == st.sk.laddr
            && r.sk.sndNxt == st.sk.sndNxt && Sending(cfg, start, top, r.sk) && Going(r.sk)
            && (ok ==> g.len == 0 && r.sent == [])
            && r.sk.keepalive == st.sk.keepalive && r.sk.ring == st.sk.ring
            && (!ok ==> r.sk.sndUna == st.sk.sndUna && Packets(cfg, start, r.sk.sndNxt, r.sk.rcvNxt, r.sent))
            && (g.ack == rcv > st.sk.sndUna && g.seqno == st.sk.rcvNxt ==>
                  ok && r.sk.sndUna == rcv && r.sk.retrans == 0)
  {
    hide ResendFirst, Multiple, Packet;
    if st.sk.sndUna < st.sk.sndNxt {
      ResendIs(cfg, now, st.(sk := st.sk.(retrans := (st.sk.retrans + 1) % 8)), start, top);
    }
  }

  lemma QuietGoes(cfg: Config, now: nat, st: St, start: int, top: int, rcv: int, g: Segment)
    requires Plain(cfg) && st.pool == [] && st.sent == [] && st.sk.state == Established
    requires Sending(cfg, start, top, st.sk) && Flying(st.sk)
    requires Quiet(cfg, start, top, rcv, st.sk, g) && st.sk.sndUna <= rcv <= st.sk.sndNxt
    ensures var r := Server(cfg, now, st, g);
            && Goes(cfg, start, top, st, r) && r.sk.sndUna <= rcv
            && (Rested(st.sk, top) ==> Rested(r.sk, top))
            && (g.ack == rcv > st.sk.sndUna && g.seqno == st.sk.rcvNxt ==>
                  && r.sk.sndUna == rcv && r.sk.retrans == 0 && r.sk.laddr == st.sk.laddr && Rested(r.sk, top)
                  && r.sk.state == (if rcv < top || st.sk.keepalive then Established else FinWait1))
  {
    hide CheckSequence, ReplyMore, Multiple, Packet, ServerFinish, ServeWindowed;
    CheckGoes(cfg, now, st, start, top, rcv, g);
    var (r, ok) := CheckSequence(cfg, now, st, g);
    if ok { MoreGoes(cfg, now, r, start, top); }
  }

  // ---------------------------------------------------------------- the request under way

  /** What the server makes of it: the next response begins. */
  ghost predicate Opens(cfg: Config, start: int, top: int, rcv: int, st: St, r: St) {
    && r.pool == [] && r.sk.rcvNxt == rcv && r.stats.req == st.stats.req + 1
    && r.sk.state == Established && r.sk.laddr == st.sk.laddr && r.sk.retrans == 0
    && r.sk.keepalive == st.sk.keepalive
    && Sending(cfg, start, top + cfg.payload, r.sk) && Flying(r.sk) && r.sk.sndUna == top
    && Packets(cfg, start, r.sk.sndNxt, r.sk.rcvNxt, r.sent)
  }

  lemma RetransmitLeaves(st: St, now: nat)
    ensures var r := StartRetransmit(st, now);
            && r.sent == st.sent && r.pool == st.pool && r.stats == st.stats
            && r.sk == st.sk.(ring := r.sk.ring, timer := r.sk.timer)
            && (st.sk.sndNxt != st.sk.sndUna ==> r.sk.ring == Retransmit)
  {
  }

  /** The first packets of a response. */
  lemma FirstGoes(cfg: Config, now: nat, st: St, start: int, top: int)
    requires Plain(cfg) && st.pool == [] && st.sent == [] && st.sk.state == Established && cfg.dataLen <= cfg.payload
    requires st.sk.sndUna == st.sk.sndNxt == top && st.sk.sndMax == top + cfg.payload
        && Multiple(top - start, cfg.dataLen)
    requires Multiple(top + cfg.payload - start, cfg.dataLen) && 1 <= st.sk.sndWindow <= SEND_WINDOW_MAX
    ensures var r := if st.sk.requests != 0 then ReplyMore(cfg, now, st) else Reply(cfg, now, st, PUSH_ACK);
            && r.pool == [] && r.stats.req == st.stats.req && Packets(cfg, start, r.sk.sndNxt, r.sk.rcvNxt, r.sent)
            && r.sk == st.sk.(sndNxt := r.sk.sndNxt, flags := r.sk.flags) && r.sk.flags.push
            && top < r.sk.sndNxt <= top + cfg.payload && Multiple(r.sk.sndNxt - start, cfg.dataLen)
  {
    hide Reply, Burst, Multiple, Place;
    if st.sk.requests != 0 {
      BurstSends(cfg, now, st, start, Add(cfg.arith, top, cfg.sendWindow), st.sk.sndWindow);
    } else {
      NextPacket(cfg, now, st, PUSH_ACK);
      StepMultiple(top - start, top + cfg.payload - start, cfg.dataLen);
      OnePacket(cfg, start, top, top + cfg.dataLen, [], Segment(top, st.sk.rcvNxt, PUSH_ACK, cfg.dataLen));
    }
  }

  lemma PayloadPackets(cfg: Config, start: int, top: int)
    requires Plain(cfg) && Multiple(top - start, cfg.dataLen)
    ensures Multiple(top + cfg.payload - start, cfg.dataLen) && cfg.dataLen <= cfg.payload
  {
    MultipleAdd(top - start, cfg.payload, cfg.dataLen);
    MultipleStep(cfg.payload, cfg.dataLen);
  }

  lemma ServeOpens(cfg: Config, now: nat, st: St, start: int, top: int)
    requires Plain(cfg) && st.pool == [] && st.sent == [] && st.sk.state == Established && st.sk.retrans == 0
    requires st.sk.sndUna == st.sk.sndNxt == top && Multiple(top - start, cfg.dataLen)
    requires 1 <= st.sk.sndWindow <= SEND_WINDOW_MAX
    ensures var r := ServeWindowed(cfg, now, st);
            Opens(cfg, start, top, st.sk.rcvNxt, st.(stats := st.stats.(req := st.stats.req - 1)), r)
  {
    hide Reply, ReplyMore, Multiple, Packet, StartRetransmit;
    PayloadPackets(cfg, start, top);
    var st1 := OpenResponse(cfg, st);
    FirstGoes(cfg, now, st1, start, top);
    var st2 := if st1.sk.requests != 0 then ReplyMore(cfg, now, st1)
               else var r := Reply(cfg, now, st1, PUSH_ACK); r.(sk := r.sk.(requests := 1));
    RetransmitLeaves(st2, now);
  }

  /** The server takes it: it has to have sent everything before it. */
  lemma RequestGoes(cfg: Config, now: nat, st: St, start: int, top: int, g: Segment)
    requires Plain(cfg) && st.pool == [] && st.sent == [] && st.sk.state == Established
    requires Sending(cfg, start, top, st.sk) && st.sk.sndNxt == top
    requires g.len > 0 && g.flags == PUSH_ACK && g.ack == top && g.seqno == st.sk.rcvNxt
    ensures Opens(cfg, start, top, g.seqno + g.len, st, Server(cfg, now, st, g))
  {
    hide ServeWindowed, ReplyMore, ServerFinish, Multiple, Place;
    var (r, ok) := CheckSequence(cfg, now, st, g);
    var st3 := r.(stats := r.stats.(req := r.stats.req + 1));
    ServeOpens(cfg, now, st3, start, top);
  }

  // ---------------------------------------------------------------- every run

  lemma QuietKeeps(cfg: Config, start: int, f: Flow, r: St)
    requires Inv(cfg, start, f) && f.s.sk.state == Established && Goes(cfg, start, f.top, f.s, r)
        && r.sk.sndUna <= f.rcv
    requires f.served > 0 ==> Rested(r.sk, f.top)
    ensures Inv(cfg, start, Served(cfg, f, r))
  {
    hide Multiple;
  }

  lemma OpensKeeps(cfg: Config, start: int, f: Flow, r: St)
    requires Inv(cfg, start, f) && f.s.sk.state == Established && f.end > f.top
    requires Opens(cfg, start, f.top, f.snd, f.s, r)
    ensures Inv(cfg, start, Served(cfg, f, r))
  {
    hide Multiple;
    var q := Served(cfg, f, r);
    assert q.top == start + (f.served + 1) * cfg.payload;
    forall g | g in q.c2s ensures Known(cfg, start, q, g) { assert Known(cfg, start, f, g); }
  }

  lemma NotServed(cfg: Config, f: Flow, r: St)
    requires f.s.sk.state != Established
    ensures Served(cfg, f, r) == f
  {
  }

  /** Any segment of the client's reaches the server. */
  lemma ServerKeeps(cfg: Config, start: int, f: Flow, now: nat, g: Segment)
    requires Inv(cfg, start, f) && g in f.c2s && f.s.sk.state == Established
    ensures Inv(cfg, start, Served(cfg, f, Server(cfg, now, f.s, g)))
  {
    hide Server, Served, Multiple;
    assert Known(cfg, start, f, g);
    if g.seqno == f.s.sk.rcvNxt && g.len > 0 {
      RequestGoes(cfg, now, f.s, start, f.top, g);
      OpensKeeps(cfg, start, f, Server(cfg, now, f.s, g));
    } else {
      QuietGoes(cfg, now, f.s, start, f.top, f.rcv, g);
      QuietKeeps(cfg, start, f, Server(cfg, now, f.s, g));
    }
  }

  /** The client takes the packet it expects. */
  lemma TakeKeeps(cfg: Config, start: int, f: Flow, g: Segment)
    requires Inv(cfg, start, f) && g in f.s2c && g.len > 0 && g.seqno == f.rcv
    ensures Inv(cfg, start, f.(rcv := f.rcv + g.len, got := f.got + [g.seqno]))
  {
    assert Packet(cfg, start, Least(f.s.sk.sndNxt, f.top), g);
    OneMore(|f.got|, cfg.dataLen);
    hide Multiple, Sending, Going;
    var q := f.(rcv := f.rcv + g.len, got := f.got + [g.seqno]);
    forall h | h in q.c2s ensures Known(cfg, start, q, h) { assert Known(cfg, start, f, h); }
  }

  lemma OneMore(n: nat, m: nat)
    ensures (n + 1) * m == n * m + m
  {
  }

  lemma RcvMultiple(cfg: Config, start: int, f: Flow)
    requires Inv(cfg, start, f)
    ensures Multiple(f.rcv - start, cfg.dataLen) && Multiple(f.top - start, cfg.dataLen)
  {
    ProductMultiple(|f.got|, cfg.dataLen);
    TopMultiple(cfg, f.served);
  }

  lemma {:induction false} TopMultiple(cfg: Config, n: nat)
    requires Plain(cfg)
    ensures Multiple(n * cfg.payload, cfg.dataLen)
    decreases n
  {
    hide Multiple;
    if n > 0 {
      TopMultiple(cfg, n - 1);
      MultipleAdd((n - 1) * cfg.payload, cfg.payload, cfg.dataLen);
      OneMore(n - 1, cfg.payload);
    } else {
      ProductMultiple(0, cfg.dataLen);
      NoneIsMultiple(cfg.dataLen);
    }
  }

  lemma NoneIsMultiple(m: nat)
    requires m > 0
    ensures Multiple(0, m)
  {
  }

  lemma AskKeeps(cfg: Config, start: int, f: Flow, len: nat)
    requires Inv(cfg, start, f) && len > 0 && f.rcv == f.end
    ensures Inv(cfg, start, Asks(cfg, f, len))
  {
    RcvMultiple(cfg, start, f);
    hide Multiple;
    var q := Asks(cfg, f, len);
    forall g | g in q.c2s ensures Known(cfg, start, q, g) { if g in f.c2s { assert Known(cfg, start, f, g); } }
  }

  lemma AskAgainKeeps(cfg: Config, start: int, f: Flow)
    requires Inv(cfg, start, f) && f.rcv == f.end - cfg.payload
    ensures Inv(cfg, start, f.(c2s := f.c2s + {f.req}))
  {
    RcvMultiple(cfg, start, f);
    hide Multiple;
    var q := f.(c2s := f.c2s + {f.req});
    forall g | g in q.c2s ensures Known(cfg, start, q, g) { if g in f.c2s { assert Known(cfg, start, f, g); } }
  }

  lemma AcknowledgeKeeps(cfg: Config, start: int, f: Flow)
    requires Inv(cfg, start, f)
    ensures Inv(cfg, start, f.(c2s := f.c2s + {AckOf(cfg, f)}))
  {
    RcvMultiple(cfg, start, f);
    hide Multiple;
    var q := f.(c2s := f.c2s + {AckOf(cfg, f)});
    forall g | g in q.c2s ensures Known(cfg, start, q, g) { if g in f.c2s { assert Known(cfg, start, f, g); } }
  }

  lemma StepKeeps(cfg: Config, start: int, f: Flow, e: Event)
    requires Inv(cfg, start, f)
    ensures Inv(cfg, start, Step(cfg, f, e))
  {
    hide Server, RetransmitExpiry, Multiple, Served, Asking, Known, Packet;
    match e {
      case ToServer(now, g) =>
        if f.s.sk.state != Established {
          NotServed(cfg, f, Server(cfg, now, f.s, g));
        } else if g in f.c2s {
          ServerKeeps(cfg, start, f, now, g);
        }
      case ToClient(g) => if g in f.s2c && g.len > 0 && g.seqno == f.rcv { TakeKeeps(cfg, start, f, g); }
      case Ask(len) => if len > 0 && f.rcv == f.end { AskKeeps(cfg, start, f, len); }
      case AskAgain => if f.rcv == f.end - cfg.payload { AskAgainKeeps(cfg, start, f); }
      case Acknowledge => AcknowledgeKeeps(cfg, start, f);
      case Expires(now) =>
        if f.s.sk.state != Established {
          NotServed(cfg, f, RetransmitExpiry(cfg, now, f.s));
        } else if f.s.sk.ring == Retransmit {
          ExpiryGoes(cfg, now, f.s, start, f.top);
          QuietKeeps(cfg, start, f, RetransmitExpiry(cfg, now, f.s));
        }
      case TimesOut =>
        if f.s.sk.state != Established {
          NotServed(cfg, f, TimeoutExpiry(f.s));
        } else {
          TimeoutGoes(cfg, f.s, start, f.top);
          QuietKeeps(cfg, start, f, TimeoutExpiry(f.s));
        }
    }
  }

  lemma {:induction false} RunKeeps(cfg: Config, start: int, f: Flow, es: seq<Event>)
    requires Inv(cfg, start, f)
    ensures Inv(cfg, start, Run(cfg, f, es))
    decreases |es|
  {
    if es != [] {
      hide Step, Inv;
      StepKeeps(cfg, start, f, es[0]);
      RunKeeps(cfg, start, Step(cfg, f, es[0]), es[1..]);
    }
  }

  // ---------------------------------------------------------------- where it begins

  /** Between two responses: nothing in flight, the client waits for nothing, and the network
      may still hold any of the packets, requests and acknowledgements of earlier responses. */
  ghost predicate Idle(cfg: Config, start: int, f: Flow) {
    && Plain(cfg) && f.s.pool == [] && f.s.sent == [] && f.s.sk.state == Established
    && f.s.sk.sndUna == f.s.sk.sndNxt == f.s.sk.sndMax == start && 1 <= f.s.sk.sndWindow <= SEND_WINDOW_MAX
    && f.rcv == f.end == f.top == start && f.got == [] && f.served == 0 && f.snd == f.s.sk.rcvNxt
    && Earlier(cfg, start, f)
  }

  /** The same, but the first request has just been taken, whatever the sizes of what came before. */
  ghost predicate Asked(cfg: Config, start: int, now: nat, st: St, f: Flow) {
    && Plain(cfg) && st.pool == [] && st.sent == [] && st.sk.state == Established && st.sk.retrans == 0
    && st.sk.sndUna == st.sk.sndNxt == start && 1 <= st.sk.sndWindow <= SEND_WINDOW_MAX
    && var r := ServeWindowed(cfg, now, st);
       && f.s == r.(sent := []) && f.s2c == Carried(r.sent) && f.c2s == {f.req}
       && f.req.len > 0 && f.req.flags == PUSH_ACK && f.req.ack == start && f.req.seqno + f.req.len == st.sk.rcvNxt
       && f.snd == st.sk.rcvNxt && f.rcv == start && f.got == [] && f.served == 1
       && f.end == f.top == start + cfg.payload
  }

  ghost predicate Earlier(cfg: Config, start: int, f: Flow) {
    && (forall g :: g in f.s2c ==> Packet(cfg, start, start, g))
    && (forall g :: g in f.c2s ==> Known(cfg, start, f, g))
  }

  lemma IdleInv(cfg: Config, start: int, f: Flow)
    requires Idle(cfg, start, f)
    ensures Inv(cfg, start, f)
  {
    NoneIsMultiple(cfg.dataLen);
    hide Multiple;
  }

  lemma AskedInv(cfg: Config, start: int, now: nat, st: St, f: Flow)
    requires Asked(cfg, start, now, st, f)
    ensures Inv(cfg, start, f)
  {
    NoneIsMultiple(cfg.dataLen);
    ServeOpens(cfg, now, st, start, start);
    hide ServeWindowed, Multiple;
  }

  ghost predicate Begins(cfg: Config, start: int, f: Flow) {
    Idle(cfg, start, f) || exists now: nat, st: St :: Asked(cfg, start, now, st, f)
  }

  lemma BeginsInv(cfg: Config, start: int, f: Flow)
    requires Begins(cfg, start, f)
    ensures Inv(cfg, start, f)
  {
    hide Inv, Idle, Asked;
    if Idle(cfg, start, f) {
      IdleInv(cfg, start, f);
    } else {
      var now: nat, st: St :| Asked(cfg, start, now, st, f);
      AskedInv(cfg, start, now, st, f);
    }
  }

  // ---------------------------------------------------------------- main results

  /** In every run, whatever is asked for: the client has taken the packets of all the
      responses in order, each once and none beyond those the server was asked for; what the
      server holds acknowledged it has taken, and it has taken nothing unsent; and once the
      server has everything acknowledged, or has sent its FIN, it has taken every response whole. */
  lemma InOrderExactlyOnce(cfg: Config, start: int, f: Flow, es: seq<Event>)
    requires Begins(cfg, start, f)
    ensures var q := Run(cfg, f, es);
            && (forall i :: 0 <= i < |q.got| ==> q.got[i] == start + i * cfg.dataLen)
            && q.rcv == start + |q.got| * cfg.dataLen <= start + q.served * cfg.payload
            && q.s.sk.sndUna <= q.rcv <= q.s.sk.sndNxt
            && (q.s.sk.state == FinWait1 || q.s.sk.sndUna == start + q.served * cfg.payload ==>
                |q.got| * cfg.dataLen == q.served * cfg.payload)
  {
    BeginsInv(cfg, start, f);
    RunKeeps(cfg, start, f, es);
    hide Run;
  }

  // ---------------------------------------------------------------- nothing is lost for good

  /** The server is still there and has an address; a packet the client lacks can be sent
      again, or the client has something to acknowledge. */
  ghost predicate Alive(cfg: Config, start: int, f: Flow) {
    && Inv(cfg, start, f) && f.s.sk.state == Established && f.s.sk.laddr != 0
    && (f.end == f.top && f.s.sk.sndUna == f.rcv < f.top ==> f.s.sk.retrans < 3)
  }

  /** The acknowledgement of everything taken so far reaches the server. */
  lemma CatchesUp(cfg: Config, start: int, f: Flow, now: nat)
    requires Alive(cfg, start, f) && f.end == f.top && f.s.sk.sndUna < f.rcv < f.top
    ensures var q := Step(cfg, Step(cfg, f, Acknowledge), ToServer(now, AckOf(cfg, f)));
            && Alive(cfg, start, q) && q.s.sk.sndUna == q.rcv && q.got == f.got && q.rcv == f.rcv
            && q.end == f.end && q.top == f.top && q.served == f.served && q.s2c >= f.s2c
  {
    var f1 := Step(cfg, f, Acknowledge);
    var g := AckOf(cfg, f);
    StepKeeps(cfg, start, f, Acknowledge);
    StepKeeps(cfg, start, f1, ToServer(now, g));
    RcvMultiple(cfg, start, f);
    hide Server, Multiple;
    QuietGoes(cfg, now, f.s, start, f.top, f.rcv, g);
  }

  /** The retransmit timer expires, and the packet arrives. */
  lemma Resends(cfg: Config, start: int, f: Flow, now: nat)
    requires Alive(cfg, start, f) && f.end == f.top && f.s.sk.sndUna == f.rcv < f.top
    ensures var g := Segment(f.rcv, f.s.sk.rcvNxt, PUSH_ACK, cfg.dataLen);
            var q := Step(cfg, Step(cfg, f, Expires(now)), ToClient(g));
            && Alive(cfg, start, q) && q.got == f.got + [f.rcv] && q.rcv == f.rcv + cfg.dataLen && q.s.sk.sndUna < q.rcv
            && q.end == f.end && q.top == f.top && q.served == f.served
  {
    var g := Segment(f.rcv, f.s.sk.rcvNxt, PUSH_ACK, cfg.dataLen);
    var f1 := Step(cfg, f, Expires(now));
    StepKeeps(cfg, start, f, Expires(now));
    StepKeeps(cfg, start, f1, ToClient(g));
    ExpiryGoes(cfg, now, f.s, start, f.top);
    hide RetransmitExpiry, Multiple;
    assert g in [g];
  }

  lemma {:induction false} RunsOn(cfg: Config, f: Flow, a: seq<Event>, b: seq<Event>)
    ensures Run(cfg, f, a + b) == Run(cfg, Run(cfg, f, a), b)
    decreases |a|
  {
    hide Step;
    if a == [] {
      assert a + b == b;
    } else {
      assert (a + b)[1..] == a[1..] + b;
      RunsOn(cfg, Step(cfg, f, a[0]), a[1..], b);
    }
  }

  lemma RunsTwo(cfg: Config, f: Flow, a: Event, b: Event)
    ensures Run(cfg, f, [a, b]) == Step(cfg, Step(cfg, f, a), b)
  {
    hide Step;
    assert [a, b][1..] == [b] && [b][1..] == [];
    assert Run(cfg, Step(cfg, Step(cfg, f, a), b), []) == Step(cfg, Step(cfg, f, a), b);
  }

  /** At most four events bring the packet the client lacks. */
  lemma Repairs(cfg: Config, start: int, f: Flow, now: nat) returns (es: seq<Event>)
    requires Alive(cfg, start, f) && f.end == f.top && f.rcv < f.top
    ensures |es| <= 4
    ensures var q := Run(cfg, f, es);
            && Alive(cfg, start, q) && q.got == f.got + [f.rcv] && q.rcv == f.rcv + cfg.dataLen && q.s.sk.sndUna < q.rcv
            && q.end == f.end && q.top == f.top && q.served == f.served
  {
    hide Step, Run, Inv, AckOf;
    var a: seq<Event>, f1 := [], f;
    if f.s.sk.sndUna < f.rcv {
      CatchesUp(cfg, start, f, now);
      a := [Acknowledge, ToServer(now, AckOf(cfg, f))];
      RunsTwo(cfg, f, a[0], a[1]);
      f1 := Run(cfg, f, a);
    } else {
      NoEvents(cfg, f);
      Ordered(cfg, start, f);
    }
    var b := [Expires(now), ToClient(Segment(f1.rcv, f1.s.sk.rcvNxt, PUSH_ACK, cfg.dataLen))];
    Resends(cfg, start, f1, now);
    RunsTwo(cfg, f1, b[0], b[1]);
    RunsOn(cfg, f, a, b);
    es := a + b;
  }

  lemma NoEvents(cfg: Config, f: Flow)
    ensures Run(cfg, f, []) == f
  {
  }

  lemma Ordered(cfg: Config, start: int, f: Flow)
    requires Inv(cfg, start, f)
    ensures f.s.sk.sndUna <= f.rcv <= f.top <= f.end <= f.top + cfg.payload && cfg.dataLen > 0
  {
  }

  /** The request, repeated, reaches the server. */
  lemma RequestArrives(cfg: Config, start: int, f: Flow, now: nat)
    requires Alive(cfg, start, f) && f.end > f.top
    ensures var q := Step(cfg, Step(cfg, f, AskAgain), ToServer(now, f.req));
            Alive(cfg, start, q) && q.end == q.top == f.end && q.rcv == f.rcv && q.got == f.got
                && q.served == f.served + 1
  {
    var f1 := Step(cfg, f, AskAgain);
    StepKeeps(cfg, start, f, AskAgain);
    StepKeeps(cfg, start, f1, ToServer(now, f.req));
    hide Server, Multiple;
    RequestGoes(cfg, now, f.s, start, f.top, f.req);
  }

  lemma {:induction false} RepairsAll(cfg: Config, start: int, f: Flow, now: nat) returns (es: seq<Event>)
    requires Alive(cfg, start, f) && f.end == f.top
    ensures var q := Run(cfg, f, es);
            Alive(cfg, start, q) && q.rcv == q.end == q.top == f.end && q.served == f.served
    decreases f.top - f.rcv
  {
    hide Step, Run, Inv;
    es := [];
    NoEvents(cfg, f);
    Ordered(cfg, start, f);
    if f.rcv < f.top {
      var a := Repairs(cfg, start, f, now);
      var q := Run(cfg, f, a);
      Ordered(cfg, start, q);
      var b := RepairsAll(cfg, start, q, now);
      RunsOn(cfg, f, a, b);
      es := a + b;
    }
  }

  lemma Emptied(cfg: Config, start: int, f: Flow)
    requires Alive(cfg, start, f)
    ensures Alive(cfg, start, f.(c2s := {}, s2c := {}))
  {
    hide Multiple, Sending, Going;
  }

  /** Even if the network loses everything it carries: from every reachable state with the
      server alive, further events bring the client every response it has asked for, whole. */
  lemma CompletesAfterLoss(cfg: Config, start: int, f: Flow, es: seq<Event>, now: nat) returns (more: seq<Event>)
    requires Begins(cfg, start, f)
    requires var q := Run(cfg, f, es);
             && q.s.sk.state == Established && q.s.sk.laddr != 0
             && (q.end == q.top && q.s.sk.sndUna == q.rcv < q.top ==> q.s.sk.retrans < 3)
    ensures var q := Run(cfg, f, es);
            var r := Run(cfg, q.(c2s := {}, s2c := {}), more);
            && r.rcv == r.end == q.end && |r.got| * cfg.dataLen == r.served * cfg.payload
            && r.served == q.served + (if q.end > q.top then 1 else 0)
            && forall i :: 0 <= i < |r.got| ==> r.got[i] == start + i * cfg.dataLen
  {
    BeginsInv(cfg, start, f);
    RunKeeps(cfg, start, f, es);
    var q := Run(cfg, f, es);
    Emptied(cfg, start, q);
    Ordered(cfg, start, q);
    hide Step, Run, Inv;
    var o := q.(c2s := {}, s2c := {});
    if q.end > q.top {
      RequestArrives(cfg, start, o, now);
      var a := [AskAgain, ToServer(now, o.req)];
      RunsTwo(cfg, o, a[0], a[1]);
      var b := RepairsAll(cfg, start, Run(cfg, o, a), now);
      RunsOn(cfg, o, a, b);
      more := a + b;
    } else {
      more := RepairsAll(cfg, start, o, now);
    }
    WholeAt(cfg, start, Run(cfg, o, more));
  }

  lemma WholeAt(cfg: Config, start: int, f: Flow)
    requires Inv(cfg, start, f) && f.rcv == f.top
    ensures |f.got| * cfg.dataLen == f.served * cfg.payload
    ensures forall i :: 0 <= i < |f.got| ==> f.got[i] == start + i * cfg.dataLen
  {
  }

  // ---------------------------------------------------------------- the program's own client

  /** A client socket of this program in the place of the modelled one takes the same segments:
      of all that the network may hold exactly the packet it expects. */
  lemma OwnClientTakes(cfg: Config, start: int, f: Flow, cc: Config, now: nat, st: St, g: Segment)
    requires Inv(cfg, start, f) && g in f.s2c && g.len > 0
    requires cc.arith == Unbounded && !cc.server && cc.sendWindow == 0 && st.sk.state == Established
    requires st.sk.rcvNxt == f.rcv && st.sk.sndNxt == f.snd
    ensures var (r, ok) := CheckSequence(cc, now, st, g);
            && (ok <==> g.seqno == f.rcv)
            && r.sk.rcvNxt == f.rcv + (if ok then g.len else 0)
  {
    assert Packet(cfg, start, Least(f.s.sk.sndNxt, f.top), g);
    hide Multiple, Place, Accurate, Sending, Going, WireFlags, Advance;
  }

  // ---------------------------------------------------------------- how a response ends

  /** The server's keepalive never changes. */
  lemma KeepaliveStays(cfg: Config, start: int, f: Flow, e: Event)
    requires Inv(cfg, start, f)
    ensures Step(cfg, f, e).s.sk.keepalive == f.s.sk.keepalive
  {
    hide Server, RetransmitExpiry, Multiple, Inv;
    match e {
      case ToServer(now, g) =>
        if f.s.sk.state == Established && g in f.c2s { ServerKeepsAlive(cfg, start, f, now, g); }
      case Expires(now) =>
        if f.s.sk.state == Established && f.s.sk.ring == Retransmit { ExpiryKeepsAlive(cfg, start, f, now); }
      case TimesOut => hide Place;
      case _ =>
    }
  }

  lemma ServerKeepsAlive(cfg: Config, start: int, f: Flow, now: nat, g: Segment)
    requires Inv(cfg, start, f) && g in f.c2s && f.s.sk.state == Established
    ensures Server(cfg, now, f.s, g).sk.keepalive == f.s.sk.keepalive
  {
    hide Server, Multiple;
    assert Known(cfg, start, f, g);
    if g.seqno == f.s.sk.rcvNxt && g.len > 0 {
      RequestGoes(cfg, now, f.s, start, f.top, g);
    } else {
      QuietGoes(cfg, now, f.s, start, f.top, f.rcv, g);
    }
  }

  lemma ExpiryKeepsAlive(cfg: Config, start: int, f: Flow, now: nat)
    requires Inv(cfg, start, f) && f.s.sk.state == Established
    ensures RetransmitExpiry(cfg, now, f.s).sk.keepalive == f.s.sk.keepalive
  {
    hide RetransmitExpiry, Multiple;
    ExpiryGoes(cfg, now, f.s, start, f.top);
  }

  lemma {:induction false} RunKeepsAlive(cfg: Config, start: int, f: Flow, es: seq<Event>)
    requires Inv(cfg, start, f)
    ensures Run(cfg, f, es).s.sk.keepalive == f.s.sk.keepalive
    decreases |es|
  {
    if es != [] {
      StepKeeps(cfg, start, f, es[0]);
      KeepaliveStays(cfg, start, f, es[0]);
      hide Step, Inv;
      RunKeepsAlive(cfg, start, Step(cfg, f, es[0]), es[1..]);
    }
  }

  /** In every run: a server with keepalive never sends a FIN of its own, and with everything
      acknowledged waits on the timeout ring; one without, with everything acknowledged, is in
      FIN_WAIT_1 or closed, and where it is in FIN_WAIT_1 its FIN is on the wire behind the
      last response. */
  lemma ResponseEnds(cfg: Config, start: int, f: Flow, es: seq<Event>)
    requires Begins(cfg, start, f)
    ensures var q := Run(cfg, f, es);
            var top := start + q.served * cfg.payload;
            && (f.s.sk.keepalive ==>
                  && q.s.sk.state in {Established, Closed}
                  && (q.served > 0 && q.s.sk.state == Established && q.s.sk.sndUna == top ==> q.s.sk.ring == Timeout))
            && (!f.s.sk.keepalive && q.served > 0 && q.s.sk.sndUna == top ==> q.s.sk.state in {FinWait1, Closed})
            && (q.s.sk.state == FinWait1 ==> LastFin(q.s.sk, top) in q.s2c && q.s.sk.sndNxt == top + 1)
  {
    BeginsInv(cfg, start, f);
    RunKeeps(cfg, start, f, es);
    RunKeepsAlive(cfg, start, f, es);
    hide Run;
  }

  /** The acknowledgement of everything reaches a server that has sent all that was asked for. */
  lemma LastAckArrives(cfg: Config, start: int, f: Flow, now: nat)
    requires Alive(cfg, start, f) && f.end == f.top == f.rcv && f.s.sk.sndUna < f.rcv
    ensures var q := Step(cfg, Step(cfg, f, Acknowledge), ToServer(now, AckOf(cfg, f)));
            && Inv(cfg, start, q) && q.s.sk.sndUna == q.rcv == q.top == q.end == f.top && q.got == f.got
            && q.served == f.served && q.s.sk.laddr != 0 && q.s.sk.keepalive == f.s.sk.keepalive
            && (if f.s.sk.keepalive then q.s.sk.state == Established && q.s.sk.ring == Timeout
                else q.s.sk.state == FinWait1 && LastFin(q.s.sk, q.top) in q.s2c)
  {
    var f1 := Step(cfg, f, Acknowledge);
    var g := AckOf(cfg, f);
    StepKeeps(cfg, start, f, Acknowledge);
    StepKeeps(cfg, start, f1, ToServer(now, g));
    KeepaliveStays(cfg, start, f1, ToServer(now, g));
    RcvMultiple(cfg, start, f);
    hide Server, Multiple;
    QuietGoes(cfg, now, f.s, start, f.top, f.rcv, g);
  }

  /** All that was asked for has been served, taken and acknowledged. */
  predicate Settled(f: Flow) { f.rcv == f.end == f.top == f.s.sk.sndUna }

  /** The responses under way are brought to their end. */
  lemma Settles(cfg: Config, start: int, f: Flow, now: nat) returns (es: seq<Event>)
    requires Alive(cfg, start, f) && f.end == f.top && f.s.sk.sndUna < f.top
    ensures var q := Run(cfg, f, es);
            && Inv(cfg, start, q) && Settled(q) && q.served == f.served && q.s.sk.keepalive == f.s.sk.keepalive
            && q.s.sk.laddr != 0
            && (if f.s.sk.keepalive then q.s.sk.state == Established && q.s.sk.ring == Timeout
                else q.s.sk.state == FinWait1 && LastFin(q.s.sk, q.top) in q.s2c)
  {
    hide Step, Run, Inv, AckOf;
    Ordered(cfg, start, f);
    var a := RepairsUpTo(cfg, start, f, now);
    var q := Run(cfg, f, a);
    AliveInv(cfg, start, f);
    RunKeepsAlive(cfg, start, f, a);
    LastAckArrives(cfg, start, q, now);
    var b := [Acknowledge, ToServer(now, AckOf(cfg, q))];
    RunsTwo(cfg, q, b[0], b[1]);
    RunsOn(cfg, f, a, b);
    es := a + b;
  }

  lemma AliveInv(cfg: Config, start: int, f: Flow)
    requires Alive(cfg, start, f)
    ensures Inv(cfg, start, f)
  {
  }

  /** As `RepairsAll`, and something is left to acknowledge. */
  lemma RepairsUpTo(cfg: Config, start: int, f: Flow, now: nat) returns (es: seq<Event>)
    requires Alive(cfg, start, f) && f.end == f.top && f.s.sk.sndUna < f.top
    ensures var q := Run(cfg, f, es);
            && Alive(cfg, start, q) && q.rcv == q.end == q.top == f.end && q.served == f.served
            && q.s.sk.sndUna < q.rcv
    decreases f.top - f.rcv
  {
    hide Step, Run, Inv;
    es := [];
    NoEvents(cfg, f);
    Ordered(cfg, start, f);
    if f.rcv < f.top {
      var a := Repairs(cfg, start, f, now);
      var q := Run(cfg, f, a);
      Ordered(cfg, start, q);
      var b := RepairsUpTo(cfg, start, q, now);
      RunsOn(cfg, f, a, b);
      es := a + b;
    }
  }

  /** One more response: asked for, served, taken and acknowledged. */
  lemma OneMoreResponse(cfg: Config, start: int, f: Flow, len: nat, now: nat) returns (es: seq<Event>)
    requires Inv(cfg, start, f) && Settled(f) && f.s.sk.state == Established && f.s.sk.laddr != 0 && f.s.sk.keepalive
    requires len > 0
    ensures var q := Run(cfg, f, es);
            && Inv(cfg, start, q) && Settled(q) && q.s.sk.state == Established && q.s.sk.laddr != 0 && q.s.sk.keepalive
            && q.s.sk.ring == Timeout && q.served == f.served + 1
  {
    StepKeeps(cfg, start, f, Ask(len));
    var f1 := Step(cfg, f, Ask(len));
    RequestArrives(cfg, start, f1, now);
    var f2 := Step(cfg, Step(cfg, f1, AskAgain), ToServer(now, f1.req));
    Asked2(cfg, start, f1, now);
    hide Step, Run, Inv;
    var a := [AskAgain, ToServer(now, f1.req)];
    RunsTwo(cfg, f1, a[0], a[1]);
    var b := Settles(cfg, start, f2, now);
    RunsOn(cfg, f1, a, b);
    es := [Ask(len)] + (a + b);
    RunsOn(cfg, f, [Ask(len)], a + b);
    RunsOne(cfg, f, Ask(len));
  }

  lemma RunsOne(cfg: Config, f: Flow, e: Event)
    ensures Run(cfg, f, [e]) == Step(cfg, f, e)
  {
    hide Step;
    assert [e][1..] == [];
  }

  /** Once the request is taken the response has to be acknowledged from its start. */
  lemma Asked2(cfg: Config, start: int, f: Flow, now: nat)
    requires Alive(cfg, start, f) && f.end > f.top
    ensures var q := Step(cfg, Step(cfg, f, AskAgain), ToServer(now, f.req));
            q.s.sk.sndUna < q.top && q.s.sk.keepalive == f.s.sk.keepalive
  {
    var f1 := Step(cfg, f, AskAgain);
    StepKeeps(cfg, start, f, AskAgain);
    KeepaliveStays(cfg, start, f, AskAgain);
    KeepaliveStays(cfg, start, f1, ToServer(now, f.req));
    hide Server, Multiple;
    RequestGoes(cfg, now, f.s, start, f.top, f.req);
  }

  lemma {:induction false} ServesOn(cfg: Config, start: int, f: Flow, n: nat, now: nat) returns (es: seq<Event>)
    requires Inv(cfg, start, f) && Settled(f) && f.s.sk.state == Established && f.s.sk.laddr != 0 && f.s.sk.keepalive
    ensures var q := Run(cfg, f, es);
            && Inv(cfg, start, q) && Settled(q) && q.s.sk.state == Established && q.served == f.served + n
            && (n > 0 ==> q.s.sk.ring == Timeout)
    decreases n
  {
    hide Step, Run, Inv;
    es := [];
    NoEvents(cfg, f);
    if n > 0 {
      var a := OneMoreResponse(cfg, start, f, 1, now);
      es := a;
      if n > 1 {
        var b := ServesOn(cfg, start, Run(cfg, f, a), n - 1, now);
        RunsOn(cfg, f, a, b);
        es := a + b;
      }
    }
  }

  lemma AskedAlive(cfg: Config, start: int, now: nat, st: St, f: Flow)
    requires Asked(cfg, start, now, st, f)
    ensures Inv(cfg, start, f) && f.served == 1 && f.end == f.top && f.s.sk.sndUna < f.top && f.rcv < f.top
    ensures f.s.sk.state == Established && f.s.sk.retrans == 0 && f.s.sk.laddr == st.sk.laddr
  {
    AskedInv(cfg, start, now, st, f);
    NoneIsMultiple(cfg.dataLen);
    ServeOpens(cfg, now, st, start, start);
    hide ServeWindowed, Multiple;
  }

  lemma IdleSettled(cfg: Config, start: int, f: Flow)
    requires Idle(cfg, start, f)
    ensures Inv(cfg, start, f) && Settled(f) && f.served == 0 && f.s.sk.state == Established
  {
    IdleInv(cfg, start, f);
  }

  /** With keepalive every number of responses is reached: all taken whole and acknowledged, the
      connection open and the server waiting on the timeout ring for the next request. */
  lemma ServesEveryNumber(cfg: Config, start: int, f: Flow, n: nat, now: nat) returns (es: seq<Event>)
    requires Begins(cfg, start, f) && f.s.sk.keepalive && f.s.sk.laddr != 0 && n >= f.served && n > 0
    ensures var q := Run(cfg, f, es);
            && q.served == n && |q.got| * cfg.dataLen == n * cfg.payload && q.s.sk.sndUna == q.rcv == q.end
            && q.s.sk.state == Established && q.s.sk.ring == Timeout
  {
    if Idle(cfg, start, f) {
      IdleSettled(cfg, start, f);
      es := ServesOn(cfg, start, f, n, now);
      WholeAt(cfg, start, Run(cfg, f, es));
    } else {
      var from: nat, st: St :| Asked(cfg, start, from, st, f);
      AskedAlive(cfg, start, from, st, f);
      hide Asked, Step, Run, Inv;
      var a := Settles(cfg, start, f, now);
      es := a;
      if n > 1 {
        var b := ServesOn(cfg, start, Run(cfg, f, a), n - 1, now);
        RunsOn(cfg, f, a, b);
        es := a + b;
      }
      WholeAt(cfg, start, Run(cfg, f, es));
    }
  }

  /** Without keepalive the one response ends with the server's FIN behind it. */
  lemma EndsWithFin(cfg: Config, start: int, from: nat, st: St, f: Flow, now: nat) returns (es: seq<Event>)
    requires Asked(cfg, start, from, st, f) && !f.s.sk.keepalive && st.sk.laddr != 0
    ensures var q := Run(cfg, f, es);
            && q.served == 1 && |q.got| * cfg.dataLen == cfg.payload && q.s.sk.sndUna == q.rcv
            && q.s.sk.state == FinWait1 && LastFin(q.s.sk, q.rcv) in q.s2c
  {
    AskedAlive(cfg, start, from, st, f);
    hide Asked, Step, Run, Inv;
    es := Settles(cfg, start, f, now);
    WholeAt(cfg, start, Run(cfg, f, es));
  }

  // ---------------------------------------------------------------- from the handshake on

  lemma SynOpens(cfg: Config, now: nat, st: St, syn: Segment)
    requires Plain(cfg) && st.pool == [] && st.sk.state == Closed && syn.flags == SYN
    ensures var r := Server(cfg, now, st, syn);
            && r.pool == [] && r.sk.state == SynReceived && r.sk.requests == 0 && r.sk.sndWindow == 1
            && r.sk.retrans == 0 && r.sk.rcvNxt == syn.seqno + 1 && r.sk.sndNxt == r.sk.sndUna + 1
            && r.sent == st.sent + [Segment(r.sk.sndUna, r.sk.rcvNxt, SYN_ACK, 0)]
            && r.sk.laddr == st.sk.laddr && r.sk.keepalive == st.sk.keepalive
  {
    hide Place;
  }

  lemma FirstTaken(cfg: Config, now: nat, st: St, g: Segment) returns (st1: St)
    requires Plain(cfg) && st.pool == [] && st.sk.state == SynReceived && st.sk.sndWindow == 1 && st.sk.requests == 0
    requires g.flags == PUSH_ACK && g.len > 0 && g.ack == st.sk.sndNxt && g.seqno == st.sk.rcvNxt
    ensures st1.pool == [] && st1.sent == st.sent && st1.sk.state == Established
        && st1.sk.sndUna == st1.sk.sndNxt == g.ack
    ensures st1.sk.retrans == 0 && st1.sk.sndWindow == 2 && st1.sk.requests == 0 && st1.sk.rcvNxt == g.seqno + g.len
    ensures st1.sk.laddr == st.sk.laddr && st1.sk.keepalive == st.sk.keepalive
    ensures Server(cfg, now, st, g) == ServeWindowed(cfg, now, st1)
  {
    hide ServeWindowed, ReplyMore, ServerFinish, Place;
    var st0 := CheckSequence(cfg, now, st, g).0;
    st1 := st0.(sk := st0.sk.(state := Established), stats := st0.stats.(req := st0.stats.req + 1));
  }

  /** A first request is answered with one packet, the rest follows its acknowledgement. */
  lemma OnePacketFirst(cfg: Config, now: nat, st: St)
    requires Plain(cfg) && st.pool == [] && st.sk.requests == 0 && st.sk.sndUna == st.sk.sndNxt
    requires st.sk.state == Established
    ensures var r := ServeWindowed(cfg, now, st);
            && r.sk.requests == 1 && r.sent == st.sent + [Segment(st.sk.sndNxt, st.sk.rcvNxt, PUSH_ACK, cfg.dataLen)]
            && r.sk.laddr == st.sk.laddr && r.sk.keepalive == st.sk.keepalive && r.sk.sndWindow == st.sk.sndWindow
  {
    hide Reply, StartRetransmit;
    NextPacket(cfg, now, OpenResponse(cfg, st), PUSH_ACK);
    var r := Reply(cfg, now, OpenResponse(cfg, st), PUSH_ACK);
    RetransmitLeaves(r.(sk := r.sk.(requests := 1)), now);
  }

  /** Whatever an earlier connection left in the socket: a SYN and the request behind it start
      slowly, with one packet, and what follows is a delivery from its beginning. */
  lemma ConnectionBegins(cfg: Config, now: nat, st: St, syn: Segment, g: Segment) returns (start: int, f: Flow)
    requires Plain(cfg) && st.pool == [] && st.sent == [] && st.sk.state == Closed && syn.flags == SYN
    requires g.flags == PUSH_ACK && g.len > 0
    requires var k := Server(cfg, now, st, syn).sk; g.ack == k.sndNxt && g.seqno == k.rcvNxt
    ensures var st1 := Server(cfg, now, st, syn).(sent := []);
            var r := Server(cfg, now, st1, g);
            && start == st1.sk.sndNxt && f.s == r.(sent := []) && f.req == g
            && r.sent == [Segment(start, g.seqno + g.len, PUSH_ACK, cfg.dataLen)] && r.sk.sndWindow == 2
            && f.s.sk.keepalive == st.sk.keepalive && f.s.sk.laddr == st.sk.laddr
    ensures Begins(cfg, start, f) && f.served == 1
  {
    hide Server, ServeWindowed, Begins, Asked;
    SynOpens(cfg, now, st, syn);
    var st1 := Server(cfg, now, st, syn).(sent := []);
    var at := FirstTaken(cfg, now, st1, g);
    OnePacketFirst(cfg, now, at);
    start := st1.sk.sndNxt;
    f := FlowOf(cfg, now, at, g);
  }

  lemma FlowOf(cfg: Config, now: nat, at: St, g: Segment) returns (f: Flow)
    requires Plain(cfg) && at.pool == [] && at.sent == [] && at.sk.state == Established && at.sk.retrans == 0
    requires at.sk.sndUna == at.sk.sndNxt == g.ack && at.sk.sndWindow == 2 && at.sk.rcvNxt == g.seqno + g.len
    requires g.flags == PUSH_ACK && g.len > 0
    ensures f.s == ServeWindowed(cfg, now, at).(sent := []) && f.req == g && Begins(cfg, g.ack, f) && f.served == 1
  {
    hide ServeWindowed;
    var r := ServeWindowed(cfg, now, at);
    f := Flow(r.(sent := []), Carried(r.sent), {g}, g.ack, [], g, g.seqno + g.len, g.ack + cfg.payload,
              g.ack + cfg.payload, 1);
    assert Asked(cfg, g.ack, now, at, f);
  }
}
