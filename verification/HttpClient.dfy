/** The HTTP client: a socket whose response segments go through the parser. While it waits for
    nothing it is on the ring that wakes it, and valid responses bring one request each. */
module HttpClient {
  import opened Rings
  import opened Verdicts
  import opened Tcp
  import opened Closing
  import opened HttpHeader
  import opened HttpParse
  import opened HttpBody

  /** The socket, what its parser has read of the response, and whether a response is due. */
  datatype Browser = Browser(st: St, parse: Fields, due: bool)

  datatype Event =
    | Launches(now: nat)
    | Arrives(g: Segment, data: seq<byte>, env: Env)
    | Retransmits(now: nat)
    | Wakes(env: Env)
    | Flushes(now: nat)

  predicate Browses(cfg: Config) {
    cfg.http && !cfg.server && cfg.sendWindow == 0 && !cfg.flood && cfg.dataLen > 0 && cfg.arith == Unbounded
  }

  // ---------------------------------------------------------------- runs

  /** The segment reaches the parser: it is the expected one, on an established connection, with data. */
  predicate Parsed(k: Sock, g: Segment) { Expected(k, g) && k.state == Established && g.len > 0 }

  /** What the parser makes of the data: its fields, and what the handler learns of them. */
  function Heard(b: Browser, data: seq<byte>): (Fields, HttpOutcome)
    requires Sane(b.parse)
  {
    var f := b.parse.(keepalive := b.st.sk.keepalive);
    var (r, v) := Received(f, data);
    (r, HttpOutcome(v, !r.keepalive, f.state == Init))
  }

  function Hear(cfg: Config, env: Env, b: Browser, g: Segment, data: seq<byte>): (r: Browser)
    requires Sane(b.parse)
    ensures Sane(r.parse)
  {
    if !Parsed(b.st.sk, g) then
      var st := Client(cfg, env, b.st, g, HttpOutcome(More, false, false));
      b.(st := st, due := b.due || (b.st.sk.state == SynSent && st.sk.state == Established))
    else
      var (f, h) := Heard(b, data);
      Browser(Client(cfg, env, b.st, g, h), f, b.due && h.verdict == More)
  }

  function Step(cfg: Config, b: Browser, e: Event): (r: Browser)
    requires Sane(b.parse)
    ensures Sane(r.parse)
  {
    match e
    case Launches(now) =>
      if b.st.sk.state != Closed then b else Browser(Launch(cfg, now, b.st), Anew(cfg.keepalive), false)
    case Arrives(g, data, env) => if |data| != g.len then b else Hear(cfg, env, b, g, data)
    case Retransmits(now) =>
      if b.st.sk.ring != Retransmit then b else b.(st := RetransmitExpiry(cfg, now, b.st))
    case Wakes(env) =>
      if b.st.sk.ring != Keepalive then b
      else
        b.(st := KeepaliveExpiry(cfg, env, b.st),
           due := b.due || (Ready(b.st.sk) && env.inDuration))
    case Flushes(now) => b.(st := AckDelayed(cfg, now, b.st))
  }

  /** The keepalive handler finds nothing in the way of a request. */
  predicate Ready(k: Sock) { k.state == Established && k.keepalive && k.sndUna == k.sndNxt }

  function Run(cfg: Config, b: Browser, es: seq<Event>): (r: Browser)
    requires Sane(b.parse)
    ensures Sane(r.parse)
    decreases |es|
  {
    if es == [] then b else Run(cfg, Step(cfg, b, es[0]), es[1..])
  }

  // ---------------------------------------------------------------- waiting on the ring

  /** An established client with keepalive and no response due has nothing outstanding and is on
      the keepalive ring. One whose request is acknowledged and whose response is still due is on no ring. */
  predicate Waits(b: Browser) {
    var k := b.st.sk;
    k.state == Established && k.keepalive ==>
      if b.due then k.sndUna == k.sndNxt ==> k.ring == NoRing else k.sndUna == k.sndNxt && k.ring == Keepalive
  }

  /** A response that goes on is half read. */
  lemma MoreIsHalfRead(f: Fields, data: seq<byte>)
    requires Sane(f)
    ensures var (r, v) := Received(f, data);
            && (v == More ==> r.state != Init) && (v != More ==> r.state == Init)
            && (r.keepalive ==> f.keepalive)
  {
    RunGoesOn(f, data);
    hide HttpParse.Run;
  }

  lemma RunGoesOn(f: Fields, data: seq<byte>)
    requires Sane(f)
    ensures var (g, v) := HttpParse.Run(f, data);
            && (v == More && f.state == Init ==> g.state != Init) && (g.keepalive ==> f.keepalive)
            && (v == More && f.state != Init ==> g.state != Init)
  {
    if InHeader(f.state) {
      HeadersSane(Opened(f), data);
      HeadersGoOn(Opened(f), data);
      var s := Headers(Opened(f), data);
      hide Headers;
      if s.Scan? { BodyGoesOn(s.fields, data[s.len..]); }
    } else {
      BodyGoesOn(f, data);
    }
  }

  lemma BodyGoesOn(f: Fields, data: seq<byte>)
    requires Sane(f)
    ensures var (g, v) := Body(f, data);
            (v == More && f.state != Init ==> g.state != Init) && g.keepalive == f.keepalive
  {
    if !f.counted && f.chunked && InChunks(f.state) { StaysInChunks(Parse(f.state, f.length), data); }
  }

  lemma {:induction false} HeadersGoOn(f: Fields, text: seq<byte>)
    requires f.state in {HeaderBegin, HeaderLineEnd}
    ensures var s := Headers(f, text);
            s.Scan? ==>
                s.fields.state in {HeaderBegin, HeaderLineEnd, HeaderDone} && (s.fields.keepalive ==> f.keepalive)
    decreases |text|
  {
    var n := LineLen(text);
    if n > 0 && !(f.state != HeaderBegin && Blank(text[..n])) {
      var s := HeaderLine(f, text[..n], text[n..]);
      if s.Scan? { HeadersGoOn(s.fields.(state := HeaderLineEnd), text[n..]); }
    }
  }

  // ---------------------------------------------------------------- what the handlers make of it

  lemma ReplyAck(cfg: Config, now: nat, st: St)
    requires !cfg.server && cfg.arith == Unbounded && st.pool == []
    ensures var r := Reply(cfg, now, st, ACK);
            && r.sk == st.sk.(flags := ACK) && r.pool == [] && r.stats.rsp == st.stats.rsp
            && r.sent == st.sent + [Segment(st.sk.sndUna, st.sk.rcvNxt, ACK, 0)]
  {
    hide Place;
  }

  /** A FIN of the client's own, or in answer to one. */
  lemma FinishWithFin(cfg: Config, now: nat, st: St, rx: Flags)
    requires Browses(cfg) && st.pool == [] && st.sk.state == Established && st.sk.sndUna == st.sk.sndNxt
    ensures var r := ClientFinish(cfg, now, st, rx, FIN_ACK);
            && r.sk.state == (if rx.fin then LastAck else FinWait1) && r.pool == [] && r.stats.rsp == st.stats.rsp
            && r.sent == st.sent + [Segment(st.sk.sndUna, st.sk.rcvNxt, FIN_ACK, 0)]
  {
    hide Place, Accurate;
  }

  lemma FinishWithAck(cfg: Config, now: nat, st: St, rx: Flags)
    requires Browses(cfg) && st.pool == [] && st.sk.state == Established && st.sk.sndUna == st.sk.sndNxt && rx.fin
    ensures var r := ClientFinish(cfg, now, st, rx, ACK);
            && r.sk.state == LastAck && r.pool == [] && r.stats.rsp == st.stats.rsp
            && r.sent == st.sent + [Segment(st.sk.sndUna, st.sk.rcvNxt, FIN_ACK, 0)]
  {
    hide Place, Accurate;
  }

  /** The count of segments of one response; beyond four it no longer matters. */
  function Up(frags: nat): nat { if frags < 4 then frags + 1 else frags }

  /** The next request is so far off that the acknowledgement is not left to it. */
  predicate AcksAtOnce(cfg: Config) { cfg.interval >= cfg.rto && !cfg.disableAck }

  /** What a parsed segment comes to, once it has been taken in `st`. */
  ghost predicate Comes(cfg: Config, st: St, rx: Flags, h: HttpOutcome, r: St) {
    && r.pool == [] && r.stats.rsp == st.stats.rsp + (if h.first then 1 else 0)
    && var alive := st.sk.keepalive && !h.closes;
       var fin := Segment(st.sk.sndUna, st.sk.rcvNxt, FIN_ACK, 0);
       if h.verdict == More then
         if rx.fin then r.sk.state == LastAck && r.sent == st.sent + [fin]
         else
           && r.sent == st.sent && r.sk.httpAck
           && r.sk == st.sk.(keepalive := alive, httpAck := true, httpFrags := Up(st.sk.httpFrags))
       else if h.verdict == End && alive && !rx.fin then
         && r.sent == st.sent && r.sk.state == Established && r.sk.keepalive && r.sk.ring == Keepalive
         && r.sk.sndUna == r.sk.sndNxt == st.sk.sndNxt && r.sk.rcvNxt == st.sk.rcvNxt && r.sk.requests == st.sk.requests
         && r.sk.httpFrags == 0 && (r.sk.httpAck <==> st.sk.httpFrags >= 2 || AcksAtOnce(cfg))
       else if cfg.fastClose then
         r.sk.state == Closed && r.sent == st.sent + [Segment(st.sk.sndUna, st.sk.rcvNxt, RST_ACK, 0)]
       else r.sk.state == (if rx.fin then LastAck else FinWait1) && r.sent == st.sent + [fin]
  }

  lemma ResetIs(cfg: Config, now: nat, st: St)
    requires Browses(cfg) && st.pool == [] && st.sk.state == Established && st.sk.sndUna == st.sk.sndNxt
    ensures var r := Close(Reply(cfg, now, st, RST_ACK));
            && r.sk.state == Closed && r.pool == [] && r.stats.rsp == st.stats.rsp
            && r.sent == st.sent + [Segment(st.sk.sndUna, st.sk.rcvNxt, RST_ACK, 0)]
  {
    hide Place, Accurate;
  }

  /** What the parser's answer does to the socket before anything is sent. */
  lemma HttpTakes(cfg: Config, env: Env, st: St, g: Segment, h: HttpOutcome)
    requires Browses(cfg) && st.pool == [] && st.sk.state == Established && st.sk.sndUna == st.sk.sndNxt
    ensures var (r, tx) := ClientTake(cfg, env, st, g, h);
            var alive := st.sk.keepalive && !h.closes;
            && r.pool == [] && r.sent == st.sent && r.stats.rsp == st.stats.rsp + (if h.first then 1 else 0)
            && r.sk.state == Established && r.sk.sndUna == r.sk.sndNxt == st.sk.sndNxt && r.sk.rcvNxt == st.sk.rcvNxt
            && (h.verdict == More ==>
                  tx == (if g.flags.fin then ACK else NONE)
                  && (!g.flags.fin ==>
                        r.sk == st.sk.(keepalive := alive, httpAck := true, httpFrags := Up(st.sk.httpFrags))))
            && (h.verdict == End && alive && !g.flags.fin ==>
                  && tx == NONE && r.sk.keepalive && r.sk.ring == Keepalive && r.sk.requests == st.sk.requests
                  && r.sk.httpFrags == 0 && (r.sk.httpAck <==> st.sk.httpFrags >= 2 || AcksAtOnce(cfg)))
            && (h.verdict != More && !(h.verdict == End && alive && !g.flags.fin) ==> tx == FIN_ACK)
  {
    hide Place, Accurate;
  }

  lemma DataComes(cfg: Config, env: Env, st: St, g: Segment, h: HttpOutcome)
    requires Browses(cfg) && st.pool == [] && st.sk.state == Established && st.sk.sndUna == st.sk.sndNxt
    ensures var (st1, tx) := ClientTake(cfg, env, st, g, h);
            var r := if tx.fin && cfg.fastClose then Close(Reply(cfg, env.now, st1, RST_ACK))
                     else ClientFinish(cfg, env.now, st1, g.flags, tx);
            Comes(cfg, st, g.flags, h, r)
  {
    HttpTakes(cfg, env, st, g, h);
    hide Reply, Place, Accurate, ClientFinish, ClientTake;
    var (st1, tx) := ClientTake(cfg, env, st, g, h);
    if tx == NONE {
      FinishNothing(cfg, env.now, st1, g.flags);
    } else if tx.fin {
      FinishWithFin(cfg, env.now, st1, g.flags);
      ResetIs(cfg, env.now, st1);
    } else {
      FinishWithAck(cfg, env.now, st1, g.flags);
    }
  }

  lemma FinishNothing(cfg: Config, now: nat, st: St, rx: Flags)
    requires st.sk.state == Established && !rx.fin
    ensures ClientFinish(cfg, now, st, rx, NONE) == st
  {
  }

  /** The expected segment is taken, and only its numbers and the timer change. */
  lemma Taking(cfg: Config, now: nat, st: St, g: Segment)
    requires Browses(cfg) && Parsed(st.sk, g)
    ensures var (r, ok) := CheckSequence(cfg, now, st, g);
            && ok && r.sent == st.sent && r.pool == st.pool && r.stats == st.stats
            && r.sk == st.sk.(retrans := 0, sndUna := g.ack, rcvNxt := g.seqno + g.Span(), ring := r.sk.ring)
            && r.sk.ring == (if st.sk.sndUna == st.sk.sndNxt then st.sk.ring else NoRing)
  {
    hide Place;
  }

  /** A response segment that reaches the parser, and what the handler makes of its answer. */
  lemma Arrival(cfg: Config, env: Env, st: St, g: Segment, h: HttpOutcome)
    requires Browses(cfg) && st.pool == [] && Parsed(st.sk, g)
    ensures Comes(cfg, CheckSequence(cfg, env.now, st, g).0, g.flags, h, Client(cfg, env, st, g, h))
  {
    Taking(cfg, env.now, st, g);
    var st1 := CheckSequence(cfg, env.now, st, g).0;
    DataComes(cfg, env, st1, g, h);
    hide CheckSequence, ClientTake, ClientFinish, Reply, Place, Comes;
  }

  lemma ParsedWaits(cfg: Config, env: Env, b: Browser, g: Segment, data: seq<byte>)
    requires Browses(cfg) && b.st.pool == [] && Sane(b.parse) && Parsed(b.st.sk, g) && Waits(b)
    ensures Waits(Hear(cfg, env, b, g, data)) && Hear(cfg, env, b, g, data).st.pool == []
  {
    var f := b.parse.(keepalive := b.st.sk.keepalive);
    var (r, h) := Heard(b, data);
    MoreIsHalfRead(f, data);
    Taking(cfg, env.now, b.st, g);
    Arrival(cfg, env, b.st, g, h);
    hide CheckSequence, Client, Received;
  }

  // ---------------------------------------------------------------- every other event

  /** Nothing new is outstanding; whatever is acknowledged leaves its ring. */
  predicate Lets(k: Sock, r: Sock) {
    && (k.sndUna == k.sndNxt ==> r.sndUna == r.sndNxt && r.ring == k.ring)
    && (k.sndUna != k.sndNxt && r.sndUna == r.sndNxt ==> r.ring == NoRing)
  }

  /** The segment does not reach the parser. */
  lemma OtherSegment(cfg: Config, env: Env, st: St, g: Segment)
    requires Browses(cfg) && st.pool == [] && !Parsed(st.sk, g)
    ensures var r := Client(cfg, env, st, g, HttpOutcome(More, false, false));
            && r.pool == []
            && (r.sk.state == Established ==>
                st.sk.state in {SynSent, Established} && r.sk.keepalive == st.sk.keepalive)
            && (r.sk.state == Established && st.sk.state == Established ==> Lets(st.sk, r.sk))
            && (r.sk.state == Established && st.sk.state == SynSent ==> r.sk.sndUna != r.sk.sndNxt)
  {
    if g.flags.rst {
      hide Place;
    } else if !g.flags.syn && g.flags.ack {
      OtherData(cfg, env, st, g);
      hide ClientData;
    } else if g.flags == SYN_ACK {
      OtherSynAck(cfg, env.now, st, g);
      hide ClientSynAck;
    }
  }

  lemma OtherSynAck(cfg: Config, now: nat, st: St, g: Segment)
    requires Browses(cfg) && st.pool == []
    ensures var r := ClientSynAck(cfg, now, st, g);
            && r.pool == []
            && (r.sk.state == Established ==>
                st.sk.state in {SynSent, Established} && r.sk.keepalive == st.sk.keepalive)
            && (r.sk.state == Established && st.sk.state == Established ==> Lets(st.sk, r.sk))
            && (r.sk.state == Established && st.sk.state == SynSent ==> r.sk.sndUna != r.sk.sndNxt)
  {
    hide Place, Accurate;
  }

  lemma OtherData(cfg: Config, env: Env, st: St, g: Segment)
    requires Browses(cfg) && st.pool == [] && !Parsed(st.sk, g) && !g.flags.syn && !g.flags.rst && g.flags.ack
    ensures var r := ClientData(cfg, env, st, g, HttpOutcome(More, false, false));
            && r.pool == []
            && (r.sk.state == Established ==> st.sk.state == Established && r.sk.keepalive == st.sk.keepalive)
            && (r.sk.state == Established ==> Lets(st.sk, r.sk))
  {
    CheckOther(cfg, env.now, st, g);
    hide CheckSequence, ClientFinish, ClientTake, Place;
    var (st1, ok) := CheckSequence(cfg, env.now, st, g);
    if ok { FinishOther(cfg, env.now, st1, g.flags); }
  }

  lemma CheckOther(cfg: Config, now: nat, st: St, g: Segment)
    requires Browses(cfg) && st.pool == []
    ensures var (r, ok) := CheckSequence(cfg, now, st, g);
            && r.pool == []
            && (r.sk.state == Established ==> st.sk.state == Established && r.sk.keepalive == st.sk.keepalive)
            && (r.sk.state == Established ==> Lets(st.sk, r.sk))
            && (ok && r.sk.state == Established ==> g.ack == st.sk.sndNxt && g.seqno == st.sk.rcvNxt)
  {
    hide Reply, Place;
    if st.sk.sndNxt != st.sk.sndUna {
      var st1 := st.(sk := st.sk.(retrans := (st.sk.retrans + 1) % 8));
      ReplyOpen(cfg, now, st1, st1.sk.flags);
    }
  }

  lemma ReplyOpen(cfg: Config, now: nat, st: St, f: Flags)
    requires st.pool == []
    ensures var r := Reply(cfg, now, st, f);
            && r.pool == [] && r.sk.state == st.sk.state && r.sk.keepalive == st.sk.keepalive
            && (st.sk.sndUna != st.sk.sndNxt ==> r.sk.sndUna != r.sk.sndNxt)
  {
    hide Place, Accurate, WireFlags, Advance;
  }

  lemma FinishOther(cfg: Config, now: nat, st: St, rx: Flags)
    requires Browses(cfg) && st.pool == []
    ensures var r := ClientFinish(cfg, now, st, rx, NONE);
            && r.pool == []
            && (r.sk.state == Established ==> r == st)
  {
    hide Reply, Place, ProcessFin;
    OtherFin(st, rx);
    var (st1, f) := if Rank(st.sk.state) > Rank(Established) || rx.fin then ProcessFin(st, rx, NONE) else (st, NONE);
    ReplyOpen(cfg, now, st1, f);
  }

  lemma OtherFin(st: St, rx: Flags)
    ensures var (r, f) := ProcessFin(st, rx, NONE);
            && r.pool == st.pool && (r.sk.state == Established ==> r == st && f == NONE && !rx.fin)
  {
    hide Place;
  }

  lemma RetransmitWaits(cfg: Config, b: Browser, now: nat)
    requires Browses(cfg) && b.st.pool == [] && Sane(b.parse) && Waits(b) && b.st.sk.ring == Retransmit
    ensures var q := Step(cfg, b, Retransmits(now)); Waits(q) && q.st.pool == []
  {
    hide Reply, Place;
    var st1 := Move(b.st, NoRing);
    var st2 := st1.(sk := st1.sk.(retrans := (st1.sk.retrans + 1) % 8));
    ReplyOpen(cfg, now, st2, st2.sk.flags);
  }

  /** The expiry brings the next request, or after the run, or without keepalive, a FIN. */
  lemma WakeIs(cfg: Config, env: Env, st: St)
    requires Browses(cfg) && st.pool == []
    ensures var r := KeepaliveExpiry(cfg, env, st);
            && r.pool == [] && r.stats.rsp == st.stats.rsp && (r.sk.state == Established ==> st.sk.state == Established)
            && (r.sk.keepalive ==> st.sk.keepalive) && r.sk.httpFrags == st.sk.httpFrags
                && r.sk.httpAck == st.sk.httpAck
            && (Ready(st.sk) && env.inDuration ==>
                  && r.sk.state == Established && r.sk.sndUna == st.sk.sndUna
                  && r.sk.sndNxt == st.sk.sndUna + cfg.dataLen && r.sk.rcvNxt == st.sk.rcvNxt
                  && r.sk.requests == (st.sk.requests + 1) % 0x8000
                  && (r.sk.keepalive <==> cfg.maxRequests == 0 || r.sk.requests < cfg.maxRequests)
                  && r.sent == st.sent + [Segment(st.sk.sndUna, st.sk.rcvNxt, PUSH_ACK, cfg.dataLen)])
            && (Ready(st.sk) && !env.inDuration ==>
                  r.sk.state == FinWait1 && r.sent == st.sent + [Segment(st.sk.sndUna, st.sk.rcvNxt, FIN_ACK, 0)])
            && (st.sk.state == Established && !st.sk.keepalive ==> r.sk.state == FinWait1)
            && (!Ready(st.sk) && r.sk.state == Established && r.sk.keepalive ==>
                  st.sk.sndUna != st.sk.sndNxt && r.sk.sndUna != r.sk.sndNxt)
  {
    hide Place, Accurate;
  }

  lemma WakeWaits(cfg: Config, b: Browser, env: Env)
    requires Browses(cfg) && b.st.pool == [] && Sane(b.parse) && Waits(b)
    ensures var q := Step(cfg, b, Wakes(env)); Waits(q) && q.st.pool == []
  {
    WakeIs(cfg, env, b.st);
    hide KeepaliveExpiry;
  }

  /** The delayed acknowledgement, if one is pending. */
  lemma FlushIs(cfg: Config, now: nat, st: St)
    requires Browses(cfg) && st.pool == []
    ensures var r := AckDelayed(cfg, now, st);
            && r.pool == [] && r.sk == st.sk.(httpAck := false, flags := r.sk.flags) && r.stats.rsp == st.stats.rsp
            && r.sent == st.sent + if st.sk.httpAck && st.sk.state == Established
                                   then [Segment(st.sk.sndUna, st.sk.rcvNxt, ACK, 0)] else []
  {
    hide Reply;
    if st.sk.httpAck { ReplyAck(cfg, now, st.(sk := st.sk.(httpAck := false))); }
  }

  lemma LaunchIs(cfg: Config, now: nat, st: St)
    requires Browses(cfg) && st.pool == [] && st.sk.state == Closed
    ensures var r := Launch(cfg, now, st);
            r.pool == [] && r.sk.state == SynSent && !r.sk.httpAck && r.sk.httpFrags == 0
  {
    hide Place, Accurate;
  }

  lemma StepWaits(cfg: Config, b: Browser, e: Event)
    requires Browses(cfg) && b.st.pool == [] && Sane(b.parse) && Waits(b)
    ensures var q := Step(cfg, b, e); Waits(q) && q.st.pool == []
  {
    match e {
      case Launches(now) => if b.st.sk.state == Closed { LaunchIs(cfg, now, b.st); hide Launch; }
      case Arrives(g, data, env) =>
        if Parsed(b.st.sk, g) {
          ParsedWaits(cfg, env, b, g, data);
          hide Hear;
        } else {
          OtherSegment(cfg, env, b.st, g);
          hide Client;
        }
      case Retransmits(now) => if b.st.sk.ring == Retransmit { RetransmitWaits(cfg, b, now); }
      case Wakes(env) => WakeWaits(cfg, b, env); hide Step;
      case Flushes(now) => FlushIs(cfg, now, b.st); hide AckDelayed;
    }
  }

  lemma {:induction false} RunWaits(cfg: Config, b: Browser, es: seq<Event>)
    requires Browses(cfg) && b.st.pool == [] && Sane(b.parse) && Waits(b)
    ensures Waits(Run(cfg, b, es))
    decreases |es|
  {
    if es != [] {
      StepWaits(cfg, b, es[0]);
      hide Step, Waits;
      RunWaits(cfg, Step(cfg, b, es[0]), es[1..]);
    }
  }

  /** In every run of an HTTP client that gets its packets, whatever segments arrive with whatever
      data: established with keepalive and nothing outstanding, it is on the keepalive ring if no
      response is due, and otherwise on no ring. */
  lemma IdleWaits(cfg: Config, b: Browser, es: seq<Event>)
    requires Browses(cfg) && b.st.pool == [] && b.st.sk.state == Closed && Sane(b.parse)
    ensures Waits(Run(cfg, b, es))
    ensures var q := Run(cfg, b, es);
            Ready(q.st.sk) ==> q.st.sk.ring == if q.due then NoRing else Keepalive
  {
    RunWaits(cfg, b, es);
    hide Run;
  }

  /** A request that is acknowledged before its response comes leaves the client to the server: from
      then on nothing but a segment moves it, whatever expires. */
  lemma AcknowledgedSleeps(cfg: Config, env: Env, b: Browser, es: seq<Event>)
    requires Browses(cfg) && b.st.pool == [] && Sane(b.parse) && !b.st.sk.httpAck
    requires b.st.sk.state == Established && b.st.sk.sndUna != b.st.sk.sndNxt
    requires forall i :: 0 <= i < |es| ==> !es[i].Arrives?
    ensures var q := Hear(cfg, env, b, Segment(b.st.sk.rcvNxt, b.st.sk.sndNxt, ACK, 0), []);
            && q.st.sk.state == Established && q.st.sk.ring == NoRing && q.st.sent == b.st.sent && q.due == b.due
            && Run(cfg, q, es) == q
  {
    AcknowledgedRests(cfg, env, b);
    hide Hear;
    StaysAsleep(cfg, Hear(cfg, env, b, Segment(b.st.sk.rcvNxt, b.st.sk.sndNxt, ACK, 0), []), es);
  }

  lemma AcknowledgedRests(cfg: Config, env: Env, b: Browser)
    requires Browses(cfg) && b.st.pool == [] && Sane(b.parse) && !b.st.sk.httpAck
    requires b.st.sk.state == Established && b.st.sk.sndUna != b.st.sk.sndNxt
    ensures var q := Hear(cfg, env, b, Segment(b.st.sk.rcvNxt, b.st.sk.sndNxt, ACK, 0), []);
            && q.st.sk.state == Established && q.st.sk.ring == NoRing && q.st.sent == b.st.sent && q.due == b.due
            && !q.st.sk.httpAck
  {
    hide Place, Reply;
  }

  lemma {:induction false} StaysAsleep(cfg: Config, q: Browser, es: seq<Event>)
    requires Sane(q.parse) && q.st.sk.state == Established && q.st.sk.ring == NoRing && !q.st.sk.httpAck
    requires forall i :: 0 <= i < |es| ==> !es[i].Arrives?
    ensures Run(cfg, q, es) == q
    decreases |es|
  {
    hide Hear, Launch, RetransmitExpiry, KeepaliveExpiry;
    if es != [] { StaysAsleep(cfg, q, es[1..]); }
  }

  // ---------------------------------------------------------------- whole responses

  /** The next segment of the response, with the numbers the client expects. */
  function NextOf(k: Sock, data: seq<byte>): Segment { Segment(k.rcvNxt, k.sndNxt, PUSH_ACK, |data|) }

  function Feed(cfg: Config, env: Env, b: Browser, segs: seq<seq<byte>>): (r: Browser)
    requires Sane(b.parse)
    ensures Sane(r.parse)
    decreases |segs|
  {
    if segs == [] then b else Feed(cfg, env, Hear(cfg, env, b, NextOf(b.st.sk, segs[0]), segs[0]), segs[1..])
  }

  /** Established, asked, and with keepalive in the socket and the parser alike. */
  ghost predicate Asked(cfg: Config, b: Browser) {
    && Browses(cfg) && b.st.pool == [] && Sane(b.parse) && b.parse.keepalive
    && b.st.sk.state == Established && b.st.sk.keepalive
  }

  /** A segment of a response that goes on, or ends, without a word. */
  lemma HearsOne(cfg: Config, env: Env, b: Browser, data: seq<byte>)
    requires Asked(cfg, b) && data != []
    requires HttpParse.Run(b.parse, data).1 != Error && HttpParse.Run(b.parse, data).0.keepalive
    ensures var q := Hear(cfg, env, b, NextOf(b.st.sk, data), data);
            var (g, v) := HttpParse.Run(b.parse, data);
            && Asked(cfg, q) && q.st.sent == b.st.sent && q.st.sk.requests == b.st.sk.requests
            && q.st.stats.rsp == b.st.stats.rsp + (if b.parse.state == Init then 1 else 0)
            && (v == More ==> q.parse == g && g.state != Init && q.st.sk.httpFrags == Up(b.st.sk.httpFrags))
            && (v == End ==>
                  && q.parse == Anew(true) && Ready(q.st.sk) && q.st.sk.ring == Keepalive && q.st.sk.httpFrags == 0
                  && (q.st.sk.httpAck <==> b.st.sk.httpFrags >= 2 || AcksAtOnce(cfg)))
  {
    var g := NextOf(b.st.sk, data);
    var (f, h) := Heard(b, data);
    assert b.parse.(keepalive := b.st.sk.keepalive) == b.parse;
    RunGoesOn(b.parse, data);
    Taking(cfg, env.now, b.st, g);
    Arrival(cfg, env, b.st, g, h);
    ReceivedSane(b.parse, data);
    hide CheckSequence, Client, HttpParse.Run;
  }

  lemma ReceivedSane(f: Fields, data: seq<byte>)
    requires Sane(f)
    ensures Sane(Received(f, data).0)
  {
  }

  /** Segments that end with their last one, and leave keepalive, are heard without a word. */
  lemma {:induction false} HearsAll(cfg: Config, env: Env, b: Browser, segs: seq<seq<byte>>)
    requires Asked(cfg, b) && segs != [] && forall s :: s in segs ==> s != []
    requires RunSegments(b.parse, segs[..|segs| - 1]).1 == More && RunSegments(b.parse, segs).1 == End
    requires RunSegments(b.parse, segs).0.keepalive
    ensures var q := Feed(cfg, env, b, segs);
            && Asked(cfg, q) && q.st.sent == b.st.sent && q.st.sk.requests == b.st.sk.requests
            && q.st.stats.rsp == b.st.stats.rsp + (if b.parse.state == Init then 1 else 0)
            && q.parse == Anew(true) && Ready(q.st.sk) && q.st.sk.ring == Keepalive && q.st.sk.httpFrags == 0
            && (q.st.sk.httpAck <==> b.st.sk.httpFrags + |segs| >= 3 || AcksAtOnce(cfg))
    decreases |segs|
  {
    var d := segs[0];
    assert d in segs;
    var (g, v) := HttpParse.Run(b.parse, d);
    if |segs| == 1 {
      assert segs[1..] == [];
      HearsOne(cfg, env, b, d);
      hide Hear;
    } else {
      assert segs[..|segs| - 1][1..] == segs[1..][..|segs| - 2];
      KeepaliveOnly(g, segs[1..]);
      assert forall s :: s in segs[1..] ==> s in segs;
      hide HttpParse.Run, Hear;
      HearsOne(cfg, env, b, d);
      HearsAll(cfg, env, Hear(cfg, env, b, NextOf(b.st.sk, d), d), segs[1..]);
    }
  }

  /** The parser only ever clears keepalive. */
  lemma {:induction false} KeepaliveOnly(f: Fields, segs: seq<seq<byte>>)
    requires Sane(f)
    ensures RunSegments(f, segs).0.keepalive ==> f.keepalive
    decreases |segs|
  {
    if segs != [] {
      RunGoesOn(f, segs[0]);
      hide HttpParse.Run;
      KeepaliveOnly(HttpParse.Run(f, segs[0]).0, segs[1..]);
    }
  }

  /** A valid response that does not say close leaves keepalive as it was. */
  lemma EndsAlive(m: Response, segs: seq<seq<byte>>)
    requires ValidResponse(m) && CutOf(m, segs) && !Says(m.lines, CloseLine)
    ensures RunSegments(Anew(true), segs).0.keepalive
  {
    FramingIff(Opened(Anew(true)), m.lines);
    Framed(true, m);
    var first := BodyOfCut(m, segs);
    BlockOf(m);
    hide Fold, Says, CountSegments, EatAll, RunSegments, Concat, Lens, Text, ValidResponse, CutOf;
    ResponseIs(true, m.lines, m.end, first, segs[1..]);
  }

  lemma BlockOf(m: Response)
    requires ValidResponse(m)
    ensures Block(m.lines, m.end)
  {
  }

  /** The response is fed to the client, and then the keepalive timer expires. */
  function Round(cfg: Config, env: Env, b: Browser, segs: seq<seq<byte>>): (r: Browser)
    requires Sane(b.parse)
    ensures Sane(r.parse)
  {
    Step(cfg, Feed(cfg, env, b, segs), Wakes(env))
  }

  /** One response was counted, and request `g` sent. */
  predicate Goes(cfg: Config, b: Browser, q: Browser, g: Segment) {
    && q.parse == Anew(true) && q.st.pool == [] && q.st.sk.state == Established && q.due
    && q.st.stats.rsp == b.st.stats.rsp + 1 && q.st.sk.requests == (b.st.sk.requests + 1) % 0x8000
    && (q.st.sk.keepalive <==> cfg.maxRequests == 0 || q.st.sk.requests < cfg.maxRequests)
    && q.st.sent == b.st.sent + [g] && g.flags == PUSH_ACK && g.len == cfg.dataLen
    && q.st.sk.httpFrags == 0
  }

  lemma Woken(cfg: Config, env: Env, b: Browser, fed: Browser) returns (g: Segment)
    requires Browses(cfg) && fed.st.pool == [] && fed.parse == Anew(true) && env.inDuration
    requires Ready(fed.st.sk) && fed.st.sk.ring == Keepalive && fed.st.sent == b.st.sent
    requires fed.st.stats.rsp == b.st.stats.rsp + 1 && fed.st.sk.requests == b.st.sk.requests
    requires fed.st.sk.httpFrags == 0
    ensures Goes(cfg, b, Step(cfg, fed, Wakes(env)), g)
  {
    g := Segment(fed.st.sk.sndUna, fed.st.sk.rcvNxt, PUSH_ACK, cfg.dataLen);
    WakeIs(cfg, env, fed.st);
    hide KeepaliveExpiry;
  }

  /** One response and the expiry behind it: one response counted, one request sent. */
  lemma OneRound(cfg: Config, env: Env, b: Browser, m: Response, segs: seq<seq<byte>>) returns (g: Segment)
    requires Asked(cfg, b) && b.parse == Anew(true) && env.inDuration
    requires ValidResponse(m) && CutOf(m, segs) && !Says(m.lines, CloseLine) && b.st.sk.httpFrags == 0
    ensures Goes(cfg, b, Round(cfg, env, b, segs), g)
    ensures Feed(cfg, env, b, segs).st.sk.httpAck <==> |segs| >= 3 || AcksAtOnce(cfg)
  {
    ResponseEnds(true, m, segs);
    hide ValidResponse, CutOf, RunSegments, Feed, Goes, Says, Step;
    EndsAlive(m, segs);
    CutNotEmpty(m, segs);
    HearsAll(cfg, env, b, segs);
    g := Woken(cfg, env, b, Feed(cfg, env, b, segs));
  }

  lemma CutNotEmpty(m: Response, segs: seq<seq<byte>>)
    requires CutOf(m, segs)
    ensures segs != [] && forall s :: s in segs ==> s != []
  {
  }

  function Rounds(cfg: Config, env: Env, b: Browser, cuts: seq<seq<seq<byte>>>): (r: Browser)
    requires Sane(b.parse)
    ensures Sane(r.parse)
    decreases |cuts|
  {
    if cuts == [] then b else Rounds(cfg, env, Round(cfg, env, b, cuts[0]), cuts[1..])
  }

  predicate Requests(cfg: Config, sent: seq<Segment>) {
    forall g :: g in sent ==> g.flags == PUSH_ACK && g.len == cfg.dataLen
  }

  /** Valid responses that keep the connection, cut behind their header blocks in any way, each
      followed by the keepalive expiry: the client counts each once and sends one request for
      each, and nothing else, no FIN in particular; it goes on waiting for the next response. */
  lemma {:induction false} RequestForResponse(cfg: Config, env: Env, b: Browser, ms: seq<Response>,
                                              cuts: seq<seq<seq<byte>>>) returns (asked: seq<Segment>)
    requires Asked(cfg, b) && b.parse == Anew(true) && env.inDuration && |ms| == |cuts|
    requires forall i :: 0 <= i < |ms| ==>
               ValidResponse(ms[i]) && CutOf(ms[i], cuts[i]) && !Says(ms[i].lines, CloseLine)
    requires cfg.maxRequests > 0 ==> b.st.sk.requests + |ms| <= cfg.maxRequests <= 0x7fff
    requires b.st.sk.httpFrags == 0
    ensures |asked| == |ms| && Requests(cfg, asked)
    ensures var q := Rounds(cfg, env, b, cuts);
            && q.st.sent == b.st.sent + asked && q.st.stats.rsp == b.st.stats.rsp + |ms|
            && q.st.sk.state == Established && q.parse == Anew(true) && (ms != [] ==> q.due)
            && (cfg.maxRequests == 0 || b.st.sk.requests + |ms| < cfg.maxRequests ==> q.st.sk.keepalive)
    decreases |ms|
  {
    hide *;
    asked := [];
    if ms == [] {
      NoRound(cfg, env, b, cuts);
    } else {
      AskedIsSane(cfg, b);
      var g := OneRound(cfg, env, b, ms[0], cuts[0]);
      var q := Round(cfg, env, b, cuts[0]);
      GoesOn(cfg, b, q, g, |ms|);
      FirstRound(cfg, env, b, cuts);
      var more := [];
      if |ms| == 1 {
        NoMoreRounds(cfg, env, q, cuts[1..]);
      } else {
        more := RequestForResponse(cfg, env, q, ms[1..], cuts[1..]);
      }
      asked := [g] + more;
      AskedMore(cfg, g, more);
    }
  }

  lemma AskedIsSane(cfg: Config, b: Browser)
    requires Asked(cfg, b)
    ensures Sane(b.parse)
  {
  }

  lemma NoRound(cfg: Config, env: Env, b: Browser, cuts: seq<seq<seq<byte>>>)
    requires Asked(cfg, b) && cuts == []
    ensures Rounds(cfg, env, b, cuts) == b && b.st.sk.state == Established && b.st.sk.keepalive && Requests(cfg, [])
  {
  }

  lemma NoMoreRounds(cfg: Config, env: Env, b: Browser, cuts: seq<seq<seq<byte>>>)
    requires Sane(b.parse) && cuts == []
    ensures Rounds(cfg, env, b, cuts) == b && Requests(cfg, [])
  {
  }

  lemma FirstRound(cfg: Config, env: Env, b: Browser, cuts: seq<seq<seq<byte>>>)
    requires Sane(b.parse) && cuts != []
    ensures Rounds(cfg, env, b, cuts) == Rounds(cfg, env, Round(cfg, env, b, cuts[0]), cuts[1..])
  {
    hide Round;
  }

  lemma AskedMore(cfg: Config, g: Segment, more: seq<Segment>)
    requires Requests(cfg, more) && g.flags == PUSH_ACK && g.len == cfg.dataLen
    ensures Requests(cfg, [g] + more)
  {
  }

  /** After a round the next one can begin, unless that was the last request allowed. */
  lemma GoesOn(cfg: Config, b: Browser, q: Browser, g: Segment, n: nat)
    requires Asked(cfg, b) && Goes(cfg, b, q, g) && n > 0
    requires cfg.maxRequests > 0 ==> b.st.sk.requests + n <= cfg.maxRequests <= 0x7fff
    ensures Sane(b.parse) && q.parse == Anew(true) && q.due && q.st.sk.state == Established && q.st.sk.httpFrags == 0
    ensures q.st.sent == b.st.sent + [g] && g.flags == PUSH_ACK && g.len == cfg.dataLen
    ensures q.st.stats.rsp == b.st.stats.rsp + 1
    ensures cfg.maxRequests > 0 ==> q.st.sk.requests == b.st.sk.requests + 1
    ensures cfg.maxRequests == 0 || b.st.sk.requests + 1 < cfg.maxRequests ==> Asked(cfg, q) && q.st.sk.keepalive
  {
  }
}
