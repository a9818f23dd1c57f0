/** One TCP socket of dperf as a value, and every TCP handler as a function from
    state to state. The mutable sockets of Endpoint.dfy are proved to compute
    exactly these functions. Fields are in host byte order. */
module Tcp {
  import opened Rings
  import opened Verdicts

  const RETRANSMIT_NUM_MAX: nat := 4
  const SEND_WINDOW_MAX: nat := 16
  const TWO32: int := 0x1_0000_0000
  const TWO31: int := 0x8000_0000

  // ---------------------------------------------------------------- data model

  datatype State =
    | Closed | Listen | SynSent | SynReceived | Established | CloseWait
    | FinWait1 | Closing | LastAck | FinWait2 | TimeWait

  /** Position in the C enumeration: the code compares states with < and >. */
  function Rank(s: State): nat {
    match s
    case Closed => 0
    case Listen => 1
    case SynSent => 2
    case SynReceived => 3
    case Established => 4
    case CloseWait => 5
    case FinWait1 => 6
    case Closing => 7
    case LastAck => 8
    case FinWait2 => 9
    case TimeWait => 10
  }

  datatype Flags = Flags(syn: bool, fin: bool, rst: bool, push: bool, ack: bool, urg: bool) {
    function Or(o: Flags): Flags {
      Flags(syn || o.syn, fin || o.fin, rst || o.rst, push || o.push, ack || o.ack, urg || o.urg)
    }
  }

  const NONE := Flags(false, false, false, false, false, false)
  const SYN := NONE.(syn := true)
  const ACK := NONE.(ack := true)
  const SYN_ACK := ACK.(syn := true)
  const FIN_ACK := ACK.(fin := true)
  const RST_ACK := ACK.(rst := true)
  const PUSH_ACK := ACK.(push := true)
  const PUSH_ACK_FIN := PUSH_ACK.(fin := true)
  const PUSH_ACK_URG := PUSH_ACK.(urg := true)

  /** Sequence arithmetic: the code's 32-bit one, or unbounded numbers for
      reasoning about a network that may replay arbitrarily old segments. */
  datatype Arith = Wrap32 | Unbounded

  function Add(ar: Arith, a: int, n: int): int {
    if ar == Wrap32 then (a + n) % TWO32 else a + n
  }

  /** `(int)(a - b)`. */
  function Diff(ar: Arith, a: int, b: int): int {
    if ar == Unbounded then a - b
    else var d := (a - b) % TWO32; if d < TWO31 then d else d - TWO32
  }

  datatype Segment = Segment(seqno: int, ack: int, flags: Flags, len: nat) {
    /** Sequence numbers the segment occupies. */
    function Span(): nat { len + (if flags.syn then 1 else 0) + (if flags.fin then 1 else 0) }
  }

  datatype Config = Config(
    arith: Arith,
    server: bool,
    sendWindow: nat,   // bytes; 0 is stop-and-wait
    dataLen: nat,      // payload bytes of one data packet
    payload: nat,      // payload_size of this worker
    interval: nat,     // keepalive_request_interval, in ticks of the clock
    rto: nat,          // retransmit_timeout
    second: nat,       // TSC_PER_SEC
    maxRequests: nat,  // keepalive_request_num, 0 is no limit
    keepalive: bool,
    fastClose: bool,
    disableAck: bool,
    flood: bool,
    http: bool)

  /** What a handler reads of the outside: the clock and whether the run is still on. */
  datatype Env = Env(now: nat, inDuration: bool)

  datatype Sock = Sock(
    id: nat, state: State,
    rcvNxt: int, sndNxt: int, sndUna: int,
    flags: Flags, retrans: nat, keepalive: bool, requests: nat,
    timer: nat, ring: Ring, laddr: nat,
    sndWindow: nat, sndMax: int, httpAck: bool, httpFrags: nat)

  datatype Stats = Stats(open: int, close: int, current: int, error: int, req: int, rsp: int, udp: int)

  /** A socket together with what its handlers touch in the worker: the rings,
      the counters, the segments handed to the transmit queue, and the answers
      the packet pool will still give (an exhausted list answers yes). */
  datatype St = St(sk: Sock, rings: Rings, stats: Stats, sent: seq<Segment>, pool: seq<bool>)

  /** Outcome of http_parse_run on one segment. `closes`: a Connection header
      cleared keepalive. `first`: the segment opened a response. */
  datatype HttpOutcome = HttpOutcome(verdict: Verdict, closes: bool, first: bool)

  // ---------------------------------------------------------------- timers

  /** socket_add_timer, and socket_node_del when `r` is NoRing. */
  function Move(st: St, r: Ring): St {
    st.(sk := st.sk.(ring := r), rings := Place(st.rings, st.sk.id, r))
  }

  function AddTimer(st: St, r: Ring, tsc: nat): St {
    Move(st.(sk := st.sk.(timer := tsc)), r)
  }

  /** socket_accurate_timer_tsc: `timer` advanced by whole intervals towards `now`. */
  function Accurate(interval: nat, timer: nat, now: nat): nat {
    if now <= timer + interval then timer
    else if now <= timer + 2 * interval then timer + interval
    else if now <= timer + 3 * interval then timer + 2 * interval
    else if now > interval then now - interval else now
  }

  function StartKeepalive(cfg: Config, st: St, now: nat): St {
    if st.sk.keepalive && st.sk.sndNxt == st.sk.sndUna
    then AddTimer(st, Keepalive, Accurate(cfg.interval, st.sk.timer, now)) else st
  }

  function StartRetransmit(st: St, now: nat): St {
    if st.sk.sndNxt != st.sk.sndUna then AddTimer(st, Retransmit, now) else st
  }

  function StartTimeout(st: St, now: nat): St { AddTimer(st, Timeout, now) }

  function StopRetransmit(st: St): St {
    var st1 := st.(sk := st.sk.(retrans := 0));
    if st1.sk.sndNxt == st1.sk.sndUna then Move(st1, NoRing) else st1
  }

  // ---------------------------------------------------------------- sockets

  function Close(st: St): St {
    if st.sk.state == Closed then st
    else
      var st1 := Move(st.(sk := st.sk.(state := Closed)), NoRing);
      st1.(stats := st1.stats.(close := st1.stats.close + 1, current := st1.stats.current - 1))
  }

  function CountOpen(s: Stats): Stats { s.(open := s.open + 1, current := s.current + 1) }

  function CountError(s: Stats): Stats { s.(error := s.error + 1) }

  function ServerOpen(cfg: Config, st: St, g: Segment): St {
    var st1 := if st.sk.state != SynReceived
               then st.(sk := st.sk.(state := SynReceived), stats := CountOpen(st.stats)) else st;
    var st2 := Move(st1, NoRing);
    var iss := Add(cfg.arith, st2.sk.sndNxt, 1);
    st2.(sk := st2.sk.(retrans := 0, requests := 0, sndNxt := iss, sndUna := iss, sndWindow := 1,
                       rcvNxt := Add(cfg.arith, g.seqno, 1)))
  }

  /** socket_client_open on a closed socket the pool handed out. */
  function ClientOpen(cfg: Config, st: St, now: nat): St
    requires st.sk.state == Closed
  {
    var iss := Add(cfg.arith, st.sk.sndNxt, 1);
    st.(sk := st.sk.(timer := now, retrans := 0, requests := 0, keepalive := cfg.keepalive,
                     sndNxt := iss, sndUna := iss, rcvNxt := 0, state := SynSent,
                     httpAck := false, httpFrags := 0),
        stats := CountOpen(st.stats))
  }

  // ---------------------------------------------------------------- sending

  function DataLen(cfg: Config, f: Flags): nat {
    if f.syn then 0 else if f.push then cfg.dataLen else 0
  }

  /** URG marks a middle packet of a burst: it leaves without URG and PUSH. */
  function WireFlags(f: Flags): Flags {
    if !f.syn && f.push && f.urg then f.(push := false, urg := false) else f
  }

  /** How far snd_nxt moves when the segment is new. */
  function Advance(cfg: Config, f: Flags): nat {
    DataLen(cfg, f) + (if f.fin || f.syn then 1 else 0)
  }

  /** tcp_new_packet: every segment starts at snd_una; snd_nxt moves only when nothing is outstanding. */
  function NewPacket(cfg: Config, st: St, f: Flags): St {
    var yes := st.pool == [] || st.pool[0];
    var st1 := st.(pool := if st.pool == [] then [] else st.pool[1..]);
    if !yes then st1
    else
      var sk := if st.sk.sndNxt == st.sk.sndUna
                then st.sk.(sndNxt := Add(cfg.arith, st.sk.sndNxt, Advance(cfg, f))) else st.sk;
      st1.(sk := sk, sent := st1.sent + [Segment(sk.sndUna, sk.rcvNxt, WireFlags(f), DataLen(cfg, f))])
  }

  function Reply(cfg: Config, now: nat, st: St, f: Flags): St {
    var st1 := st.(sk := st.sk.(flags := f),
                   stats := if !f.push then st.stats
                            else if !cfg.server then st.stats.(req := st.stats.req + 1)
                            else if cfg.sendWindow == 0 then st.stats.(rsp := st.stats.rsp + 1)
                            else st.stats);
    var st2 := NewPacket(cfg, st1, f);
    if st2.sk.state == Closed then st2
    else if f.push || f.syn || f.fin then
      var t := if !cfg.server && st2.sk.keepalive then Accurate(cfg.interval, st2.sk.timer, now) else now;
      if cfg.sendWindow == 0 then StartRetransmit(st2, t) else st2
    else if cfg.server && cfg.sendWindow == 0 then StartTimeout(st2, now)
    else st2
  }

  /** Send data from snd_una again, leaving snd_nxt where it was. */
  function ResendFirst(cfg: Config, now: nat, st: St): St {
    var r := Reply(cfg, now, st.(sk := st.sk.(sndNxt := st.sk.sndUna)), PUSH_ACK);
    r.(sk := r.sk.(sndNxt := st.sk.sndNxt, sndWindow := 1))
  }

  function DoRetransmit(cfg: Config, now: nat, st: St): St {
    if st.sk.sndNxt == st.sk.sndUna then st.(sk := st.sk.(retrans := 0))
    else if st.sk.laddr == 0 then Close(st)
    else
      var st1 := st.(sk := st.sk.(retrans := (st.sk.retrans + 1) % 8));
      if st1.sk.retrans < RETRANSMIT_NUM_MAX then
        if cfg.sendWindow > 0 && st1.sk.flags.push
        then StartRetransmit(ResendFirst(cfg, now, st1), now)
        else Reply(cfg, now, st1, st1.sk.flags)
      else Close(st1.(stats := CountError(st1.stats)))
  }

  // ---------------------------------------------------------------- handshake

  function ServerSyn(cfg: Config, now: nat, st: St, g: Segment): St {
    var st1 := if st.sk.state == TimeWait then st.(sk := st.sk.(state := Closed)) else st;
    if st1.sk.state == Closed then Reply(cfg, now, ServerOpen(cfg, st1, g), SYN_ACK)
    else if st1.sk.state == SynReceived && st1.sk.timer + cfg.second < now
    then Reply(cfg, now, st1, SYN_ACK)
    else st1
  }

  function ClientSynAck(cfg: Config, now: nat, st: St, g: Segment): St {
    if st.sk.state == SynSent then
      if g.ack != st.sk.sndNxt then st
      else
        Reply(cfg, now,
              st.(sk := st.sk.(rcvNxt := Add(cfg.arith, g.seqno, 1), sndUna := g.ack, state := Established)),
              PUSH_ACK)
    else if st.sk.state == Established && g.ack == st.sk.sndNxt && Add(cfg.arith, g.seqno, 1) == st.sk.rcvNxt
    then Reply(cfg, now, st, ACK)
    else st
  }

  // ---------------------------------------------------------------- sequence check

  function Grow(sk: Sock): Sock {
    if sk.sndWindow < SEND_WINDOW_MAX then sk.(sndWindow := sk.sndWindow + 1) else sk
  }

  /** A segment whose numbers are both the expected ones, on an open socket. */
  function Accept(cfg: Config, st: St, g: Segment): St {
    var sk := st.sk.(retrans := 0, sndUna := g.ack,
                     rcvNxt := Add(cfg.arith, g.seqno, g.len + if g.flags.fin then 1 else 0));
    if cfg.sendWindow > 0 then st.(sk := Grow(sk))
    else if st.sk.sndUna != g.ack then StopRetransmit(st.(sk := sk))
    else st.(sk := sk)
  }

  /** The third acknowledgement of the same byte resends it. */
  function DupAck(cfg: Config, now: nat, st: St): St {
    var st1 := st.(sk := st.sk.(retrans := (st.sk.retrans + 1) % 8));
    if st1.sk.retrans < 3 then st1
    else var r := ResendFirst(cfg, now, st1); r.(sk := r.sk.(retrans := 0))
  }

  /** An acknowledgement of nothing unsent, on a segment that is not the expected one. */
  function CheckOld(cfg: Config, now: nat, st: St, ack: int): (St, bool) {
    var sk := st.sk;
    if cfg.sendWindow > 0 then
      if Diff(cfg.arith, ack, sk.sndUna) > 0 then (st.(sk := Grow(sk.(sndUna := ack)).(retrans := 0)), true)
      else if ack == sk.sndUna then (DupAck(cfg, now, st), false)
      else (st, false)
    else if sk.timer + cfg.second < now then (DoRetransmit(cfg, now, st), false)
    else (st, false)
  }

  /** tcp_check_sequence. The last test of the C function (an acknowledgement
      equal to snd_nxt after one that is not above it) can never succeed and has
      no counterpart here. */
  function CheckSequence(cfg: Config, now: nat, st: St, g: Segment): (St, bool) {
    var sk := st.sk;
    if g.ack == sk.sndNxt && g.seqno == sk.rcvNxt then
      if sk.state == Closed then (st.(sk := sk.(retrans := 0)), false)
      else (Accept(cfg, st, g), true)
    else if sk.state == FinWait1 && g.flags.fin && g.len == 0 && g.ack == sk.sndUna && g.seqno == sk.rcvNxt then
      (st.(sk := sk.(rcvNxt := Add(cfg.arith, g.seqno, 1), state := Closing)), true)
    else if sk.state == Closed then (st, false)
    else if Diff(cfg.arith, g.ack, sk.sndNxt) <= 0 then CheckOld(cfg, now, st, g.ack)
    else (st, false)
  }

  /** tcp_process_fin: the new state and the flags to send. */
  function ProcessFin(st: St, rx: Flags, tx: Flags): (St, Flags) {
    match st.sk.state
    case Established =>
      if rx.fin then (st.(sk := st.sk.(state := LastAck)), tx.Or(FIN_ACK))
      else if tx.fin then (st.(sk := st.sk.(state := FinWait1)), tx.Or(FIN_ACK))
      else (st, tx)
    case FinWait1 =>
      if rx.fin then (Close(st), tx.Or(ACK))
      else (st.(sk := st.sk.(state := FinWait2)), tx)
    case Closing => (st.(sk := st.sk.(state := LastAck)), tx.Or(FIN_ACK))
    case LastAck => (Close(st), tx)
    case FinWait2 => if rx.fin then (Close(st), tx.Or(ACK)) else (st, tx)
    case _ => (st, tx)
  }

  // ---------------------------------------------------------------- server data

  /** The burst of tcp_reply_more: at most `k` more packets, each sent with
      snd_una moved up to snd_nxt. */
  function Burst(cfg: Config, now: nat, st: St, limit: int, max: int, k: nat): St
    decreases k
  {
    if k > 0 && Diff(cfg.arith, st.sk.sndNxt, limit) < 0 && Diff(cfg.arith, st.sk.sndNxt, max) < 0
    then Burst(cfg, now, Reply(cfg, now, st.(sk := st.sk.(sndUna := st.sk.sndNxt)), PUSH_ACK_URG), limit, max, k - 1)
    else st
  }

  function ReplyMore(cfg: Config, now: nat, st: St): St {
    var una := st.sk.sndUna;
    var b := Burst(cfg, now, st, Add(cfg.arith, una, cfg.sendWindow), st.sk.sndMax, st.sk.sndWindow);
    var st1 := b.(sk := b.sk.(sndUna := una));
    if una != st.sk.sndMax then st1
    else if st1.sk.keepalive then StartTimeout(st1, now)
    else Reply(cfg, now, st1.(sk := st1.sk.(state := FinWait1)), FIN_ACK)
  }

  /** A request in windowed mode: the response may now run up to snd_max. */
  function OpenResponse(cfg: Config, st: St): St {
    st.(sk := st.sk.(sndMax := Add(cfg.arith, st.sk.sndNxt, cfg.payload), httpAck := false),
        stats := st.stats.(rsp := st.stats.rsp + 1))
  }

  function ServeWindowed(cfg: Config, now: nat, st: St): St {
    var st1 := OpenResponse(cfg, st);
    var st2 := if st1.sk.requests != 0 then ReplyMore(cfg, now, st1)
               else var r := Reply(cfg, now, st1, PUSH_ACK); r.(sk := r.sk.(requests := 1));
    StartRetransmit(st2, now)
  }

  function ServerFinish(cfg: Config, now: nat, st: St, rx: Flags, tx: Flags): St {
    var (st1, f) := if Rank(st.sk.state) > Rank(Established) || rx.fin || tx.fin
                    then ProcessFin(st, rx, tx) else (st, tx);
    if f != NONE then Reply(cfg, now, st1, f)
    else if st1.sk.state != Closed then StartTimeout(st1, now)
    else st1
  }

  function ServerData(cfg: Config, now: nat, st: St, g: Segment): St {
    var (st1, ok) := CheckSequence(cfg, now, st, g);
    if !ok then st1
    else
      var st2 := if Rank(st1.sk.state) < Rank(Established)
                 then st1.(sk := st1.sk.(state := Established)) else st1;
      if st2.sk.state != Established then ServerFinish(cfg, now, st2, g.flags, NONE)
      else if g.len > 0 then
        var st3 := st2.(stats := st2.stats.(req := st2.stats.req + 1));
        if cfg.sendWindow > 0 && !g.flags.fin then ServeWindowed(cfg, now, st3)
        else ServerFinish(cfg, now, st3, g.flags, if st3.sk.keepalive then PUSH_ACK else PUSH_ACK_FIN)
      else if cfg.sendWindow > 0 && !g.flags.fin then ReplyMore(cfg, now, st2)
      else ServerFinish(cfg, now, st2, g.flags, NONE)
  }

  // ---------------------------------------------------------------- client data

  function SendKeepaliveRequest(cfg: Config, env: Env, st: St): St {
    if env.inDuration then
      var r := Reply(cfg, env.now, st.(sk := st.sk.(requests := (st.sk.requests + 1) % 0x8000)), PUSH_ACK);
      if cfg.maxRequests > 0 && r.sk.requests >= cfg.maxRequests
      then r.(sk := r.sk.(keepalive := false)) else r
    else
      var r := Reply(cfg, env.now, st.(sk := st.sk.(state := FinWait1)), FIN_ACK);
      r.(sk := r.sk.(keepalive := false))
  }

  function InitHttp(sk: Sock): Sock { sk.(httpAck := false, httpFrags := 0) }

  /** The end of a response. */
  function HttpEnd(cfg: Config, now: nat, st: St, rxFin: bool): (St, Flags) {
    var frags := st.sk.httpFrags;
    var st1 := st.(sk := InitHttp(st.sk));
    if st1.sk.keepalive && !rxFin then
      var st2 := if frags >= 2 || (cfg.interval >= cfg.rto && !cfg.disableAck)
                 then st1.(sk := st1.sk.(httpAck := true)) else st1;
      (StartKeepalive(cfg, st2, now), NONE)
    else (st1, FIN_ACK)
  }

  /** http_client_process_data, given what the parser said. A full list of
      delayed acknowledgements is flushed as an event of its own. */
  function HttpData(cfg: Config, now: nat, st: St, rxFin: bool, h: HttpOutcome): (St, Flags) {
    var st0 := st.(sk := if h.closes then st.sk.(keepalive := false) else st.sk,
                   stats := if h.first then st.stats.(rsp := st.stats.rsp + 1) else st.stats);
    match h.verdict
    case More =>
      var sk := if st0.sk.httpFrags < 4 then st0.sk.(httpFrags := st0.sk.httpFrags + 1) else st0.sk;
      if rxFin then (st0.(sk := sk), ACK) else (st0.(sk := sk.(httpAck := true)), NONE)
    case End => HttpEnd(cfg, now, st0, rxFin)
    case Error => (st0.(sk := InitHttp(st0.sk).(keepalive := false)), FIN_ACK)
  }

  /** A response segment on an established client. */
  function ClientTake(cfg: Config, env: Env, st: St, g: Segment, h: HttpOutcome): (St, Flags) {
    if cfg.http then HttpData(cfg, env.now, st, g.flags.fin, h)
    else
      var st1 := st.(stats := st.stats.(rsp := st.stats.rsp + 1));
      if !st1.sk.keepalive then (st1, FIN_ACK)
      else if cfg.interval > 0 then (StartKeepalive(cfg, st1, st1.sk.timer), ACK)
      else (SendKeepaliveRequest(cfg, env, st1), ACK)
  }

  function ClientFinish(cfg: Config, now: nat, st: St, rx: Flags, tx: Flags): St {
    var (st1, f) := if Rank(st.sk.state) > Rank(Established) || rx.fin || tx.fin
                    then ProcessFin(st, rx, tx) else (st, tx);
    if f != NONE && (rx.fin || f != ACK || !st1.sk.keepalive || (cfg.interval >= cfg.rto && !cfg.disableAck))
    then Reply(cfg, now, st1, f)
    else st1
  }

  function ClientData(cfg: Config, env: Env, st: St, g: Segment, h: HttpOutcome): St {
    var (st1, ok) := CheckSequence(cfg, env.now, st, g);
    if !ok then st1
    else if st1.sk.state != Established || g.len == 0 then ClientFinish(cfg, env.now, st1, g.flags, NONE)
    else
      var (st2, tx) := ClientTake(cfg, env, st1, g, h);
      if tx.fin && cfg.fastClose then Close(Reply(cfg, env.now, st2, RST_ACK))
      else ClientFinish(cfg, env.now, st2, g.flags, tx)
  }

  // ---------------------------------------------------------------- dispatch and timers

  function Server(cfg: Config, now: nat, st: St, g: Segment): St {
    if !g.flags.syn && !g.flags.rst && g.flags.ack then ServerData(cfg, now, st, g)
    else if g.flags == SYN then ServerSyn(cfg, now, st, g)
    else if g.flags.rst then Close(st)
    else st
  }

  function Client(cfg: Config, env: Env, st: St, g: Segment, h: HttpOutcome): St {
    if !g.flags.syn && !g.flags.rst && g.flags.ack then ClientData(cfg, env, st, g, h)
    else if g.flags == SYN_ACK then ClientSynAck(cfg, env.now, st, g)
    else if g.flags.rst then Close(st)
    else st
  }

  function DoKeepalive(cfg: Config, env: Env, st: St): St {
    if st.sk.sndNxt != st.sk.sndUna || st.sk.state != Established || !st.sk.keepalive then
      if cfg.flood then
        if env.inDuration then
          var r := Reply(cfg, env.now, st, SYN);
          StartKeepalive(cfg, r.(sk := r.sk.(sndUna := r.sk.sndNxt)), env.now)
        else Close(st)
      else if !st.sk.keepalive && st.sk.state == Established
      then Reply(cfg, env.now, st.(sk := st.sk.(state := FinWait1)), FIN_ACK)
      else st
    else if !cfg.server then SendKeepaliveRequest(cfg, env, st)
    else st
  }

  /** socket_timer_run takes the socket off the ring before the handler runs. */
  function RetransmitExpiry(cfg: Config, now: nat, st: St): St { DoRetransmit(cfg, now, Move(st, NoRing)) }

  function KeepaliveExpiry(cfg: Config, env: Env, st: St): St { DoKeepalive(cfg, env, Move(st, NoRing)) }

  function TimeoutExpiry(st: St): St {
    var st1 := Move(st, NoRing);
    Close(st1.(stats := CountError(st1.stats)))
  }

  /** tcp_client_launch for the one socket the pool handed out. */
  function Launch(cfg: Config, now: nat, st: St): St {
    if st.sk.state != Closed then st
    else
      var r := Reply(cfg, now, ClientOpen(cfg, st, now), SYN);
      if !cfg.flood then r
      else if r.sk.keepalive then StartKeepalive(cfg, r.(sk := r.sk.(sndUna := r.sk.sndNxt)), now)
      else Close(r)
  }

  /** One entry of tcp_ack_delay_flush. */
  function AckDelayed(cfg: Config, now: nat, st: St): St {
    if !st.sk.httpAck then st
    else
      var st1 := st.(sk := st.sk.(httpAck := false));
      if st1.sk.state == Established then Reply(cfg, now, st1, ACK) else st1
  }
}
