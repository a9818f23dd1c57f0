/** The sockets as the code has them: objects whose fields the handlers overwrite,
    in a work space whose rings, counters, packet pool and transmit queue they
    share. Every method is proved to compute its function of Tcp.dfy. */
module Endpoint {
  import opened Rings
  import opened Tcp
  import opened TimerRing

  class WorkSpace {
    const cfg: Config
    const timers: Timers
    var now: nat               // time.tsc
    var inDuration: bool       // work_space_in_duration
    var stats: Stats           // g_net_stats
    var sent: seq<Segment>     // everything handed to the transmit queue
    var pool: seq<bool>        // the packet pool's answers to come

    constructor (cfg: Config, num: nat)
      ensures Valid() && timers.num == num && timers.rings == Rings([], [], [])
      ensures stats == Stats(0, 0, 0, 0, 0, 0, 0) && sent == [] && this.cfg == cfg
    {
      this.cfg := cfg;
      timers := new Timers(num);
      now := 0;
      inDuration := true;
      stats := Stats(0, 0, 0, 0, 0, 0, 0);
      sent := [];
      pool := [];
    }

    ghost predicate Valid()
      reads timers, timers.next, timers.prev
    {
      timers.Valid()
    }

    /** mbuf_cache_alloc: whether a packet was granted. */
    method Alloc() returns (yes: bool)
      modifies this`pool
      ensures yes == (old(pool) == [] || old(pool)[0])
      ensures pool == if old(pool) == [] then [] else old(pool)[1..]
    {
      yes := pool == [] || pool[0];
      if pool != [] { pool := pool[1..]; }
    }
  }

  class Socket {
    const id: nat
    var state: State
    var rcvNxt: int
    var sndNxt: int
    var sndUna: int
    var flags: Flags
    var retrans: nat
    var keepalive: bool
    var requests: nat
    var timer: nat
    var laddr: nat
    var sndWindow: nat
    var sndMax: int
    var httpAck: bool
    var httpFrags: nat

    /** socket_init. */
    constructor (cfg: Config, id: nat, laddr: nat, seed: int)
      ensures this.id == id && state == Closed && keepalive == cfg.keepalive && sndNxt == seed && this.laddr == laddr
    {
      this.id := id;
      state := Closed;
      rcvNxt, sndNxt, sndUna := 0, seed, 0;
      flags := NONE;
      retrans, requests, timer := 0, 0, 0;
      keepalive := cfg.keepalive;
      this.laddr := laddr;
      sndWindow, sndMax, httpAck, httpFrags := 0, 0, false, 0;
    }

    /** The socket and what it touches in the work space, as a value. */
    ghost function Abs(ws: WorkSpace): St
      reads this, ws, ws.timers
    {
      St(Sock(id, state, rcvNxt, sndNxt, sndUna, flags, retrans, keepalive, requests,
              timer, ws.timers.rings.Holder(id), laddr, sndWindow, sndMax, httpAck, httpFrags),
         ws.timers.rings, ws.stats, ws.sent, ws.pool)
    }

    ghost predicate Of(ws: WorkSpace)
      reads ws.timers, ws.timers.next, ws.timers.prev
    {
      ws.Valid() && id < ws.timers.num
    }

    // -------------------------------------------------------------- timers

    method NodeDel(ws: WorkSpace)
      requires Of(ws)
      modifies ws.timers, ws.timers.next, ws.timers.prev
      ensures Of(ws) && Abs(ws) == Move(old(Abs(ws)), NoRing)
    {
      hide Place;
      PlaceKeeps(ws.timers.rings, id, NoRing);
      ws.timers.Del(id);
    }

    method AddTimer(ws: WorkSpace, r: Ring, tsc: nat)
      requires Of(ws) && r != NoRing
      modifies this`timer, ws.timers, ws.timers.next, ws.timers.prev
      ensures Of(ws) && Abs(ws) == Tcp.AddTimer(old(Abs(ws)), r, tsc)
    {
      hide Place;
      PlaceKeeps(ws.timers.rings, id, r);
      timer := tsc;
      ws.timers.Add(id, r);
    }

    method StartTimeout(ws: WorkSpace, tsc: nat)
      requires Of(ws)
      modifies this`timer, ws.timers, ws.timers.next, ws.timers.prev
      ensures Of(ws) && Abs(ws) == Tcp.StartTimeout(old(Abs(ws)), tsc)
    {
      AddTimer(ws, Timeout, tsc);
    }

    method StartKeepalive(ws: WorkSpace, tsc: nat)
      requires Of(ws)
      modifies this`timer, ws.timers, ws.timers.next, ws.timers.prev
      ensures Of(ws) && Abs(ws) == Tcp.StartKeepalive(ws.cfg, old(Abs(ws)), tsc)
    {
      if keepalive && sndNxt == sndUna {
        var at := Accurate(ws.cfg.interval, timer, tsc);
        AddTimer(ws, Keepalive, at);
      }
    }

    method StartRetransmit(ws: WorkSpace, tsc: nat)
      requires Of(ws)
      modifies this`timer, ws.timers, ws.timers.next, ws.timers.prev
      ensures Of(ws) && Abs(ws) == Tcp.StartRetransmit(old(Abs(ws)), tsc)
    {
      if sndNxt != sndUna { AddTimer(ws, Retransmit, tsc); }
    }

    method StopRetransmit(ws: WorkSpace)
      requires Of(ws)
      modifies this`retrans, ws.timers, ws.timers.next, ws.timers.prev
      ensures Of(ws) && Abs(ws) == Tcp.StopRetransmit(old(Abs(ws)))
    {
      retrans := 0;
      if sndNxt == sndUna { NodeDel(ws); }
    }

    // -------------------------------------------------------------- open and close

    method Close(ws: WorkSpace)
      requires Of(ws)
      modifies this`state, ws`stats, ws.timers, ws.timers.next, ws.timers.prev
      ensures Of(ws) && Abs(ws) == Tcp.Close(old(Abs(ws)))
    {
      if state != Closed {
        state := Closed;
        NodeDel(ws);
        ws.stats := ws.stats.(close := ws.stats.close + 1, current := ws.stats.current - 1);
      }
    }

    method CountOpen(ws: WorkSpace)
      modifies ws`stats
      ensures ws.stats == Tcp.CountOpen(old(ws.stats))
    {
      ws.stats := ws.stats.(open := ws.stats.open + 1, current := ws.stats.current + 1);
    }

    method CountError(ws: WorkSpace)
      modifies ws`stats
      ensures ws.stats == Tcp.CountError(old(ws.stats))
    {
      ws.stats := ws.stats.(error := ws.stats.error + 1);
    }

    /** The fields a newly opened socket starts from; `iss` is its first sequence number. */
    method Renew(iss: int, rcv: int)
      modifies this`retrans, this`requests, this`sndNxt, this`sndUna, this`rcvNxt
      ensures retrans == 0 && requests == 0 && sndNxt == iss && sndUna == iss && rcvNxt == rcv
    {
      retrans := 0;
      requests := 0;
      sndNxt := iss;
      sndUna := sndNxt;
      rcvNxt := rcv;
    }

    method ServerOpen(ws: WorkSpace, g: Segment)
      requires Of(ws)
      modifies this, ws`stats, ws.timers, ws.timers.next, ws.timers.prev
      ensures Of(ws) && Abs(ws) == Tcp.ServerOpen(ws.cfg, old(Abs(ws)), g)
    {
      hide Place, Of, Add, Tcp.CountOpen;
      if state != SynReceived {
        state := SynReceived;
        CountOpen(ws);
      }
      NodeDel(ws);
      Renew(Add(ws.cfg.arith, sndNxt, 1), Add(ws.cfg.arith, g.seqno, 1));
      sndWindow := 1;
    }

    method ClientOpen(ws: WorkSpace)
      requires Of(ws) && state == Closed
      modifies this, ws`stats
      ensures Of(ws) && Abs(ws) == Tcp.ClientOpen(ws.cfg, old(Abs(ws)), ws.now)
    {
      hide Of, Add, Tcp.CountOpen;
      Begin(ws.now, ws.cfg.keepalive);
      Renew(Add(ws.cfg.arith, sndNxt, 1), 0);
      CountOpen(ws);
    }

    /** What a client socket starts with besides. */
    method Begin(now: nat, keep: bool)
      modifies this`timer, this`keepalive, this`state, this`httpAck, this`httpFrags
      ensures timer == now && keepalive == keep && state == SynSent && !httpAck && httpFrags == 0
    {
      timer := now;
      keepalive := keep;
      state := SynSent;
      httpAck := false;
      httpFrags := 0;
    }

    // -------------------------------------------------------------- sending

    method NewPacket(ws: WorkSpace, f: Flags)
      requires Of(ws)
      modifies this`sndNxt, ws`sent, ws`pool
      ensures Of(ws) && Abs(ws) == Tcp.NewPacket(ws.cfg, old(Abs(ws)), f)
    {
      var tcpFlags := f;
      var dataLen := 0;
      if f.syn {
      } else if f.push {
        dataLen := ws.cfg.dataLen;
        if f.urg { tcpFlags := f.(push := false, urg := false); }
      }
      var yes := ws.Alloc();
      if !yes { return; }
      var sndSeq := dataLen;
      if tcpFlags.fin || tcpFlags.syn { sndSeq := sndSeq + 1; }
      if sndNxt == sndUna { sndNxt := Add(ws.cfg.arith, sndNxt, sndSeq); }
      ws.sent := ws.sent + [Segment(sndUna, rcvNxt, tcpFlags, dataLen)];
    }

    method Reply(ws: WorkSpace, f: Flags)
      requires Of(ws)
      modifies this`flags, this`sndNxt, this`timer, ws`stats, ws`sent, ws`pool, ws.timers, ws.timers.next,
          ws.timers.prev
      ensures Of(ws) && Abs(ws) == Tcp.Reply(ws.cfg, ws.now, old(Abs(ws)), f)
    {
      hide Tcp.NewPacket, Of;
      var tsc := ws.now;
      flags := f;
      if f.push {
        if !ws.cfg.server {
          ws.stats := ws.stats.(req := ws.stats.req + 1);
        } else if ws.cfg.sendWindow == 0 {
          ws.stats := ws.stats.(rsp := ws.stats.rsp + 1);
        }
      }
      NewPacket(ws, f);
      if state != Closed {
        if f.push || f.syn || f.fin {
          if !ws.cfg.server && keepalive { tsc := Accurate(ws.cfg.interval, timer, tsc); }
          if ws.cfg.sendWindow == 0 { StartRetransmit(ws, tsc); }
        } else if ws.cfg.server && ws.cfg.sendWindow == 0 {
          StartTimeout(ws, tsc);
        }
      }
    }

    /** Resend data from snd_una: snd_nxt is moved back for the packet and restored. */
    method ResendFirst(ws: WorkSpace)
      requires Of(ws)
      modifies this, ws`stats, ws`sent, ws`pool, ws.timers, ws.timers.next, ws.timers.prev
      ensures Of(ws) && Abs(ws) == Tcp.ResendFirst(ws.cfg, ws.now, old(Abs(ws)))
    {
      hide Tcp.Reply, Of;
      var nxt := sndNxt;
      sndNxt := sndUna;
      Reply(ws, PUSH_ACK);
      sndNxt := nxt;
      sndWindow := 1;
    }

    method DoRetransmit(ws: WorkSpace)
      requires Of(ws)
      modifies this, ws`stats, ws`sent, ws`pool, ws.timers, ws.timers.next, ws.timers.prev
      ensures Of(ws) && Abs(ws) == Tcp.DoRetransmit(ws.cfg, ws.now, old(Abs(ws)))
    {
      hide Tcp.Reply, Tcp.Close, Tcp.StartRetransmit, Tcp.ResendFirst, Of;
      if sndNxt == sndUna {
        retrans := 0;
        return;
      }
      if laddr == 0 {
        Close(ws);
        return;
      }
      retrans := (retrans + 1) % 8;
      if retrans < RETRANSMIT_NUM_MAX {
        if ws.cfg.sendWindow > 0 && sndNxt != sndUna && flags.push {
          ResendFirst(ws);
          StartRetransmit(ws, ws.now);
        } else {
          Reply(ws, flags);
        }
      } else {
        CountError(ws);
        Close(ws);
      }
    }

    // -------------------------------------------------------------- handshake

    method ServerSyn(ws: WorkSpace, g: Segment)
      requires Of(ws)
      modifies this, ws`stats, ws`sent, ws`pool, ws.timers, ws.timers.next, ws.timers.prev
      ensures Of(ws) && Abs(ws) == Tcp.ServerSyn(ws.cfg, ws.now, old(Abs(ws)), g)
    {
      hide Tcp.Reply, Tcp.ServerOpen, Of;
      if state == TimeWait { state := Closed; }
      if state == Closed {
        ServerOpen(ws, g);
        Reply(ws, SYN_ACK);
      } else if state == SynReceived {
        if timer + ws.cfg.second < ws.now { Reply(ws, SYN_ACK); }
      }
    }

    method ClientSynAck(ws: WorkSpace, g: Segment)
      requires Of(ws)
      modifies this, ws`stats, ws`sent, ws`pool, ws.timers, ws.timers.next, ws.timers.prev
      ensures Of(ws) && Abs(ws) == Tcp.ClientSynAck(ws.cfg, ws.now, old(Abs(ws)), g)
    {
      hide Tcp.Reply, Of;
      if state == SynSent {
        if g.ack != sndNxt { return; }
        rcvNxt := Add(ws.cfg.arith, g.seqno, 1);
        sndUna := g.ack;
        state := Established;
        Reply(ws, PUSH_ACK);
      } else if state == Established {
        if g.ack == sndNxt && Add(ws.cfg.arith, g.seqno, 1) == rcvNxt { Reply(ws, ACK); }
      }
    }

    // -------------------------------------------------------------- sequence check

    method Grow()
      modifies this`sndWindow
      ensures sndWindow == if old(sndWindow) < SEND_WINDOW_MAX then old(sndWindow) + 1 else old(sndWindow)
    {
      if sndWindow < SEND_WINDOW_MAX { sndWindow := sndWindow + 1; }
    }

    method Accept(ws: WorkSpace, g: Segment)
      requires Of(ws)
      modifies this, ws.timers, ws.timers.next, ws.timers.prev
      ensures Of(ws) && Abs(ws) == Tcp.Accept(ws.cfg, old(Abs(ws)), g)
    {
      hide Tcp.StopRetransmit, Of;
      var last := sndUna;
      retrans := 0;
      sndUna := g.ack;
      rcvNxt := Add(ws.cfg.arith, g.seqno, g.len + if g.flags.fin then 1 else 0);
      if ws.cfg.sendWindow == 0 {
        if last != g.ack { StopRetransmit(ws); }
      } else {
        Grow();
      }
    }

    /** An acknowledgement that moves nothing. */
    method DupAck(ws: WorkSpace)
      requires Of(ws)
      modifies this, ws`stats, ws`sent, ws`pool, ws.timers, ws.timers.next, ws.timers.prev
      ensures Of(ws) && Abs(ws) == Tcp.DupAck(ws.cfg, ws.now, old(Abs(ws)))
    {
      hide Tcp.ResendFirst, Of;
      retrans := (retrans + 1) % 8;
      if retrans >= 3 {
        ResendFirst(ws);
        retrans := 0;
      }
    }

    method CheckSequence(ws: WorkSpace, g: Segment) returns (ok: bool)
      requires Of(ws)
      modifies this, ws`stats, ws`sent, ws`pool, ws.timers, ws.timers.next, ws.timers.prev
      ensures Of(ws) && (Abs(ws), ok) == Tcp.CheckSequence(ws.cfg, ws.now, old(Abs(ws)), g)
    {
      hide Tcp.Accept, Tcp.CheckOld, Add, Diff, Of;
      if g.ack == sndNxt && g.seqno == rcvNxt {
        if state == Closed {
          retrans := 0;
          return false;
        }
        Accept(ws, g);
        return true;
      }
      if state == FinWait1 && g.flags.fin && g.len == 0 && g.ack == sndUna && g.seqno == rcvNxt {
        rcvNxt := Add(ws.cfg.arith, g.seqno, 1);
        state := Closing;
        return true;
      }
      if state == Closed { return false; }
      if Diff(ws.cfg.arith, g.ack, sndNxt) <= 0 {
        ok := CheckOld(ws, g.ack);
        return;
      }
      return false;
    }

    /** A segment that is not the expected one: its acknowledgement may still tell something. */
    method CheckOld(ws: WorkSpace, ack: int) returns (ok: bool)
      requires Of(ws)
      modifies this, ws`stats, ws`sent, ws`pool, ws.timers, ws.timers.next, ws.timers.prev
      ensures Of(ws) && (Abs(ws), ok) == Tcp.CheckOld(ws.cfg, ws.now, old(Abs(ws)), ack)
    {
      hide Tcp.DoRetransmit, Tcp.DupAck, Diff, Of;
      if ws.cfg.sendWindow > 0 {
        if Diff(ws.cfg.arith, ack, sndUna) > 0 {
          sndUna := ack;
          Grow();
          retrans := 0;
          return true;
        } else if ack == sndUna {
          DupAck(ws);
        }
      } else if timer + ws.cfg.second < ws.now {
        DoRetransmit(ws);
      }
      return false;
    }

    method ProcessFin(ws: WorkSpace, rx: Flags, tx: Flags) returns (f: Flags)
      requires Of(ws)
      modifies this`state, ws`stats, ws.timers, ws.timers.next, ws.timers.prev
      ensures Of(ws) && (Abs(ws), f) == Tcp.ProcessFin(old(Abs(ws)), rx, tx)
    {
      hide Tcp.Close, Of;
      f := tx;
      match state {
        case Established =>
          if rx.fin {
            state := LastAck;
            f := tx.Or(FIN_ACK);
          } else if tx.fin {
            state := FinWait1;
            f := tx.Or(FIN_ACK);
          }
        case FinWait1 =>
          if rx.fin {
            f := tx.Or(ACK);
            Close(ws);
          } else {
            state := FinWait2;
          }
        case Closing =>
          state := LastAck;
          f := tx.Or(FIN_ACK);
        case LastAck => Close(ws);
        case FinWait2 =>
          if rx.fin {
            f := tx.Or(ACK);
            Close(ws);
          }
        case _ =>
      }
    }

    // -------------------------------------------------------------- server

    method ReplyMore(ws: WorkSpace)
      requires Of(ws)
      modifies this, ws`stats, ws`sent, ws`pool, ws.timers, ws.timers.next, ws.timers.prev
      ensures Of(ws) && Abs(ws) == Tcp.ReplyMore(ws.cfg, ws.now, old(Abs(ws)))
    {
      hide Tcp.Reply, Tcp.Burst, Tcp.StartTimeout, Of;
      var una, max := sndUna, sndMax;
      Burst(ws, Add(ws.cfg.arith, una, ws.cfg.sendWindow), max);
      sndUna := una;
      if una == max {
        if keepalive {
          StartTimeout(ws, ws.now);
        } else {
          state := FinWait1;
          Reply(ws, FIN_ACK);
        }
      }
    }

    /** The loop of tcp_reply_more: as many packets as the congestion window allows. */
    method Burst(ws: WorkSpace, limit: int, max: int)
      requires Of(ws)
      modifies this, ws`stats, ws`sent, ws`pool, ws.timers, ws.timers.next, ws.timers.prev
      ensures Of(ws) && Abs(ws) == Tcp.Burst(ws.cfg, ws.now, old(Abs(ws)), limit, max, old(sndWindow))
    {
      hide Tcp.Reply, Of;
      var i := 0;
      ghost var window, start := sndWindow, Abs(ws);
      while Diff(ws.cfg.arith, sndNxt, limit) < 0 && Diff(ws.cfg.arith, sndNxt, max) < 0 && i < sndWindow
        invariant Of(ws) && sndWindow == window && i <= window && ws.now == old(ws.now)
        invariant Tcp.Burst(ws.cfg, ws.now, Abs(ws), limit, max, window - i) ==
            Tcp.Burst(ws.cfg, ws.now, start, limit, max, window)
        decreases window - i
      {
        ghost var st := Abs(ws);
        sndUna := sndNxt;
        Reply(ws, PUSH_ACK_URG);
        i := i + 1;
        ReplyWindow(ws.cfg, ws.now, st.(sk := st.sk.(sndUna := st.sk.sndNxt)), PUSH_ACK_URG);
      }
    }

    lemma ReplyWindow(cfg: Config, now: nat, st: St, f: Flags)
      ensures Tcp.Reply(cfg, now, st, f).sk.sndWindow == st.sk.sndWindow
    {
    }

    method OpenResponse(ws: WorkSpace)
      modifies this`httpAck, this`sndMax, ws`stats
      ensures Abs(ws) == Tcp.OpenResponse(ws.cfg, old(Abs(ws)))
    {
      httpAck := false;
      sndMax := Add(ws.cfg.arith, sndNxt, ws.cfg.payload);
      ws.stats := ws.stats.(rsp := ws.stats.rsp + 1);
    }

    method ServeWindowed(ws: WorkSpace)
      requires Of(ws)
      modifies this, ws`stats, ws`sent, ws`pool, ws.timers, ws.timers.next, ws.timers.prev
      ensures Of(ws) && Abs(ws) == Tcp.ServeWindowed(ws.cfg, ws.now, old(Abs(ws)))
    {
      hide Tcp.Reply, Tcp.ReplyMore, Tcp.OpenResponse, Tcp.StartRetransmit, Of;
      OpenResponse(ws);
      if requests != 0 {
        ReplyMore(ws);
      } else {
        Reply(ws, PUSH_ACK);
        requests := 1;
      }
      StartRetransmit(ws, ws.now);
    }

    method ServerFinish(ws: WorkSpace, rx: Flags, tx: Flags)
      requires Of(ws)
      modifies this, ws`stats, ws`sent, ws`pool, ws.timers, ws.timers.next, ws.timers.prev
      ensures Of(ws) && Abs(ws) == Tcp.ServerFinish(ws.cfg, ws.now, old(Abs(ws)), rx, tx)
    {
      hide Tcp.Reply, Tcp.ProcessFin, Tcp.StartTimeout, Of;
      var f := tx;
      if Rank(state) > Rank(Established) || rx.fin || tx.fin { f := ProcessFin(ws, rx, tx); }
      if f != NONE {
        Reply(ws, f);
      } else if state != Closed {
        StartTimeout(ws, ws.now);
      }
    }

    method ServerData(ws: WorkSpace, g: Segment)
      requires Of(ws)
      modifies this, ws`stats, ws`sent, ws`pool, ws.timers, ws.timers.next, ws.timers.prev
      ensures Of(ws) && Abs(ws) == Tcp.ServerData(ws.cfg, ws.now, old(Abs(ws)), g)
    {
      hide Tcp.CheckSequence, Tcp.ReplyMore, Tcp.ServeWindowed, Tcp.ServerFinish, Of;
      var ok := CheckSequence(ws, g);
      if !ok { return; }
      var tx := NONE;
      if Rank(state) < Rank(Established) { state := Established; }
      if state == Established {
        if g.len > 0 {
          ws.stats := ws.stats.(req := ws.stats.req + 1);
          if ws.cfg.sendWindow > 0 && !g.flags.fin {
            ServeWindowed(ws);
            return;
          }
          tx := if keepalive then PUSH_ACK else PUSH_ACK_FIN;
        } else if ws.cfg.sendWindow > 0 && !g.flags.fin {
          ReplyMore(ws);
          return;
        }
      }
      ServerFinish(ws, g.flags, tx);
    }

    // -------------------------------------------------------------- client

    method SendKeepaliveRequest(ws: WorkSpace)
      requires Of(ws)
      modifies this, ws`stats, ws`sent, ws`pool, ws.timers, ws.timers.next, ws.timers.prev
      ensures Of(ws) && Abs(ws) == Tcp.SendKeepaliveRequest(ws.cfg, Env(ws.now, ws.inDuration), old(Abs(ws)))
    {
      hide Tcp.Reply, Of;
      if ws.inDuration {
        requests := (requests + 1) % 0x8000;
        Reply(ws, PUSH_ACK);
        if ws.cfg.maxRequests > 0 && requests >= ws.cfg.maxRequests { keepalive := false; }
      } else {
        state := FinWait1;
        Reply(ws, FIN_ACK);
        keepalive := false;
      }
    }

    method HttpData(ws: WorkSpace, rxFin: bool, h: HttpOutcome) returns (f: Flags)
      requires Of(ws)
      modifies this, ws`stats, ws.timers, ws.timers.next, ws.timers.prev
      ensures Of(ws) && (Abs(ws), f) == Tcp.HttpData(ws.cfg, ws.now, old(Abs(ws)), rxFin, h)
    {
      hide Tcp.HttpEnd, Of;
      if h.closes { keepalive := false; }
      if h.first { ws.stats := ws.stats.(rsp := ws.stats.rsp + 1); }
      f := ACK;
      match h.verdict {
        case More =>
          if httpFrags < 4 { httpFrags := httpFrags + 1; }
          if !rxFin {
            httpAck := true;
            return NONE;
          }
        case End =>
          f := HttpEnd(ws, rxFin);
        case Error =>
          httpAck, httpFrags, keepalive := false, 0, false;
          f := FIN_ACK;
      }
    }

    method HttpEnd(ws: WorkSpace, rxFin: bool) returns (f: Flags)
      requires Of(ws)
      modifies this, ws.timers, ws.timers.next, ws.timers.prev
      ensures Of(ws) && (Abs(ws), f) == Tcp.HttpEnd(ws.cfg, ws.now, old(Abs(ws)), rxFin)
    {
      hide Tcp.StartKeepalive, Of;
      var frags := httpFrags;
      httpAck, httpFrags := false, 0;
      if !keepalive || rxFin { return FIN_ACK; }
      if frags >= 2 || (ws.cfg.interval >= ws.cfg.rto && !ws.cfg.disableAck) { httpAck := true; }
      StartKeepalive(ws, ws.now);
      return NONE;
    }

    /** A response segment on an established client: the flags to answer with. */
    method ClientTake(ws: WorkSpace, g: Segment, h: HttpOutcome) returns (tx: Flags)
      requires Of(ws)
      modifies this, ws`stats, ws`sent, ws`pool, ws.timers, ws.timers.next, ws.timers.prev
      ensures Of(ws) && (Abs(ws), tx) == Tcp.ClientTake(ws.cfg, Env(ws.now, ws.inDuration), old(Abs(ws)), g, h)
    {
      hide Tcp.HttpData, Tcp.StartKeepalive, Tcp.SendKeepaliveRequest, Of;
      if ws.cfg.http {
        tx := HttpData(ws, g.flags.fin, h);
        return;
      }
      tx := ACK;
      ws.stats := ws.stats.(rsp := ws.stats.rsp + 1);
      if !keepalive {
        tx := FIN_ACK;
      } else if ws.cfg.interval > 0 {
        StartKeepalive(ws, timer);
      } else {
        SendKeepaliveRequest(ws);
      }
    }

    method ClientFinish(ws: WorkSpace, rx: Flags, tx: Flags)
      requires Of(ws)
      modifies this, ws`stats, ws`sent, ws`pool, ws.timers, ws.timers.next, ws.timers.prev
      ensures Of(ws) && Abs(ws) == Tcp.ClientFinish(ws.cfg, ws.now, old(Abs(ws)), rx, tx)
    {
      hide Tcp.Reply, Tcp.ProcessFin, Of;
      var f := tx;
      if Rank(state) > Rank(Established) || rx.fin || tx.fin { f := ProcessFin(ws, rx, tx); }
      if f != NONE {
        if rx.fin || f != ACK || !keepalive || (ws.cfg.interval >= ws.cfg.rto && !ws.cfg.disableAck) {
          Reply(ws, f);
        }
      }
    }

    method ClientData(ws: WorkSpace, g: Segment, h: HttpOutcome)
      requires Of(ws)
      modifies this, ws`stats, ws`sent, ws`pool, ws.timers, ws.timers.next, ws.timers.prev
      ensures Of(ws) && Abs(ws) == Tcp.ClientData(ws.cfg, Env(ws.now, ws.inDuration), old(Abs(ws)), g, h)
    {
      hide Tcp.Reply, Tcp.CheckSequence, Tcp.Close, Tcp.ClientTake, Tcp.ClientFinish, Of;
      var ok := CheckSequence(ws, g);
      if !ok { return; }
      var tx := NONE;
      if state == Established && g.len > 0 {
        tx := ClientTake(ws, g, h);
        if tx.fin && ws.cfg.fastClose {
          Reply(ws, RST_ACK);
          Close(ws);
          return;
        }
      }
      ClientFinish(ws, g.flags, tx);
    }

    // -------------------------------------------------------------- dispatch and timers

    method Server(ws: WorkSpace, g: Segment)
      requires Of(ws)
      modifies this, ws`stats, ws`sent, ws`pool, ws.timers, ws.timers.next, ws.timers.prev
      ensures Of(ws) && Abs(ws) == Tcp.Server(ws.cfg, ws.now, old(Abs(ws)), g)
    {
      hide Tcp.ServerData, Tcp.ServerSyn, Tcp.Close, Of;
      if !g.flags.syn && !g.flags.rst && g.flags.ack {
        ServerData(ws, g);
      } else if g.flags == SYN {
        ServerSyn(ws, g);
      } else if g.flags.rst {
        Close(ws);
      }
    }

    method Client(ws: WorkSpace, g: Segment, h: HttpOutcome)
      requires Of(ws)
      modifies this, ws`stats, ws`sent, ws`pool, ws.timers, ws.timers.next, ws.timers.prev
      ensures Of(ws) && Abs(ws) == Tcp.Client(ws.cfg, Env(ws.now, ws.inDuration), old(Abs(ws)), g, h)
    {
      hide Tcp.ClientData, Tcp.ClientSynAck, Tcp.Close, Of;
      if !g.flags.syn && !g.flags.rst && g.flags.ack {
        ClientData(ws, g, h);
      } else if g.flags == SYN_ACK {
        ClientSynAck(ws, g);
      } else if g.flags.rst {
        Close(ws);
      }
    }

    method DoKeepalive(ws: WorkSpace)
      requires Of(ws)
      modifies this, ws`stats, ws`sent, ws`pool, ws.timers, ws.timers.next, ws.timers.prev
      ensures Of(ws) && Abs(ws) == Tcp.DoKeepalive(ws.cfg, Env(ws.now, ws.inDuration), old(Abs(ws)))
    {
      hide Tcp.Reply, Tcp.Close, Tcp.StartKeepalive, Tcp.SendKeepaliveRequest, Of;
      if sndNxt != sndUna || state != Established || !keepalive {
        if ws.cfg.flood {
          if ws.inDuration {
            Reply(ws, SYN);
            sndUna := sndNxt;
            StartKeepalive(ws, ws.now);
          } else {
            Close(ws);
          }
        } else if !keepalive && state == Established {
          state := FinWait1;
          Reply(ws, FIN_ACK);
        }
        return;
      }
      if !ws.cfg.server { SendKeepaliveRequest(ws); }
    }

    /** The body of tcp_client_launch for the socket the pool handed out. */
    method Launch(ws: WorkSpace)
      requires Of(ws)
      modifies this, ws`stats, ws`sent, ws`pool, ws.timers, ws.timers.next, ws.timers.prev
      ensures Of(ws) && Abs(ws) == Tcp.Launch(ws.cfg, ws.now, old(Abs(ws)))
    {
      hide Tcp.Reply, Tcp.Close, Tcp.StartKeepalive, Tcp.ClientOpen, Of;
      if state != Closed { return; }
      ClientOpen(ws);
      Reply(ws, SYN);
      if ws.cfg.flood {
        if keepalive {
          sndUna := sndNxt;
          StartKeepalive(ws, ws.now);
        } else {
          Close(ws);
        }
      }
    }

    method AckDelayed(ws: WorkSpace)
      requires Of(ws)
      modifies this, ws`stats, ws`sent, ws`pool, ws.timers, ws.timers.next, ws.timers.prev
      ensures Of(ws) && Abs(ws) == Tcp.AckDelayed(ws.cfg, ws.now, old(Abs(ws)))
    {
      hide Tcp.Reply, Of;
      if httpAck {
        httpAck := false;
        if state == Established { Reply(ws, ACK); }
      }
    }

    /** socket_timeout_handler. */
    method TimedOut(ws: WorkSpace)
      requires Of(ws)
      modifies this, ws`stats, ws.timers, ws.timers.next, ws.timers.prev
      ensures Of(ws) && var st := old(Abs(ws)); Abs(ws) == Tcp.Close(st.(stats := Tcp.CountError(st.stats)))
    {
      hide Tcp.Close, Of;
      CountError(ws);
      Close(ws);
    }
  }
}
