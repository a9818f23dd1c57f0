/** The UDP handlers on sockets in memory, proved to compute the functions of Udp.dfy. */
module UdpEndpoint {
  import opened Rings
  import opened Tcp
  import opened Udp
  import opened TimerRing
  import opened Endpoint

  method Send(sk: Socket, ws: WorkSpace)
    requires sk.Of(ws)
    modifies ws`stats, ws`pool
    ensures sk.Of(ws) && sk.Abs(ws) == UdpSend(old(sk.Abs(ws)))
  {
    var yes := ws.Alloc();
    if yes { ws.stats := ws.stats.(udp := ws.stats.udp + 1); }
  }

  method SendRequest(sk: Socket, ws: WorkSpace)
    requires sk.Of(ws)
    modifies sk`state, sk`requests, ws`stats, ws`pool
    ensures sk.Of(ws) && sk.Abs(ws) == UdpRequest(old(sk.Abs(ws)))
  {
    hide Timers.Valid;
    sk.state := SynSent;
    sk.requests := (sk.requests + 1) % 0x8000;
    Send(sk, ws);
  }

  /** One round of the expiry loop of the retransmit ring: off the ring, and closed. */
  method RetransmitDue(sk: Socket, ws: WorkSpace)
    requires sk.Of(ws)
    modifies sk, ws`stats, ws.timers, ws.timers.next, ws.timers.prev
    ensures sk.Of(ws) && sk.Abs(ws) == UdpRetransmitExpiry(old(sk.Abs(ws)))
  {
    hide Timers.Valid, Tcp.Close, Place;
    sk.NodeDel(ws);
    sk.Close(ws);
  }

  /** The handler once the socket is off its ring: `pipeline` requests, at least one, and back on the ring. */
  method KeepaliveHandler(sk: Socket, ws: WorkSpace, pipeline: nat)
    requires sk.Of(ws) && sk.Abs(ws).sk.ring == NoRing
    modifies sk, ws`stats, ws`pool, ws.timers, ws.timers.next, ws.timers.prev
    ensures sk.Of(ws)
    ensures sk.Abs(ws) == UdpKeepalive(ws.cfg, Env(ws.now, ws.inDuration), old(sk.Abs(ws)), pipeline)
  {
    hide Tcp.Close, Tcp.StartKeepalive, Timers.Valid, UdpRequest;
    if ws.inDuration {
      if sk.laddr == 0 {
        sk.Close(ws);
        return;
      }
      var left: nat := pipeline;
      ghost var st := sk.Abs(ws);
      SendRequest(sk, ws);
      left := if left > 0 then left - 1 else 0;
      while left > 0
        invariant sk.Of(ws) && ws.now == old(ws.now) && ws.inDuration
        invariant UdpRequests(sk.Abs(ws), left) == UdpRequests(st, Rounds(pipeline))
        decreases left
      {
        SendRequest(sk, ws);
        left := left - 1;
      }
      if ws.cfg.interval > 0 { sk.StartKeepalive(ws, ws.now); }
    }
  }

  /** One round of the expiry loop of the keepalive ring: off the ring, then the handler. */
  method KeepaliveDue(sk: Socket, ws: WorkSpace, pipeline: nat)
    requires sk.Of(ws)
    modifies sk, ws`stats, ws`pool, ws.timers, ws.timers.next, ws.timers.prev
    ensures sk.Of(ws)
    ensures sk.Abs(ws) == UdpKeepaliveExpiry(ws.cfg, Env(ws.now, ws.inDuration), old(sk.Abs(ws)), pipeline)
  {
    hide Timers.Valid, UdpRequests, Tcp.Close, Tcp.StartKeepalive, Place;
    sk.NodeDel(ws);
    KeepaliveHandler(sk, ws, pipeline);
  }

  method Client(sk: Socket, ws: WorkSpace, stopped: bool)
    requires sk.Of(ws)
    modifies sk, ws`stats, ws`pool, ws.timers, ws.timers.next, ws.timers.prev
    ensures sk.Of(ws) && sk.Abs(ws) == UdpClient(ws.cfg, stopped, old(sk.Abs(ws)))
  {
    hide Tcp.Close, Timers.Valid, UdpRequest;
    if sk.state == Closed { return; }
    sk.state := SynReceived;
    if !sk.keepalive {
      sk.Close(ws);
    } else if ws.cfg.interval == 0 && !stopped {
      SendRequest(sk, ws);
    }
  }

  /** The body of udp_client_launch for the socket the pool handed out; `left` is
      the pipeline count the loop carries from socket to socket. */
  method Launch(sk: Socket, ws: WorkSpace, pipeline: nat) returns (left: nat)
    requires sk.Of(ws)
    modifies sk, ws`stats, ws`pool, ws.timers, ws.timers.next, ws.timers.prev
    ensures sk.Of(ws) && sk.Abs(ws) == UdpLaunch(ws.cfg, ws.now, old(sk.Abs(ws)), Rounds(pipeline))
    ensures left == if old(sk.state) == Closed then 0 else pipeline
  {
    hide Tcp.Close, Tcp.StartKeepalive, Tcp.AddTimer, Tcp.ClientOpen, Timers.Valid, UdpSend;
    left := pipeline;
    if sk.state != Closed { return; }
    sk.ClientOpen(ws);
    ghost var st := sk.Abs(ws);
    Send(sk, ws);
    left := if left > 0 then left - 1 else 0;
    while left > 0
      invariant sk.Of(ws) && ws.now == old(ws.now)
      invariant UdpSends(sk.Abs(ws), left) == UdpSends(st, Rounds(pipeline))
      decreases left
    {
      Send(sk, ws);
      left := left - 1;
    }
    if sk.keepalive {
      if ws.cfg.interval > 0 { sk.StartKeepalive(ws, ws.now); }
    } else if ws.cfg.flood {
      sk.Close(ws);
    } else {
      sk.AddTimer(ws, Retransmit, ws.now);
    }
  }
}
