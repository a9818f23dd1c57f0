/** The UDP handlers of dperf: the other users of the sockets, rings and counters. */
module Udp {
  import opened Rings
  import opened Tcp

  /** udp_send: one datagram, unless the packet pool is empty. */
  function UdpSend(st: St): St {
    if st.pool == [] || st.pool[0]
    then st.(pool := if st.pool == [] then [] else st.pool[1..], stats := st.stats.(udp := st.stats.udp + 1))
    else st.(pool := st.pool[1..])
  }

  function UdpRequest(st: St): St {
    UdpSend(st.(sk := st.sk.(state := SynSent, requests := (st.sk.requests + 1) % 0x8000)))
  }

  /** The do-while loops send at least once. */
  function Rounds(pipeline: nat): nat { if pipeline == 0 then 1 else pipeline }

  function UdpRequests(st: St, n: nat): St
    decreases n
  {
    if n == 0 then st else UdpRequests(UdpRequest(st), n - 1)
  }

  function UdpSends(st: St, n: nat): St
    decreases n
  {
    if n == 0 then st else UdpSends(UdpSend(st), n - 1)
  }

  function UdpRetransmitExpiry(st: St): St { Close(Move(st, NoRing)) }

  /** The keepalive handler, for a socket off its ring. */
  function UdpKeepalive(cfg: Config, env: Env, st: St, pipeline: nat): St {
    if !env.inDuration then st
    else if st.sk.laddr == 0 then Close(st)
    else
      var st1 := UdpRequests(st, Rounds(pipeline));
      if cfg.interval > 0 then StartKeepalive(cfg, st1, env.now) else st1
  }

  function UdpKeepaliveExpiry(cfg: Config, env: Env, st: St, pipeline: nat): St {
    UdpKeepalive(cfg, env, Move(st, NoRing), pipeline)
  }

  function UdpClient(cfg: Config, stopped: bool, st: St): St {
    if st.sk.state == Closed then st
    else
      var st1 := st.(sk := st.sk.(state := SynReceived));
      if !st1.sk.keepalive then Close(st1)
      else if cfg.interval == 0 && !stopped then UdpRequest(st1)
      else st1
  }

  /** udp_client_launch for the one socket the pool handed out; `n` datagrams open it. */
  function UdpLaunch(cfg: Config, now: nat, st: St, n: nat): St {
    if st.sk.state != Closed then st
    else
      var st1 := UdpSends(ClientOpen(cfg, st, now), n);
      if st1.sk.keepalive then
        if cfg.interval > 0 then StartKeepalive(cfg, st1, now) else st1
      else if cfg.flood then Close(st1)
      else AddTimer(st1, Retransmit, now)
  }
}
