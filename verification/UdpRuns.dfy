/** A UDP client worker over whole runs: where its open sockets wait, and how many datagrams go out. */
module UdpRuns {
  import opened Rings
  import opened Tcp
  import opened Udp
  import opened Invariants
  import opened RoundRobin
  import opened Sites
  import opened Worker

  // ---------------------------------------------------------------- where an open socket waits

  /** With keepalive and an interval an open socket is on the keepalive ring; with keepalive alone
      it waits for a reply, on no ring; without, it is on the retransmit ring until it closes. */
  predicate Waits(cfg: Config, k: Sock) {
    if k.state == Closed then k.ring == NoRing
    else
      && k.keepalive == cfg.keepalive && k.sndUna == k.sndNxt
      && k.ring == (if !cfg.keepalive then Retransmit else if cfg.interval > 0 then Keepalive else NoRing)
  }

  /** Every expiry of the keepalive ring lies inside the duration of the run. */
  predicate InTime(e: Event) { e.One? && e.act.KeepaliveDue? ==> e.env.inDuration }

  lemma {:induction false} RequestsLeave(st: St, n: nat)
    ensures var r := UdpRequests(st, n);
            r.sk == st.sk.(state := if n > 0 then SynSent else st.sk.state, requests := r.sk.requests)
    decreases n
  {
    if n > 0 { RequestsLeave(UdpRequest(st), n - 1); }
  }

  lemma {:induction false} SendsLeave(st: St, n: nat)
    ensures UdpSends(st, n).sk == st.sk
    decreases n
  {
    if n > 0 { SendsLeave(UdpSend(st), n - 1); }
  }

  lemma KeepaliveWaits(cfg: Config, env: Env, st: St, pipeline: nat)
    requires Waits(cfg, st.sk) && st.sk.ring == Keepalive && env.inDuration
    ensures Waits(cfg, UdpKeepaliveExpiry(cfg, env, st, pipeline).sk)
  {
    hide Place, Accurate, UdpRequests;
    RequestsLeave(Move(st, NoRing), Rounds(pipeline));
  }

  lemma LaunchWaits(cfg: Config, now: nat, st: St, n: nat)
    requires Waits(cfg, st.sk)
    ensures Waits(cfg, UdpLaunch(cfg, now, st, n).sk)
    ensures st.sk.state == Closed && (cfg.keepalive || !cfg.flood) ==> UdpLaunch(cfg, now, st, n).sk.state != Closed
  {
    hide Place, Accurate, UdpSends;
    if st.sk.state == Closed { SendsLeave(ClientOpen(cfg, st, now), n); }
  }

  lemma HandleWaits(cfg: Config, plan: Plan, env: Env, st: St, act: Act)
    requires Waits(cfg, st.sk) && (act.KeepaliveDue? ==> env.inDuration)
    ensures Waits(cfg, Handle(cfg, plan, false, env, st, act).sk)
  {
    hide Place, UdpKeepaliveExpiry;
    match act {
      case KeepaliveDue => if st.sk.ring == Keepalive { KeepaliveWaits(cfg, env, st, plan.pipeline); }
      case _ =>
    }
  }

  predicate AllWait(cfg: Config, w: Worker) { forall i :: 0 <= i < |w.socks| ==> Waits(cfg, w.socks[i]) }

  lemma {:induction false} LaunchManyWaits(cfg: Config, plan: Plan, now: nat, pools: seq<seq<bool>>, w: Worker,
                                           num: nat,
                                           pipeline: nat)
    requires AllWait(cfg, w)
    ensures AllWait(cfg, LaunchMany(cfg, plan, false, now, pools, w, num, pipeline))
    decreases num
  {
    hide UdpLaunch, Waits;
    if num > 0 && w.next < |w.socks| {
      var i := w.next;
      var st := Take(w, i, if pools == [] then [] else pools[0]);
      LaunchWaits(cfg, now, st, Rounds(pipeline));
      var r := LaunchOne(cfg, false, now, st, Rounds(pipeline));
      LaunchManyWaits(cfg, plan, now, if pools == [] then [] else pools[1..],
                      Return(w.(next := AfterPick(i, |w.socks|, plan.hop)), i, r), num - 1,
                      if st.sk.state == Closed then 0 else pipeline);
    }
  }

  lemma StepWaits(cfg: Config, plan: Plan, w: Worker, e: Event)
    requires AllWait(cfg, w) && InTime(e)
    ensures AllWait(cfg, Step(cfg, plan, false, w, e))
  {
    hide Handle, Waits;
    match e {
      case One(i, env, pool, act) =>
        if i < |w.socks| { HandleWaits(cfg, plan, env, Take(w, i, pool), act); }
      case LaunchTick(env, pools) =>
        var (num, next) := LaunchNum(plan, w.launchNext, w.stats.current, env.now);
        LaunchManyWaits(cfg, plan, env.now, pools, w.(launchNext := next), num, plan.pipeline);
    }
  }

  lemma {:induction false} RunWaits(cfg: Config, plan: Plan, w: Worker, es: seq<Event>)
    requires AllWait(cfg, w) && forall e :: e in es ==> InTime(e)
    ensures AllWait(cfg, Run(cfg, plan, false, w, es))
    decreases |es|
  {
    if es != [] {
      hide Step, AllWait;
      assert es[0] in es;
      StepWaits(cfg, plan, w, es[0]);
      RunWaits(cfg, plan, Step(cfg, plan, false, w, es[0]), es[1..]);
    }
  }

  /** In every run of a UDP worker whose keepalive expiries lie inside its duration, whatever
      arrives and however often packets are refused: every open socket waits where it should,
      on the very ring that holds it. */
  lemma OpenSocketsWait(cfg: Config, plan: Plan, w: Worker, es: seq<Event>)
    requires Init(w) && forall e :: e in es ==> InTime(e)
    ensures var q := Run(cfg, plan, false, w, es);
            forall i :: 0 <= i < |q.socks| && q.socks[i].state != Closed ==>
              && (cfg.keepalive && cfg.interval > 0 ==> i in q.rings.ka)
              && (!cfg.keepalive ==> i in q.rings.rt)
              && (cfg.keepalive && cfg.interval == 0 ==> i !in q.rings.ka && i !in q.rings.rt)
  {
    InitInv(cfg, false, w);
    RunKeeps(cfg, plan, false, w, es);
    RunWaits(cfg, plan, w, es);
    hide Run;
    var q := Run(cfg, plan, false, w, es);
    forall i | 0 <= i < |q.socks| && q.socks[i].state != Closed ensures q.rings.Holder(i) == q.socks[i].ring
    {
      Held(cfg, q, i);
    }
  }

  lemma Held(cfg: Config, w: Worker, i: nat)
    requires Inv(cfg, false, w) && i < |w.socks|
    ensures w.rings.Holder(i) == w.socks[i].ring
  {
  }

  // ---------------------------------------------------------------- how many datagrams

  /** Packets granted among the next `n`. */
  function Grants(pool: seq<bool>, n: nat): nat
    decreases n
  {
    if n == 0 then 0
    else if pool == [] then n
    else (if pool[0] then 1 else 0) + Grants(pool[1..], n - 1)
  }

  lemma {:induction false} RequestsSend(st: St, n: nat)
    ensures UdpRequests(st, n).stats.udp == st.stats.udp + Grants(st.pool, n)
    decreases n
  {
    if n > 0 {
      RequestsSend(UdpRequest(st), n - 1);
      if st.pool == [] { GrantsAll(n - 1); }
    }
  }

  lemma {:induction false} GrantsAll(n: nat)
    ensures Grants([], n) == n
  {
  }

  lemma {:induction false} SendsSend(st: St, n: nat)
    ensures UdpSends(st, n).stats.udp == st.stats.udp + Grants(st.pool, n)
    decreases n
  {
    if n > 0 {
      SendsSend(UdpSend(st), n - 1);
      if st.pool == [] { GrantsAll(n - 1); }
    }
  }

  /** An expiry inside the duration sends the whole pipeline, at least one datagram, as far as
      packets are granted; one outside sends nothing. */
  lemma ExpirySends(cfg: Config, env: Env, st: St, pipeline: nat)
    requires st.sk.laddr != 0
    ensures UdpKeepaliveExpiry(cfg, env, st, pipeline).stats.udp
         == st.stats.udp + if env.inDuration then Grants(st.pool, Rounds(pipeline)) else 0
  {
    hide Place, Accurate, UdpRequests;
    RequestsSend(Move(st, NoRing), Rounds(pipeline));
  }

  /** With interval zero a reply to an open socket brings the next datagram, unless stopped. */
  lemma ReplySends(cfg: Config, stopped: bool, st: St)
    ensures UdpClient(cfg, stopped, st).stats.udp
         == st.stats.udp + if st.sk.state != Closed && st.sk.keepalive && cfg.interval == 0 && !stopped
                           then Grants(st.pool, 1) else 0
  {
    hide Place;
  }

  /** A launch opens with the datagrams it is given. */
  lemma LaunchSends(cfg: Config, now: nat, st: St, n: nat)
    ensures UdpLaunch(cfg, now, st, n).stats.udp
         == st.stats.udp + if st.sk.state == Closed then Grants(st.pool, n) else 0
  {
    hide Place, Accurate, UdpSends;
    if st.sk.state == Closed { SendsSend(ClientOpen(cfg, st, now), n); }
  }

  lemma LaunchOneSends(cfg: Config, now: nat, st: St, pipeline: nat)
    requires st.pool == []
    ensures var r := LaunchOne(cfg, false, now, st, Rounds(pipeline)).stats;
            if st.sk.state == Closed then r.open == st.stats.open + 1 && r.udp == st.stats.udp + Rounds(pipeline)
            else r == st.stats
  {
    hide Place, Accurate, UdpSends, Grants;
    if st.sk.state == Closed {
      var st1 := ClientOpen(cfg, st, now);
      SendsSend(st1, Rounds(pipeline));
      GrantsAll(Rounds(pipeline));
      SendsOpen(st1, Rounds(pipeline));
    }
  }

  lemma {:induction false} SendsOpen(st: St, n: nat)
    ensures UdpSends(st, n).stats.open == st.stats.open
    decreases n
  {
    if n > 0 { SendsOpen(UdpSend(st), n - 1); }
  }

  /** A launch of any number of sockets sends one datagram for each that opens, and the rest of the
      pipeline for one of them only: the count is not set back between sockets. */
  lemma {:induction false} LaunchesSend(cfg: Config, plan: Plan, now: nat, w: Worker, num: nat, pipeline: nat)
    ensures var r := LaunchMany(cfg, plan, false, now, [], w, num, pipeline).stats;
            && r.open >= w.stats.open
            && r.udp == w.stats.udp + (r.open - w.stats.open)
                        + (if r.open > w.stats.open then Rounds(pipeline) - 1 else 0)
    decreases num
  {
    if num > 0 && w.next < |w.socks| {
      var i := w.next;
      var st := Take(w, i, []);
      LaunchOneSends(cfg, now, st, pipeline);
      hide LaunchOne, At, Put;
      var w1 := Return(w.(next := AfterPick(i, |w.socks|, plan.hop)), i,
                       LaunchOne(cfg, false, now, st, Rounds(pipeline)));
      PutStats(w.(next := AfterPick(i, |w.socks|, plan.hop)), i, LaunchOne(cfg, false, now, st, Rounds(pipeline)));
      TakeStats(w, i);
      LaunchesSend(cfg, plan, now, w1, num - 1, if st.sk.state == Closed then 0 else pipeline);
    }
  }

  lemma PutStats(w: Worker, i: nat, st: St)
    requires i < |w.socks|
    ensures Return(w, i, st).stats == st.stats
  {
  }

  lemma TakeStats(w: Worker, i: nat)
    requires i < |w.socks|
    ensures Take(w, i, []).stats == w.stats && Take(w, i, []).pool == []
  {
  }
}
