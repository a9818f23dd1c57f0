/** What every TCP and UDP handler keeps: the rings, the open and close counters,
    the retransmission count, and what being on a ring means. */
module Invariants {
  import opened Rings
  import opened Tcp
  import opened Udp

  /** Where being on a ring means something: TCP (`m` says whether that is tracked),
      stop-and-wait, no flood mode, payloads not empty. */
  predicate Means(cfg: Config, m: bool) { m && cfg.sendWindow == 0 && !cfg.flood && 0 < cfg.dataLen < TWO32 }

  /** The packet pool grants the next request. */
  predicate Granted(pool: seq<bool>) { pool == [] || pool[0] }

  predicate Fits(ar: Arith, x: int) { ar == Unbounded || 0 <= x < TWO32 }

  /** What holds of a socket between handlers. */
  predicate Sound(cfg: Config, m: bool, k: Sock) {
    && k.state !in {Listen, CloseWait, TimeWait}
    && (k.state == Closed ==> k.ring == NoRing)
    && (k.state != Closed ==> k.retrans < RETRANSMIT_NUM_MAX)
    && (Means(cfg, m) ==> RingMeans(k) && Fits(cfg.arith, k.sndNxt))
  }

  /** On the retransmit ring something is outstanding, on the keepalive ring nothing is. */
  predicate RingMeans(k: Sock) {
    && (k.ring == Retransmit ==> k.sndNxt != k.sndUna)
    && (k.ring == Keepalive ==> k.sndNxt == k.sndUna)
  }

  function Live(k: Sock): int { if k.state == Closed then 0 else 1 }

  ghost predicate RingsFit(st: St) {
    st.rings.WellFormed() && st.rings.Holder(st.sk.id) == st.sk.ring
  }

  /** What a handler does to the rings: nothing, or the socket goes to the tail of
      one (or off all); on a server what it puts on a ring is stamped with the clock. */
  ghost predicate RingStep(cfg: Config, now: nat, st: St, r: St) {
    || (r.rings == st.rings && r.sk.ring == st.sk.ring && (r.sk.ring != NoRing ==> r.sk.timer == st.sk.timer))
    || (r.rings == Place(st.rings, st.sk.id, r.sk.ring)
        && (cfg.server && r.sk.ring in {Retransmit, Timeout} ==> r.sk.timer == now))
  }

  /** `r` comes from `st` by a handler: the rings moved by this socket only, and
      the counters changed by what happened to it. */
  ghost predicate Follows(cfg: Config, now: nat, st: St, r: St) {
    && r.sk.id == st.sk.id
    && RingStep(cfg, now, st, r)
    && r.stats.open - r.stats.close - r.stats.current == st.stats.open - st.stats.close - st.stats.current
    && r.stats.current - st.stats.current == Live(r.sk) - Live(st.sk)
  }

  /** So the rings keep fitting and nobody else moves. */
  lemma FollowsFits(cfg: Config, now: nat, st: St, r: St)
    requires Follows(cfg, now, st, r) && RingsFit(st)
    ensures RingsFit(r) && forall x :: x != st.sk.id ==> r.rings.Holder(x) == st.rings.Holder(x)
  {
    PlaceKeeps(st.rings, st.sk.id, r.sk.ring);
  }

  /** Same id, ring, liveness, rings and socket counters: a step Follows does not see. */
  predicate Unseen(st: St, r: St) {
    && r.sk.id == st.sk.id && r.sk.ring == st.sk.ring && Live(r.sk) == Live(st.sk) && r.rings == st.rings
    && (r.sk.ring != NoRing ==> r.sk.timer == st.sk.timer)
    && r.stats.open == st.stats.open && r.stats.close == st.stats.close && r.stats.current == st.stats.current
  }

  lemma UnseenFollows(cfg: Config, now: nat, st: St, r: St)
    requires Unseen(st, r)
    ensures Follows(cfg, now, st, r)
  {
  }

  lemma Then(cfg: Config, now: nat, a: St, b: St, c: St)
    requires Follows(cfg, now, a, b) && Follows(cfg, now, b, c)
    ensures Follows(cfg, now, a, c)
  {
    PlaceAgain(a.rings, a.sk.id, b.sk.ring, c.sk.ring);
  }

  lemma MoveFollows(cfg: Config, now: nat, st: St, r: Ring)
    requires cfg.server && r in {Retransmit, Timeout} ==> st.sk.timer == now
    ensures Follows(cfg, now, st, Move(st, r))
  {
    hide Place;
  }

  lemma CloseKeeps(cfg: Config, now: nat, st: St)
    ensures Follows(cfg, now, st, Close(st))
    ensures Close(st).sk == if st.sk.state == Closed then st.sk else st.sk.(state := Closed, ring := NoRing)
  {
    hide Place;
    MoveFollows(cfg, now, st.(sk := st.sk.(state := Closed)), NoRing);
  }

  // ---------------------------------------------------------------- timers and packets

  lemma TimerKeeps(cfg: Config, now: nat, st: St, tsc: nat)
    requires cfg.server ==> tsc == now
    ensures Follows(cfg, now, st, AddTimer(st, Retransmit, tsc)) && Follows(cfg, now, st, AddTimer(st, Timeout, tsc))
    ensures Follows(cfg, now, st, StartRetransmit(st, tsc)) && Follows(cfg, now, st, StopRetransmit(st))
  {
    hide Place;
  }

  lemma KeepaliveFollows(cfg: Config, now: nat, st: St, tsc: nat)
    ensures Follows(cfg, now, st, StartKeepalive(cfg, st, tsc))
  {
    hide Place;
  }

  lemma NewPacketUnseen(cfg: Config, st: St, f: Flags)
    ensures var r := NewPacket(cfg, st, f);
            && Unseen(st, r) && r.sk == st.sk.(sndNxt := r.sk.sndNxt)
            && (r.sk.sndNxt == st.sk.sndNxt
                || (st.sk.sndNxt == st.sk.sndUna && r.sk.sndNxt == Add(cfg.arith, st.sk.sndNxt, Advance(cfg, f))))
  {
  }

  lemma ReplyFollows(cfg: Config, now: nat, st: St, f: Flags)
    ensures Follows(cfg, now, st, Reply(cfg, now, st, f))
  {
    hide NewPacket, AddTimer, StartRetransmit, Accurate;
    var st1 := st.(sk := st.sk.(flags := f),
                   stats := if !f.push then st.stats
                            else if !cfg.server then st.stats.(req := st.stats.req + 1)
                            else if cfg.sendWindow == 0 then st.stats.(rsp := st.stats.rsp + 1)
                            else st.stats);
    var st2 := NewPacket(cfg, st1, f);
    NewPacketUnseen(cfg, st1, f);
    assert Unseen(st, st2);
    UnseenFollows(cfg, now, st, st2);
    TimerKeeps(cfg, now, st2, now);
    if !cfg.server { TimerKeeps(cfg, now, st2, Accurate(cfg.interval, st2.sk.timer, now)); }
    hide Follows;
    var r := Reply(cfg, now, st, f);
    assert Follows(cfg, now, st2, r) by { UnseenFollows(cfg, now, st2, st2); }
    Then(cfg, now, st, st2, r);
  }

  lemma ReplyRing(cfg: Config, now: nat, st: St, f: Flags)
    requires cfg.sendWindow == 0 && st.sk.state != Closed && RingMeans(st.sk) && Fits(cfg.arith, st.sk.sndNxt)
    ensures RingMeans(Reply(cfg, now, st, f).sk)
  {
    hide Place, Accurate, WireFlags;
  }

  lemma ReplySock(cfg: Config, now: nat, st: St, f: Flags)
    ensures var r := Reply(cfg, now, st, f);
            && r.sk.state == st.sk.state && r.sk.retrans == st.sk.retrans && r.sk.keepalive == st.sk.keepalive
            && r.sk.sndUna == st.sk.sndUna && r.sk.rcvNxt == st.sk.rcvNxt && r.sk.laddr == st.sk.laddr
            && (st.sk.state == Closed ==> r.sk.ring == st.sk.ring)
            && (Fits(cfg.arith, st.sk.sndNxt) ==> Fits(cfg.arith, r.sk.sndNxt))
            && (cfg.sendWindow == 0 && st.sk.state != Closed && RingMeans(st.sk) && Fits(cfg.arith, st.sk.sndNxt) ==>
                  RingMeans(r.sk))
  {
    if cfg.sendWindow == 0 && st.sk.state != Closed && RingMeans(st.sk) && Fits(cfg.arith, st.sk.sndNxt) {
      ReplyRing(cfg, now, st, f);
    }
    hide Place, Accurate, Advance, WireFlags, DataLen, RingMeans;
  }

  lemma ReplyKeeps(cfg: Config, m: bool, now: nat, st: St, f: Flags)
    requires Sound(cfg, m, st.sk)
    ensures var r := Reply(cfg, now, st, f);
            Follows(cfg, now, st, r) && Sound(cfg, m, r.sk) && r.sk.state == st.sk.state
  {
    hide Reply, Follows;
    ReplyFollows(cfg, now, st, f);
    ReplySock(cfg, now, st, f);
  }

  lemma ResendFirstKeeps(cfg: Config, now: nat, st: St)
    requires st.sk.state != Closed
    ensures var r := ResendFirst(cfg, now, st);
            Follows(cfg, now, st, r) && r.sk.state == st.sk.state && r.sk.retrans == st.sk.retrans
  {
    hide Reply;
    var st1 := st.(sk := st.sk.(sndNxt := st.sk.sndUna));
    ReplyFollows(cfg, now, st1, PUSH_ACK);
    ReplySock(cfg, now, st1, PUSH_ACK);
  }

  lemma StartRetransmitSock(st: St, now: nat)
    ensures var r := StartRetransmit(st, now); r.sk == st.sk.(ring := r.sk.ring, timer := r.sk.timer)
  {
  }

  lemma DoRetransmitKeeps(cfg: Config, m: bool, now: nat, st: St)
    requires Sound(cfg, m, st.sk) && st.sk.state != Closed
    ensures Follows(cfg, now, st, DoRetransmit(cfg, now, st)) && Sound(cfg, m, DoRetransmit(cfg, now, st).sk)
  {
    hide Reply, ResendFirst, Close, StartRetransmit, Follows;
    UnseenFollows(cfg, now, st, st.(sk := st.sk.(retrans := 0)));
    CloseKeeps(cfg, now, st);
    var st1 := st.(sk := st.sk.(retrans := st.sk.retrans + 1));
    UnseenFollows(cfg, now, st, st1);
    if st.sk.sndNxt != st.sk.sndUna && st.sk.laddr != 0 {
      if st1.sk.retrans < RETRANSMIT_NUM_MAX {
        if cfg.sendWindow > 0 && st1.sk.flags.push {
          ResendFirstKeeps(cfg, now, st1);
          var r := ResendFirst(cfg, now, st1);
          TimerKeeps(cfg, now, r, now);
          StartRetransmitSock(r, now);
          Then(cfg, now, st, st1, r);
          Then(cfg, now, st, r, StartRetransmit(r, now));
        } else {
          ReplyKeeps(cfg, m, now, st1, st1.sk.flags);
          Then(cfg, now, st, st1, Reply(cfg, now, st1, st1.sk.flags));
        }
      } else {
        var st2 := st1.(stats := CountError(st1.stats));
        UnseenFollows(cfg, now, st, st2);
        CloseKeeps(cfg, now, st2);
        Then(cfg, now, st, st2, Close(st2));
      }
    }
  }

  // ---------------------------------------------------------------- TCP handlers

  ghost predicate Keeps(cfg: Config, m: bool, now: nat, st: St,
                        r: St) { Follows(cfg, now, st, r) && Sound(cfg, m, r.sk) }

  lemma ServerOpenFollows(cfg: Config, now: nat, st: St, g: Segment)
    requires st.sk.state == Closed
    ensures Follows(cfg, now, st, ServerOpen(cfg, st, g))
  {
    hide Place;
    MoveFollows(cfg, now, st.(sk := st.sk.(state := SynReceived), stats := CountOpen(st.stats)), NoRing);
  }

  lemma ServerSynKeeps(cfg: Config, m: bool, now: nat, st: St, g: Segment)
    requires Sound(cfg, m, st.sk)
    ensures Keeps(cfg, m, now, st, ServerSyn(cfg, now, st, g))
  {
    hide Reply, Follows, Place;
    UnseenFollows(cfg, now, st, st);
    if st.sk.state == Closed {
      ServerOpenFollows(cfg, now, st, g);
      var st2 := ServerOpen(cfg, st, g);
      ReplyKeeps(cfg, m, now, st2, SYN_ACK);
      Then(cfg, now, st, st2, Reply(cfg, now, st2, SYN_ACK));
    } else if st.sk.state == SynReceived {
      ReplyKeeps(cfg, m, now, st, SYN_ACK);
    }
  }

  lemma SynAckRing(cfg: Config, now: nat, st: St)
    requires Means(cfg, true) && st.sk.sndUna == st.sk.sndNxt && st.sk.state == Established
    requires Fits(cfg.arith, st.sk.sndNxt)
    ensures var r := Reply(cfg, now, st, PUSH_ACK);
            && Fits(cfg.arith, r.sk.sndNxt)
            && (RingMeans(r.sk) <==> Granted(st.pool) || st.sk.ring != Retransmit)
  {
    assert Granted(st.pool) ==> Add(cfg.arith, st.sk.sndNxt, cfg.dataLen) != st.sk.sndNxt;
  }

  /** The SYN-ACK that opens a client on the retransmit ring: its request needs a packet. */
  predicate Opens(k: Sock, g: Segment) {
    k.state == SynSent && k.ring == Retransmit && g.flags == SYN_ACK && g.ack == k.sndNxt
  }

  /** The one handler that can break the ring meaning: without a packet for the
      first request the socket stays on the retransmit ring with nothing outstanding. */
  lemma SynAckNeedsPacket(cfg: Config, now: nat, st: St, g: Segment)
    requires Means(cfg, true) && Sound(cfg, true, st.sk) && Opens(st.sk, g)
    ensures Sound(cfg, true, ClientSynAck(cfg, now, st, g).sk) <==> Granted(st.pool)
  {
    hide Reply;
    var st1 := st.(sk := st.sk.(rcvNxt := Add(cfg.arith, g.seqno, 1), sndUna := g.ack, state := Established));
    SynAckRing(cfg, now, st1);
    ReplySock(cfg, now, st1, PUSH_ACK);
  }

  lemma ClientSynAckKeeps(cfg: Config, m: bool, now: nat, st: St, g: Segment)
    requires Sound(cfg, m, st.sk) && g.flags == SYN_ACK && (Means(cfg, m) && Opens(st.sk, g) ==> Granted(st.pool))
    ensures Keeps(cfg, m, now, st, ClientSynAck(cfg, now, st, g))
  {
    hide Reply, Follows;
    UnseenFollows(cfg, now, st, st);
    if st.sk.state == SynSent && g.ack == st.sk.sndNxt {
      var st1 := st.(sk := st.sk.(rcvNxt := Add(cfg.arith, g.seqno, 1), sndUna := g.ack, state := Established));
      UnseenFollows(cfg, now, st, st1);
      ReplyFollows(cfg, now, st1, PUSH_ACK);
      ReplySock(cfg, now, st1, PUSH_ACK);
      if Means(cfg, m) { SynAckRing(cfg, now, st1); }
      Then(cfg, now, st, st1, Reply(cfg, now, st1, PUSH_ACK));
    } else if st.sk.state == Established {
      ReplyKeeps(cfg, m, now, st, ACK);
    }
  }

  lemma AcceptKeeps(cfg: Config, m: bool, now: nat, st: St, g: Segment)
    requires Sound(cfg, m, st.sk) && st.sk.state != Closed && g.ack == st.sk.sndNxt
    ensures var r := Accept(cfg, st, g); Keeps(cfg, m, now, st, r) && r.sk.state == st.sk.state
  {
    hide StopRetransmit, Follows;
    var st1 := st.(sk := st.sk.(retrans := 0, sndUna := g.ack,
                                rcvNxt := Add(cfg.arith, g.seqno, g.len + if g.flags.fin then 1 else 0)));
    UnseenFollows(cfg, now, st, st1);
    UnseenFollows(cfg, now, st, st1.(sk := Grow(st1.sk)));
    TimerKeeps(cfg, now, st1, now);
    StopSock(st1);
    Then(cfg, now, st, st1, StopRetransmit(st1));
  }

  lemma StopSock(st: St)
    ensures StopRetransmit(st).sk == st.sk.(retrans := 0,
                                            ring := if st.sk.sndNxt == st.sk.sndUna then NoRing else st.sk.ring)
  {
  }

  lemma DupAckKeeps(cfg: Config, m: bool, now: nat, st: St)
    requires Sound(cfg, m, st.sk) && st.sk.state != Closed && cfg.sendWindow > 0
    ensures Keeps(cfg, m, now, st, DupAck(cfg, now, st)) && DupAck(cfg, now, st).sk.state == st.sk.state
  {
    hide ResendFirst, Follows;
    var st1 := st.(sk := st.sk.(retrans := st.sk.retrans + 1));
    UnseenFollows(cfg, now, st, st1);
    ResendFirstKeeps(cfg, now, st1);
    var r := ResendFirst(cfg, now, st1);
    UnseenFollows(cfg, now, r, r.(sk := r.sk.(retrans := 0)));
    Then(cfg, now, st, st1, r);
    Then(cfg, now, st, r, r.(sk := r.sk.(retrans := 0)));
  }

  lemma CheckOldKeeps(cfg: Config, m: bool, now: nat, st: St, ack: int)
    requires Sound(cfg, m, st.sk) && st.sk.state != Closed
    ensures var (r, ok) := CheckOld(cfg, now, st, ack); Keeps(cfg, m, now, st, r) && (ok ==> r.sk.state != Closed)
  {
    hide DupAck, DoRetransmit, Follows, Diff;
    UnseenFollows(cfg, now, st, st);
    UnseenFollows(cfg, now, st, st.(sk := Grow(st.sk.(sndUna := ack)).(retrans := 0)));
    if cfg.sendWindow > 0 { DupAckKeeps(cfg, m, now, st); }
    DoRetransmitKeeps(cfg, m, now, st);
  }

  lemma CheckSequenceKeeps(cfg: Config, m: bool, now: nat, st: St, g: Segment)
    requires Sound(cfg, m, st.sk)
    ensures var (r, ok) := CheckSequence(cfg, now, st, g);
            Keeps(cfg, m, now, st, r) && (ok ==> r.sk.state != Closed)
  {
    hide Accept, CheckOld, Follows, Diff, Add;
    UnseenFollows(cfg, now, st, st);
    UnseenFollows(cfg, now, st, st.(sk := st.sk.(retrans := 0)));
    if st.sk.state != Closed {
      if g.ack == st.sk.sndNxt { AcceptKeeps(cfg, m, now, st, g); }
      UnseenFollows(cfg, now, st, st.(sk := st.sk.(rcvNxt := Add(cfg.arith, g.seqno, 1), state := Closing)));
      CheckOldKeeps(cfg, m, now, st, g.ack);
    }
  }

  lemma ProcessFinKeeps(cfg: Config, m: bool, now: nat, st: St, rx: Flags, tx: Flags)
    requires Sound(cfg, m, st.sk)
    ensures Keeps(cfg, m, now, st, ProcessFin(st, rx, tx).0)
  {
    hide Close, Follows;
    UnseenFollows(cfg, now, st, st);
    CloseKeeps(cfg, now, st);
    forall s | s in {LastAck, FinWait1, FinWait2} && st.sk.state != Closed
        ensures Follows(cfg, now, st, st.(sk := st.sk.(state := s))) {
      UnseenFollows(cfg, now, st, st.(sk := st.sk.(state := s)));
    }
  }

  lemma ServerFinishKeeps(cfg: Config, m: bool, now: nat, st: St, rx: Flags, tx: Flags)
    requires Sound(cfg, m, st.sk) && st.sk.state != Closed
    ensures Keeps(cfg, m, now, st, ServerFinish(cfg, now, st, rx, tx))
  {
    hide Reply, ProcessFin, StartTimeout, Follows;
    var act := Rank(st.sk.state) > Rank(Established) || rx.fin || tx.fin;
    var (st1, f) := if act then ProcessFin(st, rx, tx) else (st, tx);
    UnseenFollows(cfg, now, st, st);
    ProcessFinKeeps(cfg, m, now, st, rx, tx);
    ReplyKeeps(cfg, m, now, st1, f);
    Then(cfg, now, st, st1, Reply(cfg, now, st1, f));
    TimeoutKeeps(cfg, m, st1, now);
    if st1.sk.state != Closed { Then(cfg, now, st, st1, StartTimeout(st1, now)); }
  }

  lemma TimeoutKeeps(cfg: Config, m: bool, st: St, now: nat)
    requires Sound(cfg, m, st.sk)
    ensures var r := StartTimeout(st, now);
            (st.sk.state != Closed ==> Keeps(cfg, m, now, st, r)) && r.sk.state == st.sk.state
  {
    hide Follows, Place;
    TimerKeeps(cfg, now, st, now);
  }

  lemma ClientFinishKeeps(cfg: Config, m: bool, now: nat, st: St, rx: Flags, tx: Flags)
    requires Sound(cfg, m, st.sk)
    ensures Keeps(cfg, m, now, st, ClientFinish(cfg, now, st, rx, tx))
  {
    hide Reply, ProcessFin, Follows;
    var act := Rank(st.sk.state) > Rank(Established) || rx.fin || tx.fin;
    var (st1, f) := if act then ProcessFin(st, rx, tx) else (st, tx);
    UnseenFollows(cfg, now, st, st);
    ProcessFinKeeps(cfg, m, now, st, rx, tx);
    ReplyKeeps(cfg, m, now, st1, f);
    Then(cfg, now, st, st1, Reply(cfg, now, st1, f));
  }

  lemma {:induction false} BurstKeeps(cfg: Config, m: bool, now: nat, st: St, limit: int, max: int, k: nat)
    requires Sound(cfg, m, st.sk) && cfg.sendWindow > 0 && st.sk.state != Closed
    ensures var r := Burst(cfg, now, st, limit, max, k);
            Keeps(cfg, m, now, st, r) && r.sk.state == st.sk.state
    decreases k
  {
    hide Reply, Follows;
    if k > 0 && Diff(cfg.arith, st.sk.sndNxt, limit) < 0 && Diff(cfg.arith, st.sk.sndNxt, max) < 0 {
      var st1 := st.(sk := st.sk.(sndUna := st.sk.sndNxt));
      UnseenFollows(cfg, now, st, st1);
      ReplyKeeps(cfg, m, now, st1, PUSH_ACK_URG);
      var st2 := Reply(cfg, now, st1, PUSH_ACK_URG);
      BurstKeeps(cfg, m, now, st2, limit, max, k - 1);
      Then(cfg, now, st, st1, st2);
      Then(cfg, now, st, st2, Burst(cfg, now, st2, limit, max, k - 1));
    } else {
      UnseenFollows(cfg, now, st, st);
    }
  }

  lemma ReplyMoreKeeps(cfg: Config, m: bool, now: nat, st: St)
    requires Sound(cfg, m, st.sk) && cfg.sendWindow > 0 && st.sk.state != Closed
    ensures Keeps(cfg, m, now, st, ReplyMore(cfg, now, st)) && ReplyMore(cfg, now, st).sk.state != Closed
  {
    hide Reply, Burst, StartTimeout, Follows;
    var una := st.sk.sndUna;
    var limit := Add(cfg.arith, una, cfg.sendWindow);
    BurstKeeps(cfg, m, now, st, limit, st.sk.sndMax, st.sk.sndWindow);
    var b := Burst(cfg, now, st, limit, st.sk.sndMax, st.sk.sndWindow);
    var st1 := b.(sk := b.sk.(sndUna := una));
    UnseenFollows(cfg, now, b, st1);
    Then(cfg, now, st, b, st1);
    TimeoutKeeps(cfg, m, st1, now);
    Then(cfg, now, st, st1, StartTimeout(st1, now));
    var st2 := st1.(sk := st1.sk.(state := FinWait1));
    UnseenFollows(cfg, now, st1, st2);
    ReplyKeeps(cfg, m, now, st2, FIN_ACK);
    Then(cfg, now, st, st1, st2);
    Then(cfg, now, st, st2, Reply(cfg, now, st2, FIN_ACK));
  }

  lemma ServeWindowedKeeps(cfg: Config, m: bool, now: nat, st: St)
    requires Sound(cfg, m, st.sk) && cfg.sendWindow > 0 && st.sk.state != Closed
    ensures Keeps(cfg, m, now, st, ServeWindowed(cfg, now, st))
  {
    hide Reply, ReplyMore, StartRetransmit, Follows;
    var st1 := st.(sk := st.sk.(sndMax := Add(cfg.arith, st.sk.sndNxt, cfg.payload), httpAck := false),
                   stats := st.stats.(rsp := st.stats.rsp + 1));
    UnseenFollows(cfg, now, st, st1);
    ReplyMoreKeeps(cfg, m, now, st1);
    ReplyKeeps(cfg, m, now, st1, PUSH_ACK);
    var r := Reply(cfg, now, st1, PUSH_ACK);
    UnseenFollows(cfg, now, r, r.(sk := r.sk.(requests := 1)));
    Then(cfg, now, st1, r, r.(sk := r.sk.(requests := 1)));
    var st2 := if st1.sk.requests != 0 then ReplyMore(cfg, now, st1) else r.(sk := r.sk.(requests := 1));
    TimerKeeps(cfg, now, st2, now);
    StartRetransmitSock(st2, now);
    Then(cfg, now, st, st1, st2);
    Then(cfg, now, st, st2, StartRetransmit(st2, now));
  }

  /** What a server in stop-and-wait answers an accepted segment with, and in which state. */
  function Answer(st: St, g: Segment): (St, Flags) {
    var st1 := if Rank(st.sk.state) < Rank(Established) then st.(sk := st.sk.(state := Established)) else st;
    if st1.sk.state == Established && g.len > 0
    then (st1.(stats := st1.stats.(req := st1.stats.req + 1)), if st1.sk.keepalive then PUSH_ACK else PUSH_ACK_FIN)
    else (st1, NONE)
  }

  lemma ServerDataIs(cfg: Config, now: nat, st: St, g: Segment)
    requires cfg.sendWindow == 0
    ensures var (st1, ok) := CheckSequence(cfg, now, st, g);
            var (st2, f) := Answer(st1, g);
            ServerData(cfg, now, st, g) == if ok then ServerFinish(cfg, now, st2, g.flags, f) else st1
  {
    hide CheckSequence, ServerFinish, ServeWindowed, ReplyMore;
  }

  lemma ServerDataKeeps(cfg: Config, m: bool, now: nat, st: St, g: Segment)
    requires Sound(cfg, m, st.sk)
    ensures Keeps(cfg, m, now, st, ServerData(cfg, now, st, g))
  {
    hide CheckSequence, ServeWindowed, ServerFinish, ReplyMore, Follows;
    CheckSequenceKeeps(cfg, m, now, st, g);
    var (st1, ok) := CheckSequence(cfg, now, st, g);
    if ok {
      var st2 := if Rank(st1.sk.state) < Rank(Established) then st1.(sk := st1.sk.(state := Established)) else st1;
      UnseenFollows(cfg, now, st1, st2);
      Then(cfg, now, st, st1, st2);
      var st3 := st2.(stats := st2.stats.(req := st2.stats.req + 1));
      UnseenFollows(cfg, now, st2, st3);
      Then(cfg, now, st, st2, st3);
      var r := ServerData(cfg, now, st, g);
      if st2.sk.state == Established && g.len > 0 {
        if cfg.sendWindow > 0 { ServeWindowedKeeps(cfg, m, now, st3); }
        ServerFinishKeeps(cfg, m, now, st3, g.flags, if st3.sk.keepalive then PUSH_ACK else PUSH_ACK_FIN);
        Then(cfg, now, st, st3, r);
      } else {
        if cfg.sendWindow > 0 { ReplyMoreKeeps(cfg, m, now, st2); }
        ServerFinishKeeps(cfg, m, now, st2, g.flags, NONE);
        Then(cfg, now, st, st2, r);
      }
    }
  }

  lemma StartKeepaliveKeeps(cfg: Config, m: bool, now: nat, st: St, tsc: nat)
    requires Sound(cfg, m, st.sk) && st.sk.state != Closed
    ensures var r := StartKeepalive(cfg, st, tsc); Keeps(cfg, m, now, st, r) && r.sk.state == st.sk.state
  {
    hide Follows, Place;
    KeepaliveFollows(cfg, now, st, tsc);
  }

  lemma SendKeepaliveRequestKeeps(cfg: Config, m: bool, env: Env, st: St)
    requires Sound(cfg, m, st.sk) && st.sk.state != Closed
    ensures var r := SendKeepaliveRequest(cfg, env, st); Keeps(cfg, m, env.now, st, r) && r.sk.state != Closed
  {
    hide Reply, Follows;
    var st1 := if env.inDuration then st.(sk := st.sk.(requests := (st.sk.requests + 1) % 0x8000))
               else st.(sk := st.sk.(state := FinWait1));
    var f := if env.inDuration then PUSH_ACK else FIN_ACK;
    UnseenFollows(cfg, env.now, st, st1);
    ReplyKeeps(cfg, m, env.now, st1, f);
    var r := Reply(cfg, env.now, st1, f);
    Then(cfg, env.now, st, st1, r);
    UnseenFollows(cfg, env.now, r, r.(sk := r.sk.(keepalive := false)));
    Then(cfg, env.now, st, r, r.(sk := r.sk.(keepalive := false)));
  }

  lemma HttpEndKeeps(cfg: Config, m: bool, now: nat, st: St, rxFin: bool)
    requires Sound(cfg, m, st.sk) && st.sk.state != Closed
    ensures var r := HttpEnd(cfg, now, st, rxFin).0; Keeps(cfg, m, now, st, r) && r.sk.state == st.sk.state
  {
    hide StartKeepalive, Follows;
    var st1 := st.(sk := InitHttp(st.sk));
    var st2 := if st.sk.httpFrags >= 2 || (cfg.interval >= cfg.rto && !cfg.disableAck)
        then st1.(sk := st1.sk.(httpAck := true)) else st1;
    UnseenFollows(cfg, now, st, st1);
    UnseenFollows(cfg, now, st, st2);
    StartKeepaliveKeeps(cfg, m, now, st2, now);
    Then(cfg, now, st, st2, StartKeepalive(cfg, st2, now));
  }

  /** A change of the parser's fields, the keepalive flag and the response count is not seen. */
  lemma HttpFields(cfg: Config, m: bool, now: nat, st: St, r: St)
    requires Sound(cfg, m, st.sk)
    requires r == st.(sk := st.sk.(keepalive := r.sk.keepalive, httpAck := r.sk.httpAck, httpFrags := r.sk.httpFrags),
                      stats := st.stats.(rsp := r.stats.rsp))
    ensures Keeps(cfg, m, now, st, r) && r.sk.state == st.sk.state
  {
    UnseenFollows(cfg, now, st, r);
  }

  lemma HttpDataKeeps(cfg: Config, m: bool, now: nat, st: St, rxFin: bool, h: HttpOutcome)
    requires Sound(cfg, m, st.sk) && st.sk.state != Closed
    ensures var r := HttpData(cfg, now, st, rxFin, h).0; Keeps(cfg, m, now, st, r) && r.sk.state == st.sk.state
  {
    hide HttpEnd, Follows, Sound;
    var r := HttpData(cfg, now, st, rxFin, h).0;
    if h.verdict.End? {
      var st0 := st.(sk := if h.closes then st.sk.(keepalive := false) else st.sk,
                     stats := if h.first then st.stats.(rsp := st.stats.rsp + 1) else st.stats);
      assert r == HttpEnd(cfg, now, st0, rxFin).0;
      hide HttpData;
      HttpFields(cfg, m, now, st, st0);
      HttpEndKeeps(cfg, m, now, st0, rxFin);
      Then(cfg, now, st, st0, r);
    } else {
      HttpFields(cfg, m, now, st, r);
    }
  }

  lemma ClientTakeKeeps(cfg: Config, m: bool, env: Env, st: St, g: Segment, h: HttpOutcome)
    requires Sound(cfg, m, st.sk) && st.sk.state != Closed
    ensures var r := ClientTake(cfg, env, st, g, h).0; Keeps(cfg, m, env.now, st, r) && r.sk.state != Closed
  {
    hide StartKeepalive, SendKeepaliveRequest, HttpData, Follows;
    HttpDataKeeps(cfg, m, env.now, st, g.flags.fin, h);
    var st1 := st.(stats := st.stats.(rsp := st.stats.rsp + 1));
    UnseenFollows(cfg, env.now, st, st1);
    StartKeepaliveKeeps(cfg, m, env.now, st1, st1.sk.timer);
    Then(cfg, env.now, st, st1, StartKeepalive(cfg, st1, st1.sk.timer));
    SendKeepaliveRequestKeeps(cfg, m, env, st1);
    Then(cfg, env.now, st, st1, SendKeepaliveRequest(cfg, env, st1));
  }

  lemma ClientDataKeeps(cfg: Config, m: bool, env: Env, st: St, g: Segment, h: HttpOutcome)
    requires Sound(cfg, m, st.sk)
    ensures Keeps(cfg, m, env.now, st, ClientData(cfg, env, st, g, h))
  {
    hide CheckSequence, ClientTake, ClientFinish, Reply, Close, Follows;
    CheckSequenceKeeps(cfg, m, env.now, st, g);
    var (st1, ok) := CheckSequence(cfg, env.now, st, g);
    if ok {
      ClientFinishKeeps(cfg, m, env.now, st1, g.flags, NONE);
      Then(cfg, env.now, st, st1, ClientFinish(cfg, env.now, st1, g.flags, NONE));
      ClientTakeKeeps(cfg, m, env, st1, g, h);
      var (st2, tx) := ClientTake(cfg, env, st1, g, h);
      Then(cfg, env.now, st, st1, st2);
      ClientFinishKeeps(cfg, m, env.now, st2, g.flags, tx);
      Then(cfg, env.now, st, st2, ClientFinish(cfg, env.now, st2, g.flags, tx));
      ReplyKeeps(cfg, m, env.now, st2, RST_ACK);
      var st3 := Reply(cfg, env.now, st2, RST_ACK);
      CloseKeeps(cfg, env.now, st3);
      Then(cfg, env.now, st, st2, st3);
      Then(cfg, env.now, st, st3, Close(st3));
    }
  }

  lemma CloseSound(cfg: Config, m: bool, now: nat, st: St)
    requires Sound(cfg, m, st.sk)
    ensures Keeps(cfg, m, now, st, Close(st))
  {
    hide Close, Follows;
    CloseKeeps(cfg, now, st);
  }

  /** A segment for a server socket. */
  lemma ServerKeeps(cfg: Config, m: bool, now: nat, st: St, g: Segment)
    requires Sound(cfg, m, st.sk)
    ensures Keeps(cfg, m, now, st, Server(cfg, now, st, g))
  {
    hide ServerData, ServerSyn, Close;
    ServerDataKeeps(cfg, m, now, st, g);
    ServerSynKeeps(cfg, m, now, st, g);
    CloseSound(cfg, m, now, st);
  }

  /** A segment for a client socket. */
  lemma ClientKeeps(cfg: Config, m: bool, env: Env, st: St, g: Segment, h: HttpOutcome)
    requires Sound(cfg, m, st.sk) && (Means(cfg, m) && Opens(st.sk, g) ==> Granted(st.pool))
    ensures Keeps(cfg, m, env.now, st, Client(cfg, env, st, g, h))
  {
    hide ClientData, ClientSynAck, Close;
    ClientDataKeeps(cfg, m, env, st, g, h);
    if g.flags == SYN_ACK { ClientSynAckKeeps(cfg, m, env.now, st, g); }
    CloseSound(cfg, m, env.now, st);
  }

  lemma OffRing(cfg: Config, m: bool, now: nat, st: St)
    requires Sound(cfg, m, st.sk)
    ensures Keeps(cfg, m, now, st, Move(st, NoRing))
  {
    hide Place, Follows;
    MoveFollows(cfg, now, st, NoRing);
  }

  lemma RetransmitExpiryKeeps(cfg: Config, m: bool, now: nat, st: St)
    requires Sound(cfg, m, st.sk) && st.sk.ring == Retransmit
    ensures Keeps(cfg, m, now, st, RetransmitExpiry(cfg, now, st))
  {
    hide DoRetransmit, Follows, Place;
    OffRing(cfg, m, now, st);
    DoRetransmitKeeps(cfg, m, now, Move(st, NoRing));
    Then(cfg, now, st, Move(st, NoRing), RetransmitExpiry(cfg, now, st));
  }

  lemma TimeoutExpiryKeeps(cfg: Config, m: bool, now: nat, st: St)
    requires Sound(cfg, m, st.sk)
    ensures Keeps(cfg, m, now, st, TimeoutExpiry(st))
  {
    hide Close, Follows, Place;
    OffRing(cfg, m, now, st);
    var st1 := Move(st, NoRing);
    var st2 := st1.(stats := CountError(st1.stats));
    UnseenFollows(cfg, now, st1, st2);
    Then(cfg, now, st, st1, st2);
    CloseSound(cfg, m, now, st2);
    Then(cfg, now, st, st2, Close(st2));
  }

  /** The flood tail: the SYN counts as acknowledged and the socket waits for its next turn. */
  lemma FloodKeeps(cfg: Config, m: bool, now: nat, st: St)
    requires Sound(cfg, m, st.sk) && st.sk.state != Closed && cfg.flood
    ensures var r := StartKeepalive(cfg, st.(sk := st.sk.(sndUna := st.sk.sndNxt)), now);
            Keeps(cfg, m, now, st, r)
  {
    hide StartKeepalive, Follows;
    var st1 := st.(sk := st.sk.(sndUna := st.sk.sndNxt));
    UnseenFollows(cfg, now, st, st1);
    StartKeepaliveKeeps(cfg, m, now, st1, now);
    Then(cfg, now, st, st1, StartKeepalive(cfg, st1, now));
  }

  lemma KeepaliveExpiryKeeps(cfg: Config, m: bool, env: Env, st: St)
    requires Sound(cfg, m, st.sk) && st.sk.ring == Keepalive
    ensures Keeps(cfg, m, env.now, st, KeepaliveExpiry(cfg, env, st))
  {
    hide Reply, Close, SendKeepaliveRequest, StartKeepalive, Follows, Place;
    OffRing(cfg, m, env.now, st);
    var st1 := Move(st, NoRing);
    CloseSound(cfg, m, env.now, st1);
    SendKeepaliveRequestKeeps(cfg, m, env, st1);
    ReplyKeeps(cfg, m, env.now, st1, SYN);
    var s := Reply(cfg, env.now, st1, SYN);
    if cfg.flood {
      FloodKeeps(cfg, m, env.now, s);
      Then(cfg, env.now, st1, s, StartKeepalive(cfg, s.(sk := s.sk.(sndUna := s.sk.sndNxt)), env.now));
    }
    var st2 := st1.(sk := st1.sk.(state := FinWait1));
    UnseenFollows(cfg, env.now, st1, st2);
    ReplyKeeps(cfg, m, env.now, st2, FIN_ACK);
    Then(cfg, env.now, st1, st2, Reply(cfg, env.now, st2, FIN_ACK));
    UnseenFollows(cfg, env.now, st1, st1);
    Then(cfg, env.now, st, st1, KeepaliveExpiry(cfg, env, st));
  }

  lemma ClientOpenKeeps(cfg: Config, m: bool, st: St, now: nat)
    requires Sound(cfg, m, st.sk) && st.sk.state == Closed
    ensures var r := ClientOpen(cfg, st, now); Keeps(cfg, m, now, st, r) && r.sk.state != Closed
  {
  }

  lemma LaunchKeeps(cfg: Config, m: bool, now: nat, st: St)
    requires Sound(cfg, m, st.sk)
    ensures Keeps(cfg, m, now, st, Launch(cfg, now, st))
  {
    hide Reply, Close, StartKeepalive, ClientOpen, Follows;
    UnseenFollows(cfg, now, st, st);
    if st.sk.state == Closed {
      ClientOpenKeeps(cfg, m, st, now);
      var st1 := ClientOpen(cfg, st, now);
      ReplyKeeps(cfg, m, now, st1, SYN);
      var r := Reply(cfg, now, st1, SYN);
      Then(cfg, now, st, st1, r);
      CloseSound(cfg, m, now, r);
      Then(cfg, now, st, r, Close(r));
      if cfg.flood {
        FloodKeeps(cfg, m, now, r);
        Then(cfg, now, st, r, StartKeepalive(cfg, r.(sk := r.sk.(sndUna := r.sk.sndNxt)), now));
      }
    }
  }

  lemma AckDelayedKeeps(cfg: Config, m: bool, now: nat, st: St)
    requires Sound(cfg, m, st.sk)
    ensures Keeps(cfg, m, now, st, AckDelayed(cfg, now, st))
  {
    hide Reply, Follows;
    UnseenFollows(cfg, now, st, st);
    var st1 := st.(sk := st.sk.(httpAck := false));
    UnseenFollows(cfg, now, st, st1);
    ReplyKeeps(cfg, m, now, st1, ACK);
    Then(cfg, now, st, st1, Reply(cfg, now, st1, ACK));
  }

  // ---------------------------------------------------------------- UDP handlers

  lemma {:induction false} UdpSendsUnseen(st: St, n: nat)
    ensures Unseen(st, UdpSends(st, n)) && UdpSends(st, n).sk == st.sk
    decreases n
  {
    if n > 0 { UdpSendsUnseen(UdpSend(st), n - 1); }
  }

  lemma {:induction false} UdpRequestsUnseen(st: St, n: nat)
    requires st.sk.state != Closed
    ensures var r := UdpRequests(st, n);
            && Unseen(st, r) && r.sk == st.sk.(state := r.sk.state, requests := r.sk.requests)
            && r.sk.state in {st.sk.state, SynSent}
    decreases n
  {
    if n > 0 { UdpRequestsUnseen(UdpRequest(st), n - 1); }
  }

  lemma UdpRetransmitExpiryKeeps(cfg: Config, now: nat, st: St)
    requires Sound(cfg, false, st.sk)
    ensures Keeps(cfg, false, now, st, UdpRetransmitExpiry(st))
  {
    hide Close, Follows, Place;
    OffRing(cfg, false, now, st);
    CloseSound(cfg, false, now, Move(st, NoRing));
    Then(cfg, now, st, Move(st, NoRing), UdpRetransmitExpiry(st));
  }

  /** Here the ring invariant is what keeps the counters: a closed socket would be revived uncounted. */
  lemma UdpKeepaliveExpiryKeeps(cfg: Config, env: Env, st: St, pipeline: nat)
    requires Sound(cfg, false, st.sk) && st.sk.ring == Keepalive
    ensures Keeps(cfg, false, env.now, st, UdpKeepaliveExpiry(cfg, env, st, pipeline))
  {
    hide Close, StartKeepalive, UdpRequests, Follows, Place;
    OffRing(cfg, false, env.now, st);
    var st1 := Move(st, NoRing);
    CloseSound(cfg, false, env.now, st1);
    UdpRequestsUnseen(st1, Rounds(pipeline));
    var st2 := UdpRequests(st1, Rounds(pipeline));
    UnseenFollows(cfg, env.now, st1, st2);
    StartKeepaliveKeeps(cfg, false, env.now, st2, env.now);
    Then(cfg, env.now, st1, st2, StartKeepalive(cfg, st2, env.now));
    UnseenFollows(cfg, env.now, st1, st1);
    Then(cfg, env.now, st, st1, UdpKeepaliveExpiry(cfg, env, st, pipeline));
  }

  lemma UdpClientKeeps(cfg: Config, now: nat, stopped: bool, st: St)
    requires Sound(cfg, false, st.sk)
    ensures Keeps(cfg, false, now, st, UdpClient(cfg, stopped, st))
  {
    hide Close, Follows;
    UnseenFollows(cfg, now, st, st);
    if st.sk.state != Closed {
      var st1 := st.(sk := st.sk.(state := SynReceived));
      UnseenFollows(cfg, now, st, st1);
      CloseSound(cfg, false, now, st1);
      Then(cfg, now, st, st1, Close(st1));
      UnseenFollows(cfg, now, st, UdpRequest(st1));
    }
  }

  lemma UdpLaunchKeeps(cfg: Config, now: nat, st: St, n: nat)
    requires Sound(cfg, false, st.sk)
    ensures Keeps(cfg, false, now, st, UdpLaunch(cfg, now, st, n))
  {
    hide Close, StartKeepalive, ClientOpen, UdpSends, AddTimer, Follows;
    UnseenFollows(cfg, now, st, st);
    if st.sk.state == Closed {
      ClientOpenKeeps(cfg, false, st, now);
      var st0 := ClientOpen(cfg, st, now);
      UdpSendsUnseen(st0, n);
      var st1 := UdpSends(st0, n);
      UnseenFollows(cfg, now, st0, st1);
      Then(cfg, now, st, st0, st1);
      StartKeepaliveKeeps(cfg, false, now, st1, now);
      Then(cfg, now, st, st1, StartKeepalive(cfg, st1, now));
      CloseSound(cfg, false, now, st1);
      Then(cfg, now, st, st1, Close(st1));
      TimerKeeps(cfg, now, st1, now);
      AddSock(st1, now);
      Then(cfg, now, st, st1, AddTimer(st1, Retransmit, now));
    }
  }

  lemma AddSock(st: St, now: nat)
    ensures AddTimer(st, Retransmit, now).sk == st.sk.(timer := now, ring := Retransmit)
  {
  }
}
