/** The beat of a keepalive client and the growth of a server's window: what the timers and the
    acknowledgements do over a run. */
module Pace {
  import opened Rings
  import opened Tcp
  import opened Verdicts
  import opened Invariants
  import opened Window

  // ---------------------------------------------------------------- the beat

  /** A stamp is never in the future, at most one interval old, and whole intervals after the last
      one unless the call was more than three intervals late. */
  lemma AccurateIs(interval: nat, timer: nat, now: nat)
    requires timer <= now
    ensures var r := Accurate(interval, timer, now);
            && timer <= r <= now <= r + interval
            && (now <= timer + 3 * interval ==>
                  exists k: nat :: k <= 2 && r == timer + k * interval && (k > 0 ==> now > timer + k * interval))
            && (now > timer + 3 * interval ==> r == now - interval)
  {
    var k: nat := if now <= timer + interval then 0 else if now <= timer + 2 * interval then 1 else 2;
    assert k == 0 ==> k * interval == 0;
    assert k == 1 ==> k * interval == interval;
    assert k == 2 ==> k * interval == 2 * interval;
    assert now <= timer + 3 * interval ==> Accurate(interval, timer, now) == timer + k * interval;
  }

  /** Stamp after stamp, at these clock readings. */
  function Beats(interval: nat, timer: nat, nows: seq<nat>): nat
    decreases |nows|
  {
    if nows == [] then timer else Beats(interval, Accurate(interval, timer, nows[0]), nows[1..])
  }

  /** Each call comes when the socket is due, and less than three intervals late. */
  predicate Punctual(interval: nat, timer: nat, nows: seq<nat>)
    decreases |nows|
  {
    nows != [] ==>
      && timer + interval < nows[0] <= timer + 3 * interval
      && Punctual(interval, Accurate(interval, timer, nows[0]), nows[1..])
  }

  /** Punctual expiries keep the beat: after n of them the stamp is a whole number of intervals,
      at least n and at most 2 n, behind the first. */
  lemma {:induction false} BeatIsKept(interval: nat, timer: nat, nows: seq<nat>) returns (k: nat)
    requires Punctual(interval, timer, nows)
    ensures |nows| <= k <= 2 * |nows| && Beats(interval, timer, nows) == timer + k * interval
    decreases |nows|
  {
    k := 0;
    if nows != [] {
      AccurateIs(interval, timer, nows[0]);
      var t := Accurate(interval, timer, nows[0]);
      var j: nat :| j <= 2 && t == timer + j * interval && (j > 0 ==> nows[0] > timer + j * interval);
      var i := BeatIsKept(interval, t, nows[1..]);
      k := i + j;
      assert (i + j) * interval == i * interval + j * interval;
      assert j == 0 ==> t == timer;
    }
  }

  /** The request of an idle client carries the next stamp, and taking its response leaves it. */
  lemma RequestOnBeat(cfg: Config, env: Env, st: St, g: Segment)
    requires cfg.arith == Unbounded && cfg.sendWindow == 0 && cfg.dataLen > 0 && !cfg.flood && !cfg.server && !cfg.http
    requires cfg.interval > 0 && st.pool == [] && st.sk.state == Established && st.sk.keepalive
    ensures st.sk.sndUna == st.sk.sndNxt && env.inDuration ==>
              var r := KeepaliveExpiry(cfg, env, st).sk;
              r.timer == Accurate(cfg.interval, st.sk.timer, env.now) && r.ring == Retransmit
    ensures st.sk.sndUna == st.sk.sndNxt && env.inDuration && st.sk.timer <= env.now ==>
              KeepaliveExpiry(cfg, env, st).sk.timer <= env.now
    ensures st.sk.sndUna == st.sk.sndNxt && g.len > 0 ==>
              var r := ClientTake(cfg, env, st, g, HttpOutcome(More, false, false)).0.sk;
              r.timer == st.sk.timer && r.ring == Keepalive
  {
    hide Place;
  }

  /** A launch stamps the socket with the clock, whatever its last connection left there. */
  lemma LaunchOnTime(cfg: Config, now: nat, st: St)
    requires !cfg.server && cfg.sendWindow == 0 && st.pool == [] && st.sk.state == Closed
    ensures var r := Launch(cfg, now, st).sk;
            && r.timer == now
            && (!cfg.flood ==> r.ring == Retransmit)
            && (cfg.flood && cfg.keepalive ==> r.ring == Keepalive)
  {
    hide Place;
  }

  // ---------------------------------------------------------------- acknowledgements

  function AckOf(k: Sock, ack: int): Segment { Segment(k.rcvNxt, ack, ACK, 0) }

  function Less(x: nat, y: nat): nat { if x < y then x else y }

  /** An acknowledgement of something new widens the window by one packet, up to sixteen. */
  lemma AckWidens(cfg: Config, now: nat, st: St, ack: int)
    requires Windowed(cfg) && st.sk.state == Established && 1 <= st.sk.sndWindow <= SEND_WINDOW_MAX
    requires Diff(cfg.arith, ack, st.sk.sndUna) > 0 && Diff(cfg.arith, ack, st.sk.sndNxt) <= 0
    ensures var r := Server(cfg, now, st, AckOf(st.sk, ack)).sk;
            r.sndWindow == Less(st.sk.sndWindow + 1, SEND_WINDOW_MAX) && r.sndUna == ack && r.retrans == 0
  {
    hide Place, Burst, Reply;
    var (st1, ok) := CheckSequence(cfg, now, st, AckOf(st.sk, ack));
    assert ok && st1.sk.sndWindow == Less(st.sk.sndWindow + 1, SEND_WINDOW_MAX) && st1.sk.sndUna == ack;
    MoreKeepsWindow(cfg, now, st1);
  }

  lemma MoreKeepsWindow(cfg: Config, now: nat, st: St)
    ensures var r := ReplyMore(cfg, now, st).sk;
            r.sndWindow == st.sk.sndWindow && r.sndUna == st.sk.sndUna && r.retrans == st.sk.retrans
  {
    hide Burst, Reply;
    var limit := Add(cfg.arith, st.sk.sndUna, cfg.sendWindow);
    BurstKeepsWindow(cfg, now, st, limit, st.sk.sndMax, st.sk.sndWindow);
    var b := Burst(cfg, now, st, limit, st.sk.sndMax, st.sk.sndWindow);
    ReplyKeepsWindow(cfg, now, b.(sk := b.sk.(sndUna := st.sk.sndUna, state := FinWait1)), FIN_ACK);
    TimeoutLeaves(b.(sk := b.sk.(sndUna := st.sk.sndUna)), now);
  }

  lemma {:induction false} BurstKeepsWindow(cfg: Config, now: nat, st: St, limit: int, max: int, k: nat)
    ensures var r := Burst(cfg, now, st, limit, max, k).sk;
            r.sndWindow == st.sk.sndWindow && r.retrans == st.sk.retrans
    decreases k
  {
    hide Reply;
    if k > 0 && Diff(cfg.arith, st.sk.sndNxt, limit) < 0 && Diff(cfg.arith, st.sk.sndNxt, max) < 0 {
      var st1 := st.(sk := st.sk.(sndUna := st.sk.sndNxt));
      ReplyKeepsWindow(cfg, now, st1, PUSH_ACK_URG);
      BurstKeepsWindow(cfg, now, Reply(cfg, now, st1, PUSH_ACK_URG), limit, max, k - 1);
    }
  }

  lemma ReplyKeepsWindow(cfg: Config, now: nat, st: St, f: Flags)
    ensures var r := Reply(cfg, now, st, f).sk;
            r.sndWindow == st.sk.sndWindow && r.retrans == st.sk.retrans && r.sndUna == st.sk.sndUna
  {
    hide Place, Accurate, WireFlags, Advance;
  }

  /** `n` packets of a response one after the other, from `from` on. */
  function Packets(cfg: Config, from: int, rcv: int, n: nat): seq<Segment>
    decreases n
  {
    if n == 0 then []
    else [Segment(from, rcv, ACK, cfg.dataLen)] + Packets(cfg, Add(cfg.arith, from, cfg.dataLen), rcv, n - 1)
  }

  /** Nothing more may be sent: the burst is complete, the send window is full or the response ends. */
  predicate Filled(cfg: Config, nxt: int, limit: int, max: int, left: nat) {
    left == 0 || Diff(cfg.arith, nxt, limit) >= 0 || Diff(cfg.arith, nxt, max) >= 0
  }

  lemma BurstPacket(cfg: Config, now: nat, st: St)
    requires Windowed(cfg) && st.pool == [] && st.sk.state == Established
    ensures var r := Reply(cfg, now, st.(sk := st.sk.(sndUna := st.sk.sndNxt)), PUSH_ACK_URG);
            && r.pool == [] && r.sk.state == Established && r.sk.rcvNxt == st.sk.rcvNxt
            && r.sk.sndNxt == Add(cfg.arith, st.sk.sndNxt, cfg.dataLen)
            && r.sent == st.sent + [Segment(st.sk.sndNxt, st.sk.rcvNxt, ACK, cfg.dataLen)]
            && r.sk.keepalive == st.sk.keepalive
  {
    hide Place, Add;
  }

  /** A burst of at most `k` packets sends them one after the other until nothing more may be sent. */
  lemma {:induction false} BurstFills(cfg: Config, now: nat, st: St, limit: int, max: int, k: nat) returns (n: nat)
    requires Windowed(cfg) && st.pool == [] && st.sk.state == Established
    ensures var r := Burst(cfg, now, st, limit, max, k);
            && n <= k && Filled(cfg, r.sk.sndNxt, limit, max, k - n)
            && r.sent == st.sent + Packets(cfg, st.sk.sndNxt, st.sk.rcvNxt, n)
            && r.pool == [] && r.sk.state == Established && r.sk.rcvNxt == st.sk.rcvNxt
            && r.sk.keepalive == st.sk.keepalive
    decreases k
  {
    hide Reply, Add, Diff, Windowed;
    n := 0;
    if k > 0 && Diff(cfg.arith, st.sk.sndNxt, limit) < 0 && Diff(cfg.arith, st.sk.sndNxt, max) < 0 {
      BurstPacket(cfg, now, st);
      var r := Reply(cfg, now, st.(sk := st.sk.(sndUna := st.sk.sndNxt)), PUSH_ACK_URG);
      n := BurstFills(cfg, now, r, limit, max, k - 1);
      n := n + 1;
    }
  }

  /** The same acknowledgement lets out as many packets as the wider window holds, or as many as the
      send window and the rest of the response leave. */
  lemma AckFills(cfg: Config, now: nat, st: St, ack: int) returns (n: nat)
    requires Windowed(cfg) && st.pool == [] && st.sk.state == Established && 1 <= st.sk.sndWindow <= SEND_WINDOW_MAX
    requires Fits(cfg.arith, st.sk.rcvNxt)
    requires Diff(cfg.arith, ack, st.sk.sndUna) > 0 && Diff(cfg.arith, ack, st.sk.sndNxt) <= 0 && ack != st.sk.sndMax
    ensures var r := Server(cfg, now, st, AckOf(st.sk, ack));
            var w := Less(st.sk.sndWindow + 1, SEND_WINDOW_MAX);
            && r.sent == st.sent + Packets(cfg, st.sk.sndNxt, st.sk.rcvNxt, n)
            && n <= w && Filled(cfg, r.sk.sndNxt, Add(cfg.arith, ack, cfg.sendWindow), st.sk.sndMax, w - n)
            && r.sk.sndUna == ack && r.sk.state == Established
  {
    var st1 := CheckSequence(cfg, now, st, AckOf(st.sk, ack)).0;
    AckTaken(cfg, now, st, ack);
    hide Place, Burst, Reply, Server, CheckSequence, Add, Diff;
    n := BurstFills(cfg, now, st1, Add(cfg.arith, ack, cfg.sendWindow), st.sk.sndMax, st1.sk.sndWindow);
  }

  lemma AckTaken(cfg: Config, now: nat, st: St, ack: int)
    requires Windowed(cfg) && st.sk.state == Established && 1 <= st.sk.sndWindow <= SEND_WINDOW_MAX
    requires Fits(cfg.arith, st.sk.rcvNxt)
    requires Diff(cfg.arith, ack, st.sk.sndUna) > 0 && Diff(cfg.arith, ack, st.sk.sndNxt) <= 0
    ensures var (st1, ok) := CheckSequence(cfg, now, st, AckOf(st.sk, ack));
            && ok && st1 == st.(sk := st.sk.(sndUna := ack, retrans := 0,
                                             sndWindow := Less(st.sk.sndWindow + 1, SEND_WINDOW_MAX)))
            && Server(cfg, now, st, AckOf(st.sk, ack)) == ReplyMore(cfg, now, st1)
  {
    hide Place, Burst, Reply, ReplyMore;
  }

  /** Acknowledgements one after another, as long as the response is under way. */
  function Acked(cfg: Config, now: nat, st: St, acks: seq<int>): St
    decreases |acks|
  {
    if acks == [] then st else Acked(cfg, now, Server(cfg, now, st, AckOf(st.sk, acks[0])), acks[1..])
  }

  /** Each of them acknowledges something new that is in flight, on an established connection. */
  predicate Fresh(cfg: Config, now: nat, st: St, acks: seq<int>)
    decreases |acks|
  {
    acks != [] ==>
      && st.sk.state == Established
      && Diff(cfg.arith, acks[0], st.sk.sndUna) > 0 && Diff(cfg.arith, acks[0], st.sk.sndNxt) <= 0
      && Fresh(cfg, now, Server(cfg, now, st, AckOf(st.sk, acks[0])), acks[1..])
  }

  /** Slow start over a run: after n fresh acknowledgements the window is n packets wider, up to sixteen. */
  lemma {:induction false} WindowGrows(cfg: Config, now: nat, st: St, acks: seq<int>)
    requires Windowed(cfg) && 1 <= st.sk.sndWindow <= SEND_WINDOW_MAX && Fresh(cfg, now, st, acks)
    ensures Acked(cfg, now, st, acks).sk.sndWindow == Less(st.sk.sndWindow + |acks|, SEND_WINDOW_MAX)
    ensures acks != [] ==> Acked(cfg, now, st, acks).sk.sndUna == acks[|acks| - 1]
    decreases |acks|
  {
    if acks != [] {
      AckWidens(cfg, now, st, acks[0]);
      hide Server;
      WindowGrows(cfg, now, Server(cfg, now, st, AckOf(st.sk, acks[0])), acks[1..]);
    }
  }

  /** Three acknowledgements of the same byte while something is in flight: the first two do
      nothing but count, the third sends the packet at that byte once more and shuts the window to one. */
  lemma ThirdDuplicate(cfg: Config, now: nat, st: St, a: Segment, b: Segment, c: Segment)
    requires Windowed(cfg) && st.sk.state == Established && Granted(st.pool) && st.sk.retrans == 0
    requires st.sk.sndUna != st.sk.sndNxt && Diff(cfg.arith, st.sk.sndUna, st.sk.sndNxt) <= 0
    requires forall g :: g in [a, b, c] ==> DatalessEvent(Arrives(g)) && g.ack == st.sk.sndUna
    ensures var st1 := Server(cfg, now, st, a);
            var st2 := Server(cfg, now, st1, b);
            var st3 := Server(cfg, now, st2, c);
            && st1 == st.(sk := st.sk.(retrans := 1)) && st2 == st.(sk := st.sk.(retrans := 2))
            && st3.sent == st.sent + [Segment(st.sk.sndUna, st.sk.rcvNxt, PUSH_ACK, cfg.dataLen)]
            && st3.sk == st.sk.(retrans := 0, sndWindow := 1, flags := PUSH_ACK)
  {
    assert a in [a, b, c] && b in [a, b, c] && c in [a, b, c];
    hide Server, ResendFirst, DupAck, Dataless, Windowed;
    var st1 := st.(sk := st.sk.(retrans := 1));
    var st2 := st.(sk := st.sk.(retrans := 2));
    Duplicate(cfg, now, st, a);
    DupCounts(cfg, now, st);
    Duplicate(cfg, now, st1, b);
    DupCounts(cfg, now, st1);
    Duplicate(cfg, now, st2, c);
    DupCounts(cfg, now, st2);
  }

  lemma DupCounts(cfg: Config, now: nat, st: St)
    requires Windowed(cfg) && Granted(st.pool) && st.sk.state == Established && st.sk.retrans < 3
    ensures st.sk.retrans < 2 ==> DupAck(cfg, now, st) == st.(sk := st.sk.(retrans := st.sk.retrans + 1))
    ensures st.sk.retrans == 2 ==>
              var r := DupAck(cfg, now, st);
              && r.sk == st.sk.(retrans := 0, sndWindow := 1, flags := PUSH_ACK)
              && r.sent == st.sent + [Segment(st.sk.sndUna, st.sk.rcvNxt, PUSH_ACK, cfg.dataLen)]
  {
    ResendIs(cfg, now, st.(sk := st.sk.(retrans := 3)));
    hide ResendFirst;
  }

  lemma Duplicate(cfg: Config, now: nat, st: St, g: Segment)
    requires Windowed(cfg) && st.sk.state == Established && st.sk.retrans < 3 && DatalessEvent(Arrives(g))
    requires g.ack == st.sk.sndUna != st.sk.sndNxt && Diff(cfg.arith, g.ack, st.sk.sndNxt) <= 0
    ensures Server(cfg, now, st, g) == DupAck(cfg, now, st)
  {
    hide ResendFirst, ReplyMore, Place;
  }

  lemma ResendIs(cfg: Config, now: nat, st: St)
    requires Windowed(cfg) && Granted(st.pool) && st.sk.state == Established
    ensures var r := ResendFirst(cfg, now, st);
            && r.sk == st.sk.(sndWindow := 1, flags := PUSH_ACK)
            && r.sent == st.sent + [Segment(st.sk.sndUna, st.sk.rcvNxt, PUSH_ACK, cfg.dataLen)]
  {
    hide Place;
  }

  // ---------------------------------------------------------------- the server's watch

  /** What can happen to a stop-and-wait server: any segment at all, or an expiry of the ring it is on. */
  datatype ServerEvent = Comes(g: Segment, now: nat) | RepeatDue(now: nat) | GiveUpDue

  function ServerStep(cfg: Config, st: St, e: ServerEvent): St {
    match e
    case Comes(g, now) => Server(cfg, now, st, g)
    case RepeatDue(now) => if st.sk.ring == Retransmit then RetransmitExpiry(cfg, now, st) else st
    case GiveUpDue => if st.sk.ring == Timeout then TimeoutExpiry(st) else st
  }

  function ServerRun(cfg: Config, st: St, es: seq<ServerEvent>): St
    decreases |es|
  {
    if es == [] then st else ServerRun(cfg, ServerStep(cfg, st, es[0]), es[1..])
  }

  /** An open server with nothing outstanding is watched by the timeout ring. */
  predicate Watched(k: Sock) { k.state != Closed && k.sndUna == k.sndNxt ==> k.ring == Timeout }

  predicate StopAndWait(cfg: Config) { cfg.server && cfg.sendWindow == 0 && cfg.dataLen > 0 && cfg.arith == Unbounded }

  /** Whatever segments arrive, in every run of a stop-and-wait server: while it is open with
      nothing outstanding it is on the timeout ring, and the expiry of that ring closes it with one error. */
  lemma {:induction false} OpenServerIsWatched(cfg: Config, st: St, es: seq<ServerEvent>)
    requires StopAndWait(cfg) && st.pool == [] && st.sk.state == Closed && st.sk.ring == NoRing
    ensures var r := ServerRun(cfg, st, es);
            && Watched(r.sk)
            && (r.sk.state != Closed && r.sk.sndUna == r.sk.sndNxt ==>
                  var c := ServerStep(cfg, r, GiveUpDue);
                  && c.sk.state == Closed && c.sk.ring == NoRing && c.sent == r.sent
                  && c.stats == r.stats.(error := r.stats.error + 1, close := r.stats.close + 1,
                                         current := r.stats.current - 1))
  {
    hide ServerRun, Place;
    WatchKept(cfg, st, es);
  }

  lemma {:induction false} WatchKept(cfg: Config, st: St, es: seq<ServerEvent>)
    requires StopAndWait(cfg) && st.pool == [] && Watched(st.sk)
    ensures Watched(ServerRun(cfg, st, es).sk)
    decreases |es|
  {
    hide ServerStep;
    if es != [] {
      StepWatches(cfg, st, es[0]);
      WatchKept(cfg, ServerStep(cfg, st, es[0]), es[1..]);
    }
  }

  lemma StepWatches(cfg: Config, st: St, e: ServerEvent)
    requires StopAndWait(cfg) && st.pool == [] && Watched(st.sk)
    ensures var r := ServerStep(cfg, st, e); r.pool == [] && Watched(r.sk)
  {
    hide Place, ServerData, ServerSyn, DoRetransmit;
    match e {
      case Comes(g, now) => DataWatches(cfg, now, st, g); SynWatches(cfg, now, st, g);
      case RepeatDue(now) => if st.sk.ring == Retransmit { RepeatWatches(cfg, now, Move(st, NoRing)); }
      case GiveUpDue =>
    }
  }

  lemma RepeatWatches(cfg: Config, now: nat, st: St)
    requires StopAndWait(cfg) && st.pool == [] && (Watched(st.sk) || st.sk.sndUna != st.sk.sndNxt)
    ensures var r := DoRetransmit(cfg, now, st); r.pool == [] && Watched(r.sk)
  {
    hide Place, WireFlags;
  }

  lemma SynWatches(cfg: Config, now: nat, st: St, g: Segment)
    requires StopAndWait(cfg) && st.pool == [] && Watched(st.sk)
    ensures var r := ServerSyn(cfg, now, st, g); r.pool == [] && Watched(r.sk)
  {
    hide Place, WireFlags;
  }

  lemma DataWatches(cfg: Config, now: nat, st: St, g: Segment)
    requires StopAndWait(cfg) && st.pool == [] && Watched(st.sk)
    ensures var r := ServerData(cfg, now, st, g); r.pool == [] && Watched(r.sk)
  {
    hide CheckSequence, ServerFinish, Place;
    CheckWatches(cfg, now, st, g);
    var (st1, ok) := CheckSequence(cfg, now, st, g);
    if ok {
      var st2 := if Rank(st1.sk.state) < Rank(Established) then st1.(sk := st1.sk.(state := Established)) else st1;
      var st3 := st2.(stats := st2.stats.(req := st2.stats.req + 1));
      FinishWatches(cfg, now, st2, g.flags, NONE);
      FinishWatches(cfg, now, st3, g.flags, if st3.sk.keepalive then PUSH_ACK else PUSH_ACK_FIN);
    }
  }

  lemma CheckWatches(cfg: Config, now: nat, st: St, g: Segment)
    requires StopAndWait(cfg) && st.pool == [] && Watched(st.sk)
    ensures var (r, ok) := CheckSequence(cfg, now, st, g); r.pool == [] && (!ok ==> Watched(r.sk))
  {
    hide Place, DoRetransmit;
    RepeatWatches(cfg, now, st);
  }

  lemma FinishWatches(cfg: Config, now: nat, st: St, rx: Flags, tx: Flags)
    requires StopAndWait(cfg) && st.pool == [] && tx in {NONE, PUSH_ACK, PUSH_ACK_FIN}
    ensures var r := ServerFinish(cfg, now, st, rx, tx); r.pool == [] && Watched(r.sk)
  {
    hide Place, WireFlags;
  }
}
