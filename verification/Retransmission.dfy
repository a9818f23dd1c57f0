/** How often an outstanding segment is sent again before the socket gives up. */
module Retransmission {
  import opened Rings
  import opened Tcp
  import opened Invariants
  import opened Worker
  import opened Verdicts

  /** The segment a retransmission repeats. */
  function Outstanding(cfg: Config, k: Sock): Segment {
    Segment(k.sndUna, k.rcvNxt, WireFlags(k.flags), DataLen(cfg, k.flags))
  }

  lemma LastAttempt(cfg: Config, now: nat, st: St)
    requires cfg.sendWindow == 0 && st.sk.state != Closed && st.sk.sndNxt != st.sk.sndUna && st.sk.laddr != 0
    requires st.sk.retrans == 3
    ensures var r := DoRetransmit(cfg, now, st);
            && r.sk.state == Closed && r.sent == st.sent
            && r.stats.error == st.stats.error + 1 && r.stats.current == st.stats.current - 1
  {
    hide Place, Reply;
  }

  lemma Repeat(cfg: Config, now: nat, st: St)
    requires cfg.sendWindow == 0 && st.sk.state != Closed && st.sk.sndNxt != st.sk.sndUna && st.sk.laddr != 0
    ensures var r := Reply(cfg, now, st, st.sk.flags);
            && r.sk == st.sk.(timer := r.sk.timer, ring := r.sk.ring)
            && r.stats.error == st.stats.error && r.stats.current == st.stats.current
            && (st.pool == [] ==> r.pool == [])
            && r.sent == st.sent + if st.pool == [] || st.pool[0] then [Outstanding(cfg, st.sk)] else []
  {
    hide Place, Accurate, WireFlags, DataLen, Advance;
  }

  lemma OneAttempt(cfg: Config, now: nat, st: St)
    requires cfg.sendWindow == 0 && st.sk.state != Closed && st.sk.sndNxt != st.sk.sndUna && st.sk.laddr != 0
    requires st.sk.retrans < RETRANSMIT_NUM_MAX
    ensures var r := DoRetransmit(cfg, now, st);
            if st.sk.retrans < 3 then
              && r.sk == st.sk.(retrans := st.sk.retrans + 1, timer := r.sk.timer, ring := r.sk.ring)
              && r.stats.error == st.stats.error && r.stats.current == st.stats.current
              && (st.pool == [] ==> r.pool == [])
              && r.sent == st.sent + if st.pool == [] || st.pool[0] then [Outstanding(cfg, st.sk)] else []
            else
              && r.sk.state == Closed && r.sent == st.sent
              && r.stats.error == st.stats.error + 1 && r.stats.current == st.stats.current - 1
  {
    hide Place, Reply;
    if st.sk.retrans < 3 {
      Repeat(cfg, now, st.(sk := st.sk.(retrans := st.sk.retrans + 1)));
    } else {
      LastAttempt(cfg, now, st);
    }
  }

  // ---------------------------------------------------------------- one handler call

  /** Both numbers are the expected ones: what tcp_check_sequence accepts. */
  predicate Expected(k: Sock, g: Segment) { g.ack == k.sndNxt && g.seqno == k.rcvNxt }

  /** Segments that reach tcp_check_sequence. */
  predicate Data(g: Segment) { !g.flags.syn && !g.flags.rst && g.flags.ack }

  /** The handler accepts a segment on an open socket: one with both expected
      numbers, or the SYN-ACK a client waits for. */
  predicate Accepts(k: Sock, act: Act) {
    match act
    case ServerSegment(g) => Data(g) && Expected(k, g)
    case ClientSegment(g, _) => (Data(g) && Expected(k, g))
        || (g.flags == SYN_ACK && k.state == SynSent && g.ack == k.sndNxt)
    case _ => false
  }

  /** A segment that is not accepted, but old enough to bring a retransmission forward. */
  predicate Stale(cfg: Config, now: nat, k: Sock, g: Segment) {
    && Data(g) && !Expected(k, g)
    && !(k.state == FinWait1 && g.flags.fin && g.len == 0 && g.ack == k.sndUna && g.seqno == k.rcvNxt)
    && Diff(cfg.arith, g.ack, k.sndNxt) <= 0 && k.timer + cfg.second < now
  }

  /** The handler calls tcp_do_retransmit: at the expiry of the retransmit ring, or for a stale segment. */
  predicate Resends(cfg: Config, now: nat, k: Sock, act: Act) {
    match act
    case ServerSegment(g) => Stale(cfg, now, k, g)
    case ClientSegment(g, _) => Stale(cfg, now, k, g)
    case RetransmitDue => k.ring == Retransmit
    case _ => false
  }

  /** Open with something outstanding: a retransmission count is running. */
  predicate Running(k: Sock) { k.state != Closed && k.sndNxt != k.sndUna }

  /** The count and the address stay. */
  predicate Counted(k: Sock, r: Sock) { r.retrans == k.retrans && r.laddr == k.laddr }

  lemma CheckCounts(cfg: Config, now: nat, st: St, g: Segment)
    requires cfg.sendWindow == 0 && Running(st.sk) && !Expected(st.sk, g) && Data(g)
    ensures var (r, ok) := CheckSequence(cfg, now, st, g);
            if Stale(cfg, now, st.sk, g) then !ok && r == DoRetransmit(cfg, now, st)
            else Counted(st.sk, r.sk) && r.sent == st.sent
    ensures CheckSequence(cfg, now, st, g).1 ==> CheckSequence(cfg, now, st, g).0.sk.state == Closing
  {
    hide DoRetransmit;
  }

  lemma FinCounts(st: St, rx: Flags, tx: Flags)
    ensures Counted(st.sk, ProcessFin(st, rx, tx).0.sk)
  {
    hide Place;
  }

  lemma FinishCounts(cfg: Config, now: nat, st: St, rx: Flags, tx: Flags)
    ensures Counted(st.sk, ServerFinish(cfg, now, st, rx, tx).sk)
    ensures Counted(st.sk, ClientFinish(cfg, now, st, rx, tx).sk)
  {
    hide Reply, Place, ProcessFin, RingMeans;
    FinCounts(st, rx, tx);
    var (st1, f) := if Rank(st.sk.state) > Rank(Established) || rx.fin || tx.fin then ProcessFin(st, rx, tx)
        else (st, tx);
    ReplySock(cfg, now, st1, f);
  }

  lemma SegmentCounts(cfg: Config, env: Env, st: St, g: Segment, h: HttpOutcome)
    requires cfg.sendWindow == 0 && Running(st.sk) && !Expected(st.sk, g) && Data(g)
    ensures if Stale(cfg, env.now, st.sk, g)
            then ServerData(cfg, env.now, st, g) == ClientData(cfg, env, st, g, h) == DoRetransmit(cfg, env.now, st)
            else Counted(st.sk, ServerData(cfg, env.now, st, g).sk) && Counted(st.sk, ClientData(cfg, env, st, g, h).sk)
  {
    hide CheckSequence, ServerFinish, ClientFinish, DoRetransmit, Stale;
    CheckCounts(cfg, env.now, st, g);
    FinishCounts(cfg, env.now, CheckSequence(cfg, env.now, st, g).0, g.flags, NONE);
  }

  lemma SynCounts(cfg: Config, now: nat, st: St, g: Segment)
    requires st.sk.state !in {Closed, TimeWait}
    ensures Counted(st.sk, ServerSyn(cfg, now, st, g).sk)
    ensures !(st.sk.state == SynSent && g.ack == st.sk.sndNxt) ==> Counted(st.sk, ClientSynAck(cfg, now, st, g).sk)
  {
    hide Reply;
    ReplySock(cfg, now, st, SYN_ACK);
    ReplySock(cfg, now, st, ACK);
  }

  lemma TimersCount(cfg: Config, env: Env, st: St)
    requires Running(st.sk)
    ensures Counted(st.sk, KeepaliveExpiry(cfg, env, st).sk)
    ensures TimeoutExpiry(st).sk.state == Closed && Counted(st.sk, AckDelayed(cfg, env.now, st).sk)
  {
    hide Reply, Place;
    var st1 := Move(st, NoRing);
    ReplySock(cfg, env.now, st1, SYN);
    ReplySock(cfg, env.now, st1.(sk := st1.sk.(state := FinWait1)), FIN_ACK);
    ReplySock(cfg, env.now, st.(sk := st.sk.(httpAck := false)), ACK);
  }

  /** Every handler call on a socket with something outstanding, short of accepting a
      segment: a retransmission counts one, repeats the outstanding segment, and at
      the fourth closes the socket with one error; nothing else touches the count. */
  lemma ActCounts(cfg: Config, plan: Plan, env: Env, st: St, act: Act)
    requires cfg.sendWindow == 0 && Running(st.sk) && Sound(cfg, false, st.sk) && st.sk.laddr != 0
    requires !Accepts(st.sk, act)
    ensures var r := Handle(cfg, plan, true, env, st, act);
            if !Resends(cfg, env.now, st.sk, act) then r.sk.state == Closed || Counted(st.sk, r.sk)
            else if st.sk.retrans < 3 then
              && r.sk.state == st.sk.state && r.sk.retrans == st.sk.retrans + 1 && r.sk.laddr == st.sk.laddr
              && r.sent == st.sent + if st.pool == [] || st.pool[0] then [Outstanding(cfg, st.sk)] else []
            else
              && r.sk.state == Closed && r.sent == st.sent
              && r.stats.error == st.stats.error + 1 && r.stats.current == st.stats.current - 1
  {
    hide DoRetransmit, ServerData, ClientData, ServerSyn, ClientSynAck, KeepaliveExpiry, TimeoutExpiry, AckDelayed,
        Stale, Outstanding;
    OneAttempt(cfg, env.now, st);
    match act {
      case ServerSegment(g) =>
        if Data(g) {
          SegmentCounts(cfg, env, st, g, HttpOutcome(More, false, false));
        } else {
          NotStale(cfg, env.now, st.sk, g);
        }
        SynCounts(cfg, env.now, st, g);
      case ClientSegment(g, h) =>
        if Data(g) { SegmentCounts(cfg, env, st, g, h); } else { NotStale(cfg, env.now, st.sk, g); }
        SynCounts(cfg, env.now, st, g);
      case RetransmitDue =>
        OneAttempt(cfg, env.now, Move(st, NoRing));
        SameOutstanding(cfg, st.sk, Move(st, NoRing).sk);
      case _ => TimersCount(cfg, env, st);
    }
  }

  lemma NotStale(cfg: Config, now: nat, k: Sock, g: Segment)
    requires !Data(g)
    ensures !Stale(cfg, now, k, g)
  {
  }

  lemma SameOutstanding(cfg: Config, k: Sock, r: Sock)
    requires r == k.(retrans := r.retrans, timer := r.timer, ring := r.ring)
    ensures Outstanding(cfg, r) == Outstanding(cfg, k)
  {
  }

  /** So the count goes down only when a segment is accepted, or with nothing outstanding. */
  lemma OnlyAcceptanceResets(cfg: Config, plan: Plan, env: Env, st: St, act: Act)
    requires cfg.sendWindow == 0 && Sound(cfg, false, st.sk) && st.sk.state != Closed && st.sk.laddr != 0
    requires var r := Handle(cfg, plan, true, env, st, act); r.sk.state != Closed && r.sk.retrans < st.sk.retrans
    ensures Accepts(st.sk, act) || st.sk.sndNxt == st.sk.sndUna
  {
    hide Handle, Accepts;
    if Running(st.sk) && !Accepts(st.sk, act) { ActCounts(cfg, plan, env, st, act); }
  }

  /** A segment with both expected numbers does reset it. */
  lemma AcceptanceResets(cfg: Config, env: Env, st: St, g: Segment, h: HttpOutcome)
    requires cfg.sendWindow == 0 && st.sk.state != Closed && Data(g) && Expected(st.sk, g)
    ensures ServerData(cfg, env.now, st, g).sk.retrans == 0 && ClientData(cfg, env, st, g, h).sk.retrans == 0
  {
    hide ServerData, ClientData;
    ServerResets(cfg, env.now, st, g);
    ClientResets(cfg, env, st, g, h);
  }

  lemma AcceptResets(cfg: Config, now: nat, st: St, g: Segment)
    requires cfg.sendWindow == 0 && st.sk.state != Closed && Expected(st.sk, g)
    ensures CheckSequence(cfg, now, st, g).1 && CheckSequence(cfg, now, st, g).0.sk.retrans == 0
  {
    hide Place;
  }

  lemma ServerResets(cfg: Config, now: nat, st: St, g: Segment)
    requires cfg.sendWindow == 0 && st.sk.state != Closed && Data(g) && Expected(st.sk, g)
    ensures ServerData(cfg, now, st, g).sk.retrans == 0
  {
    AcceptResets(cfg, now, st, g);
    ServerDataIs(cfg, now, st, g);
    hide ServerFinish, CheckSequence, ServerData;
    var (st2, f) := Answer(CheckSequence(cfg, now, st, g).0, g);
    FinishCounts(cfg, now, st2, g.flags, f);
  }

  lemma ClientResets(cfg: Config, env: Env, st: St, g: Segment, h: HttpOutcome)
    requires cfg.sendWindow == 0 && st.sk.state != Closed && Data(g) && Expected(st.sk, g)
    ensures ClientData(cfg, env, st, g, h).sk.retrans == 0
  {
    AcceptResets(cfg, env.now, st, g);
    hide ClientFinish, ClientTake, CheckSequence, Reply, Place, RingMeans;
    var st1 := CheckSequence(cfg, env.now, st, g).0;
    FinishCounts(cfg, env.now, st1, g.flags, NONE);
    TakeCounts(cfg, env, st1, g, h);
    var (st4, tx) := ClientTake(cfg, env, st1, g, h);
    FinishCounts(cfg, env.now, st4, g.flags, tx);
    ReplySock(cfg, env.now, st4, RST_ACK);
  }

  lemma TakeCounts(cfg: Config, env: Env, st: St, g: Segment, h: HttpOutcome)
    ensures Counted(st.sk, ClientTake(cfg, env, st, g, h).0.sk)
  {
    hide Reply, Place;
    var st1 := st.(stats := st.stats.(rsp := st.stats.rsp + 1));
    ReplySock(cfg, env.now, st1.(sk := st.sk.(requests := (st.sk.requests + 1) % 0x8000)), PUSH_ACK);
    ReplySock(cfg, env.now, st1.(sk := st.sk.(state := FinWait1)), FIN_ACK);
  }

  // ---------------------------------------------------------------- whole runs

  predicate RunningAt(w: Worker, i: nat) { i < |w.socks| && Running(w.socks[i]) }

  predicate AcceptsAt(w: Worker, e: Event, i: nat)
    requires i < |w.socks|
  {
    e.One? && e.i == i && Accepts(w.socks[i], e.act)
  }

  predicate ResendsAt(cfg: Config, w: Worker, e: Event, i: nat)
    requires i < |w.socks|
  {
    e.One? && e.i == i && Resends(cfg, e.env.now, w.socks[i], e.act)
  }

  /** No segment is accepted on socket `i` while its count runs. */
  predicate Quiet(cfg: Config, plan: Plan, w: Worker, es: seq<Event>, i: nat)
    decreases |es|
  {
    es != [] && RunningAt(w, i) ==>
      !AcceptsAt(w, es[0], i) && Quiet(cfg, plan, Step(cfg, plan, true, w, es[0]), es[1..], i)
  }

  /** Calls of tcp_do_retransmit for socket `i` while its count runs. */
  function Calls(cfg: Config, plan: Plan, w: Worker, es: seq<Event>, i: nat): nat
    decreases |es|
  {
    if es == [] || !RunningAt(w, i) then 0
    else (if ResendsAt(cfg, w, es[0], i) then 1 else 0) + Calls(cfg, plan, Step(cfg, plan, true, w, es[0]), es[1..], i)
  }

  /** One of these calls closes the socket and counts exactly one error. */
  predicate GivesUp(cfg: Config, plan: Plan, w: Worker, es: seq<Event>, i: nat)
    decreases |es|
  {
    && es != [] && RunningAt(w, i)
    && var q := Step(cfg, plan, true, w, es[0]);
       || (ResendsAt(cfg, w, es[0], i) && i < |q.socks| && q.socks[i].state == Closed
           && q.stats.error == w.stats.error + 1 && q.stats.current == w.stats.current - 1)
       || GivesUp(cfg, plan, q, es[1..], i)
  }

  /** The worker when the count stops running, or after all events. */
  function Stop(cfg: Config, plan: Plan, w: Worker, es: seq<Event>, i: nat): Worker
    decreases |es|
  {
    if es == [] || !RunningAt(w, i) then w else Stop(cfg, plan, Step(cfg, plan, true, w, es[0]), es[1..], i)
  }

  /** One event of the worker, seen from socket `i`. */
  lemma StepCounts(cfg: Config, plan: Plan, w: Worker, e: Event, i: nat)
    requires cfg.sendWindow == 0 && Inv(cfg, false, w) && RunningAt(w, i) && w.socks[i].laddr != 0
    requires !AcceptsAt(w, e, i)
    ensures var q := Step(cfg, plan, true, w, e);
            && |q.socks| == |w.socks|
            && var k, r := w.socks[i], q.socks[i];
               if !ResendsAt(cfg, w, e, i) then r.state == Closed || Counted(k, r)
               else if k.retrans < 3 then r.state != Closed && r.retrans == k.retrans + 1 && r.laddr == k.laddr
               else r.state == Closed && q.stats.error == w.stats.error + 1 && q.stats.current == w.stats.current - 1
  {
    hide Handle, Accepts, Resends, LaunchMany;
    SoundAt(cfg, false, w, i);
    match e {
      case One(j, env, pool, act) =>
        if j == i { ActCounts(cfg, plan, env, Take(w, i, pool), act); }
      case LaunchTick(env, pools) =>
        var (num, next) := LaunchNum(plan, w.launchNext, w.stats.current, env.now);
        LaunchPasses(cfg, plan, true, env.now, pools, w.(launchNext := next), num, plan.pipeline, i);
    }
  }

  /** In every run of a worker, between two accepted segments: while something is
      outstanding on a socket, whatever else happens, tcp_do_retransmit is called for it
      at most 3 - retrans times without giving up; the next call closes the socket and
      counts one error; and nothing else makes it give up. */
  lemma {:induction false} BoundedRetransmission(cfg: Config, plan: Plan, w: Worker, es: seq<Event>, i: nat)
    requires cfg.sendWindow == 0 && Inv(cfg, false, w) && RunningAt(w, i) && w.socks[i].laddr != 0
    requires Quiet(cfg, plan, w, es, i)
    ensures var n, left, q := Calls(cfg, plan, w, es, i), 3 - w.socks[i].retrans, Stop(cfg, plan, w, es, i);
            && n <= left + 1
            && (n == left + 1 <==> GivesUp(cfg, plan, w, es, i))
            && (RunningAt(q, i) ==> q.socks[i].retrans == w.socks[i].retrans + n)
    decreases |es|
  {
    SoundAt(cfg, false, w, i);
    if es != [] {
      hide Step, Inv, AcceptsAt, ResendsAt;
      var q := Step(cfg, plan, true, w, es[0]);
      StepCounts(cfg, plan, w, es[0], i);
      StepKeeps(cfg, plan, true, false, w, es[0]);
      if RunningAt(q, i) { BoundedRetransmission(cfg, plan, q, es[1..], i); }
    }
  }
}
