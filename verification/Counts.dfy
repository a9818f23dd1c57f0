/** What the request and response counters count, over any run of one socket. */
module Counts {
  import opened Tcp
  import opened Rings
  import opened Verdicts

  /** Segments with a payload. */
  function Data(sent: seq<Segment>): nat
    decreases |sent|
  {
    if sent == [] then 0 else Data(sent[..|sent| - 1]) + (if sent[|sent| - 1].len > 0 then 1 else 0)
  }

  lemma DataOneMore(sent: seq<Segment>, g: Segment)
    ensures Data(sent + [g]) == Data(sent) + (if g.len > 0 then 1 else 0)
  {
    assert (sent + [g])[..|sent|] == sent;
  }

  /** Anything that can happen to a socket: a segment with the parser's answer, a launch, one of
      the three expiries, the flush of its delayed acknowledgement. */
  datatype Turn =
    | Arrives(g: Segment, env: Env, h: HttpOutcome)
    | Launches(now: nat)
    | Repeats(now: nat)
    | Asks(env: Env)
    | GivesUp
    | Flushes(now: nat)

  function After(cfg: Config, st: St, t: Turn): St {
    match t
    case Arrives(g, env, h) => if cfg.server then Server(cfg, env.now, st, g) else Client(cfg, env, st, g, h)
    case Launches(now) => if cfg.server then st else Launch(cfg, now, st)
    case Repeats(now) => RetransmitExpiry(cfg, now, st)
    case Asks(env) => KeepaliveExpiry(cfg, env, st)
    case GivesUp => TimeoutExpiry(st)
    case Flushes(now) => AckDelayed(cfg, now, st)
  }

  function AfterAll(cfg: Config, st: St, ts: seq<Turn>): St
    decreases |ts|
  {
    if ts == [] then st else AfterAll(cfg, After(cfg, st, ts[0]), ts[1..])
  }

  /** Flags of a segment some handler sends: data never goes with a SYN. */
  predicate Usual(f: Flags) { !(f.push && f.syn) }

  predicate Ready(cfg: Config, st: St) { cfg.dataLen > 0 && st.pool == [] && Usual(st.sk.flags) }

  /** A client's requests are the data segments it has sent, first copies and repeats. So are the
      responses of a stop-and-wait server; one with a send window counts a response for a request. */
  predicate Counted(cfg: Config, st: St, r: St) {
    && Ready(cfg, r)
    && (!cfg.server ==> r.stats.req + Data(st.sent) == st.stats.req + Data(r.sent))
    && (cfg.server && cfg.sendWindow == 0 ==> r.stats.rsp + Data(st.sent) == st.stats.rsp + Data(r.sent))
    && (cfg.server && cfg.sendWindow > 0 ==> r.stats.rsp + st.stats.req == st.stats.rsp + r.stats.req)
  }

  lemma ReplyCounts(cfg: Config, now: nat, st: St, f: Flags)
    requires Ready(cfg, st) && Usual(f)
    ensures Counted(cfg, st, Reply(cfg, now, st, f)) && Reply(cfg, now, st, f).sk.state == st.sk.state
  {
    hide Place, Accurate, Data;
    var r := Reply(cfg, now, st, f);
    DataOneMore(st.sent, r.sent[|st.sent|]);
  }

  /** Moves between rings, closing, and a change of the other fields count nothing. */
  predicate Same(st: St, r: St) {
    && r.pool == st.pool && r.sent == st.sent && r.sk.flags == st.sk.flags
    && r.stats.req == st.stats.req && r.stats.rsp == st.stats.rsp
  }

  lemma SameCounts(cfg: Config, st: St, st1: St, r: St)
    requires Ready(cfg, st1) && Same(st, st1) && Counted(cfg, st1, r)
    ensures Counted(cfg, st, r)
  {
  }

  lemma ResendCounts(cfg: Config, now: nat, st: St)
    requires Ready(cfg, st)
    ensures Counted(cfg, st, ResendFirst(cfg, now, st))
  {
    hide Reply, Data;
    var st1 := st.(sk := st.sk.(sndNxt := st.sk.sndUna));
    ReplyCounts(cfg, now, st1, PUSH_ACK);
    SameCounts(cfg, st, st1, Reply(cfg, now, st1, PUSH_ACK));
  }

  lemma RetransmitCounts(cfg: Config, now: nat, st: St)
    requires Ready(cfg, st)
    ensures Counted(cfg, st, DoRetransmit(cfg, now, st))
  {
    hide Reply, Data, Place, ResendFirst;
    var st1 := st.(sk := st.sk.(retrans := (st.sk.retrans + 1) % 8));
    ReplyCounts(cfg, now, st1, st1.sk.flags);
    ResendCounts(cfg, now, st1);
  }

  lemma CheckCounts(cfg: Config, now: nat, st: St, g: Segment)
    requires Ready(cfg, st)
    ensures Counted(cfg, st, CheckSequence(cfg, now, st, g).0)
  {
    hide Data, Place, ResendFirst, DoRetransmit;
    RetransmitCounts(cfg, now, st);
    ResendCounts(cfg, now, st.(sk := st.sk.(retrans := (st.sk.retrans + 1) % 8)));
  }

  /** tcp_process_fin sends nothing and adds at most FIN or ACK. */
  lemma FinCounts(st: St, rx: Flags, tx: Flags)
    requires !tx.syn
    ensures var (r, f) := ProcessFin(st, rx, tx); Same(st, r) && !f.syn
  {
    hide Place, Same;
    CloseSame(st);
    SameAs(st);
  }

  lemma CloseSame(st: St)
    ensures Same(st, Close(st))
  {
    hide Place;
  }

  lemma SameAs(st: St)
    ensures forall x: State :: Same(st, st.(sk := st.sk.(state := x))) && Same(st, st)
  {
  }

  lemma ServerFinishCounts(cfg: Config, now: nat, st: St, rx: Flags, tx: Flags)
    requires Ready(cfg, st) && !tx.syn
    ensures Counted(cfg, st, ServerFinish(cfg, now, st, rx, tx))
  {
    hide Data, Place, Reply, ProcessFin;
    FinCounts(st, rx, tx);
    var (st1, f) := if Rank(st.sk.state) > Rank(Established) || rx.fin || tx.fin
        then ProcessFin(st, rx, tx) else (st, tx);
    ReplyCounts(cfg, now, st1, f);
  }

  lemma ClientFinishCounts(cfg: Config, now: nat, st: St, rx: Flags, tx: Flags)
    requires Ready(cfg, st) && !tx.syn
    ensures Counted(cfg, st, ClientFinish(cfg, now, st, rx, tx))
  {
    hide Data, Place, Reply, ProcessFin;
    FinCounts(st, rx, tx);
    var (st1, f) := if Rank(st.sk.state) > Rank(Established) || rx.fin || tx.fin
        then ProcessFin(st, rx, tx) else (st, tx);
    ReplyCounts(cfg, now, st1, f);
  }

  lemma {:induction false} BurstCounts(cfg: Config, now: nat, st: St, limit: int, max: int, k: nat)
    requires Ready(cfg, st)
    ensures Counted(cfg, st, Burst(cfg, now, st, limit, max, k))
    decreases k
  {
    hide Data, Reply;
    if k > 0 && Diff(cfg.arith, st.sk.sndNxt, limit) < 0 && Diff(cfg.arith, st.sk.sndNxt, max) < 0 {
      var st1 := st.(sk := st.sk.(sndUna := st.sk.sndNxt));
      ReplyCounts(cfg, now, st1, PUSH_ACK_URG);
      BurstCounts(cfg, now, Reply(cfg, now, st1, PUSH_ACK_URG), limit, max, k - 1);
    }
  }

  lemma MoreCounts(cfg: Config, now: nat, st: St)
    requires Ready(cfg, st)
    ensures Counted(cfg, st, ReplyMore(cfg, now, st))
  {
    hide Data, Place, Reply, Burst;
    BurstCounts(cfg, now, st, Add(cfg.arith, st.sk.sndUna, cfg.sendWindow), st.sk.sndMax, st.sk.sndWindow);
    var b := Burst(cfg, now, st, Add(cfg.arith, st.sk.sndUna, cfg.sendWindow), st.sk.sndMax, st.sk.sndWindow);
    ReplyCounts(cfg, now, b.(sk := b.sk.(sndUna := st.sk.sndUna, state := FinWait1)), FIN_ACK);
  }

  /** A windowed server counts its request before, and its response here. */
  lemma ServeCounts(cfg: Config, now: nat, st: St)
    requires cfg.server && cfg.sendWindow > 0 && Ready(cfg, st)
    ensures var r := ServeWindowed(cfg, now, st);
            Ready(cfg, r) && r.stats.rsp + st.stats.req == st.stats.rsp + 1 + r.stats.req
  {
    hide Data, Place, Reply, ReplyMore;
    var st1 := OpenResponse(cfg, st);
    MoreCounts(cfg, now, st1);
    ReplyCounts(cfg, now, st1, PUSH_ACK);
  }

  lemma ServerDataCounts(cfg: Config, now: nat, st: St, g: Segment)
    requires cfg.server && Ready(cfg, st) && (cfg.sendWindow > 0 && g.len > 0 ==> !g.flags.fin)
    ensures Counted(cfg, st, ServerData(cfg, now, st, g))
  {
    hide CheckSequence, ServerFinish, Place, ServeWindowed, ReplyMore, Data;
    CheckCounts(cfg, now, st, g);
    var (st1, ok) := CheckSequence(cfg, now, st, g);
    if ok {
      var st2 := if Rank(st1.sk.state) < Rank(Established) then st1.(sk := st1.sk.(state := Established)) else st1;
      var st3 := st2.(stats := st2.stats.(req := st2.stats.req + 1));
      ServerFinishCounts(cfg, now, st2, g.flags, NONE);
      MoreCounts(cfg, now, st2);
      ServerFinishCounts(cfg, now, st3, g.flags, if st3.sk.keepalive then PUSH_ACK else PUSH_ACK_FIN);
      if cfg.sendWindow > 0 { ServeCounts(cfg, now, st3); }
    }
  }

  lemma ServerSynCounts(cfg: Config, now: nat, st: St, g: Segment)
    requires Ready(cfg, st)
    ensures Counted(cfg, st, ServerSyn(cfg, now, st, g))
  {
    hide Data, Place, Reply;
    var st1 := if st.sk.state == TimeWait then st.(sk := st.sk.(state := Closed)) else st;
    ReplyCounts(cfg, now, ServerOpen(cfg, st1, g), SYN_ACK);
    ReplyCounts(cfg, now, st1, SYN_ACK);
  }

  lemma ClientSynAckCounts(cfg: Config, now: nat, st: St, g: Segment)
    requires Ready(cfg, st)
    ensures Counted(cfg, st, ClientSynAck(cfg, now, st, g))
  {
    hide Data, Place, Reply;
    ReplyCounts(cfg, now, st.(sk := st.sk.(rcvNxt := Add(cfg.arith, g.seqno, 1), sndUna := g.ack,
                                           state := Established)),
                PUSH_ACK);
    ReplyCounts(cfg, now, st, ACK);
  }

  lemma AskCounts(cfg: Config, env: Env, st: St)
    requires Ready(cfg, st)
    ensures Counted(cfg, st, SendKeepaliveRequest(cfg, env, st))
  {
    hide Data, Place, Reply;
    ReplyCounts(cfg, env.now, st.(sk := st.sk.(requests := (st.sk.requests + 1) % 0x8000)), PUSH_ACK);
    ReplyCounts(cfg, env.now, st.(sk := st.sk.(state := FinWait1)), FIN_ACK);
  }

  lemma TakeCounts(cfg: Config, env: Env, st: St, g: Segment, h: HttpOutcome)
    requires !cfg.server && Ready(cfg, st)
    ensures var (r, f) := ClientTake(cfg, env, st, g, h); Counted(cfg, st, r) && !f.syn
  {
    hide Data, Place, Reply, SendKeepaliveRequest;
    AskCounts(cfg, env, st.(stats := st.stats.(rsp := st.stats.rsp + 1)));
  }

  lemma ClientDataCounts(cfg: Config, env: Env, st: St, g: Segment, h: HttpOutcome)
    requires !cfg.server && Ready(cfg, st)
    ensures Counted(cfg, st, ClientData(cfg, env, st, g, h))
  {
    hide CheckSequence, ClientFinish, ClientTake, Place, Data, Reply;
    CheckCounts(cfg, env.now, st, g);
    var (st1, ok) := CheckSequence(cfg, env.now, st, g);
    if ok {
      ClientFinishCounts(cfg, env.now, st1, g.flags, NONE);
      TakeCounts(cfg, env, st1, g, h);
      var (st2, tx) := ClientTake(cfg, env, st1, g, h);
      ReplyCounts(cfg, env.now, st2, RST_ACK);
      ClientFinishCounts(cfg, env.now, st2, g.flags, tx);
    }
  }

  lemma LaunchCounts(cfg: Config, now: nat, st: St)
    requires Ready(cfg, st)
    ensures Counted(cfg, st, Launch(cfg, now, st))
  {
    hide Data, Place, Reply;
    if st.sk.state == Closed { ReplyCounts(cfg, now, ClientOpen(cfg, st, now), SYN); }
  }

  lemma KeepaliveCounts(cfg: Config, env: Env, st: St)
    requires Ready(cfg, st)
    ensures Counted(cfg, st, DoKeepalive(cfg, env, st))
  {
    hide Data, Place, Reply, SendKeepaliveRequest;
    ReplyCounts(cfg, env.now, st, SYN);
    ReplyCounts(cfg, env.now, st.(sk := st.sk.(state := FinWait1)), FIN_ACK);
    AskCounts(cfg, env, st);
  }

  lemma FlushCounts(cfg: Config, now: nat, st: St)
    requires Ready(cfg, st)
    ensures Counted(cfg, st, AckDelayed(cfg, now, st))
  {
    hide Data, Reply;
    ReplyCounts(cfg, now, st.(sk := st.sk.(httpAck := false)), ACK);
  }

  /** No request with a FIN reaches a server with a send window: such a request is answered as in
      stop-and-wait, and its response is not counted. */
  predicate Plainly(cfg: Config, t: Turn) {
    cfg.server && cfg.sendWindow > 0 && t.Arrives? && t.g.len > 0 ==> !t.g.flags.fin
  }

  lemma TurnCounts(cfg: Config, st: St, t: Turn)
    requires Ready(cfg, st) && Plainly(cfg, t)
    ensures Counted(cfg, st, After(cfg, st, t))
  {
    hide Data, Place, ServerData, ServerSyn, ClientData, ClientSynAck, DoRetransmit, DoKeepalive, Launch, AckDelayed;
    match t {
      case Arrives(g, env, h) =>
        if cfg.server {
          ServerDataCounts(cfg, env.now, st, g);
          ServerSynCounts(cfg, env.now, st, g);
        } else {
          ClientDataCounts(cfg, env, st, g, h);
          ClientSynAckCounts(cfg, env.now, st, g);
        }
      case Launches(now) => LaunchCounts(cfg, now, st);
      case Repeats(now) => RetransmitCounts(cfg, now, Move(st, NoRing));
      case Asks(env) => KeepaliveCounts(cfg, env, Move(st, NoRing));
      case GivesUp =>
      case Flushes(now) => FlushCounts(cfg, now, st);
    }
  }

  /** Over any run of one socket, whatever arrives and expires: the request counter of a client
      and the response counter of a stop-and-wait server go up by the data segments sent; the
      response counter of a server with a send window goes up with its request counter. */
  lemma {:induction false} SegmentsAreCounted(cfg: Config, st: St, ts: seq<Turn>)
    requires Ready(cfg, st) && st.sent == [] && forall i :: 0 <= i < |ts| ==> Plainly(cfg, ts[i])
    ensures var r := AfterAll(cfg, st, ts);
            && (!cfg.server ==> r.stats.req == st.stats.req + Data(r.sent))
            && (cfg.server && cfg.sendWindow == 0 ==> r.stats.rsp == st.stats.rsp + Data(r.sent))
            && (cfg.server && cfg.sendWindow > 0 ==> r.stats.rsp - st.stats.rsp == r.stats.req - st.stats.req)
  {
    hide AfterAll;
    RunCounts(cfg, st, ts);
  }

  lemma {:induction false} RunCounts(cfg: Config, st: St, ts: seq<Turn>)
    requires Ready(cfg, st) && forall i :: 0 <= i < |ts| ==> Plainly(cfg, ts[i])
    ensures Counted(cfg, st, AfterAll(cfg, st, ts))
    decreases |ts|
  {
    hide After, Data;
    if ts != [] {
      TurnCounts(cfg, st, ts[0]);
      RunCounts(cfg, After(cfg, st, ts[0]), ts[1..]);
    }
  }
}
