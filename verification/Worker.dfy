/** A worker with all its sockets, over whole runs: segments for any socket,
    timer expiries and launches in any order. */
module Worker {
  import opened Rings
  import opened Verdicts
  import opened Tcp
  import opened Udp
  import opened Invariants
  import opened Sites
  import opened RoundRobin

  datatype Worker = Worker(
    socks: seq<Sock>, rings: Rings, stats: Stats,
    next: nat,          // socket_pool.next
    launchNext: nat)    // client_launch.launch_next

  /** client_launch settings of one worker. */
  datatype Plan = Plan(cc: nat, num: nat, interval: nat, hop: bool, pipeline: nat)

  /** What one handler call is about. */
  datatype Act =
    | ServerSegment(g: Segment)
    | ClientSegment(g: Segment, h: HttpOutcome)
    | RetransmitDue
    | KeepaliveDue
    | TimeoutDue
    | DelayedAck
    | UdpReply(stopped: bool)

  datatype Event =
    | One(i: nat, env: Env, pool: seq<bool>, act: Act)
    | LaunchTick(env: Env, pools: seq<seq<bool>>)

  // ---------------------------------------------------------------- runs

  /** A timer handler runs only for a socket on its ring. */
  function Handle(cfg: Config, plan: Plan, tcp: bool, env: Env, st: St, act: Act): St {
    match act
    case ServerSegment(g) => if tcp then Server(cfg, env.now, st, g) else st
    case ClientSegment(g, h) => if tcp then Client(cfg, env, st, g, h) else st
    case RetransmitDue =>
      if st.sk.ring != Retransmit then st
      else if tcp then RetransmitExpiry(cfg, env.now, st) else UdpRetransmitExpiry(st)
    case KeepaliveDue =>
      if st.sk.ring != Keepalive then st
      else if tcp then KeepaliveExpiry(cfg, env, st) else UdpKeepaliveExpiry(cfg, env, st, plan.pipeline)
    case TimeoutDue => if st.sk.ring != Timeout then st else TimeoutExpiry(st)
    case DelayedAck => if tcp then AckDelayed(cfg, env.now, st) else st
    case UdpReply(stopped) => if tcp then st else UdpClient(cfg, stopped, st)
  }

  /** The worker's sockets, with what the packet pool will answer next. */
  function Desk(w: Worker, pool: seq<bool>): Site { Site(w.socks, w.rings, w.stats, [], pool) }

  function Take(w: Worker, i: nat, pool: seq<bool>): St
    requires i < |w.socks|
  {
    At(Desk(w, pool), i)
  }

  function Return(w: Worker, i: nat, st: St): Worker
    requires i < |w.socks|
  {
    var v := Put(Desk(w, st.pool), i, st);
    w.(socks := v.socks, rings := v.rings, stats := v.stats)
  }

  function LaunchOne(cfg: Config, tcp: bool, now: nat, st: St, datagrams: nat): St {
    if tcp then Launch(cfg, now, st) else UdpLaunch(cfg, now, st, datagrams)
  }

  /** The launch loop: `num` sockets off the pool; only the first opened one gets the whole pipeline. */
  function LaunchMany(cfg: Config, plan: Plan, tcp: bool, now: nat, pools: seq<seq<bool>>, w: Worker, num: nat,
                      pipeline: nat): Worker
    decreases num
  {
    if num == 0 || w.next >= |w.socks| then w
    else
      var i := w.next;
      var st := Take(w, i, if pools == [] then [] else pools[0]);
      var w1 := Return(w.(next := AfterPick(i, |w.socks|, plan.hop)), i,
                       LaunchOne(cfg, tcp, now, st, Rounds(pipeline)));
      LaunchMany(cfg, plan, tcp, now, if pools == [] then [] else pools[1..], w1, num - 1,
                 if st.sk.state == Closed then 0 else pipeline)
  }

  /** How many sockets to launch at `tsc`, and when to look again. */
  function LaunchNum(plan: Plan, launchNext: nat, current: int, tsc: nat): (nat, nat) {
    if launchNext > tsc then (0, launchNext)
    else
      var next := launchNext + plan.interval;
      if plan.cc == 0 then (plan.num, next)
      else if current < plan.cc then
        var gap := plan.cc - current;
        (if gap < plan.num then gap else plan.num, next)
      else (0, next)
  }

  /** `n` sockets may be launched now: at most one batch, only when it is due, and not past the cap. */
  predicate MayLaunch(plan: Plan, launchNext: nat, current: int, tsc: nat, n: nat) {
    n <= plan.num && (n > 0 ==> launchNext <= tsc && (plan.cc > 0 ==> current + n <= plan.cc))
  }

  /** The launch number is the greatest that may be launched, and the next look is one interval later. */
  lemma LaunchNumIsGreatest(plan: Plan, launchNext: nat, current: int, tsc: nat)
    ensures var (num, next) := LaunchNum(plan, launchNext, current, tsc);
            && MayLaunch(plan, launchNext, current, tsc, num)
            && (forall n: nat :: MayLaunch(plan, launchNext, current, tsc, n) ==> n <= num)
            && next == if launchNext <= tsc then launchNext + plan.interval else launchNext
  {
  }

  /** client_launch of a work space. */
  class ClientLaunch {
    const plan: Plan
    var launchNext: nat

    constructor (plan: Plan, start: nat)
      ensures this.plan == plan && launchNext == start
    {
      this.plan, launchNext := plan, start;
    }

    /** work_space_client_launch_num, without rss. */
    method Num(current: int, tsc: nat) returns (num: nat)
      modifies this`launchNext
      ensures MayLaunch(plan, old(launchNext), current, tsc, num)
      ensures forall n: nat :: MayLaunch(plan, old(launchNext), current, tsc, n) ==> n <= num
      ensures launchNext == if old(launchNext) <= tsc then old(launchNext) + plan.interval else old(launchNext)
      ensures (num, launchNext) == LaunchNum(plan, old(launchNext), current, tsc)
    {
      num := plan.num;
      if launchNext <= tsc {
        launchNext := launchNext + plan.interval;
        if plan.cc > 0 {
          if current < plan.cc {
            var gap := plan.cc - current;
            if gap < plan.num { num := gap; }
          } else {
            num := 0;
          }
        }
      } else {
        num := 0;
      }
    }
  }

  function Step(cfg: Config, plan: Plan, tcp: bool, w: Worker, e: Event): Worker {
    match e
    case One(i, env, pool, act) =>
      if i >= |w.socks| then w else Return(w, i, Handle(cfg, plan, tcp, env, Take(w, i, pool), act))
    case LaunchTick(env, pools) =>
      var (num, next) := LaunchNum(plan, w.launchNext, w.stats.current, env.now);
      LaunchMany(cfg, plan, tcp, env.now, pools, w.(launchNext := next), num, plan.pipeline)
  }

  function Run(cfg: Config, plan: Plan, tcp: bool, w: Worker, es: seq<Event>): Worker
    decreases |es|
  {
    if es == [] then w else Run(cfg, plan, tcp, Step(cfg, plan, tcp, w, es[0]), es[1..])
  }

  // ---------------------------------------------------------------- the invariant

  function OpenCount(socks: seq<Sock>): nat {
    if socks == [] then 0 else Live(socks[0]) + OpenCount(socks[1..])
  }

  ghost predicate Inv(cfg: Config, m: bool, w: Worker) {
    Fit(cfg, m, Desk(w, [])) && w.stats.open - w.stats.close == w.stats.current == OpenCount(w.socks)
  }

  /** Every socket as socket_init leaves it, empty rings, zeroed counters. */
  ghost predicate Init(w: Worker) {
    && w.rings == Rings([], [], [])
    && (forall i :: 0 <= i < |w.socks| ==>
          && w.socks[i].id == i && w.socks[i].state == Closed && w.socks[i].ring == NoRing
          && 0 <= w.socks[i].sndNxt < TWO31)
    && w.stats.open == w.stats.close == w.stats.current == 0
  }

  lemma {:induction false} OpenCountUpdate(socks: seq<Sock>, i: nat, k: Sock)
    requires i < |socks|
    ensures OpenCount(socks[i := k]) == OpenCount(socks) - Live(socks[i]) + Live(k)
  {
    if i == 0 {
      assert socks[i := k][1..] == socks[1..];
    } else {
      OpenCountUpdate(socks[1..], i - 1, k);
      assert socks[i := k][1..] == socks[1..][i - 1 := k];
    }
  }

  lemma {:induction false} AllClosed(socks: seq<Sock>)
    requires forall i :: 0 <= i < |socks| ==> socks[i].state == Closed
    ensures OpenCount(socks) == 0
  {
    if socks != [] { AllClosed(socks[1..]); }
  }

  /** A handler on one socket carries the worker's invariant. */
  lemma PutKeeps(cfg: Config, m: bool, now: nat, w: Worker, i: nat, pool: seq<bool>, r: St)
    requires Inv(cfg, m, w) && i < |w.socks| && Keeps(cfg, m, now, Take(w, i, pool), r)
    ensures Inv(cfg, m, Return(w, i, r))
  {
    PutFits(cfg, m, now, Desk(w, pool), i, r);
    OpenCountUpdate(w.socks, i, r.sk);
  }

  /** At event `e` a socket opens, and the packet pool refuses its first request. */
  predicate Refused(w: Worker, e: Event) {
    e.One? && e.i < |w.socks| && e.act.ClientSegment? && Opens(w.socks[e.i], e.act.g) && !Granted(e.pool)
  }

  lemma HandleKeeps(cfg: Config, plan: Plan, tcp: bool, m: bool, env: Env, st: St, act: Act)
    requires Sound(cfg, m, st.sk) && (m ==> tcp)
    requires Means(cfg, m) && act.ClientSegment? && Opens(st.sk, act.g) ==> Granted(st.pool)
    ensures Keeps(cfg, m, env.now, st, Handle(cfg, plan, tcp, env, st, act))
  {
    hide Server, Client, RetransmitExpiry, UdpRetransmitExpiry, KeepaliveExpiry, UdpKeepaliveExpiry, TimeoutExpiry,
        AckDelayed, UdpClient;
    hide Follows;
    UnseenFollows(cfg, env.now, st, st);
    match act {
      case ServerSegment(g) => ServerKeeps(cfg, m, env.now, st, g);
      case ClientSegment(g, h) => ClientKeeps(cfg, m, env, st, g, h);
      case RetransmitDue =>
        if st.sk.ring == Retransmit {
          if tcp { RetransmitExpiryKeeps(cfg, m, env.now, st); } else { UdpRetransmitExpiryKeeps(cfg, env.now, st); }
        }
      case KeepaliveDue =>
        if st.sk.ring == Keepalive {
          if tcp {
            KeepaliveExpiryKeeps(cfg, m, env, st);
          } else {
            UdpKeepaliveExpiryKeeps(cfg, env, st, plan.pipeline);
          }
        }
      case TimeoutDue => TimeoutExpiryKeeps(cfg, m, env.now, st);
      case DelayedAck => AckDelayedKeeps(cfg, m, env.now, st);
      case UdpReply(stopped) => if !tcp { UdpClientKeeps(cfg, env.now, stopped, st); }
    }
  }

  lemma LaunchOneKeeps(cfg: Config, tcp: bool, m: bool, now: nat, st: St, n: nat)
    requires Sound(cfg, m, st.sk) && (m ==> tcp)
    ensures Keeps(cfg, m, now, st, LaunchOne(cfg, tcp, now, st, n))
  {
    hide Launch, UdpLaunch;
    if tcp { LaunchKeeps(cfg, m, now, st); } else { UdpLaunchKeeps(cfg, now, st, n); }
  }

  /** A launch loop of `num` rounds opens at most `num` sockets. */
  lemma {:induction false} LaunchManyKeeps(cfg: Config, plan: Plan, tcp: bool, m: bool, now: nat,
                                           pools: seq<seq<bool>>, w: Worker,
                                           num: nat, pipeline: nat)
    requires Inv(cfg, m, w) && (m ==> tcp)
    ensures var w' := LaunchMany(cfg, plan, tcp, now, pools, w, num, pipeline);
            Inv(cfg, m, w') && w'.stats.current <= w.stats.current + num
    decreases num
  {
    hide LaunchOne, Inv;
    if num > 0 && w.next < |w.socks| {
      var i := w.next;
      var st := Take(w, i, if pools == [] then [] else pools[0]);
      var r := LaunchOne(cfg, tcp, now, st, Rounds(pipeline));
      SoundAt(cfg, m, w, i);
      LaunchOneKeeps(cfg, tcp, m, now, st, Rounds(pipeline));
      var w0 := w.(next := AfterPick(i, |w.socks|, plan.hop));
      NextFree(cfg, m, w, w0);
      PutKeeps(cfg, m, now, w0, i, st.pool, r);
      LaunchManyKeeps(cfg, plan, tcp, m, now, if pools == [] then [] else pools[1..], Return(w0, i, r), num - 1,
                      if st.sk.state == Closed then 0 else pipeline);
    }
  }

  lemma SoundAt(cfg: Config, m: bool, w: Worker, i: nat)
    requires Inv(cfg, m, w) && i < |w.socks|
    ensures Sound(cfg, m, w.socks[i])
  {
  }

  /** The invariant does not look at the two cursors. */
  lemma NextFree(cfg: Config, m: bool, w: Worker, w': Worker)
    requires Inv(cfg, m, w) && w' == w.(next := w'.next, launchNext := w'.launchNext)
    ensures Inv(cfg, m, w')
  {
  }

  lemma StepKeeps(cfg: Config, plan: Plan, tcp: bool, m: bool, w: Worker, e: Event)
    requires Inv(cfg, m, w) && (Means(cfg, m) ==> !Refused(w, e)) && (m ==> tcp)
    ensures Inv(cfg, m, Step(cfg, plan, tcp, w, e))
  {
    hide Inv, Handle;
    match e {
      case One(i, env, pool, act) =>
        if i < |w.socks| {
          SoundAt(cfg, m, w, i);
          HandleKeeps(cfg, plan, tcp, m, env, Take(w, i, pool), act);
          PutKeeps(cfg, m, env.now, w, i, pool, Handle(cfg, plan, tcp, env, Take(w, i, pool), act));
        }
      case LaunchTick(env, pools) =>
        var (num, next) := LaunchNum(plan, w.launchNext, w.stats.current, env.now);
        NextFree(cfg, m, w, w.(launchNext := next));
        LaunchManyKeeps(cfg, plan, tcp, m, env.now, pools, w.(launchNext := next), num, plan.pipeline);
    }
  }

  lemma {:induction false} RunKeeps(cfg: Config, plan: Plan, tcp: bool, w: Worker, es: seq<Event>)
    requires Inv(cfg, false, w)
    ensures Inv(cfg, false, Run(cfg, plan, tcp, w, es))
    decreases |es|
  {
    if es != [] {
      StepKeeps(cfg, plan, tcp, false, w, es[0]);
      RunKeeps(cfg, plan, tcp, Step(cfg, plan, tcp, w, es[0]), es[1..]);
    }
  }

  lemma InitInv(cfg: Config, m: bool, w: Worker)
    requires Init(w)
    ensures Inv(cfg, m, w)
  {
    AllClosed(w.socks);
  }

  // ---------------------------------------------------------------- main results

  /** In every reachable state of a TCP or UDP worker the counters and the open
      sockets agree, no socket is in TIME_WAIT, the rings are duplicate-free and
      disjoint, a closed socket is on none, and an open one was resent at most
      three times. */
  lemma Conservation(cfg: Config, plan: Plan, tcp: bool, w: Worker, es: seq<Event>)
    requires Init(w)
    ensures var q := Run(cfg, plan, tcp, w, es);
            && q.stats.open - q.stats.close == q.stats.current == OpenCount(q.socks)
            && q.rings.WellFormed()
            && forall i :: 0 <= i < |q.socks| ==>
                 && q.socks[i].state != TimeWait
                 && q.rings.Holder(i) == q.socks[i].ring
                 && (q.socks[i].state == Closed ==> i !in q.rings.rt && i !in q.rings.ka && i !in q.rings.to)
                 && (q.socks[i].state != Closed ==> q.socks[i].retrans <= 3)
  {
    InitInv(cfg, false, w);
    RunKeeps(cfg, plan, tcp, w, es);
  }

  // ---------------------------------------------------------------- what the rings mean

  /** A socket's ring says whether it has something outstanding. */
  predicate RingsMean(w: Worker) {
    forall i :: 0 <= i < |w.socks| ==>
      && (i in w.rings.rt ==> w.socks[i].sndNxt != w.socks[i].sndUna)
      && (i in w.rings.ka ==> w.socks[i].sndNxt == w.socks[i].sndUna)
  }

  /** At every point of the run they mean it. */
  predicate AlwaysMean(cfg: Config, plan: Plan, w: Worker, es: seq<Event>)
    decreases |es|
  {
    RingsMean(w) && (es != [] ==> AlwaysMean(cfg, plan, Step(cfg, plan, true, w, es[0]), es[1..]))
  }

  /** No socket that opens in the run is refused the packet of its first request. */
  predicate NoneRefused(cfg: Config, plan: Plan, w: Worker, es: seq<Event>)
    decreases |es|
  {
    es != [] ==> !Refused(w, es[0]) && NoneRefused(cfg, plan, Step(cfg, plan, true, w, es[0]), es[1..])
  }

  /** Such a refusal leaves the socket on the retransmit ring with nothing outstanding. */
  lemma RefusedFails(cfg: Config, plan: Plan, w: Worker, e: Event)
    requires Inv(cfg, false, w) && cfg.sendWindow == 0 && Refused(w, e)
    ensures var q := Step(cfg, plan, true, w, e);
            e.i in q.rings.rt && |q.socks| == |w.socks| && q.socks[e.i].sndNxt == q.socks[e.i].sndUna
  {
    SynAckRefused(cfg, e.env.now, Take(w, e.i, e.pool), e.act.g);
    StepKeeps(cfg, plan, true, false, w, e);
    hide ClientSynAck;
    assert Inv(cfg, false, Step(cfg, plan, true, w, e));
  }

  /** In every run of a stop-and-wait TCP worker a socket's ring says, at every point, whether
      it has something outstanding, if and only if no socket that opens is refused its packet. */
  lemma RingMeaning(cfg: Config, plan: Plan, w: Worker, es: seq<Event>)
    requires Init(w) && Means(cfg, true)
    ensures AlwaysMean(cfg, plan, w, es) <==> NoneRefused(cfg, plan, w, es)
    ensures NoneRefused(cfg, plan, w, es) ==> RingsMean(Run(cfg, plan, true, w, es))
  {
    InitInv(cfg, true, w);
    MeaningIff(cfg, plan, w, es);
  }

  lemma {:induction false} MeaningIff(cfg: Config, plan: Plan, w: Worker, es: seq<Event>)
    requires Inv(cfg, true, w) && Means(cfg, true)
    ensures AlwaysMean(cfg, plan, w, es) <==> NoneRefused(cfg, plan, w, es)
    ensures NoneRefused(cfg, plan, w, es) ==> RingsMean(Run(cfg, plan, true, w, es))
    decreases |es|
  {
    InvMeans(cfg, w);
    if es != [] {
      hide Step, Inv, RingsMean;
      var q := Step(cfg, plan, true, w, es[0]);
      if Refused(w, es[0]) {
        InvWeaker(cfg, w);
        RefusedFails(cfg, plan, w, es[0]);
        NotMeant(q, es[0].i);
      } else {
        StepKeeps(cfg, plan, true, true, w, es[0]);
        MeaningIff(cfg, plan, q, es[1..]);
      }
    }
  }

  lemma NotMeant(w: Worker, i: nat)
    requires i < |w.socks| && i in w.rings.rt && w.socks[i].sndNxt == w.socks[i].sndUna
    ensures !RingsMean(w)
  {
  }

  lemma InvMeans(cfg: Config, w: Worker)
    requires Inv(cfg, true, w) && Means(cfg, true)
    ensures RingsMean(w)
  {
  }

  lemma InvWeaker(cfg: Config, w: Worker)
    requires Inv(cfg, true, w)
    ensures Inv(cfg, false, w)
  {
  }

  // ---------------------------------------------------------------- when the ring meaning fails

  /** A launch loop passes over an open socket. */
  lemma {:induction false} LaunchPasses(cfg: Config, plan: Plan, tcp: bool, now: nat, pools: seq<seq<bool>>, w: Worker,
                                        num: nat, pipeline: nat, i: nat)
    requires i < |w.socks| && w.socks[i].state != Closed
    ensures var q := LaunchMany(cfg, plan, tcp, now, pools, w, num, pipeline);
            |q.socks| == |w.socks| && q.socks[i] == w.socks[i]
    decreases num
  {
    if num > 0 && w.next < |w.socks| {
      hide Launch, UdpLaunch;
      var j := w.next;
      var st := Take(w, j, if pools == [] then [] else pools[0]);
      LaunchOpen(cfg, now, st, Rounds(pipeline));
      var r := LaunchOne(cfg, tcp, now, st, Rounds(pipeline));
      var w1 := Return(w.(next := AfterPick(j, |w.socks|, plan.hop)), j, r);
      LaunchPasses(cfg, plan, tcp, now, if pools == [] then [] else pools[1..], w1, num - 1,
                   if st.sk.state == Closed then 0 else pipeline, i);
    }
  }

  lemma LaunchOpen(cfg: Config, now: nat, st: St, n: nat)
    ensures st.sk.state != Closed ==> Launch(cfg, now, st) == st && UdpLaunch(cfg, now, st, n) == st
  {
  }

  lemma SynSentOnRing(cfg: Config, now: nat, st: St)
    requires cfg.sendWindow == 0 && !cfg.flood && st.sk.state == Closed && st.pool == []
    ensures var k := Launch(cfg, now, st).sk;
            k.state == SynSent && k.ring == Retransmit && k.sndNxt == Add(cfg.arith, k.sndUna, 1) != k.sndUna
  {
    hide Place;
  }

  lemma SynAckRefused(cfg: Config, now: nat, st: St, g: Segment)
    requires cfg.sendWindow == 0 && Opens(st.sk, g) && !Granted(st.pool)
    ensures var k := ClientSynAck(cfg, now, st, g).sk; k.ring == Retransmit && k.sndNxt == k.sndUna
  {
    hide Place;
  }

  /** The tick that is due now. */
  function Tick(w: Worker): Event { LaunchTick(Env(w.launchNext, true), []) }

  function FirstOne(cfg: Config, plan: Plan, tcp: bool, w: Worker): St
    requires |w.socks| > 0
  {
    LaunchOne(cfg, tcp, w.launchNext, Take(w, 0, []), Rounds(plan.pipeline))
  }

  /** A tick on an empty worker launches its first socket, and leaves it at that. */
  lemma TickFirst(cfg: Config, plan: Plan, tcp: bool, w: Worker)
    requires |w.socks| > 0 && w.next == 0 && plan.num > 0 && w.stats.current == 0
    requires FirstOne(cfg, plan, tcp, w).sk.state != Closed
    ensures var q := Step(cfg, plan, tcp, w, Tick(w));
            |q.socks| == |w.socks| && q.socks[0] == FirstOne(cfg, plan, tcp, w).sk
  {
    hide LaunchOne;
    var now := w.launchNext;
    var (num, next) := LaunchNum(plan, now, w.stats.current, now);
    var w0 := w.(launchNext := next, next := AfterPick(0, |w.socks|, plan.hop));
    var w1 := Return(w0, 0, FirstOne(cfg, plan, tcp, w));
    var left := if w.socks[0].state == Closed then 0 else plan.pipeline;
    LaunchPasses(cfg, plan, tcp, now, [], w1, num - 1, left, 0);
  }

  lemma FirstLaunch(cfg: Config, plan: Plan, w: Worker)
    requires Inv(cfg, false, w) && cfg.sendWindow == 0 && !cfg.flood && plan.num > 0 && w.next == 0 && |w.socks| > 0
    requires w.socks[0].state == Closed && w.stats.current == 0
    ensures var q := Step(cfg, plan, true, w, Tick(w));
            Inv(cfg, false, q) && |q.socks| == |w.socks| && q.socks[0].state == SynSent && q.socks[0].ring == Retransmit
  {
    SynSentOnRing(cfg, w.launchNext, Take(w, 0, []));
    hide Inv, Step, Launch;
    TickFirst(cfg, plan, true, w);
    StepKeeps(cfg, plan, true, false, w, Tick(w));
  }

  /** It does happen: from any start a launch, and a SYN-ACK at which the packet pool refuses,
      leave a socket on the retransmit ring with nothing outstanding. */
  lemma RingMeaningFails(cfg: Config, plan: Plan, w: Worker) returns (es: seq<Event>)
    requires Init(w) && Means(cfg, true) && plan.num > 0 && w.next == 0 && |w.socks| > 0
    ensures |es| == 2 && es[0].LaunchTick? && es[1].One? && es[1].pool == [false]
    ensures var q := Run(cfg, plan, true, w, es);
            0 in q.rings.rt && |q.socks| > 0 && q.socks[0].sndNxt == q.socks[0].sndUna
  {
    InitInv(cfg, false, w);
    FirstLaunch(cfg, plan, w);
    hide Step, Inv, Init;
    var e := Tick(w);
    var q := Step(cfg, plan, true, w, e);
    var g := Segment(0, q.socks[0].sndNxt, SYN_ACK, 0);
    var e1 := One(0, Env(w.launchNext, true), [false], ClientSegment(g, HttpOutcome(More, false, false)));
    RefusedFails(cfg, plan, q, e1);
    es := [e, e1];
    var q1 := Step(cfg, plan, true, q, e1);
    assert es[1..] == [e1] && [e1][1..] == [] && Run(cfg, plan, true, q1, []) == q1;
  }
}
