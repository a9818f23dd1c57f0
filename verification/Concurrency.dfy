/** The concurrency cap: how the target is shared among workers, and that no run
    of a worker exceeds its share. */
module Concurrency {
  import opened Rings
  import opened Tcp
  import opened Settings
  import opened Udp
  import opened Invariants
  import opened Worker
  import opened RoundRobin

  /** client_assign_task: the division is done on doubles and truncated. */
  function Assign(id: nat, cpus: nat, target: nat): nat
    requires id < cpus
  {
    if target <= cpus then if id < target then 1 else 0
    else
      var val := (target as real / cpus as real).Floor;
      ShareBound(cpus, target);
      if id == 0 then target - val * (cpus - 1) else val
  }

  lemma ProductSign(a: real, b: real)
    requires b > 0.0
    ensures a >= 0.0 ==> a * b >= 0.0
    ensures a < 0.0 ==> a * b < 0.0
  {
  }

  lemma QuotientWithin(a: real, c: real, q: real)
    requires c > 0.0 && q * c <= a < (q + 1.0) * c
    ensures q <= a / c < q + 1.0
  {
    var x := a / c;
    assert x * c == a;
    ProductSign(x - q, c);
    ProductSign(x - (q + 1.0), c);
  }

  lemma RealProduct(a: int, b: int)
    ensures a as real * b as real == (a * b) as real
  {
  }

  lemma FloorIs(cpus: nat, target: nat, q: nat)
    requires 0 < cpus && q * cpus <= target < (q + 1) * cpus
    ensures (target as real / cpus as real).Floor == q
  {
    var a, c := target as real, cpus as real;
    RealProduct(q, cpus);
    RealProduct(q + 1, cpus);
    assert (q + 1) as real == q as real + 1.0;
    QuotientWithin(a, c, q as real);
  }

  lemma QuotientFacts(target: nat, cpus: nat, q: nat, r: nat)
    requires target == q * cpus + r && r < cpus
    ensures q * cpus <= target < (q + 1) * cpus && 0 <= q * (cpus - 1) <= target - q
  {
    assert (q + 1) * cpus == q * cpus + cpus;
    assert q * (cpus - 1) == q * cpus - q;
  }

  lemma Euclid(target: nat, cpus: nat)
    requires 0 < cpus
    ensures target == target / cpus * cpus + target % cpus
  {
  }

  /** The truncated double division is the integer one, and shares never exceed the target. */
  lemma ShareBound(cpus: nat, target: nat)
    requires 0 < cpus
    ensures var val := (target as real / cpus as real).Floor;
            val == target / cpus && 0 <= val * (cpus - 1) <= target - val
  {
    Euclid(target, cpus);
    ShareIs(target, cpus, target / cpus, target % cpus);
  }

  lemma ShareIs(target: nat, cpus: nat, q: nat, r: nat)
    requires target == q * cpus + r && r < cpus
    ensures var val := (target as real / cpus as real).Floor;
            val == q && 0 <= val * (cpus - 1) <= target - val
  {
    QuotientFacts(target, cpus, q, r);
    FloorIs(cpus, target, q);
    SameProduct((target as real / cpus as real).Floor, q, cpus - 1);
  }

  lemma SameProduct(a: int, b: int, n: int)
    requires a == b
    ensures a * n == b * n
  {
  }

  function SumShares(n: nat, cpus: nat, target: nat): nat
    requires n <= cpus
  {
    if n == 0 then 0 else SumShares(n - 1, cpus, target) + Assign(n - 1, cpus, target)
  }

  lemma {:induction false} SumSharesIs(n: nat, cpus: nat, target: nat)
    requires 0 < n <= cpus
    ensures SumShares(n, cpus, target)
         == if target <= cpus then (if n < target then n else target)
            else target - (target / cpus) * (cpus - n)
  {
    if n > 1 { SumSharesIs(n - 1, cpus, target); }
    if target > cpus {
      ShareBound(cpus, target);
      OneLess(target / cpus, cpus, n);
    }
  }

  lemma OneLess(q: nat, cpus: nat, n: nat)
    requires n <= cpus
    ensures q * (cpus - n + 1) == q * (cpus - n) + q
  {
  }

  /** The shares of all workers add up to the configured target. */
  lemma SharesSum(cpus: nat, target: nat)
    requires 0 < cpus
    ensures SumShares(cpus, cpus, target) == target
  {
    SumSharesIs(cpus, cpus, target);
  }

  /** A worker gets a share of its own exactly when its id is below the target. */
  lemma ShareIsPositive(id: nat, cpus: nat, target: nat)
    requires id < cpus
    ensures Assign(id, cpus, target) > 0 <==> id < target
  {
    if target > cpus { ShareBound(cpus, target); }
  }

  // ---------------------------------------------------------------- one worker

  /** Everything a client worker does apart from launching. */
  predicate ClientSide(e: Event) { e.One? ==> !e.act.ServerSegment? }

  lemma ClosedStays(cfg: Config, plan: Plan, tcp: bool, env: Env, st: St, act: Act)
    requires st.sk.state == Closed && st.sk.ring == NoRing && !act.ServerSegment?
    ensures Handle(cfg, plan, tcp, env, st, act).sk.state == Closed
  {
    hide Reply, DoRetransmit, ClientFinish, ClientTake, UdpRequests, Place;
  }

  lemma OneOpensNothing(cfg: Config, plan: Plan, tcp: bool, w: Worker, e: Event)
    requires Inv(cfg, false, w) && e.One? && ClientSide(e)
    ensures Step(cfg, plan, tcp, w, e).stats.current <= w.stats.current
  {
    hide Handle;
    if e.i < |w.socks| {
      var st := Take(w, e.i, e.pool);
      HandleKeeps(cfg, plan, tcp, false, e.env, st, e.act);
      if st.sk.state == Closed { ClosedStays(cfg, plan, tcp, e.env, st, e.act); }
    }
  }

  lemma TickStaysUnder(cfg: Config, plan: Plan, tcp: bool, w: Worker, e: Event)
    requires Inv(cfg, false, w) && e.LaunchTick? && plan.cc > 0 && w.stats.current <= plan.cc
    ensures Step(cfg, plan, tcp, w, e).stats.current <= plan.cc
  {
    var (num, next) := LaunchNum(plan, w.launchNext, w.stats.current, e.env.now);
    NextFree(cfg, false, w, w.(launchNext := next));
    LaunchManyKeeps(cfg, plan, tcp, false, e.env.now, e.pools, w.(launchNext := next), num, plan.pipeline);
  }

  lemma {:induction false} RunStaysUnder(cfg: Config, plan: Plan, tcp: bool, w: Worker, es: seq<Event>)
    requires Inv(cfg, false, w) && plan.cc > 0 && w.stats.current <= plan.cc
    requires forall e :: e in es ==> ClientSide(e)
    ensures Run(cfg, plan, tcp, w, es).stats.current <= plan.cc
    decreases |es|
  {
    if es != [] {
      hide Step, Inv;
      assert es[0] in es;
      StepKeeps(cfg, plan, tcp, false, w, es[0]);
      if es[0].One? { OneOpensNothing(cfg, plan, tcp, w, es[0]); } else { TickStaysUnder(cfg, plan, tcp, w, es[0]); }
      RunStaysUnder(cfg, plan, tcp, Step(cfg, plan, tcp, w, es[0]), es[1..]);
    }
  }

  /** A worker that never launches stays empty. */
  lemma {:induction false} IdleStaysEmpty(cfg: Config, plan: Plan, tcp: bool, w: Worker, es: seq<Event>)
    requires Inv(cfg, false, w) && plan.num == 0 && plan.cc == 0 && w.stats.current <= 0
    requires forall e :: e in es ==> ClientSide(e)
    ensures Run(cfg, plan, tcp, w, es).stats.current <= 0
    decreases |es|
  {
    if es != [] {
      hide Inv;
      assert es[0] in es;
      StepKeeps(cfg, plan, tcp, false, w, es[0]);
      if es[0].One? { OneOpensNothing(cfg, plan, tcp, w, es[0]); }
      IdleStaysEmpty(cfg, plan, tcp, Step(cfg, plan, tcp, w, es[0]), es[1..]);
    }
  }

  // ---------------------------------------------------------------- all workers

  /** Worker `id` of `cpus`, configured as client_init does for targets `cc`
      (connections) and `cps` (launches per second, at least one launch at a time
      for a worker that has any). */
  predicate Configured(plan: Plan, id: nat, cpus: nat, cc: nat, cps: nat)
    requires id < cpus
  {
    if Assign(id, cpus, cps) == 0 then plan.cc == 0 && plan.num == 0
    else plan.cc == Assign(id, cpus, cc) && plan.num > 0
  }

  predicate Divides(d: nat, n: nat) { d > 0 && n % d == 0 }

  /** The default for launch_num: the least of 4 to 10 that divides the share, or 4. */
  predicate DefaultLaunch(launch: nat, share: nat) {
    && 4 <= launch <= 10
    && (forall d :: 4 <= d < launch ==> !Divides(d, share))
    && (Divides(launch, share) || (launch == 4 && forall d :: 4 <= d <= 10 ==> !Divides(d, share)))
  }

  method PickLaunch(share: nat) returns (launch: nat)
    ensures DefaultLaunch(launch, share)
  {
    launch := 0;
    var d := 10;
    while d >= 4
      invariant 3 <= d <= 10
      invariant if launch == 0 then forall e :: d < e <= 10 ==> !Divides(e, share)
                else d < launch <= 10 && Divides(launch, share) && forall e :: d < e < launch ==> !Divides(e, share)
    {
      if share % d == 0 { launch := d; }
      d := d - 1;
    }
    if launch == 0 { launch := 4; }
  }

  /** client_init: the launch fields of worker `id`. `launch` is the configured
      launch_num, 0 if there is none; `launch'` is what it is afterwards. */
  method ClientInit(id: nat, cpus: nat, cc: nat, cps: nat, launch: nat, perSecond: nat, idle: Plan)
    returns (plan: Plan, launch': nat)
    requires id < cpus && idle.cc == 0 && idle.num == 0
    ensures Configured(plan, id, cpus, cc, cps)
    ensures var share := Assign(id, cpus, cps);
            if share == 0 then plan == idle && launch' == launch
            else
              && (if launch > 0 then launch' == launch else DefaultLaunch(launch', share))
              && plan.num == (if share <= launch' then share else launch')
              && plan.interval == (if share <= launch' then perSecond else perSecond / (share / launch'))
  {
    launch' := launch;
    var share := Assign(id, cpus, cps);
    if share == 0 { return idle, launch'; }
    if launch' == 0 { launch' := PickLaunch(share); }
    plan := idle.(cc := Assign(id, cpus, cc));
    if share <= launch' {
      plan := plan.(num := share, interval := perSecond);
    } else {
      plan := plan.(num := launch', interval := perSecond / (share / launch'));
    }
  }

  /** A batch size that divides the share gives, batch by batch, at least the share in every second. */
  lemma RateIsMet(share: nat, num: nat, perSecond: nat)
    requires Divides(num, share) && 0 < share && share / num <= perSecond
    ensures perSecond / (share / num) > 0
    ensures num * (perSecond / (perSecond / (share / num))) >= share
  {
    var k := share / num;
    Euclid(share, num);
    assert k > 0;
    AtLeast(perSecond, k);
    Scaled(num, k, perSecond / (perSecond / k));
  }

  /** Rounding the interval down never loses a batch. */
  lemma AtLeast(n: nat, k: nat)
    requires 0 < k <= n
    ensures n / k > 0 && n / (n / k) >= k
  {
    Euclid(n, k);
    var q := n / k;
    assert q > 0;
    Euclid(n, q);
    var m := n / q;
    if m < k { Below(m, k, q); }
  }

  lemma Below(m: nat, k: nat, q: nat)
    requires m < k
    ensures m * q + q <= k * q
  {
    assert (m + 1) * q == m * q + q;
    Scaled(q, m + 1, k);
  }

  lemma Scaled(n: nat, a: nat, b: nat)
    requires a <= b
    ensures n * a <= n * b && a * n <= b * n
  {
  }

  /** What one worker can reach, given its configuration. */
  lemma WorkerUnderShare(cfg: Config, plan: Plan, tcp: bool, w: Worker, es: seq<Event>, id: nat, cpus: nat, cc: nat,
                         cps: nat)
    requires id < cpus && Configured(plan, id, cpus, cc, cps) && 0 < cc && (cpus <= cc || cps <= cc)
    requires Init(w) && forall e :: e in es ==> ClientSide(e)
    ensures Run(cfg, plan, tcp, w, es).stats.current <= Assign(id, cpus, cc)
  {
    InitInv(cfg, false, w);
    ShareIsPositive(id, cpus, cc);
    ShareIsPositive(id, cpus, cps);
    if plan.cc > 0 { RunStaysUnder(cfg, plan, tcp, w, es); } else { IdleStaysEmpty(cfg, plan, tcp, w, es); }
  }

  function TotalCurrent(ws: seq<Worker>): int {
    if ws == [] then 0 else TotalCurrent(ws[..|ws| - 1]) + ws[|ws| - 1].stats.current
  }

  lemma {:induction false} TotalUnder(ws: seq<Worker>, cpus: nat, cc: nat)
    requires |ws| <= cpus
    requires forall i :: 0 <= i < |ws| ==> ws[i].stats.current <= Assign(i, cpus, cc)
    ensures TotalCurrent(ws) <= SumShares(|ws|, cpus, cc)
    decreases |ws|
  {
    if ws != [] { TotalUnder(ws[..|ws| - 1], cpus, cc); }
  }

  /** However the workers run, together they never hold more than `cc`
      connections, provided every worker that launches has a share of `cc`. */
  lemma CapHolds(cfg: Config, tcp: bool, plans: seq<Plan>, ws: seq<Worker>, runs: seq<seq<Event>>, cc: nat, cps: nat,
                 ends: seq<Worker>)
    requires |plans| == |ws| == |runs| == |ends| > 0 && 0 < cc && (|ws| <= cc || cps <= cc)
    requires forall i :: 0 <= i < |ws| ==>
               && Configured(plans[i], i, |ws|, cc, cps) && Init(ws[i])
               && (forall e :: e in runs[i] ==> ClientSide(e))
               && ends[i] == Run(cfg, plans[i], tcp, ws[i], runs[i])
    ensures TotalCurrent(ends) <= cc
  {
    hide Run, Init, Configured;
    forall i | 0 <= i < |ws| ensures ends[i].stats.current <= Assign(i, |ws|, cc) {
      WorkerUnderShare(cfg, plans[i], tcp, ws[i], runs[i], i, |ws|, cc, cps);
    }
    TotalUnder(ends, |ws|, cc);
    SharesSum(|ws|, cc);
  }

  // ---------------------------------------------------------------- when it fails

  /** Sockets from the pool cursor on are closed, and those before it are counted. */
  ghost predicate Fresh(w: Worker, n: nat) {
    && w.next == n && w.stats.current == n <= |w.socks|
    && forall i :: n <= i < |w.socks| ==> w.socks[i].state == Closed
  }

  lemma {:induction false} LaunchAll(cfg: Config, plan: Plan, now: nat, w: Worker, n: nat, num: nat, pipeline: nat)
    requires Inv(cfg, false, w) && !cfg.flood && !plan.hop && Fresh(w, n) && n + num <= |w.socks|
    ensures var w' := LaunchMany(cfg, plan, true, now, [], w, num, pipeline);
            && w'.stats.current == n + num
            && (n + num < |w.socks| ==> Fresh(w', n + num)) && |w'.socks| == |w.socks| && w'.launchNext == w.launchNext
    decreases num
  {
    hide Inv, LaunchOne;
    if num > 0 {
      var st := Take(w, n, []);
      SoundAt(cfg, false, w, n);
      var r := LaunchOne(cfg, true, now, st, Rounds(pipeline));
      LaunchOneKeeps(cfg, true, false, now, st, Rounds(pipeline));
      LaunchOpens(cfg, now, st, Rounds(pipeline));
      var w0 := w.(next := AfterPick(n, |w.socks|, plan.hop));
      NextFree(cfg, false, w, w0);
      PutKeeps(cfg, false, now, w0, n, [], r);
      if n + 1 < |w.socks| {
        LaunchAll(cfg, plan, now, Return(w0, n, r), n + 1, num - 1, 0);
      } else {
        assert num == 1;
      }
    }
  }

  lemma LaunchOpens(cfg: Config, now: nat, st: St, n: nat)
    requires st.sk.state == Closed && !cfg.flood
    ensures LaunchOne(cfg, true, now, st, n).sk.state == SynSent
  {
    hide Reply;
    ReplySock(cfg, now, ClientOpen(cfg, st, now), SYN);
  }

  /** `k` launch ticks, each when the next launch is due. */
  function Ticks(plan: Plan, start: nat, k: nat): seq<Event>
    decreases k
  {
    if k == 0 then [] else [LaunchTick(Env(start, true), [])] + Ticks(plan, start + plan.interval, k - 1)
  }

  lemma {:induction false} TicksOpen(cfg: Config, plan: Plan, w: Worker, n: nat, k: nat)
    requires Inv(cfg, false, w) && !cfg.flood && !plan.hop && plan.cc == 0 && plan.num > 0
    requires Fresh(w, n) && n + k * plan.num < |w.socks|
    ensures Run(cfg, plan, true, w, Ticks(plan, w.launchNext, k)).stats.current == n + k * plan.num
    decreases k
  {
    hide Inv, LaunchMany;
    if k > 0 {
      var es := Ticks(plan, w.launchNext, k);
      assert es[1..] == Ticks(plan, w.launchNext + plan.interval, k - 1);
      var w1 := Step(cfg, plan, true, w, es[0]);
      var w0 := w.(launchNext := w.launchNext + plan.interval);
      NextFree(cfg, false, w, w0);
      assert (k - 1) * plan.num >= 0 && k * plan.num == plan.num + (k - 1) * plan.num;
      hide LaunchOne;
      LaunchAll(cfg, plan, w.launchNext, w0, n, plan.num, plan.pipeline);
      LaunchManyKeeps(cfg, plan, true, false, w.launchNext, [], w0, plan.num, plan.pipeline);
      assert w1 == LaunchMany(cfg, plan, true, w.launchNext, [], w0, plan.num, plan.pipeline);
      TicksOpen(cfg, plan, w1, n + plan.num, k - 1);
    }
  }

  /** Then a worker without a share launches unbounded: where its pool has the room (and
      neither client_hop nor flood is set) it exceeds any target alone. */
  lemma UncappedAlone(cfg: Config, plan: Plan, w: Worker, cpus: nat, cc: nat, cps: nat)
    returns (id: nat, es: seq<Event>)
    requires 0 < cc < cpus && cc < cps
    requires !cfg.flood && !plan.hop && plan.cc == 0 && plan.num > 0
    requires Init(w) && w.next == 0 && |w.socks| > (cc + 1) * plan.num
    ensures id < cpus && Configured(plan, id, cpus, cc, cps)
    ensures (forall e :: e in es ==> ClientSide(e)) && Run(cfg, plan, true, w, es).stats.current > cc
  {
    id := cc;
    ShareIsPositive(id, cpus, cc);
    ShareIsPositive(id, cpus, cps);
    InitInv(cfg, false, w);
    assert Fresh(w, 0);
    hide Run, Init, Inv, Fresh, Assign;
    es := Ticks(plan, w.launchNext, cc + 1);
    TicksOpen(cfg, plan, w, 0, cc + 1);
    assert (cc + 1) * plan.num >= cc + 1;
    TicksClient(plan, w.launchNext, cc + 1);
  }

  lemma {:induction false} TicksClient(plan: Plan, start: nat, k: nat)
    ensures forall e :: e in Ticks(plan, start, k) ==> ClientSide(e)
    decreases k
  {
    if k > 0 { TicksClient(plan, start + plan.interval, k - 1); }
  }

  // ---------------------------------------------------------------- exactly when

  /** The workers end in `ends` after these runs. */
  ghost predicate Reach(cfg: Config, tcp: bool, plans: seq<Plan>, ws: seq<Worker>, runs: seq<seq<Event>>,
                        ends: seq<Worker>) {
    && |plans| == |ws| == |runs| == |ends|
    && forall i :: 0 <= i < |ws| ==>
         (forall e :: e in runs[i] ==> ClientSide(e)) && ends[i] == Run(cfg, plans[i], tcp, ws[i], runs[i])
  }

  /** Some runs of the workers lead to more than `cc` connections in all. */
  ghost predicate CanExceed(cfg: Config, tcp: bool, plans: seq<Plan>, ws: seq<Worker>, cc: nat) {
    exists runs: seq<seq<Event>>, ends: seq<Worker> :: Reach(cfg, tcp, plans, ws, runs, ends) && TotalCurrent(ends) > cc
  }

  /** Workers as they start: closed sockets, at least one each, the cursor at 0. */
  ghost predicate Start(plans: seq<Plan>, ws: seq<Worker>, cc: nat, cps: nat) {
    && |plans| == |ws| > 0
    && forall i :: 0 <= i < |ws| ==>
         Configured(plans[i], i, |ws|, cc, cps) && Init(ws[i]) && ws[i].next == 0 && |ws[i].socks| > 0
  }

  /** A launched socket stays open. */
  predicate Stays(cfg: Config) { !cfg.flood || cfg.keepalive }

  lemma {:induction false} SendsSame(st: St, n: nat)
    ensures UdpSends(st, n).sk == st.sk
    decreases n
  {
    if n > 0 { SendsSame(UdpSend(st), n - 1); }
  }

  lemma LaunchStays(cfg: Config, tcp: bool, now: nat, st: St, n: nat)
    requires st.sk.state == Closed
    ensures LaunchOne(cfg, tcp, now, st, n).sk.state == Closed <==> !Stays(cfg)
  {
    hide Reply, Place, UdpSends;
    ReplySock(cfg, now, ClientOpen(cfg, st, now), SYN);
    SendsSame(ClientOpen(cfg, st, now), n);
  }

  lemma {:induction false} OpenCountAt(socks: seq<Sock>, i: nat)
    requires i < |socks|
    ensures OpenCount(socks) >= Live(socks[i])
    decreases |socks|
  {
    if i > 0 { OpenCountAt(socks[1..], i - 1); }
  }

  /** One launch tick opens at least one socket. */
  lemma TickOpens(cfg: Config, plan: Plan, tcp: bool, w: Worker)
    requires Init(w) && w.next == 0 && |w.socks| > 0 && plan.num > 0 && Stays(cfg)
    ensures Step(cfg, plan, tcp, w, Tick(w)).stats.current >= 1
  {
    LaunchStays(cfg, tcp, w.launchNext, Take(w, 0, []), Rounds(plan.pipeline));
    InitInv(cfg, false, w);
    hide Init, LaunchOne, Step;
    TickFirst(cfg, plan, tcp, w);
    StepKeeps(cfg, plan, tcp, false, w, Tick(w));
    OpenCountAt(Step(cfg, plan, tcp, w, Tick(w)).socks, 0);
  }

  /** Without staying connections nothing is ever open. */
  lemma {:induction false} ManyStayEmpty(cfg: Config, plan: Plan, tcp: bool, now: nat, pools: seq<seq<bool>>,
                                         w: Worker, num: nat, pipeline: nat)
    requires Inv(cfg, false, w) && w.stats.current <= 0 && !Stays(cfg)
    ensures LaunchMany(cfg, plan, tcp, now, pools, w, num, pipeline).stats.current <= 0
    decreases num
  {
    hide LaunchOne, Inv;
    if num > 0 && w.next < |w.socks| {
      var i := w.next;
      var st := Take(w, i, if pools == [] then [] else pools[0]);
      var r := LaunchOne(cfg, tcp, now, st, Rounds(pipeline));
      SoundAt(cfg, false, w, i);
      AllShut(cfg, w, i);
      LaunchStays(cfg, tcp, now, st, Rounds(pipeline));
      LaunchOneKeeps(cfg, tcp, false, now, st, Rounds(pipeline));
      var w0 := w.(next := AfterPick(i, |w.socks|, plan.hop));
      NextFree(cfg, false, w, w0);
      PutKeeps(cfg, false, now, w0, i, st.pool, r);
      ManyStayEmpty(cfg, plan, tcp, now, if pools == [] then [] else pools[1..], Return(w0, i, r), num - 1,
                    if st.sk.state == Closed then 0 else pipeline);
    }
  }

  lemma AllShut(cfg: Config, w: Worker, i: nat)
    requires Inv(cfg, false, w) && w.stats.current <= 0 && i < |w.socks|
    ensures w.socks[i].state == Closed
  {
    OpenCountAt(w.socks, i);
  }

  lemma {:induction false} FloodStaysEmpty(cfg: Config, plan: Plan, tcp: bool, w: Worker, es: seq<Event>)
    requires Inv(cfg, false, w) && w.stats.current <= 0 && !Stays(cfg)
    requires forall e :: e in es ==> ClientSide(e)
    ensures Run(cfg, plan, tcp, w, es).stats.current <= 0
    decreases |es|
  {
    if es != [] {
      hide Inv, LaunchMany;
      var e := es[0];
      assert e in es;
      StepKeeps(cfg, plan, tcp, false, w, e);
      if e.One? {
        OneOpensNothing(cfg, plan, tcp, w, e);
      } else {
        var (num, next) := LaunchNum(plan, w.launchNext, w.stats.current, e.env.now);
        NextFree(cfg, false, w, w.(launchNext := next));
        ManyStayEmpty(cfg, plan, tcp, e.env.now, e.pools, w.(launchNext := next), num, plan.pipeline);
      }
      FloodStaysEmpty(cfg, plan, tcp, Step(cfg, plan, tcp, w, e), es[1..]);
    }
  }

  lemma {:induction false} TotalAtLeast(ws: seq<Worker>, n: nat)
    requires n <= |ws| && forall i :: 0 <= i < |ws| ==> ws[i].stats.current >= if i < n then 1 else 0
    ensures TotalCurrent(ws) >= n
    decreases |ws|
  {
    if ws != [] { TotalAtLeast(ws[..|ws| - 1], if n < |ws| then n else n - 1); }
  }

  lemma {:induction false} TotalAtMost(ws: seq<Worker>)
    requires forall i :: 0 <= i < |ws| ==> ws[i].stats.current <= 0
    ensures TotalCurrent(ws) <= 0
    decreases |ws|
  {
    if ws != [] { TotalAtMost(ws[..|ws| - 1]); }
  }

  /** One launch tick of each of the first cc + 1 workers. */
  function Ticking(ws: seq<Worker>, cc: nat): seq<seq<Event>> {
    seq(|ws|, i requires 0 <= i < |ws| => if i <= cc then [Tick(ws[i])] else [])
  }

  lemma OneTick(cfg: Config, plan: Plan, tcp: bool, w: Worker)
    ensures Run(cfg, plan, tcp, w, [Tick(w)]) == Step(cfg, plan, tcp, w, Tick(w))
  {
    hide Step;
    assert [Tick(w)][1..] == [];
  }

  /** With more workers than the target and more launches than the target, the first
      launch of each of cc + 1 workers exceeds it. */
  lemma CapFails(cfg: Config, tcp: bool, plans: seq<Plan>, ws: seq<Worker>, cc: nat, cps: nat)
    requires Start(plans, ws, cc, cps) && 0 < cc < |ws| && cc < cps && Stays(cfg)
    ensures CanExceed(cfg, tcp, plans, ws, cc)
  {
    var runs := Ticking(ws, cc);
    var ends := seq(|ws|, i requires 0 <= i < |ws| => Run(cfg, plans[i], tcp, ws[i], runs[i]));
    forall i | 0 <= i < |ws| ensures ends[i].stats.current >= if i < cc + 1 then 1 else 0 {
      if i <= cc {
        ShareIsPositive(i, |ws|, cps);
        TickOpens(cfg, plans[i], tcp, ws[i]);
        OneTick(cfg, plans[i], tcp, ws[i]);
      }
    }
    TotalAtLeast(ends, cc + 1);
    assert Reach(cfg, tcp, plans, ws, runs, ends);
  }

  /** The cap can be exceeded if and only if there are more workers than the target, more
      launches than the target, and launched connections stay (no flood without keepalive). */
  lemma CapExact(cfg: Config, tcp: bool, plans: seq<Plan>, ws: seq<Worker>, cc: nat, cps: nat)
    requires Start(plans, ws, cc, cps) && 0 < cc
    ensures CanExceed(cfg, tcp, plans, ws, cc) <==> cc < |ws| && cc < cps && Stays(cfg)
  {
    if cc < |ws| && cc < cps && Stays(cfg) {
      CapFails(cfg, tcp, plans, ws, cc, cps);
    } else {
      hide Run, Init, Configured;
      forall runs: seq<seq<Event>>, ends: seq<Worker> | Reach(cfg, tcp, plans, ws, runs, ends)
        ensures TotalCurrent(ends) <= cc {
        if Stays(cfg) {
          CapHolds(cfg, tcp, plans, ws, runs, cc, cps, ends);
        } else {
          forall i | 0 <= i < |ws| ensures ends[i].stats.current <= 0 {
            InitInv(cfg, false, ws[i]);
            InitEmpty(ws[i]);
            FloodStaysEmpty(cfg, plans[i], tcp, ws[i], runs[i]);
          }
          TotalAtMost(ends);
        }
      }
    }
  }

  /** Of a configuration file that passes, launched connections stay: cc requires keepalive. */
  lemma CapOfFile(lines: seq<Line>, hz: nat, cfg: Config, tcp: bool, plans: seq<Plan>, ws: seq<Worker>, cps: nat)
    requires hz >= 1_000_000 && ParseFile(lines).Parsed? && Configures(ParseFile(lines).s, hz, cfg) && !cfg.server
    requires Start(plans, ws, ParseFile(lines).s.cc, cps) && 0 < ParseFile(lines).s.cc
    ensures var cc := ParseFile(lines).s.cc;
            CanExceed(cfg, tcp, plans, ws, cc) <==> cc < |ws| && cc < cps
  {
    FileIsAccepted(lines, hz, cfg);
    hide ParseFile, Start, CanExceed;
    CapExact(cfg, tcp, plans, ws, ParseFile(lines).s.cc, cps);
  }

  lemma InitEmpty(w: Worker)
    requires Init(w)
    ensures w.stats.current == 0
  {
  }
}
